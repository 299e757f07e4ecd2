/** The report counters of lib/report-stats.ts: dispatch statistics, fleet
    statistics and the per-district report. Each counting loop is a method
    proved equal to a function of its input; the properties are lemmas about
    those functions. */
module ReportStats {
  import opened Numeric
  import opened Domain
  import opened Aggregate
  import opened Stats

  // ---------------------------------------------------------------- dispatches

  function StatusOf(d: Dispatch): DispatchStatus { d.status }
  function PriorityOf(d: Dispatch): Priority { d.priority }
  function Trips(d: Dispatch): int { d.tripsAssigned }

  datatype DispatchStats = DispatchStats(
    total: int,
    completed: int,
    cancelled: int,
    active: int,
    pending: int,
    completionRate: int,
    avgTripsAssigned: real,
    statusBreakdown: map<DispatchStatus, int>,
    priorityBreakdown: map<Priority, int>)

  /** The object built after the loop from its three accumulators. */
  function DispatchStatsFrom(total: nat, statusBreakdown: map<DispatchStatus, int>,
                             priorityBreakdown: map<Priority, int>, totalTrips: int): DispatchStats
  {
    var completed := Lookup(statusBreakdown, Completed);
    var cancelled := Lookup(statusBreakdown, Cancelled);
    var pending := Lookup(statusBreakdown, Pending);
    var finished := completed + cancelled;
    DispatchStats(total, completed, cancelled, total - finished, pending,
      if finished > 0 then Round(completed as real / finished as real * 100.0) else 0,
      if total > 0 then RoundTenth(totalTrips as real / total as real) else 0.0,
      statusBreakdown, priorityBreakdown)
  }

  function DispatchStatsOf(ds: seq<Dispatch>): DispatchStats
  {
    DispatchStatsFrom(|ds|, Tally(ds, StatusOf), Tally(ds, PriorityOf), SumBy(ds, Trips))
  }

  /** computeDispatchStats: one pass bumps both breakdowns and the trip total. */
  method ComputeDispatchStats(ds: seq<Dispatch>) returns (r: DispatchStats)
    ensures r == DispatchStatsOf(ds)
  {
    var statusBreakdown: map<DispatchStatus, int> := map[];
    var priorityBreakdown: map<Priority, int> := map[];
    var totalTrips := 0;
    var i := 0;
    while i < |ds|
      invariant 0 <= i <= |ds|
      invariant statusBreakdown == Tally(ds[..i], StatusOf)
      invariant priorityBreakdown == Tally(ds[..i], PriorityOf)
      invariant totalTrips == SumBy(ds[..i], Trips)
    {
      var d := ds[i];
      assert ds[..i + 1] == ds[..i] + [d];
      TallySnoc(ds[..i], d, StatusOf);
      TallySnoc(ds[..i], d, PriorityOf);
      SumByAppend(ds[..i], [d], Trips);
      statusBreakdown := statusBreakdown[d.status := Lookup(statusBreakdown, d.status) + 1];
      priorityBreakdown := priorityBreakdown[d.priority := Lookup(priorityBreakdown, d.priority) + 1];
      totalTrips := totalTrips + d.tripsAssigned;
      i := i + 1;
    }
    assert ds[..i] == ds;
    r := DispatchStatsFrom(|ds|, statusBreakdown, priorityBreakdown, totalTrips);
  }

  /** A breakdown entry exists exactly for the statuses and priorities that
      occur, and holds how many dispatches have it. */
  lemma BreakdownCounts(ds: seq<Dispatch>, s: DispatchStatus, p: Priority)
    ensures s in DispatchStatsOf(ds).statusBreakdown <==> exists d :: d in ds && d.status == s
    ensures Lookup(DispatchStatsOf(ds).statusBreakdown, s) == |Group(ds, StatusOf, s)|
    ensures p in DispatchStatsOf(ds).priorityBreakdown <==> exists d :: d in ds && d.priority == p
    ensures Lookup(DispatchStatsOf(ds).priorityBreakdown, p) == |Group(ds, PriorityOf, p)|
  {
    TallySpec(ds, StatusOf);
    TallySpec(ds, PriorityOf);
  }

  /** The values of each breakdown add up to the total. */
  lemma BreakdownsSumToTotal(ds: seq<Dispatch>)
    ensures var r := DispatchStatsOf(ds);
            && Lookup(r.statusBreakdown, Pending) + Lookup(r.statusBreakdown, Assigned)
               + Lookup(r.statusBreakdown, DispatchStatus.InTransit)
               + Lookup(r.statusBreakdown, DispatchStatus.Delivering)
               + Lookup(r.statusBreakdown, Completed) + Lookup(r.statusBreakdown, Cancelled) == r.total
            && Lookup(r.priorityBreakdown, Low) + Lookup(r.priorityBreakdown, Medium)
               + Lookup(r.priorityBreakdown, High) + Lookup(r.priorityBreakdown, Urgent) == r.total
  {
    TallySpec(ds, StatusOf);
    TallySpec(ds, PriorityOf);
    StatusPartition(ds);
    PriorityPartition(ds);
  }

  lemma {:induction false} StatusPartition(ds: seq<Dispatch>)
    ensures |Group(ds, StatusOf, Pending)| + |Group(ds, StatusOf, Assigned)|
            + |Group(ds, StatusOf, DispatchStatus.InTransit)| + |Group(ds, StatusOf, DispatchStatus.Delivering)|
            + |Group(ds, StatusOf, Completed)| + |Group(ds, StatusOf, Cancelled)| == |ds|
  {
    if ds != [] {
      StatusPartition(ds[1..]);
      GroupHead(ds, StatusOf);
      match ds[0].status {
        case Pending => case Assigned => case InTransit => case Delivering => case Completed => case Cancelled =>
      }
    }
  }

  lemma {:induction false} PriorityPartition(ds: seq<Dispatch>)
    ensures |Group(ds, PriorityOf, Low)| + |Group(ds, PriorityOf, Medium)|
            + |Group(ds, PriorityOf, High)| + |Group(ds, PriorityOf, Urgent)| == |ds|
  {
    if ds != [] {
      PriorityPartition(ds[1..]);
      GroupHead(ds, PriorityOf);
      match ds[0].priority {
        case Low => case Medium => case High => case Urgent =>
      }
    }
  }

  function OpenFlag(d: Dispatch): int
  {
    if IsActiveDispatchStatus(d.status) then 1 else 0
  }

  /** What is neither completed nor cancelled is open. */
  lemma {:induction false} OpenPartition(ds: seq<Dispatch>)
    ensures SumBy(ds, OpenFlag) + |Group(ds, StatusOf, Completed)| + |Group(ds, StatusOf, Cancelled)| == |ds|
  {
    if ds != [] {
      OpenPartition(ds[1..]);
      var d := ds[0];
      assert SumBy(ds, OpenFlag) == OpenFlag(d) + SumBy(ds[1..], OpenFlag);
      assert |Group(ds, StatusOf, Completed)|
          == (if d.status == Completed then 1 else 0) + |Group(ds[1..], StatusOf, Completed)|;
      assert |Group(ds, StatusOf, Cancelled)|
          == (if d.status == Cancelled then 1 else 0) + |Group(ds[1..], StatusOf, Cancelled)|;
      assert OpenFlag(d) + (if d.status == Completed then 1 else 0) + (if d.status == Cancelled then 1 else 0) == 1;
    }
  }

  /** `active` is total minus completed minus cancelled, which is the number of
      pending, assigned, in-transit and delivering dispatches. */
  lemma ActiveCountsOpenDispatches(ds: seq<Dispatch>)
    ensures DispatchStatsOf(ds).active == |ds| - DispatchStatsOf(ds).completed - DispatchStatsOf(ds).cancelled
    ensures DispatchStatsOf(ds).active == SumBy(ds, OpenFlag)
  {
    TallySpec(ds, StatusOf);
    OpenPartition(ds);
  }

  /** `Math.round((part / whole) * 100)` for 0 <= part <= whole, whole > 0. */
  lemma Percent(part: int, whole: int)
    requires 0 <= part <= whole && whole > 0
    ensures 0 <= Round(part as real / whole as real * 100.0) <= 100
    ensures part == 0 ==> Round(part as real / whole as real * 100.0) == 0
    ensures part == whole ==> Round(part as real / whole as real * 100.0) == 100
  {
    var q := part as real / whole as real;
    assert q * whole as real == part as real;
    assert 0.0 <= q;
    assert q <= 1.0 by {
      assert (1.0 - q) * whole as real == whole as real - part as real;
    }
    RoundBetween(q * 100.0, 0, 100);
    if part == whole {
      DivSelf(whole as real);
      RoundOfInteger(100);
    }
  }

  lemma DivSelf(w: real)
    requires w > 0.0
    ensures w / w == 1.0
  {
  }

  /** The completion rate is a percentage, and 0 when nothing has finished or
      nothing finished was completed; 100 when everything finished was completed. */
  lemma CompletionRateBounds(ds: seq<Dispatch>)
    ensures 0 <= DispatchStatsOf(ds).completionRate <= 100
    ensures DispatchStatsOf(ds).completed == 0 ==> DispatchStatsOf(ds).completionRate == 0
    ensures DispatchStatsOf(ds).completed > 0 && DispatchStatsOf(ds).cancelled == 0
            ==> DispatchStatsOf(ds).completionRate == 100
  {
    BreakdownCounts(ds, Completed, Low);
    BreakdownCounts(ds, Cancelled, Low);
    CompletionRateFrom(|ds|, Tally(ds, StatusOf), Tally(ds, PriorityOf), SumBy(ds, Trips));
  }

  /** The same bounds for any accumulators with non-negative counts. */
  lemma CompletionRateFrom(total: nat, statusBreakdown: map<DispatchStatus, int>,
                           priorityBreakdown: map<Priority, int>, totalTrips: int)
    requires Lookup(statusBreakdown, Completed) >= 0 && Lookup(statusBreakdown, Cancelled) >= 0
    ensures var r := DispatchStatsFrom(total, statusBreakdown, priorityBreakdown, totalTrips);
            && 0 <= r.completionRate <= 100
            && (r.completed == 0 ==> r.completionRate == 0)
            && (r.completed > 0 && r.cancelled == 0 ==> r.completionRate == 100)
  {
    var completed := Lookup(statusBreakdown, Completed);
    var cancelled := Lookup(statusBreakdown, Cancelled);
    if completed + cancelled > 0 {
      Percent(completed, completed + cancelled);
    }
  }

  /** The average trip count is 0 for no dispatches and otherwise the mean to
      one decimal. */
  lemma AvgTrips(ds: seq<Dispatch>)
    ensures ds == [] ==> DispatchStatsOf(ds).avgTripsAssigned == 0.0
    ensures ds != [] ==>
              var mean := SumBy(ds, Trips) as real / |ds| as real;
              mean - 0.05 < DispatchStatsOf(ds).avgTripsAssigned <= mean + 0.05
  {
  }

  // ---------------------------------------------------------------- fleet

  function TankerStatusOf(t: Tanker): TankerStatus { t.status }

  /** `["dispatched", "in_transit", "delivering"].includes(t.status)`. */
  function IsBusy(t: Tanker): bool
  {
    t.status in {Dispatched, TankerStatus.InTransit, TankerStatus.Delivering}
  }

  /** `t.status !== "maintenance" && t.status !== "offline"`. */
  function IsOperational(t: Tanker): bool
  {
    t.status != Maintenance && t.status != Offline
  }

  function Capacities(ts: seq<Tanker>): (r: seq<real>)
    ensures |r| == |ts| && forall i :: 0 <= i < |ts| ==> r[i] == ts[i].capacity
  {
    if ts == [] then [] else [ts[0].capacity] + Capacities(ts[1..])
  }

  datatype FleetStats = FleetStats(
    total: int,
    available: int,
    dispatched: int,
    inTransit: int,
    delivering: int,
    maintenance: int,
    offline: int,
    utilizationRate: int,
    avgCapacity: int,
    statusBreakdown: map<TankerStatus, int>)

  function FleetStatsOf(ts: seq<Tanker>): FleetStats
  {
    FleetStatsFrom(ts, Tally(ts, TankerStatusOf), Sum(Capacities(ts)))
  }

  /** The object built after the loop; the two filters are the source's own
      expressions over the list. */
  function FleetStatsFrom(ts: seq<Tanker>, statusBreakdown: map<TankerStatus, int>, totalCapacity: real)
    : FleetStats
  {
    var activeCount := |Group(ts, IsBusy, true)|;
    var operationalCount := |Group(ts, IsOperational, true)|;
    FleetStats(|ts|,
      Lookup(statusBreakdown, Available), Lookup(statusBreakdown, Dispatched),
      Lookup(statusBreakdown, TankerStatus.InTransit), Lookup(statusBreakdown, TankerStatus.Delivering),
      Lookup(statusBreakdown, Maintenance), Lookup(statusBreakdown, Offline),
      if operationalCount > 0 then Round(activeCount as real / operationalCount as real * 100.0) else 0,
      if |ts| > 0 then Round(totalCapacity / |ts| as real) else 0,
      statusBreakdown)
  }

  lemma CapacitiesSnoc(ts: seq<Tanker>, t: Tanker)
    ensures Capacities(ts + [t]) == Capacities(ts) + [t.capacity]
  {
  }

  /** One more tanker bumps its status count and adds its capacity. */
  lemma FleetStep(ts: seq<Tanker>, i: nat)
    requires i < |ts|
    ensures Tally(ts[..i + 1], TankerStatusOf)
            == Tally(ts[..i], TankerStatusOf)[ts[i].status := Lookup(Tally(ts[..i], TankerStatusOf), ts[i].status) + 1]
    ensures Sum(Capacities(ts[..i + 1])) == Sum(Capacities(ts[..i])) + ts[i].capacity
  {
    assert ts[..i + 1] == ts[..i] + [ts[i]];
    TallySnoc(ts[..i], ts[i], TankerStatusOf);
    CapacitiesSnoc(ts[..i], ts[i]);
    SumAppend(Capacities(ts[..i]), [ts[i].capacity]);
  }

  /** computeFleetStats: one pass bumps the breakdown and the capacity total. */
  method ComputeFleetStats(ts: seq<Tanker>) returns (r: FleetStats)
    ensures r == FleetStatsOf(ts)
  {
    var statusBreakdown: map<TankerStatus, int> := map[];
    var totalCapacity := 0.0;
    var i := 0;
    while i < |ts|
      invariant 0 <= i <= |ts|
      invariant statusBreakdown == Tally(ts[..i], TankerStatusOf)
      invariant totalCapacity == Sum(Capacities(ts[..i]))
    {
      var t := ts[i];
      FleetStep(ts, i);
      statusBreakdown := statusBreakdown[t.status := Lookup(statusBreakdown, t.status) + 1];
      totalCapacity := totalCapacity + t.capacity;
      i := i + 1;
    }
    assert ts[..i] == ts;
    r := FleetStatsFrom(ts, statusBreakdown, totalCapacity);
  }

  /** The named counters are the breakdown entries (0 when a status is absent),
      each the number of tankers with that status, and together they count the
      whole fleet. */
  lemma FleetCounters(ts: seq<Tanker>)
    ensures var r := FleetStatsOf(ts);
            && r.available == |Group(ts, TankerStatusOf, Available)|
            && r.dispatched == |Group(ts, TankerStatusOf, Dispatched)|
            && r.inTransit == |Group(ts, TankerStatusOf, TankerStatus.InTransit)|
            && r.delivering == |Group(ts, TankerStatusOf, TankerStatus.Delivering)|
            && r.maintenance == |Group(ts, TankerStatusOf, Maintenance)|
            && r.offline == |Group(ts, TankerStatusOf, Offline)|
            && r.available + r.dispatched + r.inTransit + r.delivering + r.maintenance + r.offline == r.total
  {
    TallySpec(ts, TankerStatusOf);
    TankerStatusPartition(ts);
  }

  lemma {:induction false} TankerStatusPartition(ts: seq<Tanker>)
    ensures |Group(ts, TankerStatusOf, Available)| + |Group(ts, TankerStatusOf, Dispatched)|
            + |Group(ts, TankerStatusOf, TankerStatus.InTransit)| + |Group(ts, TankerStatusOf, TankerStatus.Delivering)|
            + |Group(ts, TankerStatusOf, Maintenance)| + |Group(ts, TankerStatusOf, Offline)| == |ts|
  {
    if ts != [] {
      TankerStatusPartition(ts[1..]);
      GroupHead(ts, TankerStatusOf);
      match ts[0].status {
        case Available => case Dispatched => case InTransit => case Delivering => case Maintenance => case Offline =>
      }
    }
  }

  /** Busy tankers are operational ones: the busy count is dispatched plus in
      transit plus delivering, the operational count is the rest of the fleet
      after maintenance and offline. */
  lemma {:induction false} BusyWithinOperational(ts: seq<Tanker>)
    ensures |Group(ts, IsBusy, true)| <= |Group(ts, IsOperational, true)|
    ensures |Group(ts, IsBusy, true)| == |Group(ts, TankerStatusOf, Dispatched)|
              + |Group(ts, TankerStatusOf, TankerStatus.InTransit)| + |Group(ts, TankerStatusOf, TankerStatus.Delivering)|
    ensures |Group(ts, IsOperational, true)| == |ts| - |Group(ts, TankerStatusOf, Maintenance)|
              - |Group(ts, TankerStatusOf, Offline)|
  {
    if ts != [] {
      BusyWithinOperational(ts[1..]);
    }
  }

  /** The utilisation rate is a percentage, and 0 when no tanker is operational. */
  lemma UtilizationBounds(ts: seq<Tanker>)
    ensures 0 <= FleetStatsOf(ts).utilizationRate <= 100
    ensures |Group(ts, IsOperational, true)| == 0 ==> FleetStatsOf(ts).utilizationRate == 0
  {
    BusyWithinOperational(ts);
    var a := |Group(ts, IsBusy, true)|;
    var o := |Group(ts, IsOperational, true)|;
    if o > 0 {
      Percent(a, o);
    }
  }

  // ---------------------------------------------------------------- districts

  /** `villageDistrictMap`: village name to district, the last village of a name winning. */
  function NameToDistrict(vs: seq<Village>): map<string, string>
  {
    if vs == [] then map[]
    else
      var last := vs[|vs| - 1];
      NameToDistrict(vs[..|vs| - 1])[last.name := last.district]
  }

  /** The map knows exactly the names of the villages, and maps each to the
      district of a village of that name. */
  lemma {:induction false} NameToDistrictSpec(vs: seq<Village>)
    ensures forall name :: name in NameToDistrict(vs) <==> exists v :: v in vs && v.name == name
    ensures forall name :: name in NameToDistrict(vs) ==>
              exists v :: v in vs && v.name == name && v.district == NameToDistrict(vs)[name]
  {
    if vs != [] {
      var last := vs[|vs| - 1];
      NameToDistrictSpec(vs[..|vs| - 1]);
      assert vs == vs[..|vs| - 1] + [last];
      assert forall v :: v in vs <==> v in vs[..|vs| - 1] || v == last;
    }
  }

  /** A later village of the same name overrides the district of an earlier one. */
  lemma NameToDistrictLastWins(vs: seq<Village>, v: Village)
    ensures NameToDistrict(vs + [v]) == NameToDistrict(vs)[v.name := v.district]
  {
    assert (vs + [v])[..|vs + [v]| - 1] == vs;
  }

  lemma DispatchCountsSnoc(ds: seq<Dispatch>, d: Dispatch, nameMap: map<string, string>)
    ensures DispatchCounts(ds + [d], nameMap)
         == if Counted(d, nameMap)
            then DispatchCounts(ds, nameMap)[nameMap[d.villageName] :=
                   Lookup(DispatchCounts(ds, nameMap), nameMap[d.villageName]) + 1]
            else DispatchCounts(ds, nameMap)
  {
    assert (ds + [d])[..|ds + [d]| - 1] == ds;
  }

  /** A dispatch the report counts: open, for a known village name, whose district
      is not the empty string (which the source's `if (district)` treats as false). */
  predicate Counted(d: Dispatch, nameMap: map<string, string>)
  {
    IsActiveDispatchStatus(d.status) && d.villageName in nameMap && nameMap[d.villageName] != ""
  }

  /** How many counted dispatches fall in `district`. */
  function CountFor(ds: seq<Dispatch>, nameMap: map<string, string>, district: string): nat
  {
    if ds == [] then 0
    else
      var d := ds[|ds| - 1];
      CountFor(ds[..|ds| - 1], nameMap, district)
        + (if Counted(d, nameMap) && nameMap[d.villageName] == district then 1 else 0)
  }

  /** `districtDispatchCount` after the loop. */
  function DispatchCounts(ds: seq<Dispatch>, nameMap: map<string, string>): map<string, int>
  {
    if ds == [] then map[]
    else
      var d := ds[|ds| - 1];
      var m := DispatchCounts(ds[..|ds| - 1], nameMap);
      if Counted(d, nameMap) then
        var district := nameMap[d.villageName];
        m[district := Lookup(m, district) + 1]
      else m
  }

  /** The counter map never has the empty district, and holds for every other
      district the number of counted dispatches there. */
  lemma {:induction false} DispatchCountsSpec(ds: seq<Dispatch>, nameMap: map<string, string>)
    ensures "" !in DispatchCounts(ds, nameMap)
    ensures forall district :: Lookup(DispatchCounts(ds, nameMap), district) == CountFor(ds, nameMap, district)
  {
    if ds != [] {
      DispatchCountsSpec(ds[..|ds| - 1], nameMap);
    }
  }

  datatype DistrictReport = DistrictReport(stats: DistrictStats, activeDispatches: int)

  /** `districtStats.map(ds => ({ ...ds, activeDispatches: counts.get(ds.name) || 0 }))`. */
  function Attach(rows: seq<DistrictStats>, counts: map<string, int>): (r: seq<DistrictReport>)
    ensures |r| == |rows|
    ensures forall i :: 0 <= i < |r| ==> r[i] == DistrictReport(rows[i], Lookup(counts, rows[i].name))
  {
    if rows == [] then [] else [DistrictReport(rows[0], Lookup(counts, rows[0].name))] + Attach(rows[1..], counts)
  }

  function DistrictReportOf(vs: seq<Village>, ds: seq<Dispatch>): seq<DistrictReport>
  {
    Attach(DistrictStatsOf(vs), DispatchCounts(ds, NameToDistrict(vs)))
  }

  /** The loop that fills `villageDistrictMap`. */
  method BuildNameMap(vs: seq<Village>) returns (villageDistrictMap: map<string, string>)
    ensures villageDistrictMap == NameToDistrict(vs)
  {
    villageDistrictMap := map[];
    var i := 0;
    while i < |vs|
      invariant 0 <= i <= |vs|
      invariant villageDistrictMap == NameToDistrict(vs[..i])
    {
      assert vs[..i + 1] == vs[..i] + [vs[i]];
      NameToDistrictLastWins(vs[..i], vs[i]);
      villageDistrictMap := villageDistrictMap[vs[i].name := vs[i].district];
      i := i + 1;
    }
    assert vs[..i] == vs;
  }

  /** The loop that fills `districtDispatchCount`. */
  method CountOpenDispatches(ds: seq<Dispatch>, villageDistrictMap: map<string, string>)
    returns (districtDispatchCount: map<string, int>)
    ensures districtDispatchCount == DispatchCounts(ds, villageDistrictMap)
  {
    districtDispatchCount := map[];
    var k := 0;
    while k < |ds|
      invariant 0 <= k <= |ds|
      invariant districtDispatchCount == DispatchCounts(ds[..k], villageDistrictMap)
    {
      var d := ds[k];
      assert ds[..k + 1] == ds[..k] + [d];
      DispatchCountsSnoc(ds[..k], d, villageDistrictMap);
      if IsActiveDispatchStatus(d.status) {
        if d.villageName in villageDistrictMap {
          var district := villageDistrictMap[d.villageName];
          if district != "" {
            districtDispatchCount := districtDispatchCount[district := Lookup(districtDispatchCount, district) + 1];
          }
        }
      }
      k := k + 1;
    }
    assert ds[..k] == ds;
  }

  /** computeDistrictReport: the district rows, the name map, the counts. */
  method ComputeDistrictReport(vs: seq<Village>, ds: seq<Dispatch>) returns (r: seq<DistrictReport>)
    ensures r == DistrictReportOf(vs, ds)
  {
    var districtStats := ComputeDistrictStats(vs);
    var villageDistrictMap := BuildNameMap(vs);
    var districtDispatchCount := CountOpenDispatches(ds, villageDistrictMap);
    r := Attach(districtStats, districtDispatchCount);
  }

  /** The report has the district rows of computeDistrictStats, in the same
      order, each with the number of counted dispatches of its district. */
  lemma ReportRows(vs: seq<Village>, ds: seq<Dispatch>)
    ensures |DistrictReportOf(vs, ds)| == |DistrictStatsOf(vs)|
    ensures forall i :: 0 <= i < |DistrictReportOf(vs, ds)| ==>
              && DistrictReportOf(vs, ds)[i].stats == DistrictStatsOf(vs)[i]
              && DistrictReportOf(vs, ds)[i].activeDispatches
                 == CountFor(ds, NameToDistrict(vs), DistrictStatsOf(vs)[i].name)
  {
    DispatchCountsSpec(ds, NameToDistrict(vs));
  }

  /** A dispatch that is closed, names a village the report does not know, or
      whose village has an empty district changes no count. */
  lemma UncountedDispatchIgnored(vs: seq<Village>, ds: seq<Dispatch>, d: Dispatch)
    requires !Counted(d, NameToDistrict(vs))
    ensures DistrictReportOf(vs, ds + [d]) == DistrictReportOf(vs, ds)
  {
    assert (ds + [d])[..|ds + [d]| - 1] == ds;
  }

  /** An open dispatch for a known village adds one to its district's row and to
      no other row. */
  lemma CountedDispatchAddsOne(vs: seq<Village>, ds: seq<Dispatch>, d: Dispatch, i: nat)
    requires Counted(d, NameToDistrict(vs))
    requires i < |DistrictStatsOf(vs)|
    ensures DistrictReportOf(vs, ds + [d])[i].activeDispatches
         == DistrictReportOf(vs, ds)[i].activeDispatches
            + (if DistrictStatsOf(vs)[i].name == NameToDistrict(vs)[d.villageName] then 1 else 0)
  {
    var nm := NameToDistrict(vs);
    DispatchCountsSnoc(ds, d, nm);
    var rows := DistrictStatsOf(vs);
    assert DistrictReportOf(vs, ds + [d])[i].activeDispatches == Lookup(DispatchCounts(ds + [d], nm), rows[i].name);
    assert DistrictReportOf(vs, ds)[i].activeDispatches == Lookup(DispatchCounts(ds, nm), rows[i].name);
  }
}
