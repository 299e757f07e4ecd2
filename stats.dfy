/** computeDistrictStats and computeOverallStats of lib/stats.ts; lib/mock-data.ts
    carries a copy of both with the same logic, so this one model stands for both. */
module Stats {
  import opened Numeric
  import opened Domain
  import opened Sorting
  import opened Aggregate

  function District(v: Village): string { v.district }
  function Score(v: Village): int { v.stressScore }
  function Demand(v: Village): int { v.tankerDemand }

  function LevelOf(v: Village): StressLevel
  {
    GetStressLevel(v.stressScore as real)
  }

  function CriticalFlag(v: Village): int { if LevelOf(v) == Critical then 1 else 0 }
  function WarningFlag(v: Village): int { if LevelOf(v) == Warning then 1 else 0 }
  function SafeFlag(v: Village): int { if LevelOf(v) == Safe then 1 else 0 }

  /** `vils.filter(v => getStressLevel(v.stressScore) === level).length`. */
  function LevelCount(vils: seq<Village>, level: StressLevel): (n: nat)
    ensures n <= |vils|
  {
    |Group(vils, LevelOf, level)|
  }

  /** The filter length is the sum of the matching 0/1 flag. */
  lemma {:induction false} LevelCountIsFlagSum(vils: seq<Village>)
    ensures LevelCount(vils, Critical) == SumBy(vils, CriticalFlag)
    ensures LevelCount(vils, Warning) == SumBy(vils, WarningFlag)
    ensures LevelCount(vils, Safe) == SumBy(vils, SafeFlag)
  {
    if vils != [] {
      LevelCountIsFlagSum(vils[1..]);
    }
  }

  /** Every village has exactly one level, so the three counts partition the list. */
  lemma {:induction false} LevelsPartition(vils: seq<Village>)
    ensures LevelCount(vils, Critical) + LevelCount(vils, Warning) + LevelCount(vils, Safe) == |vils|
  {
    if vils != [] {
      LevelsPartition(vils[1..]);
    }
  }

  /** One row of computeDistrictStats, for the villages of one district. */
  function DistrictRow(name: string, vils: seq<Village>): (r: DistrictStats)
    requires vils != []
    ensures r.criticalCount + r.warningCount + r.safeCount == r.totalVillages == |vils|
    ensures var mean := SumBy(vils, Score) as real / |vils| as real;
            mean - 0.5 < r.avgStressScore as real <= mean + 0.5
  {
    LevelsPartition(vils);
    DistrictStats(name, |vils|, LevelCount(vils, Critical), LevelCount(vils, Warning), LevelCount(vils, Safe),
      Round(SumBy(vils, Score) as real / |vils| as real), SumBy(vils, Demand))
  }

  /** The rounded mean lies between any bounds on the district's scores, in
      particular between its minimum and its maximum. */
  lemma AvgBetween(name: string, vils: seq<Village>, lo: int, hi: int)
    requires vils != []
    requires forall v :: v in vils ==> lo <= v.stressScore <= hi
    ensures lo <= DistrictRow(name, vils).avgStressScore <= hi
  {
    var total := SumBy(vils, Score);
    SumByBounds(vils, Score, lo, hi);
    ProductAsReal(lo, |vils|);
    ProductAsReal(hi, |vils|);
    DivBetween(total as real, |vils| as real, lo as real, hi as real);
    RoundBetween(total as real / |vils| as real, lo, hi);
  }

  lemma ProductAsReal(a: int, b: int)
    ensures (a * b) as real == a as real * b as real
  {
  }

  lemma DivBetween(x: real, n: real, lo: real, hi: real)
    requires n > 0.0 && lo * n <= x <= hi * n
    ensures lo <= x / n <= hi
  {
    assert x / n - lo == (x - lo * n) / n;
    assert hi - x / n == (hi * n - x) / n;
  }

  /** The district Map after the grouping loop: each district's villages, in order. */
  function Grouped(vs: seq<Village>): (m: map<string, seq<Village>>)
    ensures forall d :: d in m <==> d in Keys(vs, District)
    ensures forall d :: d in m ==> m[d] == Group(vs, District, d) && m[d] != []
  {
    assert forall d :: d in Keys(vs, District) ==> Group(vs, District, d) != [] by {
      forall d | d in Keys(vs, District) ensures Group(vs, District, d) != [] {
        var v :| v in vs && District(v) == d;
        assert v in Group(vs, District, d);
      }
    }
    map d | d in Keys(vs, District) :: Group(vs, District, d)
  }

  /** The same Map as the loop builds it: each village is appended to its
      district's list, `districtMap.get(v.district) || []` starting a new one. */
  function GroupedLoop(vs: seq<Village>): map<string, seq<Village>>
  {
    if vs == [] then map[]
    else
      var v := vs[|vs| - 1];
      var g := GroupedLoop(vs[..|vs| - 1]);
      g[v.district := (if v.district in g then g[v.district] else []) + [v]]
  }

  lemma {:induction false} GroupedLoopSpec(vs: seq<Village>)
    ensures forall d :: d in GroupedLoop(vs) <==> d in Keys(vs, District)
    ensures forall d :: d in GroupedLoop(vs) ==> GroupedLoop(vs)[d] == Group(vs, District, d)
  {
    if vs != [] {
      var v := vs[|vs| - 1];
      var init := vs[..|vs| - 1];
      assert vs == init + [v];
      GroupedLoopSpec(init);
      KeysSnoc(init, v, District);
      forall d | d in GroupedLoop(vs) ensures GroupedLoop(vs)[d] == Group(vs, District, d) {
        GroupSnoc(init, v, District, d);
        if d == v.district && d !in GroupedLoop(init) {
          GroupEmpty(init, District, d);
        }
      }
    }
  }

  /** Appending villages one at a time builds exactly the grouping by district. */
  lemma GroupedLoopIsGrouped(vs: seq<Village>)
    ensures GroupedLoop(vs) == Grouped(vs)
  {
    GroupedLoopSpec(vs);
    assert GroupedLoop(vs).Keys == Grouped(vs).Keys;
  }

  /** The `map` over the Map's entries, in key order. */
  function Rows(names: seq<string>, groups: map<string, seq<Village>>): (r: seq<DistrictStats>)
    requires forall n :: n in names ==> n in groups && groups[n] != []
    ensures |r| == |names|
    ensures forall i :: 0 <= i < |r| ==> r[i] == DistrictRow(names[i], groups[names[i]])
  {
    seq(|names|, i requires 0 <= i < |names| => DistrictRow(names[i], groups[names[i]]))
  }

  /** `(a, b) => b.avgStressScore - a.avgStressScore`. */
  function ByAvgDesc(a: DistrictStats, b: DistrictStats): int
  {
    b.avgStressScore - a.avgStressScore
  }

  lemma ByAvgDescIsTotalPreorder()
    ensures IsTotalPreorder(ByAvgDesc)
  {
  }

  /** The rows in first-appearance order of their districts, before the sort. */
  function UnsortedRows(vs: seq<Village>): seq<DistrictStats>
  {
    Rows(Keys(vs, District), Grouped(vs))
  }

  /** computeDistrictStats' result. */
  function DistrictStatsOf(vs: seq<Village>): seq<DistrictStats>
  {
    SortBy(UnsortedRows(vs), ByAvgDesc)
  }

  lemma GroupedLoopSnoc(s: seq<Village>, v: Village)
    ensures GroupedLoop(s + [v])
         == GroupedLoop(s)[v.district := (if v.district in GroupedLoop(s) then GroupedLoop(s)[v.district] else []) + [v]]
  {
    assert (s + [v])[..|s + [v]| - 1] == s;
  }

  /** The grouping loop: `districtMap.get(v.district) || []`, push, set. The
      Map's key order is kept as the list of names in insertion order. */
  method GroupByDistrict(vs: seq<Village>) returns (names: seq<string>, groups: map<string, seq<Village>>)
    ensures names == Keys(vs, District)
    ensures groups == Grouped(vs)
  {
    names := [];
    groups := map[];
    var i := 0;
    while i < |vs|
      invariant 0 <= i <= |vs|
      invariant names == Keys(vs[..i], District)
      invariant groups == GroupedLoop(vs[..i])
    {
      var v := vs[i];
      assert vs[..i + 1] == vs[..i] + [v];
      GroupedLoopSnoc(vs[..i], v);
      KeysSnoc(vs[..i], v, District);
      GroupedLoopSpec(vs[..i]);
      var existing := if v.district in groups then groups[v.district] else [];
      if v.district !in groups {
        names := names + [v.district];
      }
      groups := groups[v.district := existing + [v]];
      i := i + 1;
    }
    assert vs[..i] == vs;
    GroupedLoopIsGrouped(vs);
  }

  /** computeDistrictStats: group, build one row per entry, sort by average. */
  method ComputeDistrictStats(vs: seq<Village>) returns (r: seq<DistrictStats>)
    ensures r == DistrictStatsOf(vs)
  {
    var names, groups := GroupByDistrict(vs);
    r := SortBy(Rows(names, groups), ByAvgDesc);
  }

  function TotalOf(r: DistrictStats): int { r.totalVillages }
  function CriticalOf(r: DistrictStats): int { r.criticalCount }
  function WarningOf(r: DistrictStats): int { r.warningCount }
  function SafeOf(r: DistrictStats): int { r.safeCount }
  function DemandOf(r: DistrictStats): int { r.totalTankerDemand }

  /** One row per distinct district, each built from exactly that district's villages. */
  lemma DistrictRowsOnePerDistrict(vs: seq<Village>)
    ensures var r := DistrictStatsOf(vs);
            && |r| == |Keys(vs, District)|
            && (forall i :: 0 <= i < |r| ==>
                  r[i].name in Keys(vs, District)
                  && r[i] == DistrictRow(r[i].name, Group(vs, District, r[i].name)))
            && (forall d :: d in Keys(vs, District) ==> exists i :: 0 <= i < |r| && r[i].name == d)
  {
    var r := DistrictStatsOf(vs);
    var u := UnsortedRows(vs);
    forall i | 0 <= i < |r|
      ensures r[i].name in Keys(vs, District) && r[i] == DistrictRow(r[i].name, Group(vs, District, r[i].name))
    {
      SortedRowIsUnsortedRow(vs, i);
    }
    forall d | d in Keys(vs, District)
      ensures exists i :: 0 <= i < |r| && r[i].name == d
    {
      UnsortedRowIsSortedRow(vs, d);
    }
  }

  lemma SortedRowIsUnsortedRow(vs: seq<Village>, i: nat)
    requires i < |DistrictStatsOf(vs)|
    ensures var r := DistrictStatsOf(vs)[i];
            r.name in Keys(vs, District) && r == DistrictRow(r.name, Group(vs, District, r.name))
  {
    var u := UnsortedRows(vs);
    var r := DistrictStatsOf(vs);
    var names := Keys(vs, District);
    assert r[i] in multiset(u);
    var j :| 0 <= j < |u| && u[j] == r[i];
    var n := names[j];
    assert n in names;
    assert u[j] == DistrictRow(n, Grouped(vs)[n]);
    assert Grouped(vs)[n] == Group(vs, District, n);
  }

  lemma UnsortedRowIsSortedRow(vs: seq<Village>, d: string)
    requires d in Keys(vs, District)
    ensures exists i :: 0 <= i < |DistrictStatsOf(vs)| && DistrictStatsOf(vs)[i].name == d
  {
    var u := UnsortedRows(vs);
    var r := DistrictStatsOf(vs);
    var names := Keys(vs, District);
    var j :| 0 <= j < |names| && names[j] == d;
    assert u[j] in multiset(r);
    var i :| 0 <= i < |r| && r[i] == u[j];
    assert r[i].name == d;
  }

  /** Summing the district rows of a field gives the grouped sum of the matching
      village field. */
  lemma RowsSum(vs: seq<Village>, names: seq<string>,
                 rowField: DistrictStats -> int, villageField: Village -> int)
    requires forall n :: n in names ==> n in Keys(vs, District)
    requires forall n :: n in names ==>
               rowField(DistrictRow(n, Grouped(vs)[n])) == SumBy(Group(vs, District, n), villageField)
    ensures SumBy(Rows(names, Grouped(vs)), rowField) == GroupedSum(vs, District, names, villageField)
  {
    var rows := Rows(names, Grouped(vs));
    forall i | 0 <= i < |rows| ensures rowField(rows[i]) == SumBy(Group(vs, District, names[i]), villageField) {
      assert names[i] in names;
    }
    SumByPerKey(vs, District, names, villageField, rows, rowField);
  }

  /** The totals over all district rows of one field, from the village field it sums. */
  lemma RowsTotal(vs: seq<Village>, rowField: DistrictStats -> int, villageField: Village -> int)
    requires forall n :: n in Keys(vs, District) ==>
               rowField(DistrictRow(n, Grouped(vs)[n])) == SumBy(Group(vs, District, n), villageField)
    ensures SumBy(DistrictStatsOf(vs), rowField) == SumBy(vs, villageField)
  {
    var names := Keys(vs, District);
    RowsSum(vs, names, rowField, villageField);
    GroupedSumWhole(vs, District, names, villageField);
    SumByPermutation(DistrictStatsOf(vs), UnsortedRows(vs), rowField);
  }

  /** The overall object. Dividing by the length of an empty list gives NaN in
      the source; here that is None. */
  datatype OverallStats = OverallStats(
    totalVillages: int,
    criticalCount: int,
    warningCount: int,
    safeCount: int,
    totalTankerDemand: int,
    avgStressScore: Option<int>)

  function OverallStatsOf(vs: seq<Village>): (o: OverallStats)
    ensures o.totalVillages == |vs|
    ensures o.criticalCount + o.warningCount + o.safeCount == o.totalVillages
    ensures o.criticalCount == LevelCount(vs, Critical) && o.warningCount == LevelCount(vs, Warning)
    ensures o.safeCount == LevelCount(vs, Safe)
    ensures o.totalTankerDemand == SumBy(vs, Demand)
    ensures o.avgStressScore == None <==> vs == []
    ensures o.avgStressScore != None ==>
              var mean := SumBy(vs, Score) as real / |vs| as real;
              mean - 0.5 < o.avgStressScore.value as real <= mean + 0.5
  {
    LevelsPartition(vs);
    OverallStats(|vs|, LevelCount(vs, Critical), LevelCount(vs, Warning), LevelCount(vs, Safe),
      SumBy(vs, Demand),
      if vs == [] then None else Some(Round(SumBy(vs, Score) as real / |vs| as real)))
  }

  /** The district rows add up to the overall figures: village counts to the
      input length, level counts to the overall level counts, demand to the
      overall demand. */
  lemma DistrictsAddUpToOverall(vs: seq<Village>)
    ensures SumBy(DistrictStatsOf(vs), TotalOf) == |vs| == OverallStatsOf(vs).totalVillages
    ensures SumBy(DistrictStatsOf(vs), DemandOf) == OverallStatsOf(vs).totalTankerDemand
    ensures SumBy(DistrictStatsOf(vs), CriticalOf) == OverallStatsOf(vs).criticalCount
    ensures SumBy(DistrictStatsOf(vs), WarningOf) == OverallStatsOf(vs).warningCount
    ensures SumBy(DistrictStatsOf(vs), SafeOf) == OverallStatsOf(vs).safeCount
  {
    forall n | n in Keys(vs, District)
      ensures TotalOf(DistrictRow(n, Grouped(vs)[n])) == SumBy(Group(vs, District, n), One)
      ensures CriticalOf(DistrictRow(n, Grouped(vs)[n])) == SumBy(Group(vs, District, n), CriticalFlag)
      ensures WarningOf(DistrictRow(n, Grouped(vs)[n])) == SumBy(Group(vs, District, n), WarningFlag)
      ensures SafeOf(DistrictRow(n, Grouped(vs)[n])) == SumBy(Group(vs, District, n), SafeFlag)
    {
      SumByOne(Group(vs, District, n));
      LevelCountIsFlagSum(Group(vs, District, n));
    }
    RowsTotal(vs, TotalOf, One);
    SumByOne(vs);
    RowsTotal(vs, DemandOf, Demand);
    RowsTotal(vs, CriticalOf, CriticalFlag);
    RowsTotal(vs, WarningOf, WarningFlag);
    RowsTotal(vs, SafeOf, SafeFlag);
    LevelCountIsFlagSum(vs);
  }

  /** Rows come in non-increasing average; rows of equal average keep the order
      in which their districts first appear in the input. */
  lemma DistrictRowsOrdered(vs: seq<Village>, x: DistrictStats)
    ensures var r := DistrictStatsOf(vs);
            forall i, j :: 0 <= i < j < |r| ==> r[i].avgStressScore >= r[j].avgStressScore
    ensures TiedWith(DistrictStatsOf(vs), ByAvgDesc, x) == TiedWith(UnsortedRows(vs), ByAvgDesc, x)
    ensures forall i :: 0 <= i < |UnsortedRows(vs)| ==> UnsortedRows(vs)[i].name == Keys(vs, District)[i]
  {
    var r := DistrictStatsOf(vs);
    ByAvgDescIsTotalPreorder();
    SortBySorted(UnsortedRows(vs), ByAvgDesc);
    SortByStable(UnsortedRows(vs), ByAvgDesc, x);
    forall i, j | 0 <= i < j < |r| ensures r[i].avgStressScore >= r[j].avgStressScore {
      assert ByAvgDesc(r[i], r[j]) <= 0;
    }
  }
}
