/** The greedy auto-assign planner of app/api/dispatches/auto-assign/route.ts.

    The store is not modelled: the three queries of the route become inputs
    (all villages, all dispatches, all tankers) filtered and ordered as the
    queries ask, `prisma.dispatch.create` becomes appending to `created`, and
    `prisma.tanker.update` only matters through the set of used tanker ids. */
module AutoAssign {
  import opened Domain
  import opened Geo
  import opened Sorting
  import opened TankerAllocation
  import Aggregate

  /** The request body: either field may be absent. */
  datatype AutoAssignRequest = AutoAssignRequest(minStressScore: Option<int>, maxDispatches: Option<int>)

  const DefaultMinStressScore: int := 70
  const DefaultMaxDispatches: int := 10
  /** recommendTankers is called without a limit, so its default of 5 applies. */
  const RecommendationLimit: int := 5

  /** The comparator of `orderBy: { stressScore: "desc" }`. */
  function ByStressDesc(a: Village, b: Village): int
  {
    b.stressScore - a.stressScore
  }

  lemma ByStressDescIsTotalPreorder()
    ensures IsTotalPreorder(ByStressDesc)
  {
  }

  /** `where: { stressScore: { gte: minStressScore } }`, order kept. */
  function AtLeastStress(villages: seq<Village>, minStressScore: int): (r: seq<Village>)
    ensures |r| <= |villages|
    ensures forall v :: v in r <==> v in villages && v.stressScore >= minStressScore
  {
    if villages == [] then []
    else
      var rest := AtLeastStress(villages[1..], minStressScore);
      if villages[0].stressScore >= minStressScore then [villages[0]] + rest else rest
  }

  /** The villages query: stressed enough, most stressed first. Ties are left in
      input order; the store does not promise any order among them. */
  function StressedVillages(villages: seq<Village>, minStressScore: int): seq<Village>
  {
    SortBy(AtLeastStress(villages, minStressScore), ByStressDesc)
  }

  /** The village ids of the dispatches still open. */
  function ActiveVillageIds(dispatches: seq<Dispatch>): (ids: set<string>)
    ensures forall id :: id in ids <==>
              exists d :: d in dispatches && IsActiveDispatchStatus(d.status) && d.villageId == id
  {
    set d | d in dispatches && IsActiveDispatchStatus(d.status) :: d.villageId
  }

  /** `villages.filter(v => !activeVillageIds.has(v.villageCode))`. Dispatches
      refer to villages by villageCode, not by id. */
  function Unserved(villages: seq<Village>, activeIds: set<string>): (r: seq<Village>)
    ensures |r| <= |villages|
    ensures forall v :: v in r <==> v in villages && v.villageCode !in activeIds
  {
    if villages == [] then []
    else
      var rest := Unserved(villages[1..], activeIds);
      if villages[0].villageCode !in activeIds then [villages[0]] + rest else rest
  }

  /** `mapped.filter(t => !usedTankerIds.has(t.id))`. */
  function UnusedTankers(tankers: seq<Tanker>, used: set<string>): (r: seq<Tanker>)
    ensures |r| <= |tankers|
    ensures forall t :: t in r <==> t in tankers && t.id !in used
  {
    if tankers == [] then []
    else
      var rest := UnusedTankers(tankers[1..], used);
      if tankers[0].id !in used then [tankers[0]] + rest else rest
  }

  /** The dispatch created for a village and its best tanker. */
  function NewDispatch(village: Village, best: AllocationRecommendation): (d: Dispatch)
    ensures d.tankerId == best.tankerId && d.villageId == village.villageCode
    ensures d.villageName == village.name && d.status == Pending
    ensures d.villageLat == village.lat && d.villageLng == village.lng
    ensures d.priority == PriorityFromStress(village.stressScore) && d.priority != Low
    ensures village.tankerDemand != 0 ==> d.tripsAssigned == village.tankerDemand
    ensures village.tankerDemand == 0 ==> d.tripsAssigned == 1
  {
    Dispatch(best.tankerId, village.villageCode, village.name, village.lat, village.lng,
      Pending, PriorityFromStress(village.stressScore),
      if village.tankerDemand == 0 then 1 else village.tankerDemand)
  }

  /** What the loop has built so far. */
  datatype PlanState = PlanState(created: seq<Dispatch>, skipped: seq<string>, used: set<string>)

  const Start: PlanState := PlanState([], [], {})

  /** One visited village, once the loop has decided not to stop. */
  function Visit(dist: DistanceFn, village: Village, available: seq<Tanker>, st: PlanState): PlanState
  {
    var recommendations := RecommendTankers(dist, available, village.lat, village.lng, None, None,
      RecommendationLimit);
    if recommendations == [] then st.(skipped := st.skipped + [village.name])
    else
      var best := recommendations[0];
      PlanState(st.created + [NewDispatch(village, best)], st.skipped, st.used + {best.tankerId})
  }

  /** The plan the loop builds from state `st` over the remaining villages: it stops
      once `maxDispatches` dispatches exist or no unused tanker is left. */
  function Greedy(dist: DistanceFn, villages: seq<Village>, tankers: seq<Tanker>, maxDispatches: int,
                  st: PlanState): PlanState
    decreases |villages|
  {
    if villages == [] || |st.created| >= maxDispatches then st
    else
      var available := UnusedTankers(tankers, st.used);
      if available == [] then st
      else Greedy(dist, villages[1..], tankers, maxDispatches, Visit(dist, villages[0], available, st))
  }

  /** The for loop of the route over the unserved villages. */
  method AssignLoop(dist: DistanceFn, unservedVillages: seq<Village>, tankers: seq<Tanker>,
                    maxDispatches: int)
    returns (created: seq<Dispatch>, skipped: seq<string>)
    ensures created == Greedy(dist, unservedVillages, tankers, maxDispatches, Start).created
    ensures skipped == Greedy(dist, unservedVillages, tankers, maxDispatches, Start).skipped
  {
    created := [];
    skipped := [];
    var usedTankerIds: set<string> := {};
    var i := 0;
    while i < |unservedVillages|
      invariant 0 <= i <= |unservedVillages|
      invariant Greedy(dist, unservedVillages[i..], tankers, maxDispatches,
                       PlanState(created, skipped, usedTankerIds))
             == Greedy(dist, unservedVillages, tankers, maxDispatches, Start)
    {
      var village := unservedVillages[i];
      assert unservedVillages[i..][0] == village && unservedVillages[i..][1..] == unservedVillages[i + 1..];
      if |created| >= maxDispatches {
        break;
      }
      var availableTankers := UnusedTankers(tankers, usedTankerIds);
      if |availableTankers| == 0 {
        break;
      }
      var recommendations := RecommendTankers(dist, availableTankers, village.lat, village.lng,
        None, None, RecommendationLimit);
      if |recommendations| == 0 {
        skipped := skipped + [village.name];
        i := i + 1;
        continue;
      }
      var best := recommendations[0];
      var dispatch := NewDispatch(village, best);
      usedTankerIds := usedTankerIds + {best.tankerId};
      created := created + [dispatch];
      i := i + 1;
    }
  }

  /** The whole POST handler after authentication: defaults, the three queries,
      the eligibility filter and the loop. */
  method AutoAssignPlan(dist: DistanceFn, request: AutoAssignRequest, villages: seq<Village>,
                        dispatches: seq<Dispatch>, tankers: seq<Tanker>)
    returns (created: seq<Dispatch>, skipped: seq<string>)
    ensures var plan := Greedy(dist, PlanVillages(request, villages, dispatches), AvailableTankers(tankers),
                               Coalesce(request.maxDispatches, DefaultMaxDispatches), Start);
            created == plan.created && skipped == plan.skipped
  {
    var minStressScore := Coalesce(request.minStressScore, DefaultMinStressScore);
    var maxDispatches := Coalesce(request.maxDispatches, DefaultMaxDispatches);
    var stressed := StressedVillages(villages, minStressScore);
    var activeVillageIds := ActiveVillageIds(dispatches);
    var unservedVillages := Unserved(stressed, activeVillageIds);
    var mapped := AvailableTankers(tankers);
    created, skipped := AssignLoop(dist, unservedVillages, mapped, maxDispatches);
  }

  /** The villages the loop walks for a request. */
  function PlanVillages(request: AutoAssignRequest, villages: seq<Village>, dispatches: seq<Dispatch>)
    : (r: seq<Village>)
    ensures forall v :: v in r ==>
              && v in villages
              && v.stressScore >= Coalesce(request.minStressScore, DefaultMinStressScore)
              && v.villageCode !in ActiveVillageIds(dispatches)
  {
    var stressed := StressedVillages(villages, Coalesce(request.minStressScore, DefaultMinStressScore));
    ByStressDescIsTotalPreorder();
    SortBySpec(AtLeastStress(villages, Coalesce(request.minStressScore, DefaultMinStressScore)),
      ByStressDesc);
    assert forall v :: v in stressed ==> v in multiset(stressed);
    Unserved(stressed, ActiveVillageIds(dispatches))
  }

  /** The loop walks the villages most stressed first. */
  lemma PlanVillagesByStress(request: AutoAssignRequest, villages: seq<Village>, dispatches: seq<Dispatch>)
    ensures var r := PlanVillages(request, villages, dispatches);
            forall i, j :: 0 <= i < j < |r| ==> r[i].stressScore >= r[j].stressScore
  {
    var stressed := StressedVillages(villages, Coalesce(request.minStressScore, DefaultMinStressScore));
    ByStressDescIsTotalPreorder();
    SortBySorted(AtLeastStress(villages, Coalesce(request.minStressScore, DefaultMinStressScore)),
      ByStressDesc);
    UnservedKeepsOrder(stressed, ActiveVillageIds(dispatches));
  }

  lemma {:induction false} UnservedKeepsOrder(villages: seq<Village>, activeIds: set<string>)
    requires SortedBy(villages, ByStressDesc)
    ensures SortedBy(Unserved(villages, activeIds), ByStressDesc)
  {
    if villages != [] {
      SortedUncons(villages, ByStressDesc);
      UnservedKeepsOrder(villages[1..], activeIds);
      if villages[0].villageCode !in activeIds {
        SortedCons(villages[0], Unserved(villages[1..], activeIds), ByStressDesc);
      }
    }
  }

  /** The explicit 0 of `maxDispatches ?? 10` is honoured: nothing is created. */
  lemma ExplicitZeroHonoured(dist: DistanceFn, villages: seq<Village>, dispatches: seq<Dispatch>,
                             tankers: seq<Tanker>, minStressScore: Option<int>)
    ensures var request := AutoAssignRequest(minStressScore, Some(0));
            Greedy(dist, PlanVillages(request, villages, dispatches), AvailableTankers(tankers), 0, Start)
              .created == []
  {
  }

  /** Visiting a village either skips it or creates one dispatch whose tanker is an
      unused available one scoring at least as much as every other unused one. */
  lemma VisitChoosesBest(dist: DistanceFn, village: Village, available: seq<Tanker>, st: PlanState)
    ensures var r := Visit(dist, village, available, st);
            || (r.created == st.created && r.used == st.used && r.skipped == st.skipped + [village.name])
            || (exists t ::
                 && t in available && t.status == Available
                 && r.created == st.created + [NewDispatch(village,
                      ScoreTankerForVillage(dist, t, village.lat, village.lng, None, None))]
                 && r.used == st.used + {t.id} && r.skipped == st.skipped
                 && forall u :: u in available && u.status == Available ==>
                      ScoreTankerForVillage(dist, u, village.lat, village.lng, None, None).score
                        <= ScoreTankerForVillage(dist, t, village.lat, village.lng, None, None).score)
  {
    var recs := RecommendTankers(dist, available, village.lat, village.lng, None, None, RecommendationLimit);
    if recs != [] {
      RecommendOnlyAvailable(dist, available, village.lat, village.lng, None, None, RecommendationLimit, 0);
      var t := recs[0].tanker;
      forall u | u in available && u.status == Available
        ensures ScoreTankerForVillage(dist, u, village.lat, village.lng, None, None).score
                <= ScoreTankerForVillage(dist, t, village.lat, village.lng, None, None).score
      {
        RecommendHeadIsBest(dist, available, village.lat, village.lng, None, None, RecommendationLimit, u);
      }
    }
  }

  /** The created list only grows, and the skipped list only grows. */
  lemma {:induction false} GreedyExtends(dist: DistanceFn, villages: seq<Village>, tankers: seq<Tanker>,
                                         maxDispatches: int, st: PlanState)
    ensures var r := Greedy(dist, villages, tankers, maxDispatches, st);
            st.created <= r.created && st.skipped <= r.skipped
  {
    if villages != [] && |st.created| < maxDispatches && UnusedTankers(tankers, st.used) != [] {
      GreedyExtends(dist, villages[1..], tankers, maxDispatches,
        Visit(dist, villages[0], UnusedTankers(tankers, st.used), st));
    }
  }

  /** No more than maxDispatches dispatches are created (none for a cap of 0 or less). */
  lemma {:induction false} GreedyCap(dist: DistanceFn, villages: seq<Village>, tankers: seq<Tanker>,
                                     maxDispatches: int, st: PlanState)
    ensures var r := Greedy(dist, villages, tankers, maxDispatches, st);
            r.created == st.created || |r.created| <= maxDispatches
  {
    if villages != [] && |st.created| < maxDispatches && UnusedTankers(tankers, st.used) != [] {
      GreedyCap(dist, villages[1..], tankers, maxDispatches,
        Visit(dist, villages[0], UnusedTankers(tankers, st.used), st));
    }
  }

  /** Without a maxDispatches field a request creates at most 10 dispatches. */
  lemma DefaultCap(dist: DistanceFn, request: AutoAssignRequest, villages: seq<Village>,
                   dispatches: seq<Dispatch>, tankers: seq<Tanker>)
    requires request.maxDispatches.None?
    ensures |Greedy(dist, PlanVillages(request, villages, dispatches), AvailableTankers(tankers),
                    Coalesce(request.maxDispatches, DefaultMaxDispatches), Start).created| <= 10
  {
    GreedyCap(dist, PlanVillages(request, villages, dispatches), AvailableTankers(tankers),
      Coalesce(request.maxDispatches, DefaultMaxDispatches), Start);
  }

  /** Tanker ids of created dispatches are distinct and all marked used. */
  ghost predicate Exclusive(st: PlanState)
  {
    && (forall i :: 0 <= i < |st.created| ==> st.created[i].tankerId in st.used)
    && (forall i, j :: 0 <= i < j < |st.created| ==> st.created[i].tankerId != st.created[j].tankerId)
  }

  lemma {:induction false} GreedyExclusive(dist: DistanceFn, villages: seq<Village>, tankers: seq<Tanker>,
                                           maxDispatches: int, st: PlanState)
    requires Exclusive(st)
    ensures Exclusive(Greedy(dist, villages, tankers, maxDispatches, st))
  {
    if villages != [] && |st.created| < maxDispatches && UnusedTankers(tankers, st.used) != [] {
      var available := UnusedTankers(tankers, st.used);
      var v := villages[0];
      var next := Visit(dist, v, available, st);
      var recs := RecommendTankers(dist, available, v.lat, v.lng, None, None, RecommendationLimit);
      if recs != [] {
        RecommendOnlyAvailable(dist, available, v.lat, v.lng, None, None, RecommendationLimit, 0);
        assert recs[0].tankerId == recs[0].tanker.id && recs[0].tankerId !in st.used;
        VisitCreates(dist, v, available, st);
        ExclusiveAdd(st, v, recs[0]);
      }
      GreedyExclusive(dist, villages[1..], tankers, maxDispatches, next);
    }
  }

  /** Adding a dispatch for an id not yet used keeps Exclusive. */
  lemma ExclusiveAdd(st: PlanState, v: Village, best: AllocationRecommendation)
    requires Exclusive(st) && best.tankerId !in st.used
    ensures Exclusive(PlanState(st.created + [NewDispatch(v, best)], st.skipped, st.used + {best.tankerId}))
  {
  }

  /** No tanker is given two dispatches by one run. */
  lemma NoTankerTwice(dist: DistanceFn, villages: seq<Village>, tankers: seq<Tanker>, maxDispatches: int)
    ensures var created := Greedy(dist, villages, tankers, maxDispatches, Start).created;
            forall i, j :: 0 <= i < j < |created| ==> created[i].tankerId != created[j].tankerId
  {
    GreedyExclusive(dist, villages, tankers, maxDispatches, Start);
  }

  /** The codes of the villages the created dispatches serve. */
  function ServedCodes(created: seq<Dispatch>): (r: seq<string>)
    ensures |r| == |created|
    ensures forall i :: 0 <= i < |r| ==> r[i] == created[i].villageId
  {
    if created == [] then [] else [created[0].villageId] + ServedCodes(created[1..])
  }

  function Codes(villages: seq<Village>): (r: seq<string>)
    ensures |r| == |villages|
    ensures forall i :: 0 <= i < |r| ==> r[i] == villages[i].villageCode
  {
    if villages == [] then [] else [villages[0].villageCode] + Codes(villages[1..])
  }

  /** Each village is visited once, in list order: the served codes are a
      subsequence of the walked villages' codes. */
  lemma {:induction false} GreedyInOrder(dist: DistanceFn, villages: seq<Village>, tankers: seq<Tanker>,
                                         maxDispatches: int, st: PlanState)
    ensures var r := Greedy(dist, villages, tankers, maxDispatches, st);
            |st.created| <= |r.created|
            && IsSubsequence(ServedCodes(r.created[|st.created|..]), Codes(villages))
  {
    var r := Greedy(dist, villages, tankers, maxDispatches, st);
    GreedyExtends(dist, villages, tankers, maxDispatches, st);
    if villages != [] && |st.created| < maxDispatches && UnusedTankers(tankers, st.used) != [] {
      var next := Visit(dist, villages[0], UnusedTankers(tankers, st.used), st);
      GreedyInOrder(dist, villages[1..], tankers, maxDispatches, next);
      GreedyExtends(dist, villages[1..], tankers, maxDispatches, next);
      assert Codes(villages) == [villages[0].villageCode] + Codes(villages[1..]);
      if |next.created| == |st.created| {
        SubsequenceSkip(ServedCodes(r.created[|st.created|..]), villages[0].villageCode, Codes(villages[1..]));
      } else {
        var tail := r.created[|st.created|..];
        assert tail[0] == next.created[|st.created|] && tail[1..] == r.created[|next.created|..];
        assert ServedCodes(tail) == [villages[0].villageCode] + ServedCodes(tail[1..]);
      }
    } else {
      assert r.created[|st.created|..] == [];
    }
  }

  /** Every dispatch the request creates serves a village of the store whose
      stress reaches the threshold and that had no open dispatch, and the served
      villages appear in the order of the walk. */
  lemma CreatedVillagesEligible(dist: DistanceFn, request: AutoAssignRequest, villages: seq<Village>,
                                dispatches: seq<Dispatch>, tankers: seq<Tanker>)
    ensures var walk := PlanVillages(request, villages, dispatches);
            var created := Greedy(dist, walk, AvailableTankers(tankers),
                                  Coalesce(request.maxDispatches, DefaultMaxDispatches), Start).created;
            && IsSubsequence(ServedCodes(created), Codes(walk))
            && forall i :: 0 <= i < |created| ==>
                 exists v :: v in villages && v.villageCode == created[i].villageId
                   && v.stressScore >= Coalesce(request.minStressScore, DefaultMinStressScore)
                   && v.villageCode !in ActiveVillageIds(dispatches)
  {
    EligibleRun(dist, PlanVillages(request, villages, dispatches), AvailableTankers(tankers),
      Coalesce(request.maxDispatches, DefaultMaxDispatches), villages,
      Coalesce(request.minStressScore, DefaultMinStressScore), ActiveVillageIds(dispatches));
  }

  /** The same for any walk of eligible villages. */
  lemma EligibleRun(dist: DistanceFn, walk: seq<Village>, fleet: seq<Tanker>, maxDispatches: int,
                    villages: seq<Village>, minStressScore: int, activeIds: set<string>)
    requires forall v :: v in walk ==> v in villages && v.stressScore >= minStressScore && v.villageCode !in activeIds
    ensures var created := Greedy(dist, walk, fleet, maxDispatches, Start).created;
            && IsSubsequence(ServedCodes(created), Codes(walk))
            && forall i :: 0 <= i < |created| ==>
                 exists v :: v in villages && v.villageCode == created[i].villageId
                   && v.stressScore >= minStressScore && v.villageCode !in activeIds
  {
    var created := Greedy(dist, walk, fleet, maxDispatches, Start).created;
    CreatedFromWalk(dist, walk, fleet, maxDispatches);
    forall i | 0 <= i < |created|
      ensures exists v :: v in villages && v.villageCode == created[i].villageId
                && v.stressScore >= minStressScore && v.villageCode !in activeIds
    {
      EligibleFromWalk(walk, villages, minStressScore, activeIds, created[i].villageId);
    }
  }

  /** A code served from a walk of eligible villages is the code of an eligible village. */
  lemma EligibleFromWalk(walk: seq<Village>, villages: seq<Village>, minStressScore: int,
                         activeIds: set<string>, code: string)
    requires forall v :: v in walk ==> v in villages && v.stressScore >= minStressScore && v.villageCode !in activeIds
    requires exists v :: v in walk && v.villageCode == code
    ensures exists v :: v in villages && v.villageCode == code && v.stressScore >= minStressScore
              && v.villageCode !in activeIds
  {
    var v :| v in walk && v.villageCode == code;
  }

  /** Whatever the walk, the created dispatches serve villages of the walk, in its order. */
  lemma CreatedFromWalk(dist: DistanceFn, walk: seq<Village>, tankers: seq<Tanker>, maxDispatches: int)
    ensures var created := Greedy(dist, walk, tankers, maxDispatches, Start).created;
            && IsSubsequence(ServedCodes(created), Codes(walk))
            && forall i :: 0 <= i < |created| ==> exists v :: v in walk && v.villageCode == created[i].villageId
  {
    var created := Greedy(dist, walk, tankers, maxDispatches, Start).created;
    GreedyInOrder(dist, walk, tankers, maxDispatches, Start);
    assert created[0..] == created;
    forall i | 0 <= i < |created|
      ensures exists v :: v in walk && v.villageCode == created[i].villageId
    {
      ServedFromWalk(created, walk, i);
    }
  }

  /** A dispatch whose code is in the walk's codes serves a village of the walk. */
  lemma ServedFromWalk(created: seq<Dispatch>, walk: seq<Village>, i: nat)
    requires IsSubsequence(ServedCodes(created), Codes(walk)) && i < |created|
    ensures exists v :: v in walk && v.villageCode == created[i].villageId
  {
    SubsequenceMember(ServedCodes(created), Codes(walk), i);
    var k :| 0 <= k < |walk| && Codes(walk)[k] == ServedCodes(created)[i];
    assert walk[k] in walk;
  }

  /** Dropping elements keeps a sequence free of repeats. */
  lemma {:induction false} SubsequenceDistinct<T>(a: seq<T>, b: seq<T>)
    requires IsSubsequence(a, b) && Aggregate.Distinct(b)
    ensures Aggregate.Distinct(a)
    decreases |b|
  {
    if a != [] {
      assert Aggregate.Distinct(b[1..]) by {
        forall i, j | 0 <= i < j < |b[1..]| ensures b[1..][i] != b[1..][j] {
          assert b[1..][i] == b[i + 1] && b[1..][j] == b[j + 1];
        }
      }
      if a[0] == b[0] && IsSubsequence(a[1..], b[1..]) {
        SubsequenceDistinct(a[1..], b[1..]);
        forall i, j | 0 <= i < j < |a| ensures a[i] != a[j] {
          SubsequenceMember(a[1..], b[1..], j - 1);
          var k :| 0 <= k < |b[1..]| && b[1..][k] == a[1..][j - 1];
          assert b[k + 1] == a[j];
          if i > 0 {
            assert a[i] == a[1..][i - 1];
          }
        }
      } else {
        SubsequenceDistinct(a, b[1..]);
      }
    }
  }

  /** A walk that names each village once gets at most one dispatch per village. */
  lemma CreatedOncePerVillage(dist: DistanceFn, walk: seq<Village>, tankers: seq<Tanker>, maxDispatches: int)
    requires Aggregate.Distinct(Codes(walk))
    ensures Aggregate.Distinct(ServedCodes(Greedy(dist, walk, tankers, maxDispatches, Start).created))
  {
    CreatedFromWalk(dist, walk, tankers, maxDispatches);
    SubsequenceDistinct(ServedCodes(Greedy(dist, walk, tankers, maxDispatches, Start).created), Codes(walk));
  }

  /** The ids of a tanker list, as a set. */
  function Ids(tankers: seq<Tanker>): set<string>
  {
    if tankers == [] then {} else {tankers[0].id} + Ids(tankers[1..])
  }

  ghost predicate DistinctIds(tankers: seq<Tanker>)
  {
    forall i, j :: 0 <= i < j < |tankers| ==> tankers[i].id != tankers[j].id
  }

  lemma {:induction false} IdsMember(tankers: seq<Tanker>, t: Tanker)
    requires t in tankers
    ensures t.id in Ids(tankers)
  {
    if tankers[0] != t {
      IdsMember(tankers[1..], t);
    }
  }

  lemma {:induction false} IdsOnlyMembers(tankers: seq<Tanker>, id: string)
    requires id in Ids(tankers)
    ensures exists t :: t in tankers && t.id == id
  {
    if tankers[0].id != id {
      IdsOnlyMembers(tankers[1..], id);
      var t :| t in tankers[1..] && t.id == id;
      assert t in tankers;
    }
  }

  lemma {:induction false} IdsExclude(tankers: seq<Tanker>, id: string)
    requires forall i :: 0 <= i < |tankers| ==> tankers[i].id != id
    ensures id !in Ids(tankers)
  {
    if tankers != [] {
      IdsExclude(tankers[1..], id);
    }
  }

  /** With distinct ids, the unused tankers are the ones whose id is not used. */
  lemma {:induction false} UnusedCount(tankers: seq<Tanker>, used: set<string>)
    requires DistinctIds(tankers)
    ensures |UnusedTankers(tankers, used)| == |tankers| - |used * Ids(tankers)|
  {
    if tankers != [] {
      var t := tankers[0];
      var rest := tankers[1..];
      UnusedCount(rest, used);
      forall i | 0 <= i < |rest| ensures rest[i].id != t.id {
        assert rest[i] == tankers[i + 1];
      }
      IdsExclude(rest, t.id);
      if t.id in used {
        assert used * Ids(tankers) == (used * Ids(rest)) + {t.id};
      } else {
        assert used * Ids(tankers) == used * Ids(rest);
      }
    }
  }

  /** What a run keeps when every tanker is available and ids are distinct: the
      used ids are exactly the created ids, and all are the fleet's ids. */
  ghost predicate Tracked(st: PlanState, tankers: seq<Tanker>)
  {
    && st.used <= Ids(tankers)
    && |st.used| == |st.created|
  }

  lemma IdsSize(tankers: seq<Tanker>)
    requires DistinctIds(tankers)
    ensures |Ids(tankers)| == |tankers|
  {
    UnusedCount(tankers, Ids(tankers));
    assert Ids(tankers) * Ids(tankers) == Ids(tankers);
    UnusedNoneLeft(tankers, Ids(tankers));
  }

  lemma {:induction false} UnusedNoneLeft(tankers: seq<Tanker>, used: set<string>)
    requires Ids(tankers) <= used
    ensures UnusedTankers(tankers, used) == []
  {
    if tankers != [] {
      UnusedNoneLeft(tankers[1..], used);
    }
  }

  /** A list of available tankers always yields a recommendation. */
  lemma RecommendNonEmpty(dist: DistanceFn, available: seq<Tanker>, lat: real, lng: real)
    requires available != [] && forall t :: t in available ==> t.status == Available
    ensures RecommendTankers(dist, available, lat, lng, None, None, RecommendationLimit) != []
  {
    assert available[0] in AvailableTankers(available);
  }

  /** Every tanker of the fleet is available. */
  ghost predicate AllAvailable(tankers: seq<Tanker>)
  {
    forall t :: t in tankers ==> t.status == Available
  }

  /** One visit with a free tanker in an all-available fleet creates a dispatch
      for the village and keeps the bookkeeping. */
  lemma AllAvailableStep(dist: DistanceFn, v: Village, tankers: seq<Tanker>, st: PlanState)
    requires AllAvailable(tankers)
    requires Tracked(st, tankers)
    requires UnusedTankers(tankers, st.used) != []
    ensures var next := Visit(dist, v, UnusedTankers(tankers, st.used), st);
            && next.skipped == st.skipped
            && |next.created| == |st.created| + 1
            && st.created <= next.created
            && next.created[|st.created|].villageId == v.villageCode
            && Tracked(next, tankers)
  {
    var available := UnusedTankers(tankers, st.used);
    RecommendNonEmpty(dist, available, v.lat, v.lng);
    var best := RecommendTankers(dist, available, v.lat, v.lng, None, None, RecommendationLimit)[0];
    RecommendOnlyAvailable(dist, available, v.lat, v.lng, None, None, RecommendationLimit, 0);
    VisitCreates(dist, v, available, st);
    assert best.tanker in tankers && best.tanker.id !in st.used;
    IdsMember(tankers, best.tanker);
    TrackedAdd(st, tankers, v, best);
  }

  /** A visit with a recommendation appends its dispatch and marks its tanker. */
  lemma VisitCreates(dist: DistanceFn, v: Village, available: seq<Tanker>, st: PlanState)
    requires RecommendTankers(dist, available, v.lat, v.lng, None, None, RecommendationLimit) != []
    ensures var best := RecommendTankers(dist, available, v.lat, v.lng, None, None, RecommendationLimit)[0];
            Visit(dist, v, available, st)
              == PlanState(st.created + [NewDispatch(v, best)], st.skipped, st.used + {best.tankerId})
  {
  }

  /** Marking a fresh fleet id while adding one dispatch keeps Tracked. */
  lemma TrackedAdd(st: PlanState, tankers: seq<Tanker>, v: Village, best: AllocationRecommendation)
    requires Tracked(st, tankers)
    requires best.tankerId !in st.used && best.tankerId in Ids(tankers)
    ensures Tracked(PlanState(st.created + [NewDispatch(v, best)], st.skipped, st.used + {best.tankerId}),
                    tankers)
  {
  }

  /** With distinct ids and all used ids in the fleet, the fleet runs out exactly
      when every tanker has a dispatch. */
  lemma NoneLeftMeansFull(tankers: seq<Tanker>, st: PlanState)
    requires DistinctIds(tankers) && Tracked(st, tankers)
    ensures UnusedTankers(tankers, st.used) == [] <==> |st.created| == |tankers|
    ensures |st.created| <= |tankers|
  {
    IdsSize(tankers);
    UnusedCount(tankers, st.used);
    assert st.used * Ids(tankers) == st.used;
  }

  /** With a fleet of available tankers with distinct ids the skip branch is
      unreachable: nothing is skipped, and min(maxDispatches, #tankers, #villages)
      dispatches exist at the end. */
  lemma {:induction false} GreedyAllAvailableCount(dist: DistanceFn, villages: seq<Village>,
                                                   tankers: seq<Tanker>, maxDispatches: int, st: PlanState)
    requires AllAvailable(tankers)
    requires DistinctIds(tankers)
    requires Tracked(st, tankers)
    ensures var r := Greedy(dist, villages, tankers, maxDispatches, st);
            var room := if maxDispatches < |tankers| then maxDispatches else |tankers|;
            var made := if room - |st.created| < |villages| then room - |st.created| else |villages|;
            && r.skipped == st.skipped
            && |r.created| == |st.created| + (if made < 0 then 0 else made)
  {
    NoneLeftMeansFull(tankers, st);
    var available := UnusedTankers(tankers, st.used);
    if villages != [] && |st.created| < maxDispatches && available != [] {
      AllAvailableStep(dist, villages[0], tankers, st);
      GreedyAllAvailableCount(dist, villages[1..], tankers, maxDispatches,
        Visit(dist, villages[0], available, st));
    }
  }

  /** Each visit adds at most one dispatch. */
  lemma {:induction false} GreedyGrowth(dist: DistanceFn, villages: seq<Village>, tankers: seq<Tanker>,
                                        maxDispatches: int, st: PlanState)
    ensures var r := Greedy(dist, villages, tankers, maxDispatches, st);
            |st.created| <= |r.created| <= |st.created| + |villages|
  {
    if villages != [] && |st.created| < maxDispatches && UnusedTankers(tankers, st.used) != [] {
      GreedyGrowth(dist, villages[1..], tankers, maxDispatches,
        Visit(dist, villages[0], UnusedTankers(tankers, st.used), st));
    }
  }

  /** Dispatch k serves village k, for every dispatch of the list. */
  ghost predicate ServesInOrder(created: seq<Dispatch>, villages: seq<Village>)
  {
    && |created| <= |villages|
    && forall k :: 0 <= k < |created| ==> created[k].villageId == villages[k].villageCode
  }

  /** The order claim carried one village back: the step's dispatch serves the
      first village and the later ones serve the remaining walk in order. */
  lemma ShiftOrder(before: seq<Dispatch>, after: seq<Dispatch>, result: seq<Dispatch>, villages: seq<Village>)
    requires villages != []
    requires |after| == |before| + 1 && before <= after && after <= result
    requires after[|before|].villageId == villages[0].villageCode
    requires ServesInOrder(result[|after|..], villages[1..])
    ensures ServesInOrder(result[|before|..], villages)
  {
    var tail := result[|before|..];
    forall k | 0 <= k < |tail|
      ensures tail[k].villageId == villages[k].villageCode
    {
      if k == 0 {
        assert tail[0] == after[|before|];
      } else {
        assert tail[k] == result[|after|..][k - 1];
        assert villages[k] == villages[1..][k - 1];
      }
    }
  }

  /** One step of the walk, once it does not stop. */
  lemma GreedyStep(dist: DistanceFn, villages: seq<Village>, tankers: seq<Tanker>, maxDispatches: int,
                   st: PlanState)
    requires villages != [] && |st.created| < maxDispatches && UnusedTankers(tankers, st.used) != []
    ensures Greedy(dist, villages, tankers, maxDispatches, st)
            == Greedy(dist, villages[1..], tankers, maxDispatches,
                      Visit(dist, villages[0], UnusedTankers(tankers, st.used), st))
  {
  }

  /** The walk stops when it runs out of villages, room or tankers. */
  lemma GreedyStops(dist: DistanceFn, villages: seq<Village>, tankers: seq<Tanker>, maxDispatches: int,
                    st: PlanState)
    requires villages == [] || |st.created| >= maxDispatches || UnusedTankers(tankers, st.used) == []
    ensures Greedy(dist, villages, tankers, maxDispatches, st) == st
  {
  }

  /** In the same setting, the new dispatches serve a prefix of the walk, in order:
      the k-th new dispatch serves the k-th village. */
  lemma {:induction false} GreedyAllAvailableOrder(dist: DistanceFn, villages: seq<Village>,
                                                   tankers: seq<Tanker>, maxDispatches: int, st: PlanState)
    requires AllAvailable(tankers)
    requires Tracked(st, tankers)
    ensures var r := Greedy(dist, villages, tankers, maxDispatches, st);
            |st.created| <= |r.created| && ServesInOrder(r.created[|st.created|..], villages)
  {
    var r := Greedy(dist, villages, tankers, maxDispatches, st);
    GreedyGrowth(dist, villages, tankers, maxDispatches, st);
    var n := |st.created|;
    var available := UnusedTankers(tankers, st.used);
    if villages != [] && n < maxDispatches && available != [] {
      var next := Visit(dist, villages[0], available, st);
      AllAvailableStep(dist, villages[0], tankers, st);
      GreedyAllAvailableOrder(dist, villages[1..], tankers, maxDispatches, next);
      GreedyExtends(dist, villages[1..], tankers, maxDispatches, next);
      GreedyStep(dist, villages, tankers, maxDispatches, st);
      ShiftOrder(st.created, next.created, r.created, villages);
    } else {
      GreedyStops(dist, villages, tankers, maxDispatches, st);
      assert r.created[n..] == [];
    }
  }

  /** The end-to-end promise for a healthy fleet. */
  lemma AllAvailablePlan(dist: DistanceFn, villages: seq<Village>, tankers: seq<Tanker>, maxDispatches: int)
    requires AllAvailable(tankers)
    requires DistinctIds(tankers)
    ensures var r := Greedy(dist, villages, tankers, maxDispatches, Start);
            var room := if maxDispatches < |tankers| then maxDispatches else |tankers|;
            var made := if room < |villages| then room else |villages|;
            && r.skipped == []
            && |r.created| == (if made < 0 then 0 else made)
            && ServedCodes(r.created) == Codes(villages[..|r.created|])
  {
    var r := Greedy(dist, villages, tankers, maxDispatches, Start);
    GreedyAllAvailableCount(dist, villages, tankers, maxDispatches, Start);
    GreedyAllAvailableOrder(dist, villages, tankers, maxDispatches, Start);
    assert ServedCodes(r.created) == Codes(villages[..|r.created|]) by {
      assert r.created[0..] == r.created;
    }
  }
}
