/** Tanker scoring and ranking of lib/tanker-allocation.ts: each tanker is scored
    against a target village by proximity, capacity and availability, and
    recommendTankers filters, sorts and truncates the list. */
module TankerAllocation {
  import opened Numeric
  import opened Domain
  import opened Geo
  import opened Sorting

  datatype AllocationRecommendation = AllocationRecommendation(
    tankerId: string,
    tanker: Tanker,
    distance: real,
    estimatedTime: int,
    score: int)

  /** Closer is better; 100 km or more scores 0. */
  function ProximityScore(distance: real): (s: real)
    ensures distance >= 100.0 ==> s == 0.0
    ensures distance >= 0.0 ==> 0.0 <= s <= 100.0
  {
    Max(0.0, 100.0 - distance / 100.0 * 100.0)
  }

  /** Larger is better; 15,000 litres or more scores 100. */
  function CapacityScore(capacity: real): (s: real)
    ensures capacity >= 15000.0 ==> s == 100.0
    ensures s <= 100.0
    ensures capacity >= 0.0 ==> s >= 0.0
  {
    Min(100.0, capacity / 15000.0 * 100.0)
  }

  function StatusScore(status: TankerStatus): real
  {
    if status == Available then 100.0 else 0.0
  }

  /** The unrounded distance from the origin (the source if given, else the depot)
      to the village. */
  function TripDistance(dist: DistanceFn, tanker: Tanker, villageLat: real, villageLng: real,
                        sourceLat: Option<real>, sourceLng: Option<real>): (d: real)
    ensures d >= 0.0
    ensures sourceLat.None? && sourceLng.None?
      ==> d == dist(tanker.depotLat, tanker.depotLng, villageLat, villageLng)
    ensures sourceLat.Some? && sourceLng.Some?
      ==> d == dist(sourceLat.value, sourceLng.value, villageLat, villageLng)
  {
    dist(Coalesce(sourceLat, tanker.depotLat), Coalesce(sourceLng, tanker.depotLng),
      villageLat, villageLng)
  }

  /** The weighted score 0.6 proximity + 0.2 capacity + 0.2 availability, rounded. */
  function WeightedScore(distance: real, tanker: Tanker): (score: int)
    ensures distance >= 0.0 && tanker.capacity >= 0.0 && tanker.status == Available
      ==> 20 <= score <= 100
    ensures distance >= 0.0 && tanker.capacity >= 0.0 && tanker.status != Available
      ==> 0 <= score <= 80
  {
    var weighted := ProximityScore(distance) * 0.6 + CapacityScore(tanker.capacity) * 0.2
      + StatusScore(tanker.status) * 0.2;
    if distance >= 0.0 && tanker.capacity >= 0.0 && tanker.status == Available then
      RoundBetween(weighted, 20, 100);
      Round(weighted)
    else if distance >= 0.0 && tanker.capacity >= 0.0 then
      RoundBetween(weighted, 0, 80);
      Round(weighted)
    else Round(weighted)
  }

  /** scoreTankerForVillage. The reported distance is rounded to 0.1 km, while the
      travel time at 40 km/h and the score use the unrounded distance. */
  function ScoreTankerForVillage(dist: DistanceFn, tanker: Tanker, villageLat: real, villageLng: real,
                                 sourceLat: Option<real>, sourceLng: Option<real>)
    : (r: AllocationRecommendation)
    ensures r.tankerId == tanker.id && r.tanker == tanker
    ensures var d := TripDistance(dist, tanker, villageLat, villageLng, sourceLat, sourceLng);
      && r.distance == RoundTenth(d)
      && r.estimatedTime == Round(d / 40.0 * 60.0)
      && r.score == WeightedScore(d, tanker)
    ensures r.distance >= 0.0 && r.estimatedTime >= 0
    ensures tanker.capacity >= 0.0 && tanker.status == Available ==> 20 <= r.score <= 100
  {
    var d := TripDistance(dist, tanker, villageLat, villageLng, sourceLat, sourceLng);
    RoundMonotone(0.0, d * 10.0);
    RoundMonotone(0.0, d / 40.0 * 60.0);
    AllocationRecommendation(tanker.id, tanker, RoundTenth(d), Round(d / 40.0 * 60.0),
      WeightedScore(d, tanker))
  }

  /** tankers.filter(t => t.status === "available"), order kept. */
  function AvailableTankers(tankers: seq<Tanker>): (r: seq<Tanker>)
    ensures |r| <= |tankers|
    ensures forall t :: t in r <==> t in tankers && t.status == Available
  {
    if tankers == [] then []
    else
      var rest := AvailableTankers(tankers[1..]);
      if tankers[0].status == Available then [tankers[0]] + rest else rest
  }

  /** The map step: one recommendation per tanker, in order. */
  function ScoreAll(dist: DistanceFn, tankers: seq<Tanker>, villageLat: real, villageLng: real,
                    sourceLat: Option<real>, sourceLng: Option<real>)
    : (r: seq<AllocationRecommendation>)
    ensures |r| == |tankers|
    ensures forall i :: 0 <= i < |r| ==>
              r[i] == ScoreTankerForVillage(dist, tankers[i], villageLat, villageLng, sourceLat, sourceLng)
  {
    if tankers == [] then []
    else
      var head := ScoreTankerForVillage(dist, tankers[0], villageLat, villageLng, sourceLat, sourceLng);
      [head] + ScoreAll(dist, tankers[1..], villageLat, villageLng, sourceLat, sourceLng)
  }

  /** The comparator (a, b) => b.score - a.score: higher scores first. */
  function ByScoreDesc(a: AllocationRecommendation, b: AllocationRecommendation): int
  {
    b.score - a.score
  }

  lemma ByScoreDescIsTotalPreorder()
    ensures IsTotalPreorder(ByScoreDesc)
  {
  }

  /** The end index of `slice(0, limit)` on n elements; a negative limit counts from the end. */
  function SliceEnd(n: nat, limit: int): (e: nat)
    ensures e <= n
    ensures limit >= 0 ==> e <= limit
  {
    if limit < 0 then (if n as int + limit > 0 then n as int + limit else 0)
    else if limit < n then limit
    else n
  }

  function RankedCandidates(dist: DistanceFn, tankers: seq<Tanker>, villageLat: real, villageLng: real,
                            sourceLat: Option<real>, sourceLng: Option<real>)
    : seq<AllocationRecommendation>
  {
    SortBy(ScoreAll(dist, AvailableTankers(tankers), villageLat, villageLng, sourceLat, sourceLng),
      ByScoreDesc)
  }

  /** recommendTankers: filter to available tankers, score, sort by score
      (stable), keep the first `limit` (5 by default at every call site). */
  function RecommendTankers(dist: DistanceFn, tankers: seq<Tanker>, villageLat: real, villageLng: real,
                            sourceLat: Option<real>, sourceLng: Option<real>, limit: int)
    : (r: seq<AllocationRecommendation>)
    ensures |r| == SliceEnd(|AvailableTankers(tankers)|, limit)
  {
    var ranked := RankedCandidates(dist, tankers, villageLat, villageLng, sourceLat, sourceLng);
    ranked[..SliceEnd(|ranked|, limit)]
  }

  /** The ranked list and the facts about it that every property below uses. */
  lemma RankedFacts(dist: DistanceFn, tankers: seq<Tanker>, villageLat: real, villageLng: real,
                    sourceLat: Option<real>, sourceLng: Option<real>)
    ensures var scored := ScoreAll(dist, AvailableTankers(tankers), villageLat, villageLng, sourceLat, sourceLng);
            var ranked := RankedCandidates(dist, tankers, villageLat, villageLng, sourceLat, sourceLng);
            && SortedBy(ranked, ByScoreDesc)
            && multiset(ranked) == multiset(scored) && |ranked| == |scored|
            && (forall x :: TiedWith(ranked, ByScoreDesc, x) == TiedWith(scored, ByScoreDesc, x))
  {
    ByScoreDescIsTotalPreorder();
    SortBySpec(ScoreAll(dist, AvailableTankers(tankers), villageLat, villageLng, sourceLat, sourceLng),
      ByScoreDesc);
  }

  /** Every recommendation is the score of an available input tanker: nothing that
      is not "available" is ever returned. */
  lemma RecommendOnlyAvailable(dist: DistanceFn, tankers: seq<Tanker>, villageLat: real, villageLng: real,
                               sourceLat: Option<real>, sourceLng: Option<real>, limit: int, i: nat)
    requires i < |RecommendTankers(dist, tankers, villageLat, villageLng, sourceLat, sourceLng, limit)|
    ensures var rec := RecommendTankers(dist, tankers, villageLat, villageLng, sourceLat, sourceLng, limit)[i];
            && rec.tanker in tankers && rec.tanker.status == Available
            && rec == ScoreTankerForVillage(dist, rec.tanker, villageLat, villageLng, sourceLat, sourceLng)
  {
    var avail := AvailableTankers(tankers);
    var scored := ScoreAll(dist, avail, villageLat, villageLng, sourceLat, sourceLng);
    var ranked := RankedCandidates(dist, tankers, villageLat, villageLng, sourceLat, sourceLng);
    RankedFacts(dist, tankers, villageLat, villageLng, sourceLat, sourceLng);
    assert ranked[i] in multiset(scored);
    var j :| 0 <= j < |scored| && scored[j] == ranked[i];
    assert avail[j] in avail;
  }

  /** At most `limit` recommendations (for a non-negative limit) and at most as many
      as there are available tankers; exactly that many when both allow. */
  lemma RecommendLength(dist: DistanceFn, tankers: seq<Tanker>, villageLat: real, villageLng: real,
                        sourceLat: Option<real>, sourceLng: Option<real>, limit: int)
    ensures var r := RecommendTankers(dist, tankers, villageLat, villageLng, sourceLat, sourceLng, limit);
            && (limit >= 0 ==> |r| <= limit)
            && |r| <= |AvailableTankers(tankers)|
            && (0 <= limit <= |AvailableTankers(tankers)| ==> |r| == limit)
  {
  }

  /** The recommendations are ordered by non-increasing score. */
  lemma RecommendSorted(dist: DistanceFn, tankers: seq<Tanker>, villageLat: real, villageLng: real,
                        sourceLat: Option<real>, sourceLng: Option<real>, limit: int)
    ensures var r := RecommendTankers(dist, tankers, villageLat, villageLng, sourceLat, sourceLng, limit);
            forall i, j :: 0 <= i < j < |r| ==> r[i].score >= r[j].score
  {
    var ranked := RankedCandidates(dist, tankers, villageLat, villageLng, sourceLat, sourceLng);
    RankedFacts(dist, tankers, villageLat, villageLng, sourceLat, sourceLng);
    var r := RecommendTankers(dist, tankers, villageLat, villageLng, sourceLat, sourceLng, limit);
    forall i, j | 0 <= i < j < |r| ensures r[i].score >= r[j].score {
      assert ByScoreDesc(ranked[i], ranked[j]) <= 0;
    }
  }

  /** The recommendations are drawn from the scored available tankers, each as
      often as it occurs there. */
  lemma RecommendDrawnFromScored(dist: DistanceFn, tankers: seq<Tanker>, villageLat: real, villageLng: real,
                                 sourceLat: Option<real>, sourceLng: Option<real>, limit: int)
    ensures var r := RecommendTankers(dist, tankers, villageLat, villageLng, sourceLat, sourceLng, limit);
            var scored := ScoreAll(dist, AvailableTankers(tankers), villageLat, villageLng, sourceLat, sourceLng);
            multiset(r) <= multiset(scored)
  {
    var ranked := RankedCandidates(dist, tankers, villageLat, villageLng, sourceLat, sourceLng);
    RankedFacts(dist, tankers, villageLat, villageLng, sourceLat, sourceLng);
    var k := SliceEnd(|ranked|, limit);
    assert ranked == ranked[..k] + ranked[k..];
    assert multiset(ranked) == multiset(ranked[..k]) + multiset(ranked[k..]);
  }

  /** A top-k: no scored tanker that was cut off scores above the last one kept. */
  lemma RecommendNoBetterLeftOut(dist: DistanceFn, tankers: seq<Tanker>, villageLat: real, villageLng: real,
                                 sourceLat: Option<real>, sourceLng: Option<real>, limit: int,
                                 x: AllocationRecommendation)
    requires var r := RecommendTankers(dist, tankers, villageLat, villageLng, sourceLat, sourceLng, limit);
             var scored := ScoreAll(dist, AvailableTankers(tankers), villageLat, villageLng, sourceLat, sourceLng);
             |r| > 0 && x in multiset(scored) - multiset(r)
    ensures var r := RecommendTankers(dist, tankers, villageLat, villageLng, sourceLat, sourceLng, limit);
            x.score <= r[|r| - 1].score
  {
    var ranked := RankedCandidates(dist, tankers, villageLat, villageLng, sourceLat, sourceLng);
    RankedFacts(dist, tankers, villageLat, villageLng, sourceLat, sourceLng);
    var k := SliceEnd(|ranked|, limit);
    SortedPrefixTopK(ranked, ByScoreDesc, k);
    assert ByScoreDesc(ranked[k - 1], x) <= 0;
  }

  /** The first recommendation scores at least as much as every available tanker. */
  lemma RecommendHeadIsBest(dist: DistanceFn, tankers: seq<Tanker>, villageLat: real, villageLng: real,
                            sourceLat: Option<real>, sourceLng: Option<real>, limit: int, t: Tanker)
    requires |RecommendTankers(dist, tankers, villageLat, villageLng, sourceLat, sourceLng, limit)| > 0
    requires t in tankers && t.status == Available
    ensures ScoreTankerForVillage(dist, t, villageLat, villageLng, sourceLat, sourceLng).score
            <= RecommendTankers(dist, tankers, villageLat, villageLng, sourceLat, sourceLng, limit)[0].score
  {
    var avail := AvailableTankers(tankers);
    var scored := ScoreAll(dist, avail, villageLat, villageLng, sourceLat, sourceLng);
    var ranked := RankedCandidates(dist, tankers, villageLat, villageLng, sourceLat, sourceLng);
    RankedFacts(dist, tankers, villageLat, villageLng, sourceLat, sourceLng);
    var j :| 0 <= j < |avail| && avail[j] == t;
    assert scored[j] in multiset(ranked);
    ByScoreDescIsTotalPreorder();
    SortedHeadFirst(ranked, ByScoreDesc, scored[j]);
  }

  /** Ties keep input order: among recommendations of equal score the order is
      that of the tanker list, and the kept ones are the earliest of them. */
  lemma RecommendStable(dist: DistanceFn, tankers: seq<Tanker>, villageLat: real, villageLng: real,
                        sourceLat: Option<real>, sourceLng: Option<real>, limit: int,
                        x: AllocationRecommendation)
    ensures var r := RecommendTankers(dist, tankers, villageLat, villageLng, sourceLat, sourceLng, limit);
            var scored := ScoreAll(dist, AvailableTankers(tankers), villageLat, villageLng, sourceLat, sourceLng);
            TiedWith(r, ByScoreDesc, x) <= TiedWith(scored, ByScoreDesc, x)
  {
    var ranked := RankedCandidates(dist, tankers, villageLat, villageLng, sourceLat, sourceLng);
    RankedFacts(dist, tankers, villageLat, villageLng, sourceLat, sourceLng);
    TiedWithPrefix(ranked, ByScoreDesc, x, SliceEnd(|ranked|, limit));
  }

  /** The source's "?? depot" falls back only on a missing coordinate: a source at
      (0, 0) is used as given. */
  lemma ZeroSourceIsUsed(dist: DistanceFn, tanker: Tanker, villageLat: real, villageLng: real)
    ensures TripDistance(dist, tanker, villageLat, villageLng, Some(0.0), Some(0.0))
         == dist(0.0, 0.0, villageLat, villageLng)
  {
  }

  /** The end-to-end example: a 10 km trip in a 10,000-litre available tanker
      scores round(0.6 * 90 + 0.2 * 66.67 + 20) = 87 and takes 15 minutes. */
  lemma TenKilometreExample(tanker: Tanker)
    requires tanker.capacity == 10000.0 && tanker.status == Available
    ensures WeightedScore(10.0, tanker) == 87
    ensures Round(10.0 / 40.0 * 60.0) == 15
  {
    assert ProximityScore(10.0) == 90.0;
    assert CapacityScore(10000.0) == 200.0 / 3.0;
  }
}
