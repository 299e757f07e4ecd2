/** The per-village assembly and the ordering of app/api/forecast/route.ts. The
    store query becomes an input: each village with its weather records. */
module ForecastRoute {
  import opened Domain
  import opened Sorting
  import opened Forecast

  datatype VillageRecords = VillageRecords(village: Village, records: seq<RainRecord>)

  datatype ForecastResult = ForecastResult(
    villageId: string,
    villageName: string,
    district: string,
    currentScore: int,
    projectedScore: int,
    currentDemand: int,
    projectedDemand: int,
    riskLevel: RiskLevel,
    trend: RainfallTrend,
    weeklyRainfall: seq<real>)

  /** One village's forecast: the trend of its records, and the projection for
      that same trend. */
  function BuildForecast(vr: VillageRecords, now: int): (f: ForecastResult)
    ensures var trendResult := RainfallTrendOf(vr.records, now);
            && f.trend == trendResult.trend && f.weeklyRainfall == trendResult.weeklyTotals
            && f.projectedScore == ForecastStress(vr.village, trendResult.trend).projectedScore
            && f.projectedDemand == ForecastStress(vr.village, trendResult.trend).projectedDemand
            && f.riskLevel == ForecastStress(vr.village, trendResult.trend).riskLevel
    ensures f.villageId == vr.village.villageCode && f.villageName == vr.village.name
    ensures f.district == vr.village.district
    ensures f.currentScore == vr.village.stressScore && f.currentDemand == vr.village.tankerDemand
    ensures 0 <= f.projectedScore <= 100 && |f.weeklyRainfall| == 4
  {
    var trendResult := RainfallTrendOf(vr.records, now);
    var projection := ForecastStress(vr.village, trendResult.trend);
    ForecastResult(vr.village.villageCode, vr.village.name, vr.village.district,
      vr.village.stressScore, projection.projectedScore, vr.village.tankerDemand,
      projection.projectedDemand, projection.riskLevel, trendResult.trend, trendResult.weeklyTotals)
  }

  /** The map step: one result per village, in order. */
  function BuildAll(villages: seq<VillageRecords>, now: int): (r: seq<ForecastResult>)
    ensures |r| == |villages|
    ensures forall i :: 0 <= i < |r| ==> r[i] == BuildForecast(villages[i], now)
  {
    seq(|villages|, i requires 0 <= i < |villages| => BuildForecast(villages[i], now))
  }

  /** `{ rising: 0, steady: 1, falling: 2 }`. */
  function RiskRank(r: RiskLevel): nat
  {
    match r
    case Rising => 0
    case Steady => 1
    case Falling => 2
  }

  /** The route's comparator: risk rank first, then projected score descending. */
  function ByRiskThenScore(a: ForecastResult, b: ForecastResult): int
  {
    var riskDiff := RiskRank(a.riskLevel) - RiskRank(b.riskLevel);
    if riskDiff != 0 then riskDiff else b.projectedScore - a.projectedScore
  }

  lemma ByRiskThenScoreIsTotalPreorder()
    ensures IsTotalPreorder(ByRiskThenScore)
  {
  }

  /** The response body: all forecasts, sorted. */
  function Forecasts(villages: seq<VillageRecords>, now: int): seq<ForecastResult>
  {
    SortBy(BuildAll(villages, now), ByRiskThenScore)
  }

  /** One result per village: the sort only reorders. */
  lemma ForecastsPermutation(villages: seq<VillageRecords>, now: int)
    ensures |Forecasts(villages, now)| == |villages|
    ensures multiset(Forecasts(villages, now)) == multiset(BuildAll(villages, now))
    ensures forall f :: f in Forecasts(villages, now) <==>
              exists i :: 0 <= i < |villages| && f == BuildForecast(villages[i], now)
  {
    SortByMembers(BuildAll(villages, now), ByRiskThenScore);
    BuildAllMembers(villages, now);
  }

  /** The map step yields exactly the villages' forecasts. */
  lemma BuildAllMembers(villages: seq<VillageRecords>, now: int)
    ensures forall f :: f in BuildAll(villages, now) <==>
              exists i :: 0 <= i < |villages| && f == BuildForecast(villages[i], now)
  {
    var built := BuildAll(villages, now);
    forall f | f in built ensures exists i :: 0 <= i < |villages| && f == BuildForecast(villages[i], now) {
      var i :| 0 <= i < |built| && built[i] == f;
    }
  }

  /** Rising results come before steady ones, which come before falling ones, and
      within one risk level projected scores do not increase. */
  lemma ForecastsOrdered(villages: seq<VillageRecords>, now: int)
    ensures var r := Forecasts(villages, now);
            forall i, j :: 0 <= i < j < |r| ==>
              && RiskRank(r[i].riskLevel) <= RiskRank(r[j].riskLevel)
              && (r[i].riskLevel == r[j].riskLevel ==> r[i].projectedScore >= r[j].projectedScore)
  {
    var r := Forecasts(villages, now);
    ByRiskThenScoreIsTotalPreorder();
    SortBySorted(BuildAll(villages, now), ByRiskThenScore);
    forall i, j | 0 <= i < j < |r|
      ensures && RiskRank(r[i].riskLevel) <= RiskRank(r[j].riskLevel)
              && (r[i].riskLevel == r[j].riskLevel ==> r[i].projectedScore >= r[j].projectedScore)
    {
      assert ByRiskThenScore(r[i], r[j]) <= 0;
    }
  }

  /** Results of equal risk and equal projected score keep the village order. */
  lemma ForecastsStable(villages: seq<VillageRecords>, now: int, x: ForecastResult)
    ensures TiedWith(Forecasts(villages, now), ByRiskThenScore, x)
         == TiedWith(BuildAll(villages, now), ByRiskThenScore, x)
  {
    ByRiskThenScoreIsTotalPreorder();
    SortByStable(BuildAll(villages, now), ByRiskThenScore, x);
  }
}
