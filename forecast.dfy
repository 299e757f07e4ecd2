/** Rainfall-trend analysis and the stress forecast of lib/forecast.ts.

    A weather record's date is modelled by the instant it names, in milliseconds
    (a "YYYY-MM-DD" date is midnight UTC), and the wall clock by the instant
    `now`, both given by the caller. */
module Forecast {
  import opened Numeric
  import opened Domain
  import opened Sorting
  import opened StressAlgorithm

  datatype RainRecord = RainRecord(time: int, rainMm: real)

  datatype RainfallTrend = Declining | Stable | Improving

  datatype TrendResult = TrendResult(weeklyTotals: seq<real>, movingAvg7d: seq<real>, trend: RainfallTrend)

  const MsPerDay: int := 1000 * 60 * 60 * 24

  /** The comparator `new Date(a.date).getTime() - new Date(b.date).getTime()`. */
  function ByDateAsc(a: RainRecord, b: RainRecord): int
  {
    a.time - b.time
  }

  lemma ByDateAscIsTotalPreorder()
    ensures IsTotalPreorder(ByDateAsc)
  {
  }

  /** Math.floor of the elapsed days; Dafny's division by a positive divisor floors. */
  function DaysAgo(now: int, time: int): (d: int)
    ensures d * MsPerDay <= now - time < (d + 1) * MsPerDay
  {
    (now - time) / MsPerDay
  }

  /** Whether a record falls in the 28-day window. */
  predicate InWindow(daysAgo: int)
  {
    0 <= daysAgo < 28
  }

  /** `3 - Math.floor(daysAgo / 7)`: bucket 3 holds the last seven days, bucket 0
      the days 21 to 27 ago. */
  function WeekIndex(daysAgo: int): (w: int)
    requires InWindow(daysAgo)
    ensures 0 <= w < 4
    ensures w == 3 <==> daysAgo <= 6
    ensures w == 0 <==> 21 <= daysAgo
    ensures 3 - w == daysAgo / 7
  {
    3 - daysAgo / 7
  }

  /** Whether a record adds to bucket w. */
  predicate InWeek(now: int, r: RainRecord, w: int)
  {
    InWindow(DaysAgo(now, r.time)) && WeekIndex(DaysAgo(now, r.time)) == w
  }

  /** The unrounded total of bucket w over the records. */
  function WeekTotal(records: seq<RainRecord>, now: int, w: int): real
  {
    if records == [] then 0.0
    else
      var last := records[|records| - 1];
      WeekTotal(records[..|records| - 1], now, w) + (if InWeek(now, last, w) then last.rainMm else 0.0)
  }

  /** The total rainfall of the records in the 28-day window. */
  function WindowTotal(records: seq<RainRecord>, now: int): real
  {
    if records == [] then 0.0
    else
      var last := records[|records| - 1];
      WindowTotal(records[..|records| - 1], now)
        + (if InWindow(DaysAgo(now, last.time)) then last.rainMm else 0.0)
  }

  function RainValues(records: seq<RainRecord>): (r: seq<real>)
    ensures |r| == |records|
    ensures forall i :: 0 <= i < |r| ==> r[i] == records[i].rainMm
  {
    seq(|records|, i requires 0 <= i < |records| => records[i].rainMm)
  }

  /** Entry k is the mean of values k..k+6, rounded to two decimals. */
  function MovingAverages(values: seq<real>): (r: seq<real>)
    ensures |r| == if |values| >= 7 then |values| - 6 else 0
    ensures forall k :: 0 <= k < |r| ==>
              Sum(values[k..k + 7]) / 7.0 - 0.005 < r[k] <= Sum(values[k..k + 7]) / 7.0 + 0.005
  {
    seq(if |values| >= 7 then |values| - 6 else 0,
      k requires 0 <= k < |values| - 6 => RoundHundredth(Sum(values[k..k + 7]) / 7.0))
  }

  function RecentAverage(weekly: seq<real>): real
    requires |weekly| == 4
  {
    (weekly[2] + weekly[3]) / 2.0
  }

  function PriorAverage(weekly: seq<real>): real
    requires |weekly| == 4
  {
    (weekly[0] + weekly[1]) / 2.0
  }

  /** The last two weeks against the two before: no rain in either is stable, rain
      after none is improving, and otherwise a change beyond 15 % either way
      decides. */
  function ClassifyTrend(weekly: seq<real>): (t: RainfallTrend)
    requires |weekly| == 4
  {
    var recentAvg := RecentAverage(weekly);
    var priorAvg := PriorAverage(weekly);
    if priorAvg == 0.0 && recentAvg == 0.0 then Stable
    else if priorAvg == 0.0 then Improving
    else
      var change := (recentAvg - priorAvg) / priorAvg * 100.0;
      if change < -15.0 then Declining
      else if change > 15.0 then Improving
      else Stable
  }

  /** The trend in terms of the two averages alone. */
  lemma TrendByAverages(weekly: seq<real>)
    requires |weekly| == 4
    ensures var recent := RecentAverage(weekly);
            var prior := PriorAverage(weekly);
            && (prior == 0.0 ==> (ClassifyTrend(weekly) == Stable <==> recent == 0.0))
            && (prior == 0.0 ==> (ClassifyTrend(weekly) == Improving <==> recent != 0.0))
            && (prior > 0.0 ==> (ClassifyTrend(weekly) == Declining <==> recent < 0.85 * prior))
            && (prior > 0.0 ==> (ClassifyTrend(weekly) == Improving <==> recent > 1.15 * prior))
            && (prior > 0.0 ==>
                  (ClassifyTrend(weekly) == Stable <==> 0.85 * prior <= recent <= 1.15 * prior))
  {
    var recent := RecentAverage(weekly);
    var prior := PriorAverage(weekly);
    if prior > 0.0 {
      var q := (recent - prior) / prior;
      assert q * prior == recent - prior;
      ScaledBelow(q, prior);
    }
  }

  lemma ScaledBelow(q: real, p: real)
    requires p > 0.0
    ensures q * 100.0 < -15.0 <==> q * p < -0.15 * p
    ensures q * 100.0 > 15.0 <==> q * p > 0.15 * p
  {
    if q < -0.15 {
      assert (q + 0.15) * p < 0.0;
    }
    if q >= -0.15 {
      assert (q + 0.15) * p >= 0.0;
    }
    if q > 0.15 {
      assert (q - 0.15) * p > 0.0;
    }
    if q <= 0.15 {
      assert (q - 0.15) * p <= 0.0;
    }
  }

  /** The records in date order, as the first statement of computeRainfallTrend. */
  function SortedRecords(records: seq<RainRecord>): seq<RainRecord>
  {
    SortBy(records, ByDateAsc)
  }

  /** The rounded weekly totals of date-ordered records. */
  function WeeklyTotalsOf(sorted: seq<RainRecord>, now: int): (r: seq<real>)
    ensures |r| == 4
    ensures forall w :: 0 <= w < 4 ==>
              WeekTotal(sorted, now, w) - 0.05 < r[w] <= WeekTotal(sorted, now, w) + 0.05
  {
    seq(4, w requires 0 <= w < 4 => RoundTenth(WeekTotal(sorted, now, w)))
  }

  /** The value computeRainfallTrend returns. */
  function RainfallTrendOf(records: seq<RainRecord>, now: int): (r: TrendResult)
    ensures |r.weeklyTotals| == 4
    ensures |r.movingAvg7d| == if |records| >= 7 then |records| - 6 else 0
  {
    var sorted := SortedRecords(records);
    var weekly := WeeklyTotalsOf(sorted, now);
    TrendResult(weekly, MovingAverages(RainValues(sorted)), ClassifyTrend(weekly))
  }

  /** The two bucket loops of computeRainfallTrend: the four totals are filled in
      place, skipping records outside the window, then rounded in place. */
  method WeeklyBuckets(sorted: seq<RainRecord>, now: int) returns (weekly: seq<real>)
    ensures weekly == WeeklyTotalsOf(sorted, now)
  {
    var weeklyTotals := new real[4](_ => 0.0);
    for k := 0 to |sorted|
      invariant forall w :: 0 <= w < 4 ==> weeklyTotals[w] == WeekTotal(sorted[..k], now, w)
    {
      assert sorted[..k + 1][..k] == sorted[..k];
      var r := sorted[k];
      var daysAgo := DaysAgo(now, r.time);
      if daysAgo < 0 || daysAgo >= 28 {
        continue;
      }
      var weekIdx := 3 - daysAgo / 7;
      weeklyTotals[weekIdx] := weeklyTotals[weekIdx] + r.rainMm;
    }
    assert sorted[..|sorted|] == sorted;
    for i := 0 to 4
      invariant forall w :: 0 <= w < i ==> weeklyTotals[w] == RoundTenth(WeekTotal(sorted, now, w))
      invariant forall w :: i <= w < 4 ==> weeklyTotals[w] == WeekTotal(sorted, now, w)
    {
      weeklyTotals[i] := RoundTenth(weeklyTotals[i]);
    }
    weekly := weeklyTotals[..];
  }

  /** The moving-average loop: one rounded 7-day mean pushed per full window. */
  method MovingAverage7d(dailyValues: seq<real>) returns (movingAvg7d: seq<real>)
    ensures movingAvg7d == MovingAverages(dailyValues)
  {
    movingAvg7d := [];
    ghost var averages := MovingAverages(dailyValues);
    var i := 6;
    while i < |dailyValues|
      invariant 6 <= i
      invariant i <= |dailyValues| || |dailyValues| < 6
      invariant movingAvg7d == averages[..if i <= |dailyValues| then i - 6 else 0]
    {
      var window := dailyValues[i - 6..i + 1];
      var avg := Sum(window) / 7.0;
      movingAvg7d := movingAvg7d + [RoundHundredth(avg)];
      i := i + 1;
    }
    assert averages[..|averages|] == averages;
  }

  /** computeRainfallTrend. */
  method ComputeRainfallTrend(records: seq<RainRecord>, now: int) returns (result: TrendResult)
    ensures result == RainfallTrendOf(records, now)
  {
    var sorted := SortedRecords(records);
    var weeklyTotals := WeeklyBuckets(sorted, now);
    var movingAvg7d := MovingAverage7d(RainValues(sorted));
    result := TrendResult(weeklyTotals, movingAvg7d, ClassifyTrend(weeklyTotals));
  }

  /** A record outside the 28-day window adds to no bucket. */
  lemma OutOfWindowIgnored(records: seq<RainRecord>, now: int, r: RainRecord, w: int)
    requires !InWindow(DaysAgo(now, r.time))
    ensures WeekTotal(records + [r], now, w) == WeekTotal(records, now, w)
  {
    assert (records + [r])[..|records|] == records;
  }

  /** Before rounding the four buckets share out exactly the window's rainfall. */
  lemma {:induction false} BucketsPartitionWindow(records: seq<RainRecord>, now: int)
    ensures WeekTotal(records, now, 0) + WeekTotal(records, now, 1) + WeekTotal(records, now, 2)
            + WeekTotal(records, now, 3) == WindowTotal(records, now)
  {
    if records != [] {
      BucketsPartitionWindow(records[..|records| - 1], now);
    }
  }

  // ---------------------------------------------------------------------------
  // forecastStress

  datatype RiskLevel = Rising | Steady | Falling

  datatype Projection = Projection(projectedScore: int, projectedDemand: int, riskLevel: RiskLevel)

  /** How far the trend moves the rainfall deviation, in percentage points. */
  function DeviationShift(trend: RainfallTrend): int
  {
    match trend
    case Declining => -10
    case Improving => 8
    case Stable => 0
  }

  /** The stress input of the projection: the rainfall implied by the shifted
      deviation, never negative; groundwater, population and the historical
      average are the village's own. */
  function ProjectedInput(village: Village, trend: RainfallTrend): (input: StressInput)
    ensures input.historicalAvgRainfallMm == village.historicalAvgRainfall
    ensures input.groundwaterLevel == village.groundwaterLevel
    ensures input.population == village.population as real
    ensures input.recentRainfallMm >= 0.0
  {
    var projectedDeviation := village.rainfallDeviation + DeviationShift(trend);
    var projectedRainfall := village.historicalAvgRainfall * (1.0 + projectedDeviation as real / 100.0);
    StressInput(Max(0.0, projectedRainfall), village.historicalAvgRainfall,
      village.groundwaterLevel, village.population as real)
  }

  /** A move of more than 3 points either way is a risk change. */
  function RiskFromDelta(scoreDelta: int): (r: RiskLevel)
    ensures r == Rising <==> scoreDelta > 3
    ensures r == Falling <==> scoreDelta < -3
    ensures r == Steady <==> -3 <= scoreDelta <= 3
  {
    if scoreDelta > 3 then Rising
    else if scoreDelta < -3 then Falling
    else Steady
  }

  /** forecastStress. */
  function ForecastStress(village: Village, trend: RainfallTrend): (p: Projection)
    ensures 0 <= p.projectedScore <= 100
    ensures var out := CalculateWaterStress(ProjectedInput(village, trend));
            p.projectedScore == out.stressScore && p.projectedDemand == out.tankerDemand
    ensures p.riskLevel == RiskFromDelta(p.projectedScore - village.stressScore)
  {
    var result := CalculateWaterStress(ProjectedInput(village, trend));
    Projection(result.stressScore, result.tankerDemand,
      RiskFromDelta(result.stressScore - village.stressScore))
  }

  /** A smaller shift never gives more projected rain. */
  lemma ProjectedRainMonotone(village: Village, t1: RainfallTrend, t2: RainfallTrend)
    requires DeviationShift(t1) <= DeviationShift(t2)
    requires village.historicalAvgRainfall > 0.0
    ensures ProjectedInput(village, t1).recentRainfallMm <= ProjectedInput(village, t2).recentRainfallMm
  {
    var h := village.historicalAvgRainfall;
    var d1 := (village.rainfallDeviation + DeviationShift(t1)) as real;
    var d2 := (village.rainfallDeviation + DeviationShift(t2)) as real;
    assert h * (1.0 + d2 / 100.0) - h * (1.0 + d1 / 100.0) == h * (d2 - d1) / 100.0;
  }

  /** A worse trend never projects a lower score. */
  lemma ProjectionMonotone(village: Village, t1: RainfallTrend, t2: RainfallTrend)
    requires DeviationShift(t1) <= DeviationShift(t2)
    ensures ForecastStress(village, t2).projectedScore <= ForecastStress(village, t1).projectedScore
  {
    if village.historicalAvgRainfall > 0.0 {
      ProjectedRainMonotone(village, t1, t2);
      StressMonotone(ProjectedInput(village, t2), ProjectedInput(village, t1));
    }
  }

  /** For one village: declining >= stable >= improving. */
  lemma TrendOrdering(village: Village)
    ensures ForecastStress(village, Declining).projectedScore >= ForecastStress(village, Stable).projectedScore
    ensures ForecastStress(village, Stable).projectedScore >= ForecastStress(village, Improving).projectedScore
  {
    ProjectionMonotone(village, Declining, Stable);
    ProjectionMonotone(village, Stable, Improving);
  }
}
