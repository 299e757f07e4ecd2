/** The water-stress model of lib/stress-algorithm.ts: rainfall deviation, groundwater
    depth and population become a 0..100 stress score, and the score becomes a
    weekly tanker-trip demand. */
module StressAlgorithm {
  import opened Numeric

  datatype StressInput = StressInput(
    recentRainfallMm: real,
    historicalAvgRainfallMm: real,
    groundwaterLevel: real,
    population: real)

  datatype StressOutput = StressOutput(stressScore: int, rainfallDeviation: int, tankerDemand: int)

  /** Percent deviation of recent from historical rainfall, or 0 without a positive baseline. */
  function RainfallDeviation(recent: real, historical: real): (d: real)
    ensures historical <= 0.0 ==> d == 0.0
  {
    if historical > 0.0 then (recent - historical) / historical * 100.0 else 0.0
  }

  /** A shortfall of 60 % or more saturates at 100; a surplus scores 0. */
  function RainfallScore(deviation: real): (s: real)
    ensures 0.0 <= s <= 100.0
    ensures deviation <= -60.0 ==> s == 100.0
    ensures deviation >= 0.0 ==> s == 0.0
  {
    Clamp(-deviation / 60.0 * 100.0, 0.0, 100.0)
  }

  /** A water table 20 m or more below ground saturates at 100. */
  function GroundwaterScore(depth: real): (s: real)
    ensures 0.0 <= s <= 100.0
    ensures depth >= 20.0 ==> s == 100.0
    ensures depth <= 0.0 ==> s == 0.0
  {
    Clamp(depth / 20.0 * 100.0, 0.0, 100.0)
  }

  /** 50,000 people or more saturate at 100. */
  function PopulationScore(population: real): (s: real)
    ensures 0.0 <= s <= 100.0
    ensures population >= 50000.0 ==> s == 100.0
    ensures population <= 0.0 ==> s == 0.0
  {
    Clamp(population / 50000.0 * 100.0, 0.0, 100.0)
  }

  /** Math.round of the 40/40/20 weighted combination: always in 0..100, because
      the weights sum to one and every sub-score is clamped. */
  function CombinedScore(deviation: real, groundwater: real, population: real): (score: int)
    ensures 0 <= score <= 100
  {
    var weighted := RainfallScore(deviation) * 0.4
      + GroundwaterScore(groundwater) * 0.4 + PopulationScore(population) * 0.2;
    RoundBetween(weighted, 0, 100);
    Round(weighted)
  }

  /** Share of the population needing tanker supply: 0 below 50, 0.1 to 0.4 on
      [50, 75], 0.4 to 0.8 on (75, 100]. */
  function NeedFraction(stressScore: int): (f: real)
    ensures stressScore < 50 ==> f == 0.0
    ensures 50 <= stressScore <= 75 ==> 0.1 <= f <= 0.4
    ensures 75 <= stressScore <= 100 ==> 0.4 <= f <= 0.8
    ensures stressScore == 50 ==> f == 0.1
    ensures stressScore == 75 ==> f == 0.4
    ensures stressScore == 100 ==> f == 0.8
    ensures f >= 0.0
  {
    if stressScore < 50 then 0.0
    else if stressScore <= 75 then 0.1 + (stressScore - 50) as real / 25.0 * 0.3
    else 0.4 + (stressScore - 75) as real / 25.0 * 0.4
  }

  /** The fraction is linear on each band: 0.3 over the 25 points of [50, 75]
      and 0.4 over the 25 points above 75. */
  lemma NeedFractionLinear(a: int, b: int)
    requires 50 <= a <= b
    ensures b <= 75 ==> NeedFraction(b) - NeedFraction(a) == (b - a) as real * 0.3 / 25.0
    ensures 75 <= a ==> NeedFraction(b) - NeedFraction(a) == (b - a) as real * 0.4 / 25.0
  {
  }

  /** A higher score never lowers the fraction needing tankers. */
  lemma NeedFractionMonotone(a: int, b: int)
    requires a <= b
    ensures NeedFraction(a) <= NeedFraction(b)
  {
  }

  /** For a fixed, non-negative population, a higher score never asks for fewer trips. */
  lemma DemandMonotone(a: int, b: int, population: real)
    requires a <= b && population >= 0.0
    ensures CalculateTankerDemand(a, population) <= CalculateTankerDemand(b, population)
  {
    NeedFractionMonotone(a, b);
    assert population * NeedFraction(a) <= population * NeedFraction(b) by {
      assert population * (NeedFraction(b) - NeedFraction(a)) >= 0.0;
    }
    assert WeeklyLitres(a, population) <= WeeklyLitres(b, population);
  }

  /** Litres per week for the needing share at 40 litres per person per day. */
  function WeeklyLitres(stressScore: int, population: real): real
  {
    population * NeedFraction(stressScore) * 40.0 * 7.0
  }

  /** calculateTankerDemand: the fewest 10,000-litre trips that carry the weekly need. */
  function CalculateTankerDemand(stressScore: int, population: real): (trips: int)
    ensures trips as real * 10000.0 >= WeeklyLitres(stressScore, population)
    ensures (trips - 1) as real * 10000.0 < WeeklyLitres(stressScore, population)
    ensures stressScore < 50 ==> trips == 0
    ensures population >= 0.0 ==> trips >= 0
  {
    Ceil(WeeklyLitres(stressScore, population) / 10000.0)
  }

  /** calculateWaterStress. The score is computed from the unrounded deviation;
      only the reported deviation is rounded. The score is in 0..100 because
      CombinedScore is. */
  function CalculateWaterStress(input: StressInput): (out: StressOutput)
    ensures 0 <= out.stressScore <= 100
    ensures input.historicalAvgRainfallMm <= 0.0 ==> out.rainfallDeviation == 0
    ensures out.stressScore == CombinedScore(
      RainfallDeviation(input.recentRainfallMm, input.historicalAvgRainfallMm),
      input.groundwaterLevel, input.population)
    ensures out.rainfallDeviation
      == Round(RainfallDeviation(input.recentRainfallMm, input.historicalAvgRainfallMm))
    ensures out.tankerDemand == CalculateTankerDemand(out.stressScore, input.population)
  {
    StressFromDeviation(RainfallDeviation(input.recentRainfallMm, input.historicalAvgRainfallMm),
      input.groundwaterLevel, input.population)
  }

  /** The part of calculateWaterStress after the deviation is known. */
  function StressFromDeviation(deviation: real, groundwater: real, population: real): (out: StressOutput)
    ensures 0 <= out.stressScore <= 100
    ensures out.stressScore == CombinedScore(deviation, groundwater, population)
    ensures out.rainfallDeviation == Round(deviation)
    ensures deviation == 0.0 ==> out.rainfallDeviation == 0
    ensures out.tankerDemand == CalculateTankerDemand(out.stressScore, population)
  {
    RoundOfInteger(0);
    var stressScore := ClampedScore(deviation, groundwater, population);
    StressOutput(stressScore, Round(deviation), CalculateTankerDemand(stressScore, population))
  }

  /** `clamp(Math.round(weighted), 0, 100)`: the clamp never bites, since the
      rounded weighted score is already in range. */
  function ClampedScore(deviation: real, groundwater: real, population: real): (score: int)
    ensures score == CombinedScore(deviation, groundwater, population)
    ensures 0 <= score <= 100
  {
    var combined := CombinedScore(deviation, groundwater, population);
    ClampIntWithin(combined, 0, 100);
    ClampInt(combined, 0, 100)
  }

  lemma BalancedRainfall()
    ensures RainfallDeviation(55.0, 55.0) == 0.0 && Round(0.0) == 0
  {
  }

  lemma NothingAtStake()
    ensures CombinedScore(0.0, 0.0, 0.0) == 0 && CalculateTankerDemand(0, 0.0) == 0
  {
  }

  /** 55 mm against a 55 mm baseline, a water table at the surface and nobody living
      there give no stress at all. */
  lemma NoStressExample()
    ensures CalculateWaterStress(StressInput(55.0, 55.0, 0.0, 0.0)) == StressOutput(0, 0, 0)
  {
    BalancedRainfall();
    NothingAtStake();
  }

  /** No rain against a 100 mm baseline, a 20 m water table and 50,000 people give
      the maximum score, a -100 % deviation and 1120 trips a week. */
  lemma FullStressExample()
    ensures CalculateWaterStress(StressInput(0.0, 100.0, 20.0, 50000.0))
         == StressOutput(100, -100, 1120)
  {
    assert RainfallDeviation(0.0, 100.0) == -100.0;
    assert CombinedScore(-100.0, 20.0, 50000.0) == 100;
    assert WeeklyLitres(100, 50000.0) == 11200000.0;
  }

  lemma DeviationAntitone(r1: real, r2: real, historical: real)
    requires r1 <= r2
    ensures RainfallDeviation(r1, historical) <= RainfallDeviation(r2, historical)
  {
  }

  lemma CombinedScoreMonotone(dev1: real, gw1: real, pop1: real, dev2: real, gw2: real, pop2: real)
    requires dev2 <= dev1 && gw1 <= gw2 && pop1 <= pop2
    ensures CombinedScore(dev1, gw1, pop1) <= CombinedScore(dev2, gw2, pop2)
  {
    ClampMonotone(-dev1 / 60.0 * 100.0, -dev2 / 60.0 * 100.0, 0.0, 100.0);
    ClampMonotone(gw1 / 20.0 * 100.0, gw2 / 20.0 * 100.0, 0.0, 100.0);
    ClampMonotone(pop1 / 50000.0 * 100.0, pop2 / 50000.0 * 100.0, 0.0, 100.0);
    RoundMonotone(
      RainfallScore(dev1) * 0.4 + GroundwaterScore(gw1) * 0.4 + PopulationScore(pop1) * 0.2,
      RainfallScore(dev2) * 0.4 + GroundwaterScore(gw2) * 0.4 + PopulationScore(pop2) * 0.2);
  }

  /** Less recent rain, a deeper water table or more people never lower the score. */
  lemma StressMonotone(a: StressInput, b: StressInput)
    requires a.historicalAvgRainfallMm == b.historicalAvgRainfallMm
    requires b.recentRainfallMm <= a.recentRainfallMm
    requires a.groundwaterLevel <= b.groundwaterLevel
    requires a.population <= b.population
    ensures CalculateWaterStress(a).stressScore <= CalculateWaterStress(b).stressScore
  {
    DeviationAntitone(b.recentRainfallMm, a.recentRainfallMm, a.historicalAvgRainfallMm);
    CombinedScoreMonotone(
      RainfallDeviation(a.recentRainfallMm, a.historicalAvgRainfallMm),
      a.groundwaterLevel, a.population,
      RainfallDeviation(b.recentRainfallMm, b.historicalAvgRainfallMm),
      b.groundwaterLevel, b.population);
  }
}
