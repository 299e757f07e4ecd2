# JalSarthi decision core in Dafny

JalSarthi dispatches water tankers to villages during a drought. This project
models the decision rules at its centre, with proofs, in Dafny:

- the water-stress score of a village: rainfall deviation, groundwater depth
  and population, combined into a clamped 0..100 score and a weekly tanker-trip
  demand (`StressAlgorithm`, `Domain.GetStressLevel`);
- the tanker scorer and ranker that proposes tankers for a village
  (`TankerAllocation`);
- the greedy auto-assign planner. It walks the eligible villages in
  stress-descending order and gives each one the best unused available
  tanker, up to a cap (`AutoAssign`);
- the four-week rainfall trend, the 7-day moving average and the projected
  stress of a village (`Forecast`), and the risk-ordered forecast list
  (`ForecastRoute`);
- the validator that sanitises an untrusted tanker-to-village plan
  (`AiOptimizer`);
- the district and overall statistics, and the dispatch, fleet and district
  reports (`Stats`, `ReportStats`);
- the CSV text of a table export (`ExportUtils`) and the WhatsApp dispatch
  message with its phone normalisation (`WhatsApp`).

Shared modules:

- `Numeric`: JavaScript rounding, `Math.ceil`, clamps and sums over reals;
- `Sorting`: the stable comparator sort of `Array.prototype.sort`, as an
  insertion-sort function with its sortedness, permutation and stability
  lemmas;
- `Aggregate`: sums, groups (`filter`), first-appearance key lists (the key
  order of a JavaScript `Map`) and tallies (`counts[k] = (counts[k] || 0) + 1`);
- `Strings`: `join` and `split` on one separator character;
- `Geo`: the distance function, which is passed in as a parameter.

Numbers are Dafny `real`s and `int`s, not IEEE doubles:

- `Math.round(x)` is `Floor(x + 0.5)`;
- `Math.ceil(x)` is `-Floor(-x)`;
- rounding to one or two decimals is `Round(x * 10) / 10` and
  `Round(x * 100) / 100`.

JavaScript's `??` is modelled as `Option` with a default. `||` on counts and
strings follows JavaScript falsiness.

The code is imperative in three places, and those are Dafny methods with loop
invariants, each proved equal to the specification function the lemmas
speak about:

- the auto-assign loop (`AutoAssign.AssignLoop`);
- the bucket and moving-average loops of `computeRainfallTrend`
  (`Forecast.WeeklyBuckets` over an `array<real>`, `Forecast.MovingAverage7d`);
- the counting loops of the reports and the grouping loop of the district
  statistics (`ReportStats.ComputeDispatchStats`,
  `ReportStats.ComputeFleetStats`, `ReportStats.BuildNameMap`,
  `ReportStats.CountOpenDispatches`, `Stats.GroupByDistrict`).

`AiOptimizer.ValidatePlan` is a method whose loop keeps the two "used" sets.

The same district and overall statistics appear twice in the source, in
`lib/stats.ts` and in `lib/mock-data.ts`. One model, `Stats`, serves both.

## Model

| member | source | states |
|---|---|---|
| Numeric.Round | lib/stress-algorithm.ts:51-53 | `Math.round` lands within half a unit of its argument, rounding halves up |
| Numeric.Ceil | lib/stress-algorithm.ts:91 | `Math.ceil` is the least integer at or above its argument |
| Numeric.RoundTenth | lib/tanker-allocation.ts:60 | rounding to 0.1 km is within 0.05 of the value |
| Numeric.RoundHundredth | lib/forecast.ts:60 | rounding to two decimals is within 0.005 of the value |
| Numeric.Clamp | lib/stress-algorithm.ts:96-98 | `clamp` lies in [lo, hi], returns the value itself when it is inside, and returns the bound it crosses otherwise |
| Numeric.ClampInt | lib/stress-algorithm.ts:57-58 | clamping an integer score agrees with the real clamp |
| Numeric.RoundMonotone | lib/stress-algorithm.ts:51-53 | rounding never reverses an order |
| Numeric.ClampMonotone | lib/stress-algorithm.ts:96-98 | clamping never reverses an order |
| Domain.GetStressLevel | lib/types.ts:28-32 | "safe" exactly below 50, "warning" exactly on [50, 75] with 75 included, "critical" exactly above 75 |
| Domain.StressLevelMonotone | lib/types.ts:28-32 | a higher score never yields a less severe level |
| Domain.PriorityFromStress | app/api/dispatches/auto-assign/route.ts:79-84 | "urgent" exactly above 75, "high" exactly on (60, 75], "medium" otherwise, and never "low" |
| StressAlgorithm.RainfallDeviation | lib/stress-algorithm.ts:33-39 | the deviation is 0 whenever the historical average is not positive, whatever the recent rainfall |
| StressAlgorithm.RainfallScore | lib/stress-algorithm.ts:42 | the rainfall sub-score lies in [0, 100]; a 60% shortfall or worse saturates it at 100; no shortfall gives 0 |
| StressAlgorithm.GroundwaterScore | lib/stress-algorithm.ts:45 | the groundwater sub-score lies in [0, 100], is 100 from 20 m depth on, and is 0 at the surface |
| StressAlgorithm.PopulationScore | lib/stress-algorithm.ts:48 | the population sub-score lies in [0, 100], is 100 from 50,000 people on, and is 0 for no people |
| StressAlgorithm.CombinedScore | lib/stress-algorithm.ts:51-53 | the rounded weighted score of the three sub-scores lies in [0, 100] |
| StressAlgorithm.NeedFraction | lib/stress-algorithm.ts:81-87 | the need fraction is 0 below 50; it is 0.1 at 50, 0.4 at 75 and 0.8 at 100, lies in [0.1, 0.4] on [50, 75] and in [0.4, 0.8] on [75, 100] |
| StressAlgorithm.NeedFractionLinear | lib/stress-algorithm.ts:81-87 | the need fraction grows by 0.3 per 25 points on [50, 75] and by 0.4 per 25 points from 75 on |
| StressAlgorithm.NeedFractionMonotone | lib/stress-algorithm.ts:71-87 | a higher stress score never gets a smaller share of the population in need |
| StressAlgorithm.DemandMonotone | lib/stress-algorithm.ts:81-91 | for the same non-negative population, a higher stress score never needs fewer trips |
| StressAlgorithm.CalculateTankerDemand | lib/stress-algorithm.ts:75-94 | the trip count is the least whole number of 10,000 L trips covering the weekly litres needed; it is 0 below score 50 and never negative for a non-negative population |
| StressAlgorithm.CalculateWaterStress | lib/stress-algorithm.ts:24-62 | the score lies in [0, 100] and is computed from the unrounded deviation; the reported deviation is the rounded one and is 0 when there is no historical average; the demand is the demand of the returned score |
| StressAlgorithm.ClampedScore | lib/stress-algorithm.ts:51-58 | the clamped score is the combined score, which already lies in [0, 100] |
| StressAlgorithm.StressFromDeviation | lib/stress-algorithm.ts:51-61 | once the deviation is known, the score is the clamped combined score and the demand follows from it |
| StressAlgorithm.BalancedRainfall | lib/stress-algorithm.ts:33-39 | equal recent and historical rainfall means a deviation of 0 |
| StressAlgorithm.NothingAtStake | lib/stress-algorithm.ts:42-55 | no shortfall, no depth and no people give score 0 and no trips |
| StressAlgorithm.NoStressExample | lib/stress-algorithm.ts:32-61 | recent equal to historical, groundwater 0 and population 0 give score 0, deviation 0 and demand 0 |
| StressAlgorithm.FullStressExample | lib/stress-algorithm.ts:32-61 | no rain against 100 mm, 20 m depth and 50,000 people give score 100, deviation -100 and 1120 trips |
| StressAlgorithm.DeviationAntitone | lib/stress-algorithm.ts:33-39 | more recent rain, against the same historical average, never lowers the deviation |
| StressAlgorithm.CombinedScoreMonotone | lib/stress-algorithm.ts:42-53 | the score never falls as the shortfall, the depth or the population grows |
| StressAlgorithm.StressMonotone | lib/stress-algorithm.ts:24-62 | for the same historical average, the score is non-increasing in recent rainfall and non-decreasing in groundwater depth and population |
| Strings.SplitJoin | lib/export-utils.ts:20 | splitting the join of a non-empty list of separator-free parts on that separator gives back the list |
| TankerAllocation.ProximityScore | lib/tanker-allocation.ts:45 | proximity lies in [0, 100] for a non-negative distance and is 0 from 100 km on |
| TankerAllocation.CapacityScore | lib/tanker-allocation.ts:48 | the capacity score is at most 100, is 100 from 15,000 L on, and is not negative for a non-negative capacity |
| TankerAllocation.TripDistance | lib/tanker-allocation.ts:33-41 | with both source coordinates missing the trip starts at the depot; with both given it starts at the source, even at 0, 0; the distance is never negative |
| TankerAllocation.WeightedScore | lib/tanker-allocation.ts:51-55 | an available tanker scores in [20, 100] and any other tanker in [0, 80] |
| TankerAllocation.ScoreTankerForVillage | lib/tanker-allocation.ts:26-64 | the result names the tanker; its distance is the trip distance rounded to 0.1 km; the time and the score come from the unrounded distance |
| TankerAllocation.AvailableTankers | lib/tanker-allocation.ts:75 | the filter keeps exactly the tankers whose status is "available" |
| TankerAllocation.ScoreAll | lib/tanker-allocation.ts:76-78 | one score per tanker, in input order |
| TankerAllocation.ByScoreDescIsTotalPreorder | lib/tanker-allocation.ts:79 | the score comparator is a total preorder, so the stable sort is well defined |
| TankerAllocation.SliceEnd | lib/tanker-allocation.ts:80 | `slice(0, limit)` keeps at most `limit` entries, and no more than exist |
| TankerAllocation.RecommendTankers | lib/tanker-allocation.ts:66-81 | the length of the list is the sliced count of the available tankers |
| TankerAllocation.RecommendOnlyAvailable | lib/tanker-allocation.ts:75-78 | every recommended tanker is an input tanker with status "available", scored against this village |
| TankerAllocation.RecommendLength | lib/tanker-allocation.ts:72-80 | at most `limit` (default 5) recommendations, at most as many as available tankers, and exactly `limit` when enough are available |
| TankerAllocation.RecommendSorted | lib/tanker-allocation.ts:79 | recommendations are in non-increasing score order |
| TankerAllocation.RecommendDrawnFromScored | lib/tanker-allocation.ts:76-80 | the recommendations are a sub-multiset of the scored available tankers |
| TankerAllocation.RecommendNoBetterLeftOut | lib/tanker-allocation.ts:79-80 | every scored tanker left out scores no more than the last one returned, so the list is a top-k |
| TankerAllocation.RecommendHeadIsBest | lib/tanker-allocation.ts:75-80 | the first recommendation scores at least as much as every available tanker |
| TankerAllocation.RecommendStable | lib/tanker-allocation.ts:79 | equally scored tankers keep their input order |
| TankerAllocation.ZeroSourceIsUsed | lib/tanker-allocation.ts:33-34 | a source at 0, 0 is used as the origin, because `??` only replaces null and undefined |
| TankerAllocation.TenKilometreExample | lib/tanker-allocation.ts:42-55 | an available 10,000 L tanker 10 km away scores 87 and needs 15 minutes |
| AutoAssign.AtLeastStress | app/api/dispatches/auto-assign/route.ts:20-23 | the village query keeps exactly the villages at or above the minimum stress |
| AutoAssign.ByStressDescIsTotalPreorder | app/api/dispatches/auto-assign/route.ts:22 | the stress-descending order is a total preorder |
| AutoAssign.ActiveVillageIds | app/api/dispatches/auto-assign/route.ts:26-32 | the served set holds exactly the villages with a pending, assigned, in-transit or delivering dispatch |
| AutoAssign.Unserved | app/api/dispatches/auto-assign/route.ts:34-36 | the unserved villages are exactly those without an open dispatch |
| AutoAssign.UnusedTankers | app/api/dispatches/auto-assign/route.ts:62-64 | the candidates are exactly the tankers not yet used in this run |
| AutoAssign.NewDispatch | app/api/dispatches/auto-assign/route.ts:86-99 | the new dispatch is pending, for this village and the chosen tanker, its priority is never "low", and its trips are the village's demand, or 1 when the demand is 0 |
| AutoAssign.AssignLoop | app/api/dispatches/auto-assign/route.ts:55-123 | the loop's `created` and `skipped` lists are those of the greedy plan |
| AutoAssign.AutoAssignPlan | app/api/dispatches/auto-assign/route.ts:16-123 | the request's result is the greedy plan over the eligible villages and the available tankers, with the defaults applied by `??` |
| AutoAssign.PlanVillages | app/api/dispatches/auto-assign/route.ts:16-36 | every village walked is an input village, at or above the minimum stress (default 70), with no open dispatch |
| AutoAssign.PlanVillagesByStress | app/api/dispatches/auto-assign/route.ts:20-36 | the walk is in stress-descending order |
| AutoAssign.UnservedKeepsOrder | app/api/dispatches/auto-assign/route.ts:34-36 | removing served villages keeps the stress order |
| AutoAssign.ExplicitZeroHonoured | app/api/dispatches/auto-assign/route.ts:17 | an explicit `maxDispatches` of 0 creates nothing, because `??` keeps a zero |
| AutoAssign.VisitChoosesBest | app/api/dispatches/auto-assign/route.ts:62-122 | a village is either skipped with nothing else changed, or gets one dispatch to an unused available tanker that scores at least as well as every other unused one, and that tanker becomes used |
| AutoAssign.GreedyExtends | app/api/dispatches/auto-assign/route.ts:59-123 | the loop only appends to `created` and `skipped` |
| AutoAssign.GreedyCap | app/api/dispatches/auto-assign/route.ts:60 | the loop never creates more than `maxDispatches` dispatches |
| AutoAssign.DefaultCap | app/api/dispatches/auto-assign/route.ts:17 | with no `maxDispatches` given, at most 10 dispatches are created |
| AutoAssign.GreedyExclusive | app/api/dispatches/auto-assign/route.ts:57-121 | the loop keeps every created tanker id distinct and recorded in the used set |
| AutoAssign.ExclusiveAdd | app/api/dispatches/auto-assign/route.ts:121-122 | adding a dispatch for an unused tanker keeps the tanker ids distinct |
| AutoAssign.NoTankerTwice | app/api/dispatches/auto-assign/route.ts:57-121 | no tanker id appears twice among the created dispatches |
| AutoAssign.GreedyInOrder | app/api/dispatches/auto-assign/route.ts:59 | the served villages are an in-order subsequence of the walk, so each is visited once |
| AutoAssign.CreatedOncePerVillage | app/api/dispatches/auto-assign/route.ts:59 | when the walk names each village once, no two created dispatches serve the same village |
| AutoAssign.CreatedVillagesEligible | app/api/dispatches/auto-assign/route.ts:16-123 | the served villages are visited in walk order, and each is an input village at or above the minimum stress with no open dispatch |
| AutoAssign.EligibleRun | app/api/dispatches/auto-assign/route.ts:20-123 | any run over a walk of eligible villages serves only eligible villages, in walk order |
| AutoAssign.UnusedCount | app/api/dispatches/auto-assign/route.ts:62-64 | with distinct ids, the unused tankers number the tankers less the used ids among them |
| AutoAssign.UnusedNoneLeft | app/api/dispatches/auto-assign/route.ts:62-65 | once every tanker id is used, no candidate is left |
| AutoAssign.RecommendNonEmpty | app/api/dispatches/auto-assign/route.ts:67-76 | a non-empty set of available candidates always yields a recommendation |
| AutoAssign.VisitCreates | app/api/dispatches/auto-assign/route.ts:67-122 | when recommendations exist, the visit appends the dispatch for the head and marks its tanker as used |
| AutoAssign.AllAvailableStep | app/api/dispatches/auto-assign/route.ts:59-123 | when all tankers are available and some is unused, the visit creates exactly one dispatch, for this village, and skips nothing |
| AutoAssign.NoneLeftMeansFull | app/api/dispatches/auto-assign/route.ts:62-65 | when all tankers are available, none is left exactly when every tanker has a dispatch |
| AutoAssign.GreedyGrowth | app/api/dispatches/auto-assign/route.ts:59-123 | the loop creates at most one dispatch per village |
| AutoAssign.GreedyAllAvailableCount | app/api/dispatches/auto-assign/route.ts:59-76 | when all tankers are available, the loop creates min(cap, tankers, villages) dispatches, counting those already made, and skips nothing |
| AutoAssign.GreedyAllAvailableOrder | app/api/dispatches/auto-assign/route.ts:59-123 | when all tankers are available, the dispatches serve the villages in walk order, with none missing |
| AutoAssign.AllAvailablePlan | app/api/dispatches/auto-assign/route.ts:39-123 | the tanker query returns only available tankers, so `skipped` stays empty and the plan serves exactly the first min(maxDispatches, #tankers, #unserved) villages of the walk |
| AutoAssign.GreedyStep | app/api/dispatches/auto-assign/route.ts:59-65 | below the cap with a tanker left, the loop visits the next village and goes on |
| AutoAssign.GreedyStops | app/api/dispatches/auto-assign/route.ts:60-65 | at the cap, with no tanker left or with no village left, the loop stops with its state unchanged |
| Forecast.ByDateAscIsTotalPreorder | lib/forecast.ts:33-35 | the date order of the records is a total preorder |
| Forecast.DaysAgo | lib/forecast.ts:42-44 | `daysAgo` is the number of whole days between the record and now |
| Forecast.WeekIndex | lib/forecast.ts:46 | the week index is in 0..3; index 3 holds days 0 to 6 ago and index 0 holds days 21 to 27 ago |
| Forecast.MovingAverages | lib/forecast.ts:56-62 | there are max(0, n - 6) averages, and entry k is the mean of values k..k+6 to two decimals |
| Forecast.TrendByAverages | lib/forecast.ts:65-78 | two zero averages give "stable"; a zero prior with recent rain gives "improving"; otherwise below -15% is "declining", above +15% is "improving", and anything else is "stable" |
| Forecast.WeeklyTotalsOf | lib/forecast.ts:39-53 | four weekly totals, each the window's rain of that week to one decimal |
| Forecast.RainfallTrendOf | lib/forecast.ts:29-81 | the trend has 4 weekly totals and max(0, n - 6) moving averages |
| Forecast.WeeklyBuckets | lib/forecast.ts:38-53 | the bucket and rounding loops over the array fill it with the weekly totals |
| Forecast.MovingAverage7d | lib/forecast.ts:56-62 | the moving-average loop builds the moving averages |
| Forecast.ComputeRainfallTrend | lib/forecast.ts:29-81 | the imperative computation returns the trend of its records |
| Forecast.OutOfWindowIgnored | lib/forecast.ts:45 | a record from the future or 28 or more days ago adds to no bucket |
| Forecast.BucketsPartitionWindow | lib/forecast.ts:41-48 | before rounding, the four buckets add up to the rain of the 28-day window |
| Forecast.ProjectedInput | lib/forecast.ts:99-124 | the projection keeps the village's historical average, groundwater and population, and never projects negative rainfall |
| Forecast.RiskFromDelta | lib/forecast.ts:127-131 | "rising" exactly above +3, "falling" exactly below -3, and "steady" otherwise |
| Forecast.ForecastStress | lib/forecast.ts:94-138 | the projected score lies in [0, 100] and is the stress of the projected input; the demand is its demand, and the risk is that of the change from the current score |
| Forecast.ProjectedRainMonotone | lib/forecast.ts:99-117 | for a positive historical average, a smaller deviation shift never projects more rain |
| Forecast.ProjectionMonotone | lib/forecast.ts:99-124 | a drier projected trend never gives a lower projected score |
| Forecast.TrendOrdering | lib/forecast.ts:99-124 | declining projects a score at least that of stable, and stable at least that of improving |
| ForecastRoute.BuildForecast | app/api/forecast/route.ts:27-58 | the result copies the village's identity, current score and demand; its trend and weekly rain are the trend computation's, and the projection uses that trend |
| ForecastRoute.ByRiskThenScoreIsTotalPreorder | app/api/forecast/route.ts:61-66 | risk-then-score is a total preorder |
| ForecastRoute.ForecastsPermutation | app/api/forecast/route.ts:27-66 | the sorted list is a permutation of the per-village results, one per village |
| ForecastRoute.BuildAllMembers | app/api/forecast/route.ts:27-58 | every result is the result of some village, and every village has one |
| ForecastRoute.ForecastsOrdered | app/api/forecast/route.ts:61-66 | "rising" comes before "steady", which comes before "falling"; within one risk level, projected scores are non-increasing |
| ForecastRoute.ForecastsStable | app/api/forecast/route.ts:61-66 | results that tie on risk and score keep their village order |
| AiOptimizer.TankerMap | lib/ai-optimizer.ts:183 | the tanker map has exactly the tanker ids as keys, each mapped to a tanker with that id |
| AiOptimizer.VillageMap | lib/ai-optimizer.ts:184 | the village map is keyed by village code, not id, and maps each to a village with that code |
| AiOptimizer.NormalizePriority | lib/ai-optimizer.ts:207-210 | a valid token is kept; any other becomes the stress-derived priority, which is never "low" |
| AiOptimizer.Repair | lib/ai-optimizer.ts:201-210 | the kept assignment has its distance overwritten with the depot-to-village distance to 0.1 km and its priority normalised; its other fields are unchanged |
| AiOptimizer.ValidatedPlan | lib/ai-optimizer.ts:215-218 | the summary passes through unchanged |
| AiOptimizer.ValidatePlan | lib/ai-optimizer.ts:178-219 | the filter loop over the two used sets returns the validated plan |
| AiOptimizer.ValidIsSubsequence | lib/ai-optimizer.ts:188-213 | apart from the repaired fields, the output is an in-order subsequence of the input |
| AiOptimizer.ValidAssignmentsSound | lib/ai-optimizer.ts:189-212 | every kept assignment names a known tanker and a known village with no active dispatch, neither used before, and is repaired |
| AiOptimizer.ValidExclusive | lib/ai-optimizer.ts:185-198 | no two kept assignments share a tanker or a village |
| AiOptimizer.ValidMaximal | lib/ai-optimizer.ts:192-198 | an assignment is dropped only for a reason: an unknown id, an active dispatch, or a tanker or village already taken by some kept assignment |
| AiOptimizer.ValidFromAppend | lib/ai-optimizer.ts:188-198 | the filter keeps from a concatenation what it keeps from the first part, then what it keeps from the second part with the first part's kept tankers and villages counted as used |
| AiOptimizer.FirstAcceptedWins | lib/ai-optimizer.ts:192-198 | proposal i is kept exactly when its tanker and village are known, the village has no open dispatch, and neither is taken by a proposal kept before i; what is kept up to i is a prefix of the validated plan |
| AiOptimizer.ValidatedPlanSpec | lib/ai-optimizer.ts:178-219 | the validated plan is an order-preserving, exclusive, sound subsequence of the proposal |
| AiOptimizer.FirstOccurrenceWins | lib/ai-optimizer.ts:194-198 | of two valid proposals for the same tanker, only the first survives |
| Stats.LevelCount | lib/stats.ts:16-23 | a level's count never exceeds the number of villages |
| Stats.LevelsPartition | lib/stats.ts:16-23 | critical, warning and safe counts add up to the number of villages |
| Stats.DistrictRow | lib/stats.ts:13-27 | in a district row, critical + warning + safe = totalVillages, and the average is the mean score rounded |
| Stats.AvgBetween | lib/stats.ts:24-26 | a district's average lies between its lowest and its highest score |
| Stats.Grouped | lib/stats.ts:5-10 | there is one group per district present, holding exactly that district's villages in input order, and never empty |
| Stats.GroupedLoopIsGrouped | lib/mock-data.ts:300-305 | the push-into-map loop builds the district groups |
| Stats.ByAvgDescIsTotalPreorder | lib/stats.ts:29 | the average-descending comparator is a total preorder |
| Stats.GroupByDistrict | lib/stats.ts:5-10 | the grouping loop yields the districts in first-appearance order and their groups |
| Stats.ComputeDistrictStats | lib/stats.ts:4-30 | the imperative grouping plus the map and sort give the district statistics |
| Stats.DistrictRowsOnePerDistrict | lib/mock-data.ts:299-325 | exactly one row per distinct district, each the row of that district's villages |
| Stats.SortedRowIsUnsortedRow | lib/stats.ts:12-29 | every sorted row is the row of the district it names |
| Stats.UnsortedRowIsSortedRow | lib/stats.ts:12-29 | every district present has a row |
| Stats.RowsTotal | lib/stats.ts:12-29 | summing a per-district field over the rows gives the sum over all villages |
| Stats.OverallStatsOf | lib/stats.ts:32-50 | the overall counts partition the villages; the demand is the sum over the villages; the average is the mean rounded, and is absent, not a number, for no villages |
| Stats.DistrictsAddUpToOverall | lib/mock-data.ts:299-345 | the district rows' villages, demands and level counts add up to the overall figures |
| Stats.DistrictRowsOrdered | lib/stats.ts:29 | rows are in non-increasing average order, and districts of equal average keep their first-appearance order |
| ReportStats.ComputeDispatchStats | lib/report-stats.ts:18-49 | the counting loop returns the dispatch statistics |
| ReportStats.BreakdownCounts | lib/report-stats.ts:23-27 | each breakdown has exactly the statuses or priorities present, each with its number of dispatches |
| ReportStats.BreakdownsSumToTotal | lib/report-stats.ts:23-27 | the status breakdown and the priority breakdown each add up to the total |
| ReportStats.ActiveCountsOpenDispatches | lib/report-stats.ts:29-33 | `active` is total less completed less cancelled, which is the number of open dispatches |
| ReportStats.CompletionRateBounds | lib/report-stats.ts:41 | the completion rate lies in [0, 100]; it is 0 when nothing is completed and 100 when something is completed and nothing cancelled |
| ReportStats.CompletionRateFrom | lib/report-stats.ts:29-41 | the same bounds hold for any non-negative completed and cancelled counts |
| ReportStats.AvgTrips | lib/report-stats.ts:42-45 | the average trips is 0 for no dispatches, and otherwise the mean to one decimal |
| ReportStats.FleetStep | lib/report-stats.ts:70-73 | one pass of the fleet loop adds one to the tanker's status count and its capacity to the total |
| ReportStats.ComputeFleetStats | lib/report-stats.ts:66-99 | the counting loop returns the fleet statistics |
| ReportStats.FleetCounters | lib/report-stats.ts:83-90 | each named counter is the number of tankers of that status, 0 when none |
| ReportStats.TankerStatusPartition | lib/report-stats.ts:83-90 | the six counters add up to the fleet size |
| ReportStats.BusyWithinOperational | lib/report-stats.ts:75-81 | busy tankers are a subset of operational ones; busy counts dispatched, in transit and delivering; operational counts all but maintenance and offline |
| ReportStats.UtilizationBounds | lib/report-stats.ts:91-94 | the utilisation rate lies in [0, 100] and is 0 when no tanker is operational |
| ReportStats.NameToDistrictSpec | lib/report-stats.ts:121-124 | the name map knows exactly the village names and maps each to the district of a village of that name |
| ReportStats.NameToDistrictLastWins | lib/report-stats.ts:122-124 | a later village of the same name overrides an earlier one |
| ReportStats.DispatchCountsSpec | lib/report-stats.ts:126-138 | the counts never hold the empty district, and hold for every district the number of open dispatches of its known villages |
| ReportStats.Attach | lib/report-stats.ts:140-143 | each row gets its district's count, 0 when it has none |
| ReportStats.BuildNameMap | lib/report-stats.ts:121-124 | the name-map loop builds the name map |
| ReportStats.CountOpenDispatches | lib/report-stats.ts:126-138 | the counting loop builds the per-district counts |
| ReportStats.ComputeDistrictReport | lib/report-stats.ts:114-144 | the imperative report equals the district report |
| ReportStats.ReportRows | lib/report-stats.ts:118-143 | the report has the district rows in the same order, each with its open-dispatch count |
| ReportStats.UncountedDispatchIgnored | lib/report-stats.ts:128-137 | a closed dispatch, one for an unknown name, or one whose district is empty changes nothing |
| ReportStats.CountedDispatchAddsOne | lib/report-stats.ts:128-137 | a counted dispatch adds one to its district's row and to no other |
| ExportUtils.CellText | lib/export-utils.ts:10-11 | a missing, null or undefined value becomes the empty cell |
| ExportUtils.EscapeCell | lib/export-utils.ts:13-16 | a cell without comma, quote or newline is verbatim; any other is wrapped in quotes |
| ExportUtils.EscapeCases | lib/export-utils.ts:13-16 | a cell is changed exactly when it holds a comma, a quote or a newline, and then it is quoted with every quote doubled |
| ExportUtils.DoubleQuotesNoQuote | lib/export-utils.ts:14 | doubling leaves a text without quotes unchanged |
| ExportUtils.Cells | lib/export-utils.ts:8-17 | a row has one encoded cell per column, in column order |
| ExportUtils.Labels | lib/export-utils.ts:6 | the header has one label per column, in column order |
| ExportUtils.RowLines | lib/export-utils.ts:7-19 | one line per data row, in order |
| ExportUtils.ReadFieldEscaped | lib/export-utils.ts:13-16 | reading one field as in section 2 of RFC 4180 recovers the escaped cell's text and stops at the next comma or at the end |
| ExportUtils.RecordRoundTrip | lib/export-utils.ts:8-18 | parsing a joined, non-empty row of escaped cells gives back the cell texts |
| ExportUtils.RowRoundTrip | lib/export-utils.ts:7-19 | parsing a data row's line gives back each column's text |
| ExportUtils.CsvLines | lib/export-utils.ts:6-20 | when no label and no cell holds a newline, the CSV splits on newlines into the header followed by exactly one line per data row |
| ExportUtils.HeaderRoundTrip | lib/export-utils.ts:6 | a non-empty header whose labels need no quoting parses back into the labels |
| ExportUtils.LabelWithCommaSplits | lib/export-utils.ts:6 | labels are not escaped, so a label with a comma reads back as two fields |
| WhatsApp.Clean | lib/whatsapp.ts:21 | the cleaned number holds exactly the characters of the input that are not whitespace, '-' or '+' |
| WhatsApp.CleanKeepsOrder | lib/whatsapp.ts:21 | cleaning keeps the remaining characters in order |
| WhatsApp.CleanIdempotent | lib/whatsapp.ts:21 | cleaning twice is cleaning once |
| WhatsApp.IntlPhone | lib/whatsapp.ts:22 | the international number always starts with "91" |
| WhatsApp.IntlPhoneCases | lib/whatsapp.ts:22 | "91" is prepended exactly when the cleaned number does not already start with it |
| WhatsApp.IntlPhoneIdempotent | lib/whatsapp.ts:22 | normalising twice is normalising once |
| WhatsApp.NationalNumberStartingWith91 | lib/whatsapp.ts:22 | a ten-digit national number that begins with 91 is sent without the country code |
| WhatsApp.ChatIdShape | lib/whatsapp.ts:21-25 | the chat id starts with "91", ends in "@c.us", and its number holds no stripped character |
| WhatsApp.SendWhatsAppMessage | lib/whatsapp.ts:9-54 | missing credentials give the "not configured" failure; success comes exactly without an error |
| WhatsApp.MissingCredentialsSendNothing | lib/whatsapp.ts:13-18 | without credentials the sender is never called, and the result is a failure |
| WhatsApp.ConfiguredSendsOnce | lib/whatsapp.ts:27-53 | with credentials, one request goes to the instance's send URL with the chat id and the message; success carries the reply's message id; a refused request gives the reply's message, or "Failed to send WhatsApp message" when it has none; a thrown error gives its own message, or "WhatsApp send failed" |
| WhatsApp.MapsLinkKind | lib/whatsapp.ts:66-69 | a directions link exactly when both source coordinates are truthy, so a zero falls back to the search link; both end with the village's coordinates |
| WhatsApp.Upper | lib/whatsapp.ts:75 | upper-casing maps each character, keeping the length |
| WhatsApp.UpperIsUpper | lib/whatsapp.ts:75 | the upper-cased priority has no lower-case letter, and upper-casing is idempotent |
| WhatsApp.MessageLines | lib/whatsapp.ts:71-82 | the message template has ten lines |
| WhatsApp.MessageSplitsIntoLines | lib/whatsapp.ts:56-83 | when the fields hold no newline, the message splits back into the fixed ten lines, in order, with the village, the upper-cased priority, the tanker, the trips and the link in their places |
| WhatsApp.LinesSingle | lib/whatsapp.ts:71-82 | when the fields hold no newline, no line of the template does either |
| Sorting.SortBySpec | lib/tanker-allocation.ts:79 | the comparator sort is sorted, a permutation of its input, and stable |
| Sorting.SortedPrefixTopK | lib/tanker-allocation.ts:80 | a prefix of a sorted list holds its best entries |
| Aggregate.TallySpec | lib/report-stats.ts:23-27 | a tally knows exactly the keys present, each counted by the size of its group |
| Aggregate.Keys | lib/stats.ts:12 | the key list holds each key present once, in first-appearance order |
| Aggregate.GroupedSumWhole | lib/stats.ts:27 | summing per key over all keys gives the whole sum |

## Left out

- `calculateDistance` (haversine, lib/tanker-allocation.ts:7-24) is floating-point trigonometry. The distance is a parameter of type `Geo.DistanceFn`: any total function with non-negative results that is 0 from a point to itself.
- IEEE floating point: all arithmetic is on exact reals. Double rounding effects, and NaN from a division by zero, are not modelled. The NaN average of `computeOverallStats` over no villages is `None`.
- Persistence. The Prisma queries (villages, dispatches, tankers) are inputs to the model. `findMany` with `orderBy` is a filter and a stable sort; the store's order among equal scores is unspecified, and the model takes input order. `prisma.dispatch.create` appends to `created`; `prisma.tanker.update` adds to the used set. The 60-day rainfall query of the forecast route is an input list.
- Network and timing. The Groq call (`callOpenAI`) and the free-text prompt (`buildOptimizerPrompt`) are not modelled. Neither are the Open-Meteo fetches, the 100 ms delays, or the fire-and-forget WhatsApp notification of auto-assign (lib/whatsapp.ts is modelled on its own). The Green API call is the `send` parameter of `WhatsApp.SendWhatsAppMessage`; the credentials are `Option` inputs.
- WhatsApp.SendWhatsAppMessage: the HTTP call and the JSON parsing of the reply are the `send` parameter, which returns either a parsed reply or a thrown error with its optional message. The JSON body is the request record, not its serialised text.
- The clock. `new Date()` is the `now` input in milliseconds. Record dates are instants in milliseconds; date-string parsing is not modelled.
- Authentication, `createdBy`, the HTTP request and response shapes, console logging, React components and hooks, the PDF export, the Blob download of `exportToCSV`, and the seed and mock data arrays are not part of this model.
- The plumbing routes are not part of this model: app/api/dispatches/route.ts, the ai-optimize route, the refresh-scores route, and the tankers, villages, water-sources and users routes.
- In-place updates are modelled on values. `forecasts.sort` returns a sorted copy. The overwrite of `estimatedDistance` and `priority` inside `validatePlan` builds a new assignment, and aliasing with the caller's plan object is not modelled.
- Number-to-text rendering: the coordinates and trip count in the WhatsApp message are given as already-rendered text. `toUpperCase` is modelled for ASCII letters only.
- TankerAllocation.TripDistance: the contract speaks of the cases where both source coordinates are given or both are missing. When only one is given, each coordinate falls back to the depot's on its own, and only the body says so.
- ExportUtils.CsvLines: the line split assumes that no label and no cell holds a newline. A quoted cell with a newline spans two lines, and a label with a newline, like one with a comma, is not escaped. A carriage return in a cell is not quoted, as in the code.
- Strings, whitespace: `\s` in the phone regex is the set of JavaScript whitespace code points, listed explicitly.
- AutoAssign.AllAvailablePlan: holds when the tanker query returns only available tankers with distinct ids, which is what the query at app/api/dispatches/auto-assign/route.ts:39-41 does and the database guarantees.
