# Revenue forecasting and spending analytics, modelled in Dafny

This project models the analytical core of a small business finance tracker.

- **Forecasting service** (`Revenue/backend/services/mlService.js`):
  - statistics primitives: trailing moving average, least-squares trend with its R², positional `index % 12` seasonality, growth rate, clamped confidence and the percentage-change label;
  - the guard of `analyzeTimeSeries`;
  - three forecast strategies: trend-and-season projection, exponential smoothing and linear-regression extrapolation;
  - their per-period ensemble;
  - the three scenarios, the key drivers with their fallback set, and the expense summary with its budget sentences.
- **Prediction controller** (`Revenue/backend/controllers/predictionController.js`):
  - the keyword classifier of `suggestCategory`;
  - the budget insight of `spendingInsight`.
- **Revenue controller** (`Revenue/backend/controllers/revenueController.js`):
  - the legacy helpers `calculateMovingAverage`, `calculateTrend` and `predictRevenue`;
  - the monthly and category grouping and the KPIs of `getRevenueAnalytics`.

Amounts are exact `real`s. Operations are pure functions over immutable sequences. The exceptions are the two loops the model keeps as loops, `combineForecasts` and the rule loop of `suggestCategory`. They are the methods `Forecast.CombineForecasts` and `Classifier.ScanRules`, which `Classifier.SuggestCategory` calls.

These inputs become parameters:
- the `Math.random()` draws;
- the volatility, which the source computes with a square root;
- the client retention rate;
- the locally stored fallback history.

Sentences and labels are tags that carry the figures they print.

JavaScript objects used as maps (`acc[key] = (acc[key] || 0) + amount`) are sequences of groups in first-insertion order (module `Grouping`). `Object.entries(…).sort((a, b) => b - a)` is a stable insertion sort by descending total. Its head is proved to be the first group with the largest total.

The two moving averages stay distinct:
- `Stats.MovingAverage` is the service's version. It drops the first `window − 1` positions.
- `Legacy.SmoothedSeries` is the controller's version. It keeps the input's length and passes those positions through.

The two slopes are also separate members:
- `Stats.TrendSlope` uses positions 1…n.
- `Legacy.LegacyTrend` uses positions 0…n−1.

`Legacy.TrendShift` proves that the two slopes are equal.

Modules, one per file: `Wrappers` (Option/Result), `Sums` (sums, means and the closed forms of position sums), `Stats`, `Analysis`, `Forecast`, `Scenarios`, `Drivers`, `Grouping`, `ExpenseInsights`, `Classifier`, `Spending`, `Legacy`, `Analytics`.

Three behaviours of the code are easy to misread, and the model follows the code in each:
- **Moving average.** Only the revenue controller's moving average passes the first values through (revenueController.js:4-17). The service's variant drops them (mlService.js:302-310). Both are modelled.
- **Blank description.** A blank description given to `suggestCategory` is answered with HTTP 400 (predictionController.js:188-190). It does not produce `Miscellaneous`/50. `Classifier.SuggestCategory` returns a failure for it.
- **Trend of fewer than two values.** The trend of fewer than two values is NaN in the code (mlService.js:320). It is not a defined value. Every caller guards it, so `Stats.Trend` requires two values.

## Model

| member | source | states |
|---|---|---|
| Sums.SumPositionsClosed | Revenue/backend/controllers/revenueController.js:23 | the closed form `n(n−1)/2` that `calculateTrend` uses for Σx equals the sum of the 0-based positions (and `n(n−1)/2 + n·offset` for any start) |
| Sums.SumSquaredPositionsClosed | Revenue/backend/controllers/revenueController.js:26 | the sum of squared 0-based positions is `(n−1)n(2n−1)/6` |
| Sums.RegressionDenominator | Revenue/backend/services/mlService.js:320 | `n·Σx² − (Σx)²` over n consecutive positions is `n²(n²−1)/12`, whatever the first position |
| Sums.RegressionDenominatorPositive | Revenue/backend/services/mlService.js:320 | for two or more positions the slope's denominator is strictly positive, so the division is defined |
| Stats.WindowMeans | Revenue/backend/services/mlService.js:304-307 | one mean per window end from index i on; entry k is the mean of the `window` values ending at position i + k |
| Stats.MovingAverage | Revenue/backend/services/mlService.js:302-310 | an input shorter than the window comes back unchanged; otherwise the result has `len − window + 1` entries and entry k is the mean of `values[k..k+window)` |
| Stats.MovingAverageOfConstant | Revenue/backend/services/mlService.js:302-310 | the moving average of a constant series is that constant everywhere |
| Stats.TrendDenominator | Revenue/backend/services/mlService.js:320 | the trend's denominator over positions 1…n is positive and equals `n·Σx² − (Σx)²` |
| Stats.Trend | Revenue/backend/services/mlService.js:312-330 | R² never exceeds 1 (residuals and total variation are non-negative; 0 is the sentinel when the total variation is 0) |
| Stats.TrendSlope | Revenue/backend/services/mlService.js:320 | the slope has the sign of `n·Σxy − Σx·Σy` over positions 1…n: positive exactly when that is positive, negative exactly when it is negative |
| Stats.SlopeSign | Revenue/backend/services/mlService.js:320 | a quotient by the positive denominator keeps the numerator's sign |
| Stats.TrendIntercept | Revenue/backend/services/mlService.js:321 | with the slope, the intercept satisfies both normal equations of least squares over positions 1…n: `slope·Σx + intercept·n = Σy` and `slope·Σx² + intercept·Σx = Σxy` |
| Stats.TrendThroughMeans | Revenue/backend/services/mlService.js:320-321 | the fitted line passes through (mean position, mean value) |
| Stats.TrendOfConstant | Revenue/backend/services/mlService.js:312-330 | a constant series gets slope 0, intercept equal to its value, and the R² sentinel 0 |
| Stats.TrendSlopeOfConstant | Revenue/backend/services/mlService.js:320 | a constant series has slope 0 |
| Stats.Seasonality | Revenue/backend/services/mlService.js:332-350 | `None` exactly for fewer than 12 values; otherwise exactly 12 deviations |
| Stats.BucketDeviation | Revenue/backend/services/mlService.js:346-349 | an empty bucket deviates by 0; bucket m < 12 of a series reaching position m is the mean of `Residue(values, m)`, the values at positions m, m + 12, m + 24, …, minus the overall mean, and that class is never empty |
| Stats.BucketIsResidue | Revenue/backend/services/mlService.js:338-342 | the recursive bucket sum and count of bucket m (`Stats.BucketSum`, `Stats.BucketCount`) are the sum and length of the residue class of m |
| Stats.ResidueStep | Revenue/backend/services/mlService.js:338-342 | appending a value extends exactly the residue class of its position |
| Stats.BucketsOccupied | Revenue/backend/services/mlService.js:338-348 | with 12 or more values every bucket holds at least one value, so the `count > 0` sentinel branch is never taken |
| Stats.BucketSumsTotal | Revenue/backend/services/mlService.js:338-344 | the 12 bucket sums add up to the total of the series |
| Stats.BucketCountsTotal | Revenue/backend/services/mlService.js:338-342 | the 12 bucket counts add up to the length of the series |
| Stats.BucketBalancedAt | Revenue/backend/services/mlService.js:338-349 | each bucket's count times its deviation is its sum minus its count times the overall mean |
| Stats.SeasonalityBalanced | Revenue/backend/services/mlService.js:332-350 | the deviations weighted by bucket size sum to zero |
| Stats.SeasonalityOfConstant | Revenue/backend/services/mlService.js:332-350 | a constant series of 12 or more values has all twelve deviations zero |
| Stats.GrowthRate | Revenue/backend/services/mlService.js:367-373 | 0 for fewer than two values or a zero first value; otherwise rate·first·length = last − first |
| Stats.GrowthRateSign | Revenue/backend/services/mlService.js:367-373 | with a positive first value the rate is positive, negative or zero exactly when the last value is above, below or equal to the first |
| Stats.Confidence | Revenue/backend/services/mlService.js:375-389 | the score lies in [50, 95], and in [50, 85] for any period ≥ 1 |
| Stats.Clamp | Revenue/backend/services/mlService.js:388 | `Math.max(lo, Math.min(hi, x))`: inside the range, equal to x within it and to the violated bound outside |
| Stats.ConfidenceNonIncreasing | Revenue/backend/services/mlService.js:375-389 | confidence never rises with the period |
| Stats.ConfidenceMoreData | Revenue/backend/services/mlService.js:382-383 | a longer history never lowers confidence |
| Stats.ConfidenceCalm | Revenue/backend/services/mlService.js:375-389 | with 12+ values and calm volatility the score is exactly `87 − 2·period` for periods 1…18 |
| Stats.PercentChange | Revenue/backend/services/mlService.js:391-395 | from a zero old value: '+100%' exactly when the new value is positive, '0%' otherwise; from any other value a percentage |
| Stats.PercentChangeInverse | Revenue/backend/services/mlService.js:393 | applying the percentage to the old value gives back the new value |
| Stats.PercentChangeSign | Revenue/backend/services/mlService.js:393-394 | from a positive base the sign is '+' exactly when the value did not fall |
| Analysis.ValueOf | Revenue/backend/services/mlService.js:65 | `d.amount \|\| d.y \|\| 0`: the amount when it is non-zero, else the y value |
| Analysis.Values | Revenue/backend/services/mlService.js:65 | the values are the records' values, in order |
| Analysis.Analyze | Revenue/backend/services/mlService.js:62-89 | `None` exactly below four records; otherwise it has: the last value; 12 seasonal deviations exactly from 12 records; ma3 and ma7 of the stated lengths; R² ≤ 1; and trend and growth rate computed from the values |
| Analysis.AnalyzeDependsOnValues | Revenue/backend/services/mlService.js:65-88 | two histories with the same values have the same analysis |
| Forecast.Max0 | Revenue/backend/services/mlService.js:122 | `Math.max(0, x)` is non-negative, at least x, and either x or 0 |
| Forecast.SeasonalTerm | Revenue/backend/services/mlService.js:112-115 | 0 without seasonality or when every deviation is 0; with twelve deviations, 30% of entry `period mod 12` |
| Forecast.Projection | Revenue/backend/services/mlService.js:109-115 | without seasonality the projection lies above the last value exactly when slope·period is positive; with no slope and no seasonal term it is the last value |
| Forecast.Noise | Revenue/backend/services/mlService.js:118 | the random walk is zero for the middle draw or no volatility; with volatility it is positive exactly above the middle draw and negative exactly below it |
| Forecast.DefaultForecast | Revenue/backend/services/mlService.js:521-529 | `horizon` entries with periods 1…horizon, confidence 70, trend up and change '+4.3%' |
| Forecast.DefaultForecastRising | Revenue/backend/services/mlService.js:524 | the default amounts start at 350 000 and rise by 15 000 per period |
| Forecast.Project | Revenue/backend/services/mlService.js:107-133 | a projection is non-negative, carries its period, and is labelled up exactly when it exceeds the last value, down otherwise |
| Forecast.SeriesFor | Revenue/backend/services/mlService.js:93-97 | a history of four or more records is used as given, otherwise the locally stored one |
| Forecast.ForecastRevenue | Revenue/backend/services/mlService.js:92-137 | `horizon` entries with these properties: periods in order; non-negative amounts; confidence in [50, 85] and equal to the confidence score of its period; up exactly above the last value; change relative to the last value. A series too short to analyse gives the default forecast. |
| Forecast.ForecastIgnoresLocal | Revenue/backend/services/mlService.js:93-97 | with four or more records supplied, the local store does not influence the forecast |
| Forecast.ForecastConfidenceNonIncreasing | Revenue/backend/services/mlService.js:125 | confidence never rises along a forecast |
| Forecast.ForecastNoiseBounded | Revenue/backend/services/mlService.js:117-122 | each amount lies within 5% of the volatility of its deterministic projection (after the floor at 0) |
| Forecast.ProjectNoiseBounded | Revenue/backend/services/mlService.js:117-122 | one projection lies within 5% of the volatility of its deterministic part |
| Forecast.NoiseBounds | Revenue/backend/services/mlService.js:118 | the random-walk term of a draw in [0, 1) is at most 5% of the volatility either way |
| Forecast.ForecastOfConstant | Revenue/backend/services/mlService.js:107-133 | a flat, calm non-negative history is projected flat at its value (labelled down) |
| Forecast.FlatProjection | Revenue/backend/services/mlService.js:109-131 | with no slope, seasonality or volatility a projection stays at the last value |
| Forecast.Smoothed | Revenue/backend/services/mlService.js:403-407 | after i smoothing steps the level is `last + 0.7^i·(first − last)` |
| Forecast.SmoothedBetween | Revenue/backend/services/mlService.js:406-407 | every smoothed level lies between the first and the last value |
| Forecast.ExponentialSmoothing | Revenue/backend/services/mlService.js:397-418 | empty for an empty history, otherwise `horizon` entries with periods 1…horizon, confidence 75, 'stable' and '0%' |
| Forecast.ExponentialSmoothingAmounts | Revenue/backend/services/mlService.js:403-415 | amount k is `last + 0.7^(k+1)·(first − last)` and lies between the first and last values |
| Forecast.LineAt | Revenue/backend/services/mlService.js:432 | the fitted line at x passes through the mean point: the mean value plus the slope times `x − Σx/n` |
| Forecast.LinePrediction | Revenue/backend/services/mlService.js:429-436 | the line's value at `n + period`, floored at 0, confidence 80, up exactly for a positive slope, change against the last value |
| Forecast.LinearRegressionForecast | Revenue/backend/services/mlService.js:420-440 | empty below two values, otherwise `horizon` entries of the least-squares line with non-negative amounts and confidence 80 |
| Forecast.LinearRegressionMonotone | Revenue/backend/services/mlService.js:428-434 | the amounts never fall along a rising line and never rise along a flat or falling one |
| Forecast.LinePredictionMonotone | Revenue/backend/services/mlService.js:429-432 | later periods of one line follow its slope |
| Forecast.LinearRegressionOfConstant | Revenue/backend/services/mlService.js:420-440 | a flat non-negative history is extrapolated flat at its value |
| Forecast.Confidences | Revenue/backend/services/mlService.js:453 | a missing (zero) confidence counts as 70 |
| Forecast.RoundHalfUp | Revenue/backend/services/mlService.js:462 | `Math.round`: the integer within half a unit, halves rounded up |
| Forecast.Average | Revenue/backend/services/mlService.js:458-465 | an averaged entry carries its period, 'ensemble' and '0%' |
| Forecast.Reach | Revenue/backend/services/mlService.js:445-456 | the length of the longest forecast: no forecast is longer and (when there is one) some forecast has that length |
| Forecast.DefinedAtReach | Revenue/backend/services/mlService.js:445-458 | some forecast has an entry at index i exactly when i is below the longest forecast's length |
| Forecast.AverageAt | Revenue/backend/services/mlService.js:459-465 | the entry for index i has period i + 1, 'ensemble' and '0%' |
| Forecast.Combine | Revenue/backend/services/mlService.js:442-470 | `min(horizon, longest)` entries, no more than the horizon, with periods 1, 2, … in order, 'ensemble' and '0%' |
| Forecast.AveragedStep | Revenue/backend/services/mlService.js:445-467 | one loop iteration appends the index's average exactly when some forecast reaches it |
| Forecast.AveragedAll | Revenue/backend/services/mlService.js:445-467 | after all indices below the horizon the accumulated list is the combined forecast |
| Forecast.CombineForecasts | Revenue/backend/services/mlService.js:442-470 | the loop computes the combined forecast, and every emitted index is reached by some forecast |
| Forecast.DefinedAtBounded | Revenue/backend/services/mlService.js:450-456 | the defined entries at an index inherit any bounds the forecasts obey there |
| Forecast.CombinedAmountBetween | Revenue/backend/services/mlService.js:461 | each combined amount lies between any lower and upper bound of the amounts it averages |
| Forecast.CombineSingle | Revenue/backend/services/mlService.js:442-470 | combining a single forecast keeps its amounts |
| Forecast.EnsembleForecast | Revenue/backend/services/mlService.js:140-157 | exactly `horizon` entries with periods 1…horizon, 'ensemble' and '0%' |
| Forecast.EnsembleMembers | Revenue/backend/services/mlService.js:141-153 | three forecasts, the longest of which reaches the horizon |
| Forecast.EnsembleNonNegative | Revenue/backend/services/mlService.js:140-157 | a non-negative history gets non-negative ensemble amounts |
| Scenarios.DefaultScenarios | Revenue/backend/services/mlService.js:531-558 | three positive scenarios in the order best, likely, worst, with probabilities 25, 60 and 15 and amounts best above likely above worst |
| Scenarios.Projected | Revenue/backend/services/mlService.js:169-175 | the grown base `base·(1 + g·w)`: the base itself without growth, at least a non-negative base for non-negative weighted growth, non-negative for weighted growth of at least −100% |
| Scenarios.BestAmount | Revenue/backend/services/mlService.js:169 | for a draw in [0, 1) and a non-negative grown base P₁.₅, the best case lies in [P₁.₅, 1.2·P₁.₅] |
| Scenarios.LikelyAmount | Revenue/backend/services/mlService.js:172 | for a draw in [0, 1) and a non-negative grown base P₁, the likely case lies in [0.95·P₁, 1.05·P₁] |
| Scenarios.WorstAmount | Revenue/backend/services/mlService.js:175 | for a draw in [0, 1) and a non-negative grown base P₀.₅, the worst case lies in [0.7·P₀.₅, P₀.₅] |
| Scenarios.GenerateScenarios | Revenue/backend/services/mlService.js:160-203 | three scenarios in the order best, likely, worst, with probabilities 25, 60 and 15 (summing to 100) and non-negative amounts. Fewer than four records give the defaults. Otherwise each amount is its formula over the last value and growth rate, floored at 0. |
| Scenarios.ScenarioBands | Revenue/backend/services/mlService.js:169-175 | for draws in [0, 1): best ∈ [P₁.₅, 1.2·P₁.₅], likely ∈ [0.95·P₁, 1.05·P₁], worst ∈ [0.7·P₀.₅, P₀.₅], where P_w is the base grown by w times the rate |
| Scenarios.ProjectedNonNegative | Revenue/backend/services/mlService.js:169-175 | the grown base is non-negative for weights up to 1.5 when `1 + 1.5g ≥ 0` |
| Scenarios.BestAboveWorst | Revenue/backend/services/mlService.js:169-196 | with non-negative base and growth the floored worst case never exceeds the floored best case |
| Scenarios.BestAtLeastWorst | Revenue/backend/services/mlService.js:160-203 | for a history with a non-negative last value and growth, the worst scenario is at most the best |
| Drivers.DefaultDrivers | Revenue/backend/services/mlService.js:560-584 | three drivers in checking order, none of them volatility |
| Drivers.PushIf | Revenue/backend/services/mlService.js:213-255 | a conditional push keeps the order and adds the driver exactly when the condition holds |
| Drivers.TrendDrivers | Revenue/backend/services/mlService.js:212-232 | growth momentum and seasonal patterns appear exactly when their conditions hold, in that order, each rated as the source rates it |
| Drivers.Detected | Revenue/backend/services/mlService.js:210-255 | a factor appears exactly when its condition holds (rising slope; seasonality; volatility above 20% of the last value; retention above 0.8), in checking order, at most four, each rated as the source rates it |
| Drivers.KeyDrivers | Revenue/backend/services/mlService.js:206-258 | one to four ordered drivers: the defaults below four records or when nothing is detected, otherwise the detected ones |
| Drivers.RetentionRate | Revenue/backend/services/mlService.js:472-493 | the reported rate exceeds 0.8 exactly when some client is recorded |
| Drivers.RetentionAlwaysReported | Revenue/backend/services/mlService.js:246-257 | with a recorded client the retention driver is always reported and the detected drivers are returned |
| Drivers.FallbackWhenNothingDetected | Revenue/backend/services/mlService.js:206-258 | a falling, calm, short history without clients falls back to the defaults |
| Grouping.Find | Revenue/backend/services/mlService.js:279 | the index of the group holding a key, or −1 exactly when no group holds it |
| Grouping.Add | Revenue/backend/services/mlService.js:278-280 | one reduce step grows the groups by one exactly when the key is new |
| Grouping.GroupBy | Revenue/backend/services/mlService.js:278-281 | grouping into an object keyed by category (also mlService.js:502-505, predictionController.js:259-263 and revenueController.js:165-175 and 196-200): at most one group per entry, and some group exactly when there is an entry; the contents are stated by the GroupBy lemmas below |
| Grouping.AddTotals | Revenue/backend/services/mlService.js:278-280 | one reduce step adds the entry's amount to the grand total and one to the count |
| Grouping.AddDistinct | Revenue/backend/services/mlService.js:278-280 | a reduce step keeps keys distinct |
| Grouping.AddGroupOf | Revenue/backend/services/mlService.js:279 | after a step, the group of a key has gained the entry exactly when the entry carries that key |
| Grouping.GroupByTotals | Revenue/backend/services/mlService.js:277-281 | the group totals add up to the total of all amounts, the counts to the number of entries |
| Grouping.GroupByDistinct | Revenue/backend/services/mlService.js:278-281 | every key labels at most one group |
| Grouping.GroupByContents | Revenue/backend/services/mlService.js:278-281 | a key has a group exactly when some entry carries it, and that group holds the sum and number of those entries |
| Grouping.GroupByAt | Revenue/backend/services/mlService.js:278-281 | each group holds the sum and number of the entries with its key, and some entry carries that key |
| Grouping.GroupByHas | Revenue/backend/services/mlService.js:278-281 | every entry's key has a group |
| Grouping.Insert | Revenue/backend/services/mlService.js:283-284 | inserting adds exactly the one group (as a multiset) |
| Grouping.InsertSorted | Revenue/backend/services/mlService.js:283-284 | inserting into a descending list keeps it descending |
| Grouping.SortDesc | Revenue/backend/services/mlService.js:283-284 | the sort is a permutation of the groups |
| Grouping.SortDescSorted | Revenue/backend/services/mlService.js:283-284 | the sorted groups have non-increasing totals |
| Grouping.FirstMax | Revenue/backend/services/mlService.js:507-508 | an index whose total no group exceeds and that every earlier group falls short of |
| Grouping.SortDescHead | Revenue/backend/services/mlService.js:507-508 | the head of the stable descending sort is the first group with the largest total |
| Grouping.Top | Revenue/backend/services/mlService.js:283-285 | `slice(0, k)` of the sorted groups: the first `min(k, groups)` entries of the stable descending sort, in non-increasing order of total, each one of the groups |
| Grouping.TopDominates | Revenue/backend/services/mlService.js:283-285 | no group left out of the top k has a larger total than one inside it |
| ExpenseInsights.CategoryKey | Revenue/backend/services/mlService.js:279 | an expense is filed under its category, a missing one under the key "undefined" |
| ExpenseInsights.Entries | Revenue/backend/services/mlService.js:277-279 | each expense becomes one keyed amount, in order |
| ExpenseInsights.Total | Revenue/backend/services/mlService.js:277 | the total of the expenses is the sum of the per-category totals of the breakdown |
| ExpenseInsights.HighestIsSortHead | Revenue/backend/services/mlService.js:502-509 | the named category is the head of the descending sort, and no category spent more |
| ExpenseInsights.Highest | Revenue/backend/services/mlService.js:507-508 | the named category is one of the groups, with its total, and no group has a larger total |
| ExpenseInsights.Insights | Revenue/backend/services/mlService.js:495-519 | at most three sentences, in the emission order exceeded, highest, below |
| ExpenseInsights.InsightsContents | Revenue/backend/services/mlService.js:498-517 | the overrun sentence appears exactly when the total exceeds the limit, carrying the excess. The highest-category sentence appears exactly when there are categories and names the largest one. The below-budget note appears exactly when less than half the limit is spent. |
| ExpenseInsights.Summarize | Revenue/backend/services/mlService.js:272-299 | the total of all amounts; over-limit exactly above the limit; remaining budget `max(0, limit − total)`; the breakdown is the grouping of the expenses; the top list is `Top(breakdown, 3)`, `min(3, categories)` long, in non-increasing order of total, each one of the categories; the insight sentences |
| ExpenseInsights.SummaryBreakdown | Revenue/backend/services/mlService.js:277-281 | the category totals add up to the total, keys are distinct, and a key has a category exactly when some expense carries it, with the sum of those expenses |
| ExpenseInsights.TopCategoriesLargest | Revenue/backend/services/mlService.js:283-285 | no category outside the top three spent more than one inside it |
| ExpenseInsights.ExceededExcludesBelow | Revenue/backend/services/mlService.js:498-517 | with a non-negative limit the overrun and the below-budget note never appear together |
| Classifier.Rules | Revenue/backend/controllers/predictionController.js:195-208 | the table has twelve rules |
| Classifier.LowerChar | Revenue/backend/controllers/predictionController.js:192 | an ASCII capital is lowered by 32 code points; every other character is kept |
| Classifier.TrimStart | Revenue/backend/controllers/predictionController.js:188 | the leading white space is removed: what is dropped is white space, and what remains starts with a non-space |
| Classifier.TrimEnd | Revenue/backend/controllers/predictionController.js:188 | the trailing white space is removed: what is dropped is white space, and what remains ends with a non-space |
| Classifier.Trim | Revenue/backend/controllers/predictionController.js:188 | `trim()` keeps no more than the description, leaves a result that starts and ends with a non-space, and gives the empty string exactly when `Blank` holds, all characters white space |
| Classifier.Lower | Revenue/backend/controllers/predictionController.js:192 | lower-casing keeps the length and lowers each character |
| Classifier.MatchCount | Revenue/backend/controllers/predictionController.js:214 | the count is at most the number of keywords, and positive exactly when some keyword is a substring |
| Classifier.Candidate | Revenue/backend/controllers/predictionController.js:216 | `Math.min(c, c + 5·matches)` is the rule's base confidence |
| Classifier.FirstMatch | Revenue/backend/controllers/predictionController.js:211-221 | the reference result is the fallback or some rule's category and confidence |
| Classifier.RulesDecreasing | Revenue/backend/controllers/predictionController.js:195-208 | the table's confidences strictly decrease and all exceed the fallback's 50 |
| Classifier.ChainDecreasing | Revenue/backend/controllers/predictionController.js:195-208 | adjacent strict decrease ending above 50 makes the whole table strictly decreasing |
| Classifier.FirstMatchAppend | Revenue/backend/controllers/predictionController.js:213-221 | trying one more rule changes the result only when nothing matched before |
| Classifier.ScanIsFirstMatch | Revenue/backend/controllers/predictionController.js:211-221 | for a strictly decreasing table above 50 the strict-greater loop returns the first matching rule |
| Classifier.Scan | Revenue/backend/controllers/predictionController.js:211-221 | the loop's best match is the fallback or the category and confidence of a rule that matched |
| Classifier.FirstMatchIsFirst | Revenue/backend/controllers/predictionController.js:211-221 | the first rule that matches, with none before it, gives the result |
| Classifier.FirstMatchNone | Revenue/backend/controllers/predictionController.js:211 | without any matching rule the result is Miscellaneous/50 |
| Classifier.ScanRules | Revenue/backend/controllers/predictionController.js:210-220 | the loop over the rules ends with the best match the strict-greater rule keeps |
| Classifier.SuggestCategory | Revenue/backend/controllers/predictionController.js:184-227 | a description is rejected exactly when it is blank. Any other description gets the first rule matching its lower-cased text, either Miscellaneous/50 or a table entry with confidence above 50. |
| Spending.CategoryOf | Revenue/backend/controllers/predictionController.js:261 | a missing or empty category counts as 'Uncategorized' |
| Spending.Entries | Revenue/backend/controllers/predictionController.js:259-263 | each expense becomes one keyed amount, in order |
| Spending.StatusOf | Revenue/backend/controllers/predictionController.js:277-285 | exactly one status: exceeded iff total > limit; approaching iff 0.8·limit < total ≤ limit; well below iff below half and not the earlier ones; healthy otherwise |
| Spending.ConcentratedMembers | Revenue/backend/controllers/predictionController.js:288-290 | a category is flagged exactly when it holds more than 30% of the total |
| Spending.Concentrated | Revenue/backend/controllers/predictionController.js:288-290 | the `filter` keeps no more categories than there are, each holding more than 30% of the total |
| Spending.ConcentrationSentence | Revenue/backend/controllers/predictionController.js:288-294 | the concentration sentence appears exactly when some category is flagged, listing the flagged ones |
| Spending.TopCategory | Revenue/backend/controllers/predictionController.js:266 | present exactly when there is a category; the first one with the largest total |
| Spending.Sentences | Revenue/backend/controllers/predictionController.js:270-294 | total first, then the largest category when there is one, then the status, then the concentration sentence |
| Spending.Insights | Revenue/backend/controllers/predictionController.js:259-301 | the total, the grouped breakdown, over-limit exactly above the limit, a top category exactly for a non-empty list, and the sentences |
| Spending.SpendingInsightAsWritten | Revenue/backend/controllers/predictionController.js:240-257 | as written: an empty request fails; any other request gets its insight |
| Spending.SpendingInsight | Revenue/backend/controllers/predictionController.js:240-257 | as intended: an empty request reports on the stored expenses; any other request on its own |
| Spending.EmptyRequestFails | Revenue/backend/controllers/predictionController.js:240-257 | the empty request fails as written, while the intended handler reports on the stored expenses |
| Spending.AsWrittenAgreesOnNonEmpty | Revenue/backend/controllers/predictionController.js:240-257 | on a non-empty request the two agree |
| Spending.BreakdownSums | Revenue/backend/controllers/predictionController.js:259-264 | the categories add up to the total, keys are distinct, and each category holds exactly its expenses' sum |
| Spending.NoEmptyCategory | Revenue/backend/controllers/predictionController.js:261 | no expense is counted under the empty category |
| Spending.ConcentratedBounds | Revenue/backend/controllers/predictionController.js:288-290 | the flagged categories hold no more than all categories together, and m flagged categories together hold more than m times 30% of the total |
| Spending.AtMostThreeConcentrated | Revenue/backend/controllers/predictionController.js:288-294 | with non-negative amounts at most three categories are flagged |
| Spending.AtMostThree | Revenue/backend/controllers/predictionController.js:288-290 | among non-negative groups adding up to the total at most three exceed 30% of it |
| Spending.GroupTotalsNonNegative | Revenue/backend/controllers/predictionController.js:260-264 | non-negative amounts give non-negative category totals |
| Legacy.SmoothedSeries | Revenue/backend/controllers/revenueController.js:4-17 | same length as the input. An input shorter than the window is unchanged. Otherwise the first `window − 1` values pass through, the rest is the service's moving average, and entry i is the mean of the window ending at i. |
| Legacy.SmoothedSeriesOfConstant | Revenue/backend/controllers/revenueController.js:4-17 | a constant series is smoothed to itself |
| Legacy.SmoothedSeriesLast | Revenue/backend/controllers/revenueController.js:41-42 | the last smoothed entry is the mean of the last `window` values |
| Legacy.LegacyTrend | Revenue/backend/controllers/revenueController.js:19-30 | 0 below two values; otherwise the least-squares slope of the mlService fit |
| Legacy.TrendShift | Revenue/backend/controllers/revenueController.js:22-28 | over 0-based positions the denominator is non-zero and the slope equals the slope over 1-based positions |
| Legacy.SlopeShift | Revenue/backend/controllers/revenueController.js:22-28 | shifting every position by one leaves the least-squares slope unchanged |
| Legacy.PositionsShift | Revenue/backend/controllers/revenueController.js:23-26 | 1-based positions add n to Σx and `2Σx + n` to Σx² |
| Legacy.DenominatorNonZero | Revenue/backend/controllers/revenueController.js:28 | the 0-based denominator is positive for two or more values |
| Legacy.LegacyTrendOfConstant | Revenue/backend/controllers/revenueController.js:19-30 | a flat series has slope 0 |
| Legacy.RecentMean | Revenue/backend/controllers/revenueController.js:41-42 | three times the recent mean is the sum of the last three values |
| Legacy.SeasonalFactorOfMovingAverage | Revenue/backend/controllers/revenueController.js:41-42 | the last entry of the three-period moving average is the recent mean, and that entry over the last value is the seasonal factor |
| Legacy.SeasonalFactor | Revenue/backend/controllers/revenueController.js:41-42 | the factor times the last value is the mean of the last three values |
| Legacy.Base | Revenue/backend/controllers/revenueController.js:45-48 | the base times the last value is the trend line `last + slope·i` times the mean of the last three values |
| Legacy.TrendLine | Revenue/backend/controllers/revenueController.js:47 | with no slope the line stays at the last value for every period |
| Legacy.SeasonallyAdjusted | Revenue/backend/controllers/revenueController.js:42-48 | any line value adjusted by the seasonal factor, times the last value, is the line value times the mean of the last three values; the last value itself is adjusted to that mean |
| Legacy.Variation | Revenue/backend/controllers/revenueController.js:51 | a draw in [0, 1) gives a factor in [0.95, 1.05) |
| Legacy.Published | Revenue/backend/controllers/revenueController.js:51-54 | every published prediction is a non-negative whole number |
| Legacy.PredictRevenue | Revenue/backend/controllers/revenueController.js:32-58 | no periods give no predictions. Otherwise the result is not all finite exactly for an empty history, or for a zero last value of a long history whose slope does not run against the mean of its last three values. A zero last value whose slope runs against that mean gives zeros, the floor of −∞. Otherwise there are `periods` values: the mean for fewer than three values, else non-negative whole numbers. |
| Legacy.FallingToZero | Revenue/backend/controllers/revenueController.js:32-58 | the history 10, 5, 0 is predicted as six zeros: slope −5, mean of the last three 5, every prediction −∞ floored to 0 |
| Legacy.PredictionBand | Revenue/backend/controllers/revenueController.js:45-55 | each prediction of a non-negative base lies within 5% and half a unit of it |
| Legacy.PublishedBand | Revenue/backend/controllers/revenueController.js:51-54 | varying, rounding and flooring a non-negative base stays within 5% and half a unit of it |
| Legacy.RoundBand | Revenue/backend/controllers/revenueController.js:54 | rounding and flooring a value within 5% of a non-negative base stays within 5% and half a unit of it |
| Legacy.FlatHistoryForecast | Revenue/backend/controllers/revenueController.js:32-58 | a flat positive history predicts its own level up to 5% and half a unit |
| Legacy.FlatSeasonalFactor | Revenue/backend/controllers/revenueController.js:40-42 | a flat positive history has seasonal factor 1 |
| Legacy.ShortHistoryWithinRange | Revenue/backend/controllers/revenueController.js:33-37 | one or two values predict a value between their smallest and largest |
| Analytics.CategoryName | Revenue/backend/controllers/revenueController.js:198 | a missing or empty category is 'General', any other is kept; never empty |
| Analytics.MonthEntries | Revenue/backend/controllers/revenueController.js:164-165 | each record becomes its month key and amount, in order |
| Analytics.CategoryEntries | Revenue/backend/controllers/revenueController.js:197-199 | each record becomes its category name and amount, in order |
| Analytics.GroupTotals | Revenue/backend/controllers/revenueController.js:180 | the monthly revenues in order, adding up to the groups' total |
| Analytics.Slices | Revenue/backend/controllers/revenueController.js:202-205 | one slice per category with its name and value, whose values are the group totals |
| Analytics.Growth | Revenue/backend/controllers/revenueController.js:210-220 | 0 for fewer than two months. No finite value exactly when the first month earned nothing. Otherwise the first-to-last change in percent, rounded to hundredths. |
| Analytics.Max1 | Revenue/backend/controllers/revenueController.js:209 | `Math.max(1, n)` is at least 1 and at least n |
| Analytics.Monthly | Revenue/backend/controllers/revenueController.js:162-177 | distinct month keys, revenues adding up to the records' total, counts adding up to the number of records |
| Analytics.MonthlyContents | Revenue/backend/controllers/revenueController.js:162-175 | each month holds the sum and count of its records, and some record falls in it |
| Analytics.MonthlyCovers | Revenue/backend/controllers/revenueController.js:164-175 | every record's month is present |
| Analytics.Breakdown | Revenue/backend/controllers/revenueController.js:195-205 | distinct category names whose values add up to the records' total |
| Analytics.BreakdownContents | Revenue/backend/controllers/revenueController.js:196-205 | each slice is named and holds the sum of its category's records |
| Analytics.CategoryKeysNamed | Revenue/backend/controllers/revenueController.js:198 | no record is filed under the empty name |
| Analytics.BreakdownCovers | Revenue/backend/controllers/revenueController.js:196-205 | every record's category has a slice |
| Analytics.Predictions | Revenue/backend/controllers/revenueController.js:179-181 | six predictions. They are missing exactly with no month, or with three or more months ending in one without revenue whose slope does not run against the recent mean. When it does, they are all zero. |
| Analytics.Indicators | Revenue/backend/controllers/revenueController.js:207-221 | total revenue, the number of records, the growth, and the average month within half a unit of total / max(1, months) |
| Analytics.RevenueAnalytics | Revenue/backend/controllers/revenueController.js:135-222 | the response is assembled from the months, the predictions over them, the breakdown and the KPIs |
| Analytics.AnalyticsTotals | Revenue/backend/controllers/revenueController.js:162-221 | monthly revenues and category values both add up to the total revenue; monthly counts add up to the transactions; there is a month exactly when there is a record |
| Analytics.NonNegativeKpis | Revenue/backend/models/revenue.js:5 | with the schema's non-negative amounts the total and the average month are non-negative |
| Analytics.GrowthSign | Revenue/backend/controllers/revenueController.js:210-220 | against a paying first month, growth is non-negative when the last month did not fall and non-positive when it did not rise |

## Left out

- File and database access are not modelled: `getLocalData`, `getRevenueHistory`, the read in `analyzeClientRetention`, and the Mongo queries of the controllers. The series, the expenses, the stored fallback expenses and the client count are inputs.
- `calculateVolatility` is not modelled. It takes a square root, which exact reals cannot express, so the volatility is a parameter of `Analysis.Analyze`.
- `Math.random()` is not modelled. Each draw is a parameter, and the lemmas assume the range [0, 1).
- IEEE-754 arithmetic is not modelled. Amounts are exact reals. Where the source divides by zero and produces NaN or Infinity (which JSON turns into `null`), the model returns `None`. One such case comes out finite: `predictRevenue` with a last value of zero and a slope running against the recent mean gives −∞, which `Math.max(0, …)` turns into 0, and the model returns those zeros.
- String formatting is not modelled: `toFixed`, `toLocaleString`, `formatINR`, the sentence texts, and the month labels of `getRevenueAnalytics`. Sentences and labels are tags carrying their figures.
- Stats.PercentChange: carries the exact percentage instead of the string that `toFixed(1)` rounds to one decimal.
- The date window of `getRevenueAnalytics`, the `toISOString` month key and the six future month labels are not modelled. The records are the query's result, each carrying its month key.
- Grouping.GroupBy: assumes no category name is an integer-like string such as "7" or "2024". `Object.entries` lists such keys first, in ascending numeric order, and only then the others in insertion order. That would change the tie-breaking of the descending sort (`Spending.TopCategory`, `ExpenseInsights.Highest`), the top-three order, the order of the concentration sentence and of the pie slices. Month keys are `YYYY-MM` and never integer-like.
- Grouping.GroupBy: assumes every category is a string that names no `Object.prototype` member. In the source the accumulator is a plain object (mlService.js:279 and 503-504, predictionController.js:261-262, revenueController.js:199). A category `"constructor"` reads the inherited function and concatenates it with the amount into a string. A category `"__proto__"` is never stored, so its amounts are missing from the breakdown and the breakdown no longer adds up to the total. In the service a `null` category is keyed `"null"`; the two controllers replace it with 'Uncategorized' or 'General' first. The model treats every category as an ordinary key.
- `toLowerCase` beyond ASCII is not modelled. `Classifier.LowerChar` lowers only `A`–`Z`.
- `getModelStatus`, `updateModelMetrics`, routes, uploads and the UI are not modelled. They are presentation and plumbing.
- Legacy.SmoothedSeries: requires a window of at least 1, which the only caller satisfies with 3.
- Stats.Trend: requires two values. For fewer, the source computes NaN, and every caller guards against that.
- Stats.Trend: its contract bounds R² by 1 only. The sentinel 0 is stated for constant series by `Stats.TrendOfConstant`, and the fit itself by `Stats.TrendIntercept` and `Stats.TrendSlope`.
- Forecast.Average: states the labels only. The amount is bounded by `Forecast.CombinedAmountBetween`, and the confidence's rounding is not stated.
- ExpenseInsights.Insights: `Highest` is defined as the first category with the largest total. `ExpenseInsights.HighestIsSortHead` proves it equal to the head of the source's stable sort.
- Spending.TopCategory: defined as the first category with the largest total. `Grouping.SortDescHead` proves it equal to the head of the source's stable sort.
- Spending.Insights: a non-array request body, which the source also sends to the fallback, is not representable.
- Drivers.RetentionRate: the error path of `analyzeClientRetention`, which also answers 0.8, is not separated from the no-client case.

## Findings

| source | as written | input that shows it | evidently intended | confidence | as-written member | corrected member |
|---|---|---|---|---|---|---|
| Revenue/backend/controllers/predictionController.js:240-257 | `expenses` is destructured with `const`, yet the empty-request branch assigns the stored expenses to it. This throws a TypeError, and the handler answers HTTP 500. | a request body with `expenses: []` or no `expenses` | an empty request reports on this month's approved stored expenses | not executed | Spending.SpendingInsightAsWritten (Spending.EmptyRequestFails) | Spending.SpendingInsight |
