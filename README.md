# Olive grove monitoring: satellite series, decision engine and dashboard classifiers

This project models, in Dafny, the parts of the olive-grove monitoring system that hold real logic.

- **Series assembly** (`Satellite`) follows `get_time_series` in `ai_service/satellite.py`.
  - It samples the look-back period in 7-day buckets.
  - For each bucket it asks the imagery provider for the week's optical and radar images.
  - It turns the VV radar backscatter into a moisture index in `[0, 1]`.
  - It keeps only the weeks that produced a value, and picks the latest one as `current`.
  - `get_field_stats` summarises a 30-day series.
  - The two loops of `get_time_series` are methods (`BucketStarts`, `CollectHistory`), each proved equal to a specification function. The properties are proved about those functions.
- **Decision engine** (`DecisionEngine`) follows `analyze` in `ai_service/decision_engine.py`.
  - It checks for missing readings first.
  - An ordered cascade of eight expert rules gives the risk level, confidence, title and action. It is also stated as a table searched for its first match.
  - The NDVI and moisture trends are last minus first.
  - The free-text description is built from its own bands.
  - An injected regression model, fed a 7-element feature vector, gives the optional yield estimate.
- **Composition** (`Pipeline`) connects the two: what the engine can conclude from an assembled series.
- **Dashboard route** (`Dashboard`) follows `GET` in `frontend/app/api/dashboard/route.ts`.
  - Each of three fixed fields gets a stress score drawn from `[10, 79]`.
  - The score is classified into a health status and a yield risk.
  - A summary is chosen by the worst status and closed by the rounded average stress.
  - Recommendations are built by a loop over the fields (`Recommend`), with a fallback line, then capped at four.
- **Legacy field endpoint** (`FieldService`) follows `analyze_field` in `ai_service/main.py`. An NDVI gives one of three risk bands and exactly one matching alert.

Modules `Options`, `Numeric`, `Text` and `Readings` are shared vocabulary:
- optional values, and filtering out `None`;
- Python's `round`, `int()` and clamping; JavaScript's `Math.round`;
- the numpy reductions;
- the integer and `:.2f` renderings;
- the `{date, ndvi, moisture_index}` record.

Foreign calls and nondeterminism are parameters:
- The imagery provider is a function from a query window to an observation or an error.
- The regression model is a function from features to a prediction or a failure.
- Each `Math.random()` draw is a real in `[0, 1)`.
- The current time is an integer instant.

Two behaviours of the series assembly are worth stating plainly:
- `get_time_series` has no simulated-series fallback. An exception from the provider propagates, so `TimeSeries` returns `None`.
- An empty history gives a `current` with both values missing, dated today.

## Model

| member | source | states |
|---|---|---|
| DecisionEngine.FirstMatch | ai_service/decision_engine.py:37-89 | the rule that fires is a rule whose guard holds, and every rule before it has a failing guard |
| DecisionEngine.CascadeIsFirstMatch | ai_service/decision_engine.py:37-89 | the if/elif chain (`Cascade`) picks exactly the scenario of the first matching rule in the priority table |
| DecisionEngine.EarlierRuleWins | ai_service/decision_engine.py:37-89 | once the guard of rule k holds, the chosen scenario is among the first k, so later branches are never reached |
| DecisionEngine.CascadeOutcomeUnique | ai_service/decision_engine.py:35-89 | with both readings present exactly one of the eight scenarios results: scenario k is chosen iff k is the first match |
| DecisionEngine.CascadeConfidence | ai_service/decision_engine.py:35-89 | the confidence is one of the eight literals 0.92, 0.85, 0.78, 0.72, 0.88, 0.80, 0.70, 0.65, lies in (0, 1], and the risk is never Unknown |
| DecisionEngine.EveryRuleReachable | ai_service/decision_engine.py:37-89 | each of the eight branches is taken for some NDVI, moisture and trend; none is dead code |
| DecisionEngine.HealthyGrowthRegion | ai_service/decision_engine.py:37-69 | NDVI above 0.6, moisture above 0.4 and a non-negative trend always reach the healthy-growth rule (Low, 0.88), since guards 1 to 4 cannot hold |
| DecisionEngine.CalculateTrend | ai_service/decision_engine.py:125-136 | the trend is 0 when fewer than two values are present, otherwise the last present value minus the first |
| DecisionEngine.TrendOfPresentValues | ai_service/decision_engine.py:125-136 | on a series with no missing value the trend is its last value minus its first |
| DecisionEngine.TrendExample | ai_service/decision_engine.py:125-136 | [0.3, 0.5, 0.7] has trend 0.4; a single value or only missing values give 0 |
| DecisionEngine.NdviTrendIsFirstToLast | ai_service/decision_engine.py:26 | the NDVI trend of a history is the last present NDVI minus the first, or 0 with fewer than two |
| DecisionEngine.StatusBands | ai_service/decision_engine.py:144-158 | the vegetation and moisture words split at 0.6 and 0.4: each band word is produced iff the value is in that band |
| DecisionEngine.TrendSentence | ai_service/decision_engine.py:160-164 | the trend clause is empty iff the NDVI trend is within 0.05 of 0; it says improving iff the trend is above 0.05 and declining iff below -0.05 |
| DecisionEngine.DescriptionAwaitingIff | ai_service/decision_engine.py:139-142 | the description (`GenerateDescription`) is the waiting message iff the NDVI or the moisture reading is missing |
| DecisionEngine.DescriptionOpens | ai_service/decision_engine.py:145-166 | with both readings present the description opens with "Vegetation is" and the current NDVI's band word |
| DecisionEngine.DescriptionVegetationBand | ai_service/decision_engine.py:139-166 | with both readings present the description opens by naming the current NDVI's band, and no other band |
| DecisionEngine.DescriptionTrendClause | ai_service/decision_engine.py:160-166 | the description ends saying vegetation is improving iff the NDVI trend exceeds 0.05, and declining iff it is below -0.05 |
| DecisionEngine.VegetationSentenceFigure | ai_service/decision_engine.py:166 | the vegetation sentence closes with the NDVI as `{ndvi:.2f}` writes it |
| DecisionEngine.MoistureSentenceSays | ai_service/decision_engine.py:152-166 | the moisture sentence names the moisture band of the reading and no other (high iff above 0.6, adequate iff in (0.4, 0.6], low iff at most 0.4) and closes with `int(moisture*100)`, truncated toward zero, followed by "%)." |
| DecisionEngine.DescriptionSentences | ai_service/decision_engine.py:166 | with both readings the description splits into the vegetation sentence, the moisture sentence and the trend clause, in that order; the first carries the two-place NDVI, the second names the moisture band as an iff and carries the truncated percentage |
| DecisionEngine.PrepareMlFeatures | ai_service/decision_engine.py:169-207 | features exist iff both readings are present and at least 3 history NDVI values exist; they are exactly [ndvi, moisture, Mean, StdDev, MinOf, MaxOf, count] of the present history NDVI values, so min and max are values bounding all others, min <= mean <= max, std >= 0 and count >= 3 |
| DecisionEngine.PredictYield | ai_service/decision_engine.py:96-103 | a yield record exists iff features exist and the model predicts on them; it has baseline 100 and says above iff the prediction exceeds 1 |
| DecisionEngine.YieldOf | ai_service/decision_engine.py:98-103 | the baseline is 100, the status is above iff the model output exceeds 1, and the percentage is the output times 100 to within the 1-place rounding |
| DecisionEngine.DecideUnknownIff | ai_service/decision_engine.py:29-89 | the verdict of the null check and cascade (`Decide`) has risk Unknown iff a reading is missing, and then it is Awaiting Data / Insufficient data with confidence 0; otherwise it is the first matching rule's verdict, with confidence in (0, 1] |
| DecisionEngine.DecideByRule | ai_service/decision_engine.py:35-89 | with both readings present the verdict is the risk, confidence, title and action of the first matching rule |
| DecisionEngine.DecideKnown | ai_service/decision_engine.py:35-89 | with both readings present the risk is never Unknown and the confidence lies in (0, 1] |
| DecisionEngine.Analyze | ai_service/decision_engine.py:8-122 | the assessment's risk, confidence, title and action are the verdict of the null check and rule cascade on the current readings and the NDVI trend of the history, and its description is the one built from the readings and both trends |
| DecisionEngine.AnalyzeDescribes | ai_service/decision_engine.py:107-113 | the returned description is the waiting message iff a reading is missing; otherwise its first sentence names the current NDVI's band and no other and closes with the NDVI to two places, its second names the current moisture's band (high above 0.6, adequate above 0.4, low otherwise) and no other and closes with the truncated percentage, and it ends saying improving iff the NDVI trend exceeds 0.05 and declining iff it is below -0.05 |
| DecisionEngine.AnalyzeAwaiting | ai_service/decision_engine.py:30-35 | a missing reading gives risk Unknown, confidence 0, the waiting title, description and action; a missing NDVI or moisture stays missing in the metrics and prevents a yield estimate |
| DecisionEngine.AnalyzeKnown | ai_service/decision_engine.py:30-89 | the risk is Unknown exactly when a current reading is missing; the confidence is in [0, 1]; with both readings the risk, confidence, title and action are the first matching rule's |
| DecisionEngine.AnalyzeIgnoresMoistureHistory | ai_service/decision_engine.py:26-27 | two series with the same current reading and NDVI history get the same risk, confidence, insight, yield estimate and metrics apart from the moisture trend |
| DecisionEngine.AnalyzeMetrics | ai_service/decision_engine.py:115-119 | reported NDVI and moisture are present iff the readings are, within 0.0005 of them; the reported NDVI and moisture trends are each within 0.0005 of the history's trend |
| DecisionEngine.AnalyzeYield | ai_service/decision_engine.py:91-105 | a yield estimate exists iff a model is given, features exist and the model does not fail; it then implies both readings and 3 or more NDVI values, and it reports the model's output |
| DecisionEngine.DescriptionMayDisagreeWithRisk | ai_service/decision_engine.py:71-76 | a recovering NDVI trend reports Low risk while the description calls the vegetation stressed: the two are computed independently |
| Options.PresentMembers | ai_service/decision_engine.py:182 | the `is not None` filter keeps exactly the present values: every kept value comes from a present entry and every present entry's value is kept |
| Options.PresentOfKeepPresent | ai_service/decision_engine.py:26-27 | filtering twice, as `analyze` and `_calculate_trend` do, keeps the same values as filtering once |
| Numeric.RoundHalfEven | ai_service/decision_engine.py:116-119 | Python's round: within 0.5 of the argument, and even on a tie |
| Numeric.Round3 | ai_service/decision_engine.py:116-119 | round(x, 3) lies within 0.0005 of x |
| Numeric.Round1 | ai_service/decision_engine.py:100 | round(x, 1) lies within 0.05 of x |
| Numeric.Round3Idempotent | ai_service/decision_engine.py:116-117 | re-rounding a value the series already rounded to three places changes nothing |
| Numeric.Clamp01 | ai_service/satellite.py:133 | max(0, min(1, x)) lies in [0, 1], is x inside it, 0 below and 1 above |
| Numeric.TruncToInt | ai_service/decision_engine.py:166 | int(x) truncates toward zero: the integer part of x, for either sign |
| Numeric.JsRound | frontend/app/api/dashboard/route.ts:109 | Math.round(x) lies in (x - 0.5, x + 0.5] |
| Numeric.MinOf | ai_service/decision_engine.py:189 | np.min is an element and no element is smaller |
| Numeric.MaxOf | ai_service/decision_engine.py:190 | np.max is an element and no element is larger |
| Numeric.MeanBetweenMinAndMax | ai_service/decision_engine.py:187-190 | the mean lies between the minimum and the maximum |
| Numeric.StdDev | ai_service/decision_engine.py:188 | np.std is non-negative and its square is the population variance, to within the square-root tolerance |
| Text.IntToString | frontend/app/api/dashboard/route.ts:109 | an integer's text starts with a minus sign iff it is negative, and the rest is decimal digits without leading zeros that read back as its magnitude, as `${n}` prints it |
| Text.FixedTwoReadsBack | ai_service/decision_engine.py:166 | `:.2f` starts with a minus exactly for negative values; the rest is an integer part without leading zeros, a point and two digits that read back as the magnitude rounded half to even in hundredths |
| Text.HundredthsReadBack | ai_service/decision_engine.py:166 | the two-place rendering is an integer part without leading zeros, a point and two digits that read back as the hundredths |
| Satellite.QueryWindow | ai_service/satellite.py:86-95 | a bucket's query covers days from the bucket's day up to 7 days later, never past the end day |
| Satellite.MoistureIndex | ai_service/satellite.py:129-133 | the moisture index lies in [0, 1] |
| Satellite.MoistureIndexBands | ai_service/satellite.py:129-133 | at most -20 dB gives 0, at least 0 dB gives 1, and in between the index is (vv + 20) / 20 |
| Satellite.MoistureIndexMonotone | ai_service/satellite.py:129-133 | more backscatter never gives a lower moisture index |
| Satellite.WeekNdvi | ai_service/satellite.py:97-113 | a week's NDVI exists iff the week has an optical image and a mean, and is that mean |
| Satellite.WeekMoisture | ai_service/satellite.py:121-137 | a week's moisture exists iff the week has a radar image and a VV mean, and is that mean's moisture index |
| Satellite.EntryOf | ai_service/satellite.py:139-144 | a week yields an entry iff it has an NDVI or a moisture; the entry is dated by the week's first day and carries each value iff it exists, rounded to 3 places, moisture in [0, 1] |
| Satellite.BucketDatesShape | ai_service/satellite.py:79-84 | (end - start) div 7 days + 1 bucket starts, the i-th i weeks after start, none after the end |
| Satellite.BucketDays | ai_service/satellite.py:79-84 | bucket i starts 7i days after the first bucket, so bucket days strictly increase |
| Satellite.BucketStarts | ai_service/satellite.py:79-84 | the date-list loop produces exactly the bucket starts |
| Satellite.CollectHistory | ai_service/satellite.py:86-144 | the bucket loop fails iff some query raises, and otherwise keeps the non-empty entries in bucket order |
| Satellite.CurrentOf | ai_service/satellite.py:146-151 | current is the last history entry, or an entry dated today with both values missing when the history is empty |
| Satellite.GetTimeSeries | ai_service/satellite.py:34-156 | get_time_series returns the series assembled from the buckets of the look-back period (`TimeSeries`), or fails |
| Satellite.BucketCount | ai_service/satellite.py:55-84 | looking back d >= 0 days samples d div 7 + 1 buckets |
| Satellite.TimeSeriesFailsIff | ai_service/satellite.py:86-137 | the series fails exactly when the provider raises for some bucket |
| Satellite.EntriesAscending | ai_service/satellite.py:86-89 | entries of earlier buckets carry strictly earlier days |
| Satellite.PresentAscending | ai_service/satellite.py:139-144 | dropping the empty weeks keeps the dates strictly ascending |
| Satellite.PresentEntriesNonEmpty | ai_service/satellite.py:139-144 | no kept entry lacks both values, and every kept moisture is in [0, 1] |
| Satellite.HistoryFacts | ai_service/satellite.py:86-144 | the kept entries are well formed (non-empty, strictly ascending dates), at most one per bucket, dated within the sampled days, moisture in [0, 1] |
| Satellite.HistoryDatesWithin | ai_service/satellite.py:86-144 | every kept entry is dated between the first sampled day and today |
| Satellite.TimeSeriesWellFormed | ai_service/satellite.py:77-156 | a successful series has a well-formed history of at most days_back div 7 + 1 entries within the sampled days, moisture in [0, 1], and current is its last entry or the empty reading dated today |
| Satellite.ObservedWeekKept | ai_service/satellite.py:139-144 | a week that reports a value appears in the history, dated by its first day |
| Satellite.LastWindowEmptyOnWholeWeeks | ai_service/satellite.py:79-95 | when days_back is a whole number of weeks the last bucket starts now and its query window is empty |
| Satellite.StatsOf | ai_service/satellite.py:171-188 | the snapshot carries the current NDVI and moisture, the number of history entries, and the last-minus-first present NDVI rounded to 3 places, or 0 with fewer than two values |
| Satellite.GetFieldStats | ai_service/satellite.py:159-188 | get_field_stats fails iff the 30-day series fails, and otherwise summarises it |
| Satellite.FieldStatsFacts | ai_service/satellite.py:169-188 | the snapshot has data_points = history length <= 5, the latest entry's values (missing for an empty history), and the first-to-last NDVI change rounded to 3 places, or 0 with fewer than two NDVI values |
| Pipeline.StatsTrendMatchesAssessment | ai_service/satellite.py:175-186 | the snapshot's NDVI trend equals the rounded NDVI trend the decision engine reports for the same series |
| Pipeline.EmptySeriesAwaits | ai_service/satellite.py:147-151 | a series with an empty history is assessed as Unknown with confidence 0, the waiting description and no yield estimate |
| Pipeline.SeriesVerdictKnownIff | ai_service/decision_engine.py:19-35 | an assembled series gets a known risk iff its latest entry has both NDVI and moisture, and its reported moisture lies in [0, 1] |
| Dashboard.StressScore | frontend/app/api/dashboard/route.ts:53-56 | every stress score is an integer in [10, 79] |
| Dashboard.StressScoreOnto | frontend/app/api/dashboard/route.ts:53-56 | every integer in [10, 79] is the score of some draw |
| Dashboard.HealthStatusOf | frontend/app/api/dashboard/route.ts:58-62 | healthy iff the score is at most 30, warning iff 31 to 60, critical iff above 60 |
| Dashboard.YieldRiskOf | frontend/app/api/dashboard/route.ts:64-68 | low iff the score is at most 25, medium iff 26 to 55, high iff above 55 |
| Dashboard.ClassificationMonotone | frontend/app/api/dashboard/route.ts:58-68 | a higher score never gives a better health status or a lower yield risk |
| Dashboard.ClassificationsAgree | frontend/app/api/dashboard/route.ts:58-68 | low yield risk implies healthy, critical implies high yield risk, healthy never has high yield risk |
| Dashboard.MoistureLevel | frontend/app/api/dashboard/route.ts:82 | the simulated moisture level is an integer in [35, 74] |
| Dashboard.TemperatureAnomaly | frontend/app/api/dashboard/route.ts:83 | the simulated temperature anomaly lies in [-1, 3] |
| Dashboard.SimulatedNdvi | frontend/app/api/dashboard/route.ts:89 | the simulated NDVI lies in [0.4, 0.8] |
| Dashboard.SimulatedNdwi | frontend/app/api/dashboard/route.ts:90 | the simulated NDWI lies in [-0.05, 0.25] |
| Dashboard.TrendOf | frontend/app/api/dashboard/route.ts:77 | the trend label is stable for a draw below 1/3, improving from 1/3 to below 2/3, worsening from 2/3 |
| Dashboard.ReportOf | frontend/app/api/dashboard/route.ts:73-95 | a field's report keeps the field, has a score in [10, 79] classified by both thresholds, readings in their ranges, the drawn trend, last update now, and Sentinel passes 2 and 3 days before today |
| Dashboard.Reports | frontend/app/api/dashboard/route.ts:73-95 | one report per listed field, in the listed order |
| Dashboard.CountWithStatus | frontend/app/api/dashboard/route.ts:98-99 | the count is exactly how many fields have the status (its multiplicity among the statuses), at most the field count, and positive iff some field has it |
| Dashboard.HeadlineOpens | frontend/app/api/dashboard/route.ts:101-108 | the headline opens with the attention, monitoring or all-clear wording chosen by the critical and warning counts |
| Dashboard.SummaryCounts | frontend/app/api/dashboard/route.ts:101-109 | the summary (`Summary`, from `Headline` and `AverageClosing`) states the exact number of critical fields when there is one, else the exact number of warning fields when there is one, and ends with the rounded average stress (`AverageStress`) out of 100 |
| Dashboard.SummaryHeadline | frontend/app/api/dashboard/route.ts:101-109 | the summary opens with the attention warning iff a field is critical, the monitoring note iff none is critical and one is warning, the all-clear otherwise, and ends with "/100." |
| Dashboard.AverageWithinScores | frontend/app/api/dashboard/route.ts:109 | the rounded average stress lies within any integer bounds of the scores |
| Dashboard.AverageOfDrawnScores | frontend/app/api/dashboard/route.ts:109 | the reported average stress of the three fields is in [10, 79] |
| Dashboard.AdviceTextNamesAllClear | frontend/app/api/dashboard/route.ts:111-121 | only the fallback advice renders as the all-healthy line |
| Dashboard.AdviceFor | frontend/app/api/dashboard/route.ts:112-118 | a field gets advice iff its score exceeds 40; the advice names the field and is immediate irrigation iff the score exceeds 60 |
| Dashboard.TextsStep | frontend/app/api/dashboard/route.ts:112-118 | each field extends the pushed lines by the text of its own advice, if it has one |
| Dashboard.LinesOfGiven | frontend/app/api/dashboard/route.ts:119-121 | the lines are the pushed lines, or the single all-healthy line when none was pushed |
| Dashboard.Recommend | frontend/app/api/dashboard/route.ts:111-121 | the forEach loop and fallback produce exactly the recommendation lines |
| Dashboard.AdvicesCover | frontend/app/api/dashboard/route.ts:111-121 | the list is never empty; it is the fallback alone iff no score exceeds 40; every field above 40 has its advice listed and every listed advice belongs to such a field |
| Dashboard.RecommendationsCover | frontend/app/api/dashboard/route.ts:111-121 | the lines are never empty; they are the all-healthy line alone iff no score exceeds 40; a field above 60 gets its immediate-irrigation line, one in 41 to 60 its monitoring line |
| Dashboard.Take | frontend/app/api/dashboard/route.ts:127 | slice(0, n) is the prefix of length min(n, length) |
| Dashboard.RecommendationsNotTruncated | frontend/app/api/dashboard/route.ts:127 | with the three listed fields there are 1 to 3 lines, so the cap of four keeps them all |
| Dashboard.SummaryAndRecommendationsCanDisagree | frontend/app/api/dashboard/route.ts:98-121 | when no score exceeds 40 but one exceeds 30, the summary asks for monitoring while the only recommendation says all fields look healthy |
| Dashboard.Confidence | frontend/app/api/dashboard/route.ts:128 | the insight confidence is an integer in [85, 94] |
| Dashboard.Get | frontend/app/api/dashboard/route.ts:70-140 | the response holds the field reports, the summary, the recommendation lines (1 to 3, uncut), a confidence in [85, 94], analysis and generation time now, Sentinel passes 2 and 3 days back, and the next update six hours on |
| FieldService.RiskOf | ai_service/main.py:34 | High iff NDVI < 0.3, Medium iff 0.3 <= NDVI < 0.6, Low iff NDVI >= 0.6 |
| FieldService.AlertOf | ai_service/main.py:35-42 | the alert chosen by the if/elif is always the alert of the NDVI's risk band |
| FieldService.AnalyzeFieldAgrees | ai_service/main.py:31-46 | the result of `AnalyzeField` has exactly one alert, the one matching the risk; the risk is that of the reported NDVI, which is the model's prediction when a model is loaded |
| FieldService.NoModelIsHighRisk | ai_service/main.py:31-38 | without a model the NDVI is 0, the risk High and the only alert the severe one |
| FieldService.RiskMonotone | ai_service/main.py:34 | a greener field is never reported at a higher risk |
| FieldService.AlertDeterminesRisk | ai_service/main.py:35-42 | the three alerts are distinct, so the alert determines the risk |

## Left out

- Earth Engine access is not part of this model:
  - `initialize`, `ee.Authenticate` and the `_initialized` flag;
  - polygon construction;
  - the collection filters (cloud cover under 20 %, IW mode, VV polarisation, descending orbit);
  - the NDVI band maths and the regional mean reduction.
  The provider is a function from a query window to image counts and band means, or to an error.
- Satellite.CollectHistory: one provider answer stands for both queries of a bucket (optical and radar). The order of the two calls is not modelled. Only whether one of them raised matters, and then the whole series fails.
- Dates are day numbers, not `YYYY-MM-DD` strings. The current time is a parameter `now` counted in seconds. Local time zones are not modelled.
- Floating point is modelled by exact reals.
  - Numeric.RoundHalfEven: rounds the exact real half to even. It does not model Python rounding the binary double.
  - Text.FixedTwo: follows the same convention.
- Numeric.StdDev: specified only to within `SqrtTolerance` (10^-9) of the true square root, because reals have no square-root operation.
- The regression model's loading and its internals are not modelled. It is an optional function that either predicts or fails. A failure stands for the exception the engine catches and prints. The printed message is not modelled.
- Exceptions inside `_prepare_ml_features` cannot arise from a well-typed series, so its `except` branch has no counterpart.
- A series missing its `current` key is passed as a reading with both values missing, which is what `dict.get` gives.
- The dashboard's field coordinates and centres are not modelled. JSON serialisation is not modelled. ISO timestamps are integer instants in milliseconds.
- Each `Math.random()` draw in the dashboard and `np.random.rand` in the field endpoint are parameters in `[0, 1)`.
- FieldService.AnalyzeField:
  - It assumes the loaded model's `predict` returns a value. An exception there would fail the request, and that is not modelled.
  - The `np.zeros` features used when no model is loaded are not represented, because the NDVI is then the constant 0.
- Also not part of this model:
  - the retrieval-augmented chat service;
  - the Express backend;
  - the Sentinel download scripts;
  - the web pages and components;
  - the Flask stub.
  These are I/O, UI or library glue with no logic of their own.
