/**
 * The expert system that turns a satellite time series into a risk level, an
 * insight (title, description, action), rounded metrics and an optional yield
 * estimate from an injected regression model. Everything here is a pure
 * function of the series and the model.
 */
module DecisionEngine {
  import opened Options
  import opened Numeric
  import opened Text
  import opened Readings

  datatype RiskLevel = Unknown | Low | Medium | High | Critical

  /** The eight scenarios of the rule cascade, in priority order. */
  datatype Scenario =
    | SevereWaterStress | RootDisease | WaterStressDeveloping | HeatStress
    | HealthyGrowth | Recovery | ModerateHealth | MonitoringRequired

  function RiskOf(s: Scenario): RiskLevel
  {
    match s
    case SevereWaterStress => Critical
    case RootDisease => High
    case WaterStressDeveloping => Medium
    case HeatStress => Medium
    case HealthyGrowth => Low
    case Recovery => Low
    case ModerateHealth => Medium
    case MonitoringRequired => Medium
  }

  function ConfidenceOf(s: Scenario): real
  {
    match s
    case SevereWaterStress => 0.92
    case RootDisease => 0.85
    case WaterStressDeveloping => 0.78
    case HeatStress => 0.72
    case HealthyGrowth => 0.88
    case Recovery => 0.80
    case ModerateHealth => 0.70
    case MonitoringRequired => 0.65
  }

  function TitleOf(s: Scenario): string
  {
    match s
    case SevereWaterStress => "🚨 Severe Water Stress Detected"
    case RootDisease => "⚠️ Potential Root Disease"
    case WaterStressDeveloping => "💧 Water Stress Developing"
    case HeatStress => "🌡️ Heat Stress Suspected"
    case HealthyGrowth => "✅ Healthy Growth"
    case Recovery => "📈 Recovery in Progress"
    case ModerateHealth => "⚡ Moderate Health"
    case MonitoringRequired => "📊 Monitoring Required"
  }

  function ActionOf(s: Scenario): string
  {
    match s
    case SevereWaterStress =>
      "Immediate irrigation required. Apply 50-60mm water within 24 hours to prevent permanent damage."
    case RootDisease =>
      "Soil is saturated but vegetation is stressed. STOP irrigation. Inspect for root rot or fungal infection."
    case WaterStressDeveloping => "Schedule irrigation within 48-72 hours. Monitor closely for further decline."
    case HeatStress => "Adequate soil moisture but vegetation declining. Check for heat damage or pest activity."
    case HealthyGrowth => "Vegetation is thriving. Continue current irrigation schedule. No action needed."
    case Recovery => "Vegetation health improving. Maintain current management practices."
    case ModerateHealth => "Vegetation is stable but not optimal. Consider light irrigation if no rain expected."
    case MonitoringRequired => "Conditions are borderline. Continue monitoring for trend changes."
  }

  /** The title and action when the current NDVI or moisture reading is missing. */
  const AwaitingTitle := "Awaiting Data"
  const AwaitingAction := "Insufficient data"

  /** The if/elif scenario chain of `analyze`, for present readings and the NDVI trend. */
  function Cascade(ndvi: real, moisture: real, ndviTrend: real): Scenario
  {
    if moisture < 0.3 && ndvi < 0.4 && ndviTrend < -0.05 then SevereWaterStress
    else if moisture > 0.6 && ndvi < 0.4 then RootDisease
    else if moisture < 0.4 && ndviTrend < -0.02 then WaterStressDeveloping
    else if moisture > 0.5 && ndvi < 0.5 && ndviTrend < 0.0 then HeatStress
    else if ndvi > 0.6 && moisture > 0.4 && ndviTrend >= 0.0 then HealthyGrowth
    else if ndviTrend > 0.05 then Recovery
    else if ndvi > 0.4 && moisture > 0.3 then ModerateHealth
    else MonitoringRequired
  }

  // The same cascade as a table of (guard, scenario) rules searched in priority order.

  const Rules: seq<Scenario> := [SevereWaterStress, RootDisease, WaterStressDeveloping, HeatStress,
                                 HealthyGrowth, Recovery, ModerateHealth, MonitoringRequired]

  /** The guard of rule `k` (1-based); the last rule always holds. */
  predicate Guard(k: int, ndvi: real, moisture: real, trend: real)
  {
    match k
    case 1 => moisture < 0.3 && ndvi < 0.4 && trend < -0.05
    case 2 => moisture > 0.6 && ndvi < 0.4
    case 3 => moisture < 0.4 && trend < -0.02
    case 4 => moisture > 0.5 && ndvi < 0.5 && trend < 0.0
    case 5 => ndvi > 0.6 && moisture > 0.4 && trend >= 0.0
    case 6 => trend > 0.05
    case 7 => ndvi > 0.4 && moisture > 0.3
    case 8 => true
    case _ => false
  }

  /** The first rule from `k` on whose guard holds. */
  function FirstMatchFrom(k: int, ndvi: real, moisture: real, trend: real): (j: int)
    requires 1 <= k <= |Rules|
    ensures k <= j <= |Rules| && Guard(j, ndvi, moisture, trend)
    ensures forall i :: k <= i < j ==> !Guard(i, ndvi, moisture, trend)
    decreases |Rules| - k
  {
    if Guard(k, ndvi, moisture, trend) then k else FirstMatchFrom(k + 1, ndvi, moisture, trend)
  }

  /** The rule that fires: the first whose guard holds. */
  function FirstMatch(ndvi: real, moisture: real, trend: real): (j: int)
    ensures 1 <= j <= |Rules| && Guard(j, ndvi, moisture, trend)
    ensures forall i :: 1 <= i < j ==> !Guard(i, ndvi, moisture, trend)
  {
    FirstMatchFrom(1, ndvi, moisture, trend)
  }

  /** The if/elif chain decides exactly what the first matching rule of the table decides. */
  lemma CascadeIsFirstMatch(ndvi: real, moisture: real, trend: real)
    ensures Cascade(ndvi, moisture, trend) == Rules[FirstMatch(ndvi, moisture, trend) - 1]
  {
    var j := FirstMatch(ndvi, moisture, trend);
    if j > 1 { assert !Guard(1, ndvi, moisture, trend); }
    if j > 2 { assert !Guard(2, ndvi, moisture, trend); }
    if j > 3 { assert !Guard(3, ndvi, moisture, trend); }
    if j > 4 { assert !Guard(4, ndvi, moisture, trend); }
    if j > 5 { assert !Guard(5, ndvi, moisture, trend); }
    if j > 6 { assert !Guard(6, ndvi, moisture, trend); }
    if j > 7 { assert !Guard(7, ndvi, moisture, trend); }
  }

  /** Once a guard holds, no later rule can fire. */
  lemma EarlierRuleWins(k: int, ndvi: real, moisture: real, trend: real)
    requires 1 <= k <= |Rules| && Guard(k, ndvi, moisture, trend)
    ensures FirstMatch(ndvi, moisture, trend) <= k
    ensures Cascade(ndvi, moisture, trend) in Rules[..k]
  {
    CascadeIsFirstMatch(ndvi, moisture, trend);
  }

  /** The cascade yields exactly one of the eight scenarios: that of the first matching rule. */
  lemma CascadeOutcomeUnique(ndvi: real, moisture: real, trend: real, k: int)
    requires 1 <= k <= |Rules|
    ensures Cascade(ndvi, moisture, trend) == Rules[k - 1] <==> k == FirstMatch(ndvi, moisture, trend)
  {
    CascadeIsFirstMatch(ndvi, moisture, trend);
  }

  /** With both readings present the confidence is one of the eight literals and the risk is known. */
  lemma CascadeConfidence(ndvi: real, moisture: real, trend: real)
    ensures ConfidenceOf(Cascade(ndvi, moisture, trend)) in {0.92, 0.85, 0.78, 0.72, 0.88, 0.80, 0.70, 0.65}
    ensures 0.0 < ConfidenceOf(Cascade(ndvi, moisture, trend)) <= 1.0
    ensures RiskOf(Cascade(ndvi, moisture, trend)) != Unknown
  {
  }

  /** Every rule fires for some readings: none of the eight is dead code. */
  lemma EveryRuleReachable(k: int)
    requires 1 <= k <= |Rules|
    ensures exists ndvi: real, moisture: real, trend: real :: FirstMatch(ndvi, moisture, trend) == k
  {
    var w :=
      if k == 1 then (0.2, 0.2, -0.08)
      else if k == 2 then (0.2, 0.7, 0.0)
      else if k == 3 then (0.5, 0.35, -0.03)
      else if k == 4 then (0.45, 0.55, -0.01)
      else if k == 5 then (0.75, 0.5, 0.01)
      else if k == 6 then (0.2, 0.2, 0.1)
      else if k == 7 then (0.5, 0.35, 0.0)
      else (0.2, 0.2, 0.0);
    assert FirstMatch(w.0, w.1, w.2) == k;
  }

  /** Dense vegetation, adequate moisture and a non-negative trend always give healthy growth:
      none of the first four guards can hold then. */
  lemma HealthyGrowthRegion(ndvi: real, moisture: real, trend: real)
    requires ndvi > 0.6 && moisture > 0.4 && trend >= 0.0
    ensures FirstMatch(ndvi, moisture, trend) == 5
    ensures Cascade(ndvi, moisture, trend) == HealthyGrowth
  {
    CascadeIsFirstMatch(ndvi, moisture, trend);
  }

  // Trends.

  /** `_calculate_trend`: last minus first of the present values; 0 when fewer than two are present.
      The service's first guard, on the length of the unfiltered list, is subsumed by the second:
      fewer than two entries never hold two present values, so the contract needs only the second. */
  function CalculateTrend(values: seq<Option<real>>): (t: real)
    ensures var clean := Present(values);
      t == if |clean| < 2 then 0.0 else clean[|clean| - 1] - clean[0]
  {
    if |values| < 2 then 0.0
    else
      var clean := Present(values);
      if |clean| < 2 then 0.0 else clean[|clean| - 1] - clean[0]
  }

  /** The trend of a fully present series is its last value minus its first. */
  lemma TrendOfPresentValues(values: seq<Option<real>>)
    requires |values| >= 2 && forall i :: 0 <= i < |values| ==> values[i].Some?
    ensures CalculateTrend(values) == values[|values| - 1].value - values[0].value
  {
    PresentOfAllSome(values);
  }

  lemma TrendExample()
    ensures CalculateTrend([Some(0.3), Some(0.5), Some(0.7)]) == 0.4
    ensures CalculateTrend([Some(0.3)]) == 0.0
    ensures CalculateTrend([None, None, None]) == 0.0
  {
    TrendOfPresentValues([Some(0.3), Some(0.5), Some(0.7)]);
  }

  /** `_calculate_trend` of the NDVI values present in the history. */
  function NdviTrend(history: seq<Reading>): real
  {
    CalculateTrend(KeepPresent(NdviColumn(history)))
  }

  /** `_calculate_trend` of the moisture values present in the history. */
  function MoistureTrend(history: seq<Reading>): real
  {
    CalculateTrend(KeepPresent(MoistureColumn(history)))
  }

  /** The NDVI trend is the last present NDVI minus the first, or 0 with fewer than two. */
  lemma NdviTrendIsFirstToLast(history: seq<Reading>)
    ensures var vals := Present(NdviColumn(history));
      NdviTrend(history) == if |vals| < 2 then 0.0 else vals[|vals| - 1] - vals[0]
  {
    PresentOfKeepPresent(NdviColumn(history));
  }

  // Description.

  function VegetationStatus(ndvi: real): string
  {
    if ndvi > 0.6 then "dense and healthy" else if ndvi > 0.4 then "moderate" else "stressed"
  }

  function MoistureStatus(moisture: real): string
  {
    if moisture > 0.6 then "high" else if moisture > 0.4 then "adequate" else "low"
  }

  /** The bands of the description split at 0.6 and 0.4, for vegetation and moisture alike. */
  lemma StatusBands(ndvi: real, moisture: real)
    ensures VegetationStatus(ndvi) == "dense and healthy" <==> ndvi > 0.6
    ensures VegetationStatus(ndvi) == "moderate" <==> 0.4 < ndvi <= 0.6
    ensures VegetationStatus(ndvi) == "stressed" <==> ndvi <= 0.4
    ensures MoistureStatus(moisture) == "high" <==> moisture > 0.6
    ensures MoistureStatus(moisture) == "adequate" <==> 0.4 < moisture <= 0.6
    ensures MoistureStatus(moisture) == "low" <==> moisture <= 0.4
  {
  }

  const Improving := " Vegetation health is improving."
  const Declining := " Vegetation health is declining."

  /** The trend clause: present only when the NDVI trend exceeds 0.05 in magnitude. */
  function TrendSentence(trend: real): (s: string)
    ensures s == "" <==> -0.05 <= trend <= 0.05
    ensures s == Improving <==> trend > 0.05
    ensures s == Declining <==> trend < -0.05
  {
    var clause := if (if trend < 0.0 then -trend else trend) > 0.05 then
      " Vegetation health is " + (if trend > 0.0 then "improving" else "declining") + "."
    else "";
    assert Improving[22] == 'i' && Declining[22] == 'd';
    clause
  }

  const AwaitingDescription := "Awaiting satellite data for analysis."

  /** The NDVI to two places, in parentheses, closing the first sentence. */
  function NdviFigure(ndvi: real): string
  {
    " (NDVI: " + FixedTwo(ndvi) + ")."
  }

  /** The first sentence of the description: the vegetation band and the NDVI to two places. */
  function VegetationSentence(ndvi: real): string
  {
    Opening(VegetationStatus(ndvi)) + NdviFigure(ndvi)
  }

  /** The words that open the moisture sentence naming a moisture band. */
  function MoistureOpening(band: string): string
  {
    " Soil moisture is " + band
  }

  /** The moisture as a percentage truncated toward zero, in parentheses, closing the second sentence. */
  function PercentFigure(moisture: real): string
  {
    " (" + IntToString(TruncToInt(moisture * 100.0)) + "%)."
  }

  /** The second sentence: the moisture band and the moisture as a truncated percentage. */
  function MoistureSentence(moisture: real): (s: string)
    ensures EndsWith(s, "%).")
  {
    EndsWithConcat(" (" + IntToString(TruncToInt(moisture * 100.0)), "%).");
    EndsWithPrepend(MoistureOpening(MoistureStatus(moisture)), PercentFigure(moisture), "%).");
    MoistureOpening(MoistureStatus(moisture)) + PercentFigure(moisture)
  }

  /** `_generate_description`. The moisture trend is accepted and not used, as in the service. */
  function GenerateDescription(ndvi: Option<real>, moisture: Option<real>, ndviTrend: real, moistureTrend: real): string
  {
    if ndvi.None? || moisture.None? then AwaitingDescription
    else VegetationSentence(ndvi.value) + MoistureSentence(moisture.value) + TrendSentence(ndviTrend)
  }

  /** The description is the waiting message exactly when a reading is missing. */
  lemma DescriptionAwaitingIff(ndvi: Option<real>, moisture: Option<real>, ndviTrend: real, moistureTrend: real)
    ensures GenerateDescription(ndvi, moisture, ndviTrend, moistureTrend) == AwaitingDescription
            <==> ndvi.None? || moisture.None?
  {
    var d := GenerateDescription(ndvi, moisture, ndviTrend, moistureTrend);
    if ndvi.Some? && moisture.Some? {
      assert d[0] == VegetationSentence(ndvi.value)[0] == 'V';
    }
  }

  /** The words that open a description naming a vegetation band. */
  function Opening(band: string): string
  {
    "Vegetation is " + band
  }

  /** The opening of the description names the vegetation band of the current NDVI, and nothing else. */
  lemma DescriptionVegetationBand(ndvi: real, moisture: real, ndviTrend: real, moistureTrend: real)
    ensures var d := GenerateDescription(Some(ndvi), Some(moisture), ndviTrend, moistureTrend);
      && (StartsWith(d, Opening("dense and healthy")) <==> ndvi > 0.6)
      && (StartsWith(d, Opening("moderate")) <==> 0.4 < ndvi <= 0.6)
      && (StartsWith(d, Opening("stressed")) <==> ndvi <= 0.4)
  {
    var d := GenerateDescription(Some(ndvi), Some(moisture), ndviTrend, moistureTrend);
    var veg := VegetationStatus(ndvi);
    DescriptionOpens(ndvi, moisture, ndviTrend, moistureTrend);
    OpeningNamesBand(d, veg, "dense and healthy");
    OpeningNamesBand(d, veg, "moderate");
    OpeningNamesBand(d, veg, "stressed");
  }

  /** With both readings present the description opens with the current NDVI's band. */
  lemma DescriptionOpens(ndvi: real, moisture: real, ndviTrend: real, moistureTrend: real)
    ensures StartsWith(GenerateDescription(Some(ndvi), Some(moisture), ndviTrend, moistureTrend),
                       Opening(VegetationStatus(ndvi)))
  {
    var vs, ms, ts := VegetationSentence(ndvi), MoistureSentence(moisture), TrendSentence(ndviTrend);
    var opening := Opening(VegetationStatus(ndvi));
    StartsWithConcat(opening, NdviFigure(ndvi));
    StartsWithAppend(vs, ms, opening);
    StartsWithAppend(vs + ms, ts, opening);
  }

  /** A text opening with one band's words opens with another band's words only if the bands agree. */
  lemma OpeningNamesBand(d: string, veg: string, band: string)
    requires veg in {"dense and healthy", "moderate", "stressed"}
    requires band in {"dense and healthy", "moderate", "stressed"}
    requires StartsWith(d, Opening(veg))
    ensures StartsWith(d, Opening(band)) <==> band == veg
  {
    if StartsWith(d, Opening(band)) {
      StartsWithAt(d, Opening(band), 14);
      StartsWithAt(d, Opening(veg), 14);
      assert band[0] == veg[0];
    }
  }

  /** The description ends by saying the vegetation is improving exactly when the NDVI trend exceeds 0.05,
      and declining exactly when it is below -0.05. */
  lemma DescriptionTrendClause(ndvi: real, moisture: real, ndviTrend: real, moistureTrend: real)
    ensures var d := GenerateDescription(Some(ndvi), Some(moisture), ndviTrend, moistureTrend);
      && (EndsWith(d, Improving) <==> ndviTrend > 0.05)
      && (EndsWith(d, Declining) <==> ndviTrend < -0.05)
  {
    var vs, ms, ts := VegetationSentence(ndvi), MoistureSentence(moisture), TrendSentence(ndviTrend);
    var d := vs + ms + ts;
    assert d == GenerateDescription(Some(ndvi), Some(moisture), ndviTrend, moistureTrend);
    assert d[|d| - |ts|..] == ts;
    assert EndsWith(d, ts);
    if ts == "" {
      assert d == vs + ms;
      EndsWithAt(ms, "%).", 2);
      assert d[|d| - 2] == ms[|ms| - 2] == ')';
      if EndsWith(d, Improving) { EndsWithAt(d, Improving, 2); }
      if EndsWith(d, Declining) { EndsWithAt(d, Declining, 2); }
    } else if ts == Improving {
      EndsWithAt(d, Improving, 10);
      if EndsWith(d, Declining) { EndsWithAt(d, Declining, 10); }
    } else {
      EndsWithAt(d, Declining, 10);
      if EndsWith(d, Improving) { EndsWithAt(d, Improving, 10); }
    }
  }

  /** A text opening with one moisture band's words opens with another band's words only if the bands agree. */
  lemma MoistureOpeningNamesBand(d: string, level: string, band: string)
    requires level in {"high", "adequate", "low"}
    requires band in {"high", "adequate", "low"}
    requires StartsWith(d, MoistureOpening(level))
    ensures StartsWith(d, MoistureOpening(band)) <==> band == level
  {
    if StartsWith(d, MoistureOpening(band)) {
      StartsWithAt(d, MoistureOpening(band), 18);
      StartsWithAt(d, MoistureOpening(level), 18);
      assert band[0] == level[0];
    }
  }

  /** The moisture sentence names the band of the reading and no other, and closes with
      `int(moisture * 100)`, the percentage truncated toward zero, followed by "%).". */
  lemma MoistureSentenceSays(moisture: real)
    ensures var s := MoistureSentence(moisture);
      && (StartsWith(s, MoistureOpening("high")) <==> moisture > 0.6)
      && (StartsWith(s, MoistureOpening("adequate")) <==> 0.4 < moisture <= 0.6)
      && (StartsWith(s, MoistureOpening("low")) <==> moisture <= 0.4)
      && EndsWith(s, " (" + IntToString(TruncToInt(moisture * 100.0)) + "%).")
  {
    var level := MoistureStatus(moisture);
    var s := MoistureSentence(moisture);
    StartsWithConcat(MoistureOpening(level), PercentFigure(moisture));
    EndsWithConcat(MoistureOpening(level), PercentFigure(moisture));
    StatusBands(0.0, moisture);
    MoistureOpeningNamesBand(s, level, "high");
    MoistureOpeningNamesBand(s, level, "adequate");
    MoistureOpeningNamesBand(s, level, "low");
  }

  /** The vegetation sentence closes with the NDVI as `{ndvi:.2f}` writes it. */
  lemma VegetationSentenceFigure(ndvi: real)
    ensures EndsWith(VegetationSentence(ndvi), " (NDVI: " + FixedTwo(ndvi) + ").")
  {
    EndsWithConcat(Opening(VegetationStatus(ndvi)), NdviFigure(ndvi));
  }

  /** With both readings present the description is the vegetation sentence, the moisture sentence
      and the trend clause, in that order: the first gives the NDVI to two places, and the second
      names the moisture band of the reading, and no other, with its truncated percentage. */
  lemma DescriptionSentences(ndvi: real, moisture: real, ndviTrend: real, moistureTrend: real)
    ensures var d := GenerateDescription(Some(ndvi), Some(moisture), ndviTrend, moistureTrend);
      var k := |VegetationSentence(ndvi)|; var j := |d| - |TrendSentence(ndviTrend)|;
      && 0 <= k <= j <= |d|
      && d[..k] == VegetationSentence(ndvi) && d[k..j] == MoistureSentence(moisture)
      && d[j..] == TrendSentence(ndviTrend)
      && EndsWith(d[..k], " (NDVI: " + FixedTwo(ndvi) + ").")
      && (StartsWith(d[k..j], MoistureOpening("high")) <==> moisture > 0.6)
      && (StartsWith(d[k..j], MoistureOpening("adequate")) <==> 0.4 < moisture <= 0.6)
      && (StartsWith(d[k..j], MoistureOpening("low")) <==> moisture <= 0.4)
      && EndsWith(d[k..j], " (" + IntToString(TruncToInt(moisture * 100.0)) + "%).")
  {
    var vs, ms, ts := VegetationSentence(ndvi), MoistureSentence(moisture), TrendSentence(ndviTrend);
    var d := vs + ms + ts;
    assert d == GenerateDescription(Some(ndvi), Some(moisture), ndviTrend, moistureTrend);
    assert d[..|vs|] == vs;
    assert d[|vs|..|vs| + |ms|] == ms;
    assert d[|vs| + |ms|..] == ts;
    VegetationSentenceFigure(ndvi);
    MoistureSentenceSays(moisture);
  }

  // Yield prediction.

  /** What the injected regressor does with one feature vector: a prediction or an exception. */
  datatype Prediction = Predicted(y: real) | PredictFailed

  type Regressor = seq<real> -> Prediction

  datatype YieldStatus = Above | Below

  datatype YieldPrediction = YieldPrediction(expectedYieldPercent: real, baseline: real, status: YieldStatus)

  /** `_prepare_ml_features`: `[ndvi, moisture, mean, std, min, max, count]` over the NDVI history. */
  function PrepareMlFeatures(data: SatelliteData): (f: Option<seq<real>>)
    ensures var vals := Present(NdviColumn(data.history));
      f.Some? <==> data.current.ndvi.Some? && data.current.moisture.Some? && |vals| >= 3
    ensures f.Some? ==> var vals := Present(NdviColumn(data.history)); var v := f.value;
      && |v| == 7
      && v[0] == data.current.ndvi.value && v[1] == data.current.moisture.value
      && v[2] == Mean(vals) && v[3] == StdDev(vals) && v[4] == MinOf(vals) && v[5] == MaxOf(vals)
      && v[4] in vals && v[5] in vals
      && (forall x :: x in vals ==> v[4] <= x <= v[5])
      && v[4] <= v[2] <= v[5]
      && v[3] >= 0.0
      && v[6] == |vals| as real >= 3.0
  {
    var ndvi := data.current.ndvi;
    var moisture := data.current.moisture;
    if ndvi.None? || moisture.None? then None
    else
      var vals := Present(NdviColumn(data.history));
      if |vals| < 3 then None
      else
        MeanBetweenMinAndMax(vals);
        Some([ndvi.value, moisture.value, Mean(vals), StdDev(vals), MinOf(vals), MaxOf(vals), |vals| as real])
  }

  /** The record reported for a model output `y` (a yield ratio). */
  function YieldOf(y: real): (p: YieldPrediction)
    ensures p.baseline == 100.0
    ensures p.status == Above <==> y > 1.0
    ensures -0.05 <= p.expectedYieldPercent - y * 100.0 <= 0.05
  {
    YieldPrediction(Round1(y * 100.0), 100.0, if y > 1.0 then Above else Below)
  }

  /** The guarded yield step of `analyze`: no prediction without features, or when the model raises. */
  function PredictYield(model: Regressor, data: SatelliteData): (p: Option<YieldPrediction>)
    ensures var f := PrepareMlFeatures(data);
      p.Some? <==> f.Some? && model(f.value).Predicted?
    ensures p.Some? ==> var f := PrepareMlFeatures(data).value;
      p.value.baseline == 100.0 && (p.value.status == Above <==> model(f).y > 1.0)
  {
    match PrepareMlFeatures(data)
    case None => None
    case Some(features) =>
      match model(features)
      case PredictFailed => None
      case Predicted(y) => Some(YieldOf(y))
  }

  // The assessment.

  datatype Insight = Insight(title: string, description: string, action: string)

  datatype Metrics = Metrics(ndvi: Option<real>, moisture: Option<real>, ndviTrend: real, moistureTrend: real)

  datatype Assessment = Assessment(
    risk: RiskLevel,
    confidence: real,
    insight: Insight,
    metrics: Metrics,
    yieldPrediction: Option<YieldPrediction>)

  /** The verdict part of an assessment: risk, confidence, title and action. */
  datatype Decision = Decision(risk: RiskLevel, confidence: real, title: string, action: string)

  const Awaiting := Decision(Unknown, 0.0, AwaitingTitle, AwaitingAction)

  /** The risk, confidence, title and action a scenario assigns. */
  function VerdictOf(s: Scenario): Decision
  {
    Decision(RiskOf(s), ConfidenceOf(s), TitleOf(s), ActionOf(s))
  }

  /** The null check of `analyze` followed by its scenario chain. */
  function Decide(ndvi: Option<real>, moisture: Option<real>, ndviTrend: real): Decision
  {
    if ndvi.Some? && moisture.Some? then VerdictOf(Cascade(ndvi.value, moisture.value, ndviTrend))
    else Awaiting
  }

  /** The risk is unknown exactly when a reading is missing, and then the verdict is the waiting one;
      otherwise it is the verdict of the first matching rule, with a confidence in (0, 1]. */
  lemma DecideUnknownIff(ndvi: Option<real>, moisture: Option<real>, ndviTrend: real)
    ensures var d := Decide(ndvi, moisture, ndviTrend);
      && (d.risk == Unknown <==> ndvi.None? || moisture.None?)
      && (ndvi.None? || moisture.None? ==> d == Awaiting)
      && (ndvi.Some? && moisture.Some? ==>
            var rule := Rules[FirstMatch(ndvi.value, moisture.value, ndviTrend) - 1];
            && d == VerdictOf(rule)
            && 0.0 < d.confidence <= 1.0)
  {
    if ndvi.Some? && moisture.Some? {
      DecideByRule(ndvi.value, moisture.value, ndviTrend);
      DecideKnown(ndvi.value, moisture.value, ndviTrend);
    } else {
      assert Decide(ndvi, moisture, ndviTrend) == Awaiting;
    }
  }

  /** With both readings present the verdict is the first matching rule's. */
  lemma DecideByRule(ndvi: real, moisture: real, ndviTrend: real)
    ensures Decide(Some(ndvi), Some(moisture), ndviTrend) == VerdictOf(Rules[FirstMatch(ndvi, moisture, ndviTrend) - 1])
  {
    CascadeIsFirstMatch(ndvi, moisture, ndviTrend);
  }

  /** With both readings present the risk is known and the confidence lies in (0, 1]. */
  lemma DecideKnown(ndvi: real, moisture: real, ndviTrend: real)
    ensures var d := Decide(Some(ndvi), Some(moisture), ndviTrend);
      d.risk != Unknown && 0.0 < d.confidence <= 1.0
  {
    CascadeConfidence(ndvi, moisture, ndviTrend);
  }

  /** `analyze(satellite_data, ml_model)`. A missing `current` behaves as a reading with both values missing. */
  function Analyze(data: SatelliteData, model: Option<Regressor>): (a: Assessment)
    ensures var d := Decide(data.current.ndvi, data.current.moisture, NdviTrend(data.history));
      && a.risk == d.risk && a.confidence == d.confidence
      && a.insight.title == d.title && a.insight.action == d.action
    ensures a.insight.description ==
      GenerateDescription(data.current.ndvi, data.current.moisture, NdviTrend(data.history), MoistureTrend(data.history))
  {
    var ndvi := data.current.ndvi;
    var moisture := data.current.moisture;
    var ndviTrend := NdviTrend(data.history);
    var moistureTrend := MoistureTrend(data.history);
    var decision := Decide(ndvi, moisture, ndviTrend);
    var description := GenerateDescription(ndvi, moisture, ndviTrend, moistureTrend);
    var metrics := Metrics(MapOption(ndvi, Round3), MapOption(moisture, Round3), Round3(ndviTrend), Round3(moistureTrend));
    var yieldPrediction := if model.Some? && ndvi.Some? then PredictYield(model.value, data) else None;
    Assessment(decision.risk, decision.confidence, Insight(decision.title, description, decision.action),
      metrics, yieldPrediction)
  }

  /** A missing current reading short-circuits to the waiting verdict with confidence 0. */
  lemma AnalyzeAwaiting(data: SatelliteData, model: Option<Regressor>)
    requires data.current.ndvi.None? || data.current.moisture.None?
    ensures var a := Analyze(data, model);
      && a.risk == Unknown && a.confidence == 0.0
      && a.insight == Insight(AwaitingTitle, AwaitingDescription, AwaitingAction)
      && (data.current.ndvi.None? ==> a.metrics.ndvi.None? && a.yieldPrediction.None?)
      && (data.current.moisture.None? ==> a.metrics.moisture.None? && a.yieldPrediction.None?)
  {
  }

  /** The risk is unknown exactly when a current reading is missing; with both readings present the
      assessment is that of the first matching rule on the NDVI trend, with a confidence in (0, 1]. */
  lemma AnalyzeKnown(data: SatelliteData, model: Option<Regressor>)
    ensures var a := Analyze(data, model);
      && (a.risk == Unknown <==> data.current.ndvi.None? || data.current.moisture.None?)
      && 0.0 <= a.confidence <= 1.0
      && (data.current.ndvi.Some? && data.current.moisture.Some? ==>
            var n, m, t := data.current.ndvi.value, data.current.moisture.value, NdviTrend(data.history);
            var rule := Rules[FirstMatch(n, m, t) - 1];
            && a.risk == RiskOf(rule) && a.confidence == ConfidenceOf(rule)
            && a.insight.title == TitleOf(rule) && a.insight.action == ActionOf(rule))
  {
    DecideUnknownIff(data.current.ndvi, data.current.moisture, NdviTrend(data.history));
  }

  /** The description `analyze` returns is the waiting message exactly when a reading is missing.
      Otherwise it opens by naming the current NDVI's band, and its first sentence closes with the
      NDVI to two places; its second sentence names the current moisture's band and closes with the
      truncated percentage; it ends saying the vegetation is improving or declining exactly when the
      NDVI trend of the history exceeds 0.05 in that direction. */
  lemma AnalyzeDescribes(data: SatelliteData, model: Option<Regressor>)
    ensures var d := Analyze(data, model).insight.description;
      var n, m, t := data.current.ndvi, data.current.moisture, NdviTrend(data.history);
      && (d == AwaitingDescription <==> n.None? || m.None?)
      && (n.Some? && m.Some? ==>
            var k, j := |VegetationSentence(n.value)|, |d| - |TrendSentence(t)|;
            && (StartsWith(d, Opening("dense and healthy")) <==> n.value > 0.6)
            && (StartsWith(d, Opening("moderate")) <==> 0.4 < n.value <= 0.6)
            && (StartsWith(d, Opening("stressed")) <==> n.value <= 0.4)
            && 0 <= k <= j <= |d|
            && EndsWith(d[..k], " (NDVI: " + FixedTwo(n.value) + ").")
            && (StartsWith(d[k..j], MoistureOpening("high")) <==> m.value > 0.6)
            && (StartsWith(d[k..j], MoistureOpening("adequate")) <==> 0.4 < m.value <= 0.6)
            && (StartsWith(d[k..j], MoistureOpening("low")) <==> m.value <= 0.4)
            && EndsWith(d[k..j], " (" + IntToString(TruncToInt(m.value * 100.0)) + "%).")
            && (EndsWith(d, Improving) <==> t > 0.05)
            && (EndsWith(d, Declining) <==> t < -0.05))
  {
    var n, m, t, mt := data.current.ndvi, data.current.moisture, NdviTrend(data.history), MoistureTrend(data.history);
    DescriptionAwaitingIff(n, m, t, mt);
    if n.Some? && m.Some? {
      DescriptionVegetationBand(n.value, m.value, t, mt);
      DescriptionSentences(n.value, m.value, t, mt);
      DescriptionTrendClause(n.value, m.value, t, mt);
    }
  }

  /** The moisture history never changes the assessment except for the reported moisture trend. */
  lemma AnalyzeIgnoresMoistureHistory(d1: SatelliteData, d2: SatelliteData, model: Option<Regressor>)
    requires d1.current == d2.current && NdviColumn(d1.history) == NdviColumn(d2.history)
    ensures var a1, a2 := Analyze(d1, model), Analyze(d2, model);
      && a1.risk == a2.risk && a1.confidence == a2.confidence && a1.insight == a2.insight
      && a1.yieldPrediction == a2.yieldPrediction
      && a1.metrics.(moistureTrend := 0.0) == a2.metrics.(moistureTrend := 0.0)
  {
  }

  /** Reported current values are the readings rounded to three places; missing stays missing. */
  lemma AnalyzeMetrics(data: SatelliteData, model: Option<Regressor>)
    ensures var mt := Analyze(data, model).metrics;
      && (mt.ndvi.Some? <==> data.current.ndvi.Some?)
      && (mt.moisture.Some? <==> data.current.moisture.Some?)
      && (mt.ndvi.Some? ==> -0.0005 <= mt.ndvi.value - data.current.ndvi.value <= 0.0005)
      && (mt.moisture.Some? ==> -0.0005 <= mt.moisture.value - data.current.moisture.value <= 0.0005)
      && -0.0005 <= mt.ndviTrend - NdviTrend(data.history) <= 0.0005
      && -0.0005 <= mt.moistureTrend - MoistureTrend(data.history) <= 0.0005
  {
  }

  /** A yield prediction exists exactly when a model is given, both readings are present, at least
      three NDVI values are in the history and the model does not raise; it then reports the model's output. */
  lemma AnalyzeYield(data: SatelliteData, model: Option<Regressor>)
    ensures var a := Analyze(data, model); var f := PrepareMlFeatures(data);
      && (a.yieldPrediction.Some? <==>
            model.Some? && f.Some? && model.value(f.value).Predicted?)
      && (a.yieldPrediction.Some? ==>
            && data.current.ndvi.Some? && data.current.moisture.Some?
            && |Present(NdviColumn(data.history))| >= 3
            && a.yieldPrediction.value == YieldOf(model.value(f.value).y))
  {
  }

  /** The description and the verdict are computed independently and can disagree: a recovering
      trend reports low risk while the description calls the vegetation stressed and the soil dry. */
  lemma DescriptionMayDisagreeWithRisk()
    ensures var data := SatelliteData(Reading(0, Some(0.2), Some(0.2)),
                                      [Reading(0, Some(0.1), Some(0.2)), Reading(7, Some(0.2), Some(0.2))]);
      var a := Analyze(data, None);
      && a.risk == Low
      && StartsWith(a.insight.description, Opening("stressed"))
  {
    var h := [Reading(0, Some(0.1), Some(0.2)), Reading(7, Some(0.2), Some(0.2))];
    var data := SatelliteData(Reading(0, Some(0.2), Some(0.2)), h);
    var t := NdviTrend(h);
    assert t == 0.2 - 0.1 by {
      assert NdviColumn(h) == [Some(0.1), Some(0.2)];
      TrendOfPresentValues(KeepPresent([Some(0.1), Some(0.2)]));
    }
    assert Decide(Some(0.2), Some(0.2), t).risk == Low by {
      assert Cascade(0.2, 0.2, t) == Recovery;
    }
    assert StartsWith(GenerateDescription(Some(0.2), Some(0.2), t, MoistureTrend(h)), Opening("stressed")) by {
      DescriptionVegetationBand(0.2, 0.2, t, MoistureTrend(h));
    }
  }
}
