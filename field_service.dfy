/**
 * The `/analyze-field` endpoint of the AI service: an NDVI predicted by the loaded
 * regression model on random features (or 0 when no model could be loaded), the
 * risk band of that NDVI and the single alert that goes with it.
 */
module FieldService {
  import opened Options

  /** A model loaded at start-up: how many features it expects and its prediction. */
  datatype LoadedModel = LoadedModel(featureCount: nat, predict: seq<real> -> real)

  datatype Risk = High | Medium | Low

  const SevereAlert := "Severe water stress detected"
  const ModerateAlert := "Moderate water stress detected"
  const NoStressAlert := "No water stress detected"

  datatype FieldAnalysis = FieldAnalysis(ndvi: real, risk: Risk, alerts: seq<string>)

  /** High below 0.3, medium below 0.6, low from 0.6 up. */
  function RiskOf(ndvi: real): (r: Risk)
    ensures r == High <==> ndvi < 0.3
    ensures r == Medium <==> 0.3 <= ndvi < 0.6
    ensures r == Low <==> ndvi >= 0.6
  {
    if ndvi < 0.3 then High else if ndvi < 0.6 then Medium else Low
  }

  /** The alert the endpoint appends, chosen by its own copy of the thresholds; it is the alert
      of the risk band. */
  function AlertOf(ndvi: real): (a: string)
    ensures a == AlertForRisk(RiskOf(ndvi))
  {
    if ndvi < 0.3 then SevereAlert else if ndvi < 0.6 then ModerateAlert else NoStressAlert
  }

  /** The alert that goes with each risk. */
  function AlertForRisk(r: Risk): string
  {
    match r
    case High => SevereAlert
    case Medium => ModerateAlert
    case Low => NoStressAlert
  }

  function RiskRank(r: Risk): nat
  {
    match r
    case Low => 0
    case Medium => 1
    case High => 2
  }

  /** Random features in `[0, 1)`, as many as the model expects. */
  predicate FeaturesFit(model: LoadedModel, features: seq<real>)
  {
    |features| == model.featureCount && forall i :: 0 <= i < |features| ==> 0.0 <= features[i] < 1.0
  }

  /** `analyze_field(request)` given the loaded model, if any, and the random features drawn for it. */
  function AnalyzeField(model: Option<LoadedModel>, features: seq<real>): FieldAnalysis
    requires model.Some? ==> FeaturesFit(model.value, features)
  {
    var ndvi := if model.Some? then model.value.predict(features) else 0.0;
    FieldAnalysis(ndvi, RiskOf(ndvi), [AlertOf(ndvi)])
  }

  /** There is exactly one alert and it names the reported risk; the risk is that of the reported NDVI,
      which is the model's prediction on the features. */
  lemma AnalyzeFieldAgrees(model: Option<LoadedModel>, features: seq<real>)
    requires model.Some? ==> FeaturesFit(model.value, features)
    ensures var a := AnalyzeField(model, features);
      && |a.alerts| == 1
      && a.alerts[0] == AlertForRisk(a.risk)
      && a.risk == RiskOf(a.ndvi)
      && (model.Some? ==> a.ndvi == model.value.predict(features))
  {
  }

  /** Without a model every field reads NDVI 0 and is reported at high risk with a severe alert. */
  lemma NoModelIsHighRisk(features: seq<real>)
    ensures AnalyzeField(None, features) == FieldAnalysis(0.0, High, [SevereAlert])
  {
  }

  /** A greener field is never reported at a higher risk. */
  lemma RiskMonotone(n1: real, n2: real)
    requires n1 <= n2
    ensures RiskRank(RiskOf(n2)) <= RiskRank(RiskOf(n1))
  {
  }

  /** The three alerts are distinct, so the alert determines the risk. */
  lemma AlertDeterminesRisk(r1: Risk, r2: Risk)
    requires AlertForRisk(r1) == AlertForRisk(r2)
    ensures r1 == r2
  {
  }
}
