/**
 * The satellite series feeding the decision engine: what the assessment of an
 * assembled series can and cannot be, and how the snapshot's trend agrees with it.
 */
module Pipeline {
  import opened Options
  import opened Numeric
  import opened Readings
  import Satellite
  import DecisionEngine

  /** The snapshot and the assessment report the same rounded NDVI trend for the same series. */
  lemma StatsTrendMatchesAssessment(data: SatelliteData, model: Option<DecisionEngine.Regressor>)
    ensures Satellite.StatsOf(data).ndviTrend == DecisionEngine.Analyze(data, model).metrics.ndviTrend
  {
    PresentOfKeepPresent(NdviColumn(data.history));
  }

  /** A series with no usable week leaves the engine waiting for data. */
  lemma EmptySeriesAwaits(provider: Satellite.Provider, now: int, daysBack: int, model: Option<DecisionEngine.Regressor>)
    requires var r := Satellite.TimeSeries(provider, now, daysBack); r.Some? && r.value.history == []
    ensures var a := DecisionEngine.Analyze(Satellite.TimeSeries(provider, now, daysBack).value, model);
      && a.risk == DecisionEngine.Unknown && a.confidence == 0.0
      && a.insight.description == DecisionEngine.AwaitingDescription
      && a.yieldPrediction.None?
  {
    var data := Satellite.TimeSeries(provider, now, daysBack).value;
    Satellite.TimeSeriesWellFormed(provider, now, daysBack);
    DecisionEngine.AnalyzeAwaiting(data, model);
  }

  /** An assembled series gets a known risk exactly when its latest week has both an NDVI and a
      moisture index; its reported moisture index is then within `[0, 1]`. */
  lemma SeriesVerdictKnownIff(provider: Satellite.Provider, now: int, daysBack: int, model: Option<DecisionEngine.Regressor>)
    requires Satellite.TimeSeries(provider, now, daysBack).Some?
    ensures var data := Satellite.TimeSeries(provider, now, daysBack).value;
      var h := data.history;
      var a := DecisionEngine.Analyze(data, model);
      && (a.risk != DecisionEngine.Unknown <==>
            |h| > 0 && h[|h| - 1].ndvi.Some? && h[|h| - 1].moisture.Some?)
      && (a.metrics.moisture.Some? ==> 0.0 <= a.metrics.moisture.value <= 1.0)
  {
    var data := Satellite.TimeSeries(provider, now, daysBack).value;
    Satellite.TimeSeriesWellFormed(provider, now, daysBack);
    DecisionEngine.AnalyzeKnown(data, model);
    DecisionEngine.AnalyzeMetrics(data, model);
    var h := data.history;
    if data.current.moisture.Some? {
      assert |h| > 0 && data.current == h[|h| - 1];
      Round3WithinBounds(data.current.moisture.value, 0, 1000);
    }
  }
}
