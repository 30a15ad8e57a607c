/**
 * The data shape that the satellite service produces and the decision engine
 * consumes: `{current, history[]}`, each entry `{date, ndvi, moisture_index}`.
 */
module Readings {
  import opened Options

  /** One weekly sample. `date` is the day number that the service renders as
      `YYYY-MM-DD`; either index may be missing. */
  datatype Reading = Reading(date: int, ndvi: Option<real>, moisture: Option<real>)

  /** The output of the time-series assembly: the latest sample and all of them. */
  datatype SatelliteData = SatelliteData(current: Reading, history: seq<Reading>)

  /** `[h['ndvi'] for h in history]`. */
  function NdviColumn(history: seq<Reading>): (col: seq<Option<real>>)
    ensures |col| == |history|
    ensures forall i :: 0 <= i < |history| ==> col[i] == history[i].ndvi
  {
    seq(|history|, i requires 0 <= i < |history| => history[i].ndvi)
  }

  /** `[h['moisture_index'] for h in history]`. */
  function MoistureColumn(history: seq<Reading>): (col: seq<Option<real>>)
    ensures |col| == |history|
    ensures forall i :: 0 <= i < |history| ==> col[i] == history[i].moisture
  {
    seq(|history|, i requires 0 <= i < |history| => history[i].moisture)
  }

  /** No entry is empty, and dates strictly increase: the invariants of an assembled series. */
  predicate WellFormedHistory(history: seq<Reading>)
  {
    && (forall i :: 0 <= i < |history| ==> history[i].ndvi.Some? || history[i].moisture.Some?)
    && (forall i, j :: 0 <= i < j < |history| ==> history[i].date < history[j].date)
  }
}
