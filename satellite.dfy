/**
 * The weekly time-series assembly of the satellite service (`get_time_series`)
 * and the snapshot built on it (`get_field_stats`).
 *
 * Instants are whole seconds; a date written as `YYYY-MM-DD` is the day number
 * `DayOf(t)`. The imagery provider is an oracle: asked about a window of days,
 * it reports how many optical and radar images it holds there and their mean
 * NDVI and VV backscatter, or it raises.
 */
module Satellite {
  import opened Options
  import opened Numeric
  import opened Readings

  const SecondsPerDay: int := 86400
  const WeekSeconds: int := 7 * SecondsPerDay

  /** The calendar day of an instant, as `strftime('%Y-%m-%d')` names it. */
  function DayOf(t: int): int
  {
    t / SecondsPerDay
  }

  /** Moving an instant by whole days moves its day by as many. */
  lemma DayShift(t: int, k: int)
    ensures DayOf(t + k * SecondsPerDay) == DayOf(t) + k
  {
    var q, r := t / SecondsPerDay, t % SecondsPerDay;
    assert t + k * SecondsPerDay == (q + k) * SecondsPerDay + r;
  }

  // The provider.

  /** The days `[firstDay, endDay)` a query covers (Earth Engine's `filterDate` excludes its end). */
  datatype Window = Window(firstDay: int, endDay: int)

  /** What the two collections hold in a window: image counts and band means (a mean can be missing). */
  datatype Observation = Observation(opticalImages: nat, ndviMean: Option<real>, radarImages: nat, vvMean: Option<real>)

  datatype Fetch = Fetched(obs: Observation) | ProviderError

  type Provider = Window -> Fetch

  /** The window of the week starting at `date`: the week filter `[day, day + 7)` applied to a
      collection already filtered to end before `endDay`. */
  function QueryWindow(date: int, endDay: int): (w: Window)
    ensures w.firstDay == DayOf(date)
    ensures w.endDay <= endDay && w.endDay <= DayOf(date) + 7
    ensures w.endDay == endDay || w.endDay == DayOf(date) + 7
  {
    DayShift(date, 7);
    var weekEnd := DayOf(date + WeekSeconds);
    Window(DayOf(date), if weekEnd <= endDay then weekEnd else endDay)
  }

  // One week.

  /** The VV backscatter normalised from `[-20, 0]` dB to `[0, 1]`, then clamped. */
  function MoistureIndex(vv: real): (m: real)
    ensures 0.0 <= m <= 1.0
  {
    Clamp01((vv + 20.0) / 20.0)
  }

  /** Backscatter at or below -20 dB reads as dry soil, at or above 0 dB as saturated, and the
      index is linear in between. */
  lemma MoistureIndexBands(vv: real)
    ensures vv <= -20.0 ==> MoistureIndex(vv) == 0.0
    ensures vv >= 0.0 ==> MoistureIndex(vv) == 1.0
    ensures -20.0 <= vv <= 0.0 ==> MoistureIndex(vv) == (vv + 20.0) / 20.0
  {
  }

  /** More backscatter never means less moisture. */
  lemma MoistureIndexMonotone(v1: real, v2: real)
    requires v1 <= v2
    ensures MoistureIndex(v1) <= MoistureIndex(v2)
  {
    Clamp01Monotone((v1 + 20.0) / 20.0, (v2 + 20.0) / 20.0);
  }

  /** The week's NDVI: the mean, when the week holds an optical image. */
  function WeekNdvi(o: Observation): (v: Option<real>)
    ensures v.Some? <==> o.opticalImages > 0 && o.ndviMean.Some?
    ensures v.Some? ==> v.value == o.ndviMean.value
  {
    if o.opticalImages > 0 then o.ndviMean else None
  }

  /** The week's moisture index, when the week holds a radar image with a VV mean. */
  function WeekMoisture(o: Observation): (v: Option<real>)
    ensures v.Some? <==> o.radarImages > 0 && o.vvMean.Some?
    ensures v.Some? ==> v.value == MoistureIndex(o.vvMean.value)
  {
    if o.radarImages > 0 then
      match o.vvMean
      case None => None
      case Some(vv) => Some(MoistureIndex(vv))
    else None
  }

  /** The history entry of the week starting at `date`: absent when the week has neither value,
      otherwise dated by the week's first day and carrying both values rounded to three places. */
  function EntryOf(date: int, o: Observation): (e: Option<Reading>)
    ensures e.Some? <==> WeekNdvi(o).Some? || WeekMoisture(o).Some?
    ensures e.Some? ==>
      && e.value.date == DayOf(date)
      && (e.value.ndvi.Some? <==> WeekNdvi(o).Some?)
      && (e.value.moisture.Some? <==> WeekMoisture(o).Some?)
      && (e.value.ndvi.Some? ==> -0.0005 <= e.value.ndvi.value - WeekNdvi(o).value <= 0.0005)
      && (e.value.moisture.Some? ==>
            && 0.0 <= e.value.moisture.value <= 1.0
            && -0.0005 <= e.value.moisture.value - WeekMoisture(o).value <= 0.0005)
  {
    var ndvi, moisture := WeekNdvi(o), WeekMoisture(o);
    if ndvi.None? && moisture.None? then None
    else
      assert moisture.Some? ==> 0.0 <= Round3(moisture.value) <= 1.0 by {
        if moisture.Some? {
          Round3WithinBounds(moisture.value, 0, 1000);
        }
      }
      Some(Reading(DayOf(date), MapOption(ndvi, Round3), MapOption(moisture, Round3)))
  }

  // The buckets.

  /** The sampled week starts: `start`, `start + 7 days`, ... up to and including `end`. */
  function BucketDates(start: int, end: int): seq<int>
    decreases end - start
  {
    if start > end then [] else [start] + BucketDates(start + WeekSeconds, end)
  }

  /** There are `(end - start) div 7 days + 1` buckets, the i-th starting `i` weeks after `start`,
      none after `end`. */
  lemma {:induction false} BucketDatesShape(start: int, end: int)
    ensures var ds := BucketDates(start, end);
      && |ds| == (if start <= end then (end - start) / WeekSeconds + 1 else 0)
      && (forall i :: 0 <= i < |ds| ==> ds[i] == start + i * WeekSeconds && ds[i] <= end)
    decreases end - start
  {
    if start <= end {
      BucketDatesShape(start + WeekSeconds, end);
      var ds, rest := BucketDates(start, end), BucketDates(start + WeekSeconds, end);
      assert ds == [start] + rest;
      forall i | 1 <= i < |ds|
        ensures ds[i] == start + i * WeekSeconds
      {
        assert ds[i] == rest[i - 1];
      }
    }
  }

  /** Bucket `i` starts on day `i * 7` after the first bucket, so the days strictly increase. */
  lemma BucketDays(start: int, end: int, i: int)
    requires 0 <= i < |BucketDates(start, end)|
    ensures DayOf(BucketDates(start, end)[i]) == DayOf(start) + 7 * i
  {
    BucketDatesShape(start, end);
    DayShift(start, 7 * i);
  }

  /** The `date_list` loop of `get_time_series`. */
  method BucketStarts(start: int, end: int) returns (dates: seq<int>)
    ensures dates == BucketDates(start, end)
  {
    dates := [];
    var current := start;
    while current <= end
      invariant dates + BucketDates(current, end) == BucketDates(start, end)
      decreases end - current
    {
      assert BucketDates(current, end) == [current] + BucketDates(current + WeekSeconds, end);
      assert dates + BucketDates(current, end) == (dates + [current]) + BucketDates(current + WeekSeconds, end);
      dates := dates + [current];
      current := current + WeekSeconds;
    }
    assert dates + BucketDates(current, end) == dates;
  }

  // The history.

  /** What the provider answers for the bucket starting at `date`. */
  function Outcome(provider: Provider, date: int, endDay: int): Fetch
  {
    provider(QueryWindow(date, endDay))
  }

  /** Every bucket's queries succeed. */
  predicate AllFetched(provider: Provider, dates: seq<int>, endDay: int)
  {
    forall i :: 0 <= i < |dates| ==> Outcome(provider, dates[i], endDay).Fetched?
  }

  /** The entry a bucket contributes; none when it raised (the whole series then fails). */
  function EntryOrNone(provider: Provider, date: int, endDay: int): Option<Reading>
  {
    match Outcome(provider, date, endDay)
    case ProviderError => None
    case Fetched(o) => EntryOf(date, o)
  }

  /** The per-bucket entries, in bucket order. */
  function Entries(provider: Provider, dates: seq<int>, endDay: int): (es: seq<Option<Reading>>)
    ensures |es| == |dates|
    ensures forall i :: 0 <= i < |dates| ==> es[i] == EntryOrNone(provider, dates[i], endDay)
  {
    seq(|dates|, i requires 0 <= i < |dates| => EntryOrNone(provider, dates[i], endDay))
  }

  /** Extending the buckets by one extends the entries by that bucket's entry. */
  lemma EntriesStep(provider: Provider, dates: seq<int>, endDay: int, i: int)
    requires 0 <= i < |dates|
    ensures Entries(provider, dates[..i + 1], endDay)
         == Entries(provider, dates[..i], endDay) + [EntryOrNone(provider, dates[i], endDay)]
    ensures Present(Entries(provider, dates[..i + 1], endDay))
         == Present(Entries(provider, dates[..i], endDay)) + Present([EntryOrNone(provider, dates[i], endDay)])
  {
    var e := EntryOrNone(provider, dates[i], endDay);
    assert Entries(provider, dates[..i + 1], endDay) == Entries(provider, dates[..i], endDay) + [e];
    PresentAppend(Entries(provider, dates[..i], endDay), [e]);
  }

  /** The bucket loop of `get_time_series`: a failing query aborts the whole series, otherwise the
      history holds the non-empty entries in bucket order. */
  method CollectHistory(provider: Provider, dates: seq<int>, endDay: int) returns (history: Option<seq<Reading>>)
    ensures history.Some? <==> AllFetched(provider, dates, endDay)
    ensures history.Some? ==> history.value == Present(Entries(provider, dates, endDay))
  {
    var h: seq<Reading> := [];
    var i := 0;
    while i < |dates|
      invariant 0 <= i <= |dates|
      invariant forall k :: 0 <= k < i ==> Outcome(provider, dates[k], endDay).Fetched?
      invariant h == Present(Entries(provider, dates[..i], endDay))
    {
      var fetch := Outcome(provider, dates[i], endDay);
      if fetch.ProviderError? {
        return None;
      }
      var entry := EntryOf(dates[i], fetch.obs);
      EntriesStep(provider, dates, endDay, i);
      assert Present([entry]) == if entry.Some? then [entry.value] else [];
      if entry.Some? {
        h := h + [entry.value];
      }
      i := i + 1;
    }
    assert dates[..i] == dates;
    return Some(h);
  }

  /** `history[-1] if history else {end_date, None, None}`. */
  function CurrentOf(history: seq<Reading>, endDay: int): (c: Reading)
    ensures history != [] ==> c == history[|history| - 1]
    ensures history == [] ==> c.date == endDay && c.ndvi.None? && c.moisture.None?
  {
    if history != [] then history[|history| - 1] else Reading(endDay, None, None)
  }

  /** The first instant sampled when looking `daysBack` days back from `now`. */
  function StartOf(now: int, daysBack: int): int
  {
    now - daysBack * SecondsPerDay
  }

  /** The result of `get_time_series` at instant `now`; `None` when the provider raised. */
  function TimeSeries(provider: Provider, now: int, daysBack: int): Option<SatelliteData>
  {
    var dates := BucketDates(StartOf(now, daysBack), now);
    var endDay := DayOf(now);
    if AllFetched(provider, dates, endDay) then
      var history := Present(Entries(provider, dates, endDay));
      Some(SatelliteData(CurrentOf(history, endDay), history))
    else None
  }

  /** `get_time_series(geometry, days_back)` at instant `now`. */
  method GetTimeSeries(provider: Provider, now: int, daysBack: int) returns (data: Option<SatelliteData>)
    ensures data == TimeSeries(provider, now, daysBack)
  {
    var endDay := DayOf(now);
    var dates := BucketStarts(StartOf(now, daysBack), now);
    var history := CollectHistory(provider, dates, endDay);
    if history.None? {
      return None;
    }
    return Some(SatelliteData(CurrentOf(history.value, endDay), history.value));
  }

  // Properties of the series.

  /** `days_back div 7 + 1` buckets are sampled (none when looking forward). */
  lemma BucketCount(now: int, daysBack: int)
    ensures |BucketDates(StartOf(now, daysBack), now)| == if daysBack >= 0 then daysBack / 7 + 1 else 0
  {
    BucketDatesShape(StartOf(now, daysBack), now);
    if daysBack >= 0 {
      var q, r := daysBack / 7, daysBack % 7;
      assert now - StartOf(now, daysBack) == q * WeekSeconds + r * SecondsPerDay;
    }
  }

  /** The series fails exactly when the query of some bucket raises. */
  lemma TimeSeriesFailsIff(provider: Provider, now: int, daysBack: int)
    ensures var dates := BucketDates(StartOf(now, daysBack), now);
      TimeSeries(provider, now, daysBack).None? <==>
        exists i :: 0 <= i < |dates| && Outcome(provider, dates[i], DayOf(now)).ProviderError?
  {
    var dates := BucketDates(StartOf(now, daysBack), now);
    if !AllFetched(provider, dates, DayOf(now)) {
      var i :| 0 <= i < |dates| && !Outcome(provider, dates[i], DayOf(now)).Fetched?;
      assert Outcome(provider, dates[i], DayOf(now)).ProviderError?;
    }
  }

  /** Entries of distinct buckets are dated by strictly increasing days. */
  lemma EntriesAscending(provider: Provider, start: int, end: int)
    ensures var es := Entries(provider, BucketDates(start, end), DayOf(end));
      forall i, j :: 0 <= i < j < |es| && es[i].Some? && es[j].Some? ==> es[i].value.date < es[j].value.date
  {
    var dates := BucketDates(start, end);
    var es := Entries(provider, dates, DayOf(end));
    forall i, j | 0 <= i < j < |es| && es[i].Some? && es[j].Some?
      ensures es[i].value.date < es[j].value.date
    {
      BucketDays(start, end, i);
      BucketDays(start, end, j);
    }
  }

  /** Dropping the missing entries keeps every date above a bound that all present entries exceed. */
  lemma {:induction false} PresentAbove(xs: seq<Option<Reading>>, d: int)
    requires forall i :: 0 <= i < |xs| && xs[i].Some? ==> d < xs[i].value.date
    ensures forall j :: 0 <= j < |Present(xs)| ==> d < Present(xs)[j].date
  {
    if xs != [] {
      PresentAbove(xs[1..], d);
      assert Present(xs) == (if xs[0].Some? then [xs[0].value] else []) + Present(xs[1..]);
    }
  }

  /** Dates strictly increase along `h`. */
  predicate DatesAscending(h: seq<Reading>)
  {
    forall i, j :: 0 <= i < j < |h| ==> h[i].date < h[j].date
  }

  /** A reading dated before every reading of an ascending sequence can go in front of it. */
  lemma AscendingCons(x: Reading, rest: seq<Reading>)
    requires DatesAscending(rest)
    requires forall j :: 0 <= j < |rest| ==> x.date < rest[j].date
    ensures DatesAscending([x] + rest)
  {
    var r := [x] + rest;
    forall i, j | 0 <= i < j < |r|
      ensures r[i].date < r[j].date
    {
      assert r[j] == rest[j - 1];
      if i > 0 {
        assert r[i] == rest[i - 1];
      }
    }
  }

  /** Dropping the missing entries keeps the dates strictly increasing. */
  lemma {:induction false} PresentAscending(xs: seq<Option<Reading>>)
    requires forall i, j :: 0 <= i < j < |xs| && xs[i].Some? && xs[j].Some? ==> xs[i].value.date < xs[j].value.date
    ensures DatesAscending(Present(xs))
  {
    if xs != [] {
      var tail := xs[1..];
      assert forall i, j :: 0 <= i < j < |tail| && tail[i].Some? && tail[j].Some? ==> tail[i].value.date < tail[j].value.date
      by {
        forall i, j | 0 <= i < j < |tail| && tail[i].Some? && tail[j].Some?
          ensures tail[i].value.date < tail[j].value.date
        {
          assert tail[i] == xs[i + 1] && tail[j] == xs[j + 1];
        }
      }
      PresentAscending(tail);
      var rest := Present(tail);
      var r := Present(xs);
      if xs[0].Some? {
        assert forall i :: 0 <= i < |tail| && tail[i].Some? ==> xs[0].value.date < tail[i].value.date by {
          forall i | 0 <= i < |tail| && tail[i].Some?
            ensures xs[0].value.date < tail[i].value.date
          {
            assert tail[i] == xs[i + 1];
          }
        }
        PresentAbove(tail, xs[0].value.date);
        PresentCons(xs);
        AscendingCons(xs[0].value, rest);
      } else {
        PresentCons(xs);
      }
    }
  }

  /** No kept entry is empty, and every kept entry has a moisture index in `[0, 1]`. */
  lemma {:induction false} PresentEntriesNonEmpty(provider: Provider, dates: seq<int>, endDay: int)
    ensures var h := Present(Entries(provider, dates, endDay));
      forall k :: 0 <= k < |h| ==>
        && (h[k].ndvi.Some? || h[k].moisture.Some?)
        && (h[k].moisture.Some? ==> 0.0 <= h[k].moisture.value <= 1.0)
  {
    var es := Entries(provider, dates, endDay);
    var h := Present(es);
    PresentMembers(es);
    forall k | 0 <= k < |h|
      ensures h[k].ndvi.Some? || h[k].moisture.Some?
      ensures h[k].moisture.Some? ==> 0.0 <= h[k].moisture.value <= 1.0
    {
      assert Some(h[k]) in es;
      var i :| 0 <= i < |es| && es[i] == Some(h[k]);
      assert Outcome(provider, dates[i], endDay).Fetched?;
    }
  }

  /** A successful series has a well-formed history of at most `days_back div 7 + 1` entries, all
      dated within the sampled days, moisture indices in `[0, 1]`, and its `current` is the latest
      entry, or an empty reading dated today when there is none. */
  lemma TimeSeriesWellFormed(provider: Provider, now: int, daysBack: int)
    ensures var r := TimeSeries(provider, now, daysBack);
      r.Some? ==>
        var h := r.value.history;
        && WellFormedHistory(h)
        && |h| <= (if daysBack >= 0 then daysBack / 7 + 1 else 0)
        && (forall k :: 0 <= k < |h| ==> DayOf(StartOf(now, daysBack)) <= h[k].date <= DayOf(now))
        && (forall k :: 0 <= k < |h| && h[k].moisture.Some? ==> 0.0 <= h[k].moisture.value <= 1.0)
        && r.value.current == CurrentOf(h, DayOf(now))
  {
    var start := StartOf(now, daysBack);
    HistoryFacts(provider, start, now);
    BucketCount(now, daysBack);
    var r := TimeSeries(provider, now, daysBack);
    if r.Some? {
      assert r.value.history == Present(Entries(provider, BucketDates(start, now), DayOf(now)));
    }
  }

  /** The kept entries of the buckets from `start` to `end` form a well-formed history of at most one
      entry per bucket, dated within the sampled days, with moisture indices in `[0, 1]`. */
  lemma HistoryFacts(provider: Provider, start: int, end: int)
    ensures var dates := BucketDates(start, end);
      var h := Present(Entries(provider, dates, DayOf(end)));
      && WellFormedHistory(h)
      && |h| <= |dates|
      && (forall k :: 0 <= k < |h| ==> DayOf(start) <= h[k].date <= DayOf(end))
      && (forall k :: 0 <= k < |h| && h[k].moisture.Some? ==> 0.0 <= h[k].moisture.value <= 1.0)
  {
    var dates := BucketDates(start, end);
    var es := Entries(provider, dates, DayOf(end));
    var h := Present(es);
    assert DatesAscending(h) by {
      EntriesAscending(provider, start, end);
      PresentAscending(es);
    }
    PresentEntriesNonEmpty(provider, dates, DayOf(end));
    HistoryDatesWithin(provider, start, end);
  }

  /** Every kept entry is dated between the first sampled day and the last. */
  lemma HistoryDatesWithin(provider: Provider, start: int, end: int)
    ensures var h := Present(Entries(provider, BucketDates(start, end), DayOf(end)));
      forall k :: 0 <= k < |h| ==> DayOf(start) <= h[k].date <= DayOf(end)
  {
    var dates := BucketDates(start, end);
    var es := Entries(provider, dates, DayOf(end));
    var h := Present(es);
    BucketDatesShape(start, end);
    PresentMembers(es);
    forall k | 0 <= k < |h|
      ensures DayOf(start) <= h[k].date <= DayOf(end)
    {
      assert Some(h[k]) in es;
      var i :| 0 <= i < |es| && es[i] == Some(h[k]);
      BucketDays(start, end, i);
    }
  }

  /** No observed week is lost: a week whose queries succeed and report a value appears in the
      history, dated by its first day. */
  lemma ObservedWeekKept(provider: Provider, now: int, daysBack: int, i: int)
    requires var dates := BucketDates(StartOf(now, daysBack), now);
      && 0 <= i < |dates|
      && Outcome(provider, dates[i], DayOf(now)).Fetched?
      && var o := Outcome(provider, dates[i], DayOf(now)).obs;
         WeekNdvi(o).Some? || WeekMoisture(o).Some?
    ensures var r := TimeSeries(provider, now, daysBack);
      r.Some? ==>
        exists k :: 0 <= k < |r.value.history| && r.value.history[k].date == DayOf(StartOf(now, daysBack)) + 7 * i
  {
    var start := StartOf(now, daysBack);
    var dates := BucketDates(start, now);
    var es := Entries(provider, dates, DayOf(now));
    BucketDays(start, now, i);
    PresentMembers(es);
    assert es[i].Some? && es[i].value in Present(es);
  }

  /** When `days_back` is a whole number of weeks, the last bucket starts today and its window is
      empty, so it can only contribute if the provider reports images for no days at all. */
  lemma LastWindowEmptyOnWholeWeeks(now: int, daysBack: int)
    requires daysBack >= 0 && daysBack % 7 == 0
    ensures var dates := BucketDates(StartOf(now, daysBack), now);
      && |dates| > 0
      && dates[|dates| - 1] == now
      && QueryWindow(now, DayOf(now)).firstDay == QueryWindow(now, DayOf(now)).endDay
  {
    BucketCount(now, daysBack);
    BucketDatesShape(StartOf(now, daysBack), now);
    var dates := BucketDates(StartOf(now, daysBack), now);
    assert dates[|dates| - 1] == StartOf(now, daysBack) + (daysBack / 7) * WeekSeconds;
  }

  // The snapshot.

  datatype FieldStats = FieldStats(ndvi: Option<real>, moisture: Option<real>, ndviTrend: real, dataPoints: nat)

  const StatsDaysBack: int := 30

  /** `ndvi_values[-1] - ndvi_values[0]` when there are two values, else 0. */
  function FirstToLast(values: seq<real>): real
  {
    if |values| >= 2 then values[|values| - 1] - values[0] else 0.0
  }

  /** The snapshot of an assembled series: the current values, the number of entries, and the change
      from the first to the last present NDVI rounded to three places, or 0 with fewer than two. */
  function StatsOf(data: SatelliteData): (s: FieldStats)
    ensures s.ndvi == data.current.ndvi && s.moisture == data.current.moisture
    ensures s.dataPoints == |data.history|
    ensures var vals := Present(NdviColumn(data.history));
      && (|vals| < 2 ==> s.ndviTrend == 0.0)
      && (|vals| >= 2 ==> -0.0005 <= s.ndviTrend - (vals[|vals| - 1] - vals[0]) <= 0.0005)
  {
    RoundHalfEvenOfInt(0);
    FieldStats(data.current.ndvi, data.current.moisture,
      Round3(FirstToLast(Present(NdviColumn(data.history)))), |data.history|)
  }

  /** `get_field_stats(geometry)` at instant `now`: the series of the last 30 days, summarised. */
  method GetFieldStats(provider: Provider, now: int) returns (stats: Option<FieldStats>)
    ensures var series := TimeSeries(provider, now, StatsDaysBack);
      && (stats.Some? <==> series.Some?)
      && (stats.Some? ==> stats.value == StatsOf(series.value))
  {
    var data := GetTimeSeries(provider, now, StatsDaysBack);
    if data.None? {
      return None;
    }
    return Some(StatsOf(data.value));
  }

  /** The snapshot reports the latest entry's values, the first-to-last NDVI change over the month
      rounded to three places, and at most five data points. */
  lemma FieldStatsFacts(provider: Provider, now: int)
    requires TimeSeries(provider, now, StatsDaysBack).Some?
    ensures var data := TimeSeries(provider, now, StatsDaysBack).value;
      var s := StatsOf(data);
      var vals := Present(NdviColumn(data.history));
      && s.dataPoints == |data.history| <= 5
      && (data.history == [] ==> s.ndvi.None? && s.moisture.None?)
      && (data.history != [] ==>
            s.ndvi == data.history[|data.history| - 1].ndvi && s.moisture == data.history[|data.history| - 1].moisture)
      && (|vals| < 2 ==> s.ndviTrend == 0.0)
      && (|vals| >= 2 ==> -0.0005 <= s.ndviTrend - (vals[|vals| - 1] - vals[0]) <= 0.0005)
  {
    TimeSeriesWellFormed(provider, now, StatsDaysBack);
  }
}
