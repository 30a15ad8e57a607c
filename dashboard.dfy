/**
 * The dashboard route of the web front end: three fixed olive fields, each given a
 * simulated stress score that is classified into a health status and a yield risk,
 * then a summary line and up to four irrigation recommendations.
 *
 * Every `Math.random()` draw is a parameter `r` with `0 <= r < 1`. Instants are
 * milliseconds since the epoch, as `Date.getTime()` returns them; a date written
 * as `YYYY-MM-DD` is the UTC day number of an instant.
 */
module Dashboard {
  import opened Options
  import opened Numeric
  import opened Text

  datatype HealthStatus = Healthy | Warning | Critical
  datatype YieldRisk = LowRisk | MediumRisk | HighRisk
  datatype Trend = Stable | Improving | Worsening

  /** A monitored grove, as listed in `OLIVE_FIELDS`. */
  datatype OliveField = OliveField(id: string, name: string, region: string, areaHectares: real, treesCount: nat)

  const OliveFields: seq<OliveField> := [
    OliveField("sfax-north-001", "Sfax Northern Grove", "Sfax", 45.2, 1800),
    OliveField("sousse-coastal-002", "Sousse Coastal Olives", "Sousse", 32.8, 1200),
    OliveField("kairouan-inland-003", "Kairouan Heritage Field", "Kairouan", 28.5, 950)
  ]

  /** A value `Math.random()` can return. */
  predicate IsDraw(r: real)
  {
    0.0 <= r < 1.0
  }

  // Scores and their classification.

  /** `computeStressScore()`: `Math.floor(r * 70) + 10`. */
  function StressScore(r: real): (s: int)
    requires IsDraw(r)
    ensures 10 <= s <= 79
  {
    (r * 70.0).Floor + 10
  }

  /** Every score from 10 to 79 can be drawn. */
  lemma StressScoreOnto(s: int)
    requires 10 <= s <= 79
    ensures var r := (s - 10) as real / 70.0; IsDraw(r) && StressScore(r) == s
  {
    var r := (s - 10) as real / 70.0;
    assert r * 70.0 == (s - 10) as real;
  }

  /** `determineHealthStatus`: healthy up to 30, warning up to 60, critical above. */
  function HealthStatusOf(score: int): (h: HealthStatus)
    ensures h == Healthy <==> score <= 30
    ensures h == Warning <==> 30 < score <= 60
    ensures h == Critical <==> score > 60
  {
    if score <= 30 then Healthy else if score <= 60 then Warning else Critical
  }

  /** `determineYieldRisk`: low up to 25, medium up to 55, high above. */
  function YieldRiskOf(score: int): (y: YieldRisk)
    ensures y == LowRisk <==> score <= 25
    ensures y == MediumRisk <==> 25 < score <= 55
    ensures y == HighRisk <==> score > 55
  {
    if score <= 25 then LowRisk else if score <= 55 then MediumRisk else HighRisk
  }

  function HealthRank(h: HealthStatus): nat
  {
    match h
    case Healthy => 0
    case Warning => 1
    case Critical => 2
  }

  function RiskRank(y: YieldRisk): nat
  {
    match y
    case LowRisk => 0
    case MediumRisk => 1
    case HighRisk => 2
  }

  /** More stress never gives a better health status or a lower yield risk. */
  lemma ClassificationMonotone(s1: int, s2: int)
    requires s1 <= s2
    ensures HealthRank(HealthStatusOf(s1)) <= HealthRank(HealthStatusOf(s2))
    ensures RiskRank(YieldRiskOf(s1)) <= RiskRank(YieldRiskOf(s2))
  {
  }

  /** The two classifications never contradict each other: a low yield risk is always healthy, a
      critical field always has a high yield risk, and a healthy field never has one. */
  lemma ClassificationsAgree(score: int)
    ensures YieldRiskOf(score) == LowRisk ==> HealthStatusOf(score) == Healthy
    ensures HealthStatusOf(score) == Critical ==> YieldRiskOf(score) == HighRisk
    ensures HealthStatusOf(score) == Healthy ==> YieldRiskOf(score) != HighRisk
  {
  }

  // The other simulated readings of a field.

  /** `['stable', 'improving', 'worsening'][Math.floor(r * 3)]`. */
  function TrendOf(r: real): (t: Trend)
    requires IsDraw(r)
    ensures t == Stable <==> r < 1.0 / 3.0
    ensures t == Improving <==> 1.0 / 3.0 <= r < 2.0 / 3.0
    ensures t == Worsening <==> 2.0 / 3.0 <= r
  {
    var k := (r * 3.0).Floor;
    [Stable, Improving, Worsening][k]
  }

  /** `Math.floor(r * 40) + 35`. */
  function MoistureLevel(r: real): (m: int)
    requires IsDraw(r)
    ensures 35 <= m <= 74
  {
    (r * 40.0).Floor + 35
  }

  /** `Math.round((r * 4 - 1) * 10) / 10`: a tenth of a degree in `[-1, 3]`. */
  function TemperatureAnomaly(r: real): (t: real)
    requires IsDraw(r)
    ensures -1.0 <= t <= 3.0
  {
    JsRound((r * 4.0 - 1.0) * 10.0) as real / 10.0
  }

  /** `Math.round((r * 0.4 + 0.4) * 100) / 100`: an NDVI in `[0.4, 0.8]`. */
  function SimulatedNdvi(r: real): (v: real)
    requires IsDraw(r)
    ensures 0.4 <= v <= 0.8
  {
    JsRound((r * 0.4 + 0.4) * 100.0) as real / 100.0
  }

  /** `Math.round((r * 0.3 - 0.05) * 100) / 100`: an NDWI in `[-0.05, 0.25]`. */
  function SimulatedNdwi(r: real): (v: real)
    requires IsDraw(r)
    ensures -0.05 <= v <= 0.25
  {
    JsRound((r * 0.3 - 0.05) * 100.0) as real / 100.0
  }

  const MsPerDay: int := 86400000
  const SixHoursMs: int := 21600000

  /** The UTC day of an instant, as `toISOString().split('T')[0]` names it. */
  function UtcDay(t: int): int
  {
    t / MsPerDay
  }

  // One field's report.

  /** The draws made for one field, in the order the route makes them. */
  datatype FieldDraws = FieldDraws(stress: real, trend: real, moisture: real, temperature: real, ndvi: real, ndwi: real)

  predicate ValidDraws(d: FieldDraws)
  {
    IsDraw(d.stress) && IsDraw(d.trend) && IsDraw(d.moisture) && IsDraw(d.temperature) && IsDraw(d.ndvi) && IsDraw(d.ndwi)
  }

  datatype SentinelData = SentinelData(ndvi: real, ndwi: real, sentinel1Day: int, sentinel2Day: int)

  datatype FieldReport = FieldReport(
    field: OliveField,
    stressScore: int,
    moistureLevel: int,
    temperatureAnomaly: real,
    healthStatus: HealthStatus,
    yieldRisk: YieldRisk,
    trend: Trend,
    lastUpdated: int,
    sentinelData: SentinelData)

  /** The object the route builds for one field at instant `now`. */
  function ReportOf(field: OliveField, d: FieldDraws, now: int): (f: FieldReport)
    requires ValidDraws(d)
    ensures f.field == field && 10 <= f.stressScore <= 79
    ensures f.healthStatus == HealthStatusOf(f.stressScore) && f.yieldRisk == YieldRiskOf(f.stressScore)
    ensures 35 <= f.moistureLevel <= 74 && -1.0 <= f.temperatureAnomaly <= 3.0
    ensures 0.4 <= f.sentinelData.ndvi <= 0.8 && -0.05 <= f.sentinelData.ndwi <= 0.25
    ensures f.sentinelData.sentinel1Day == UtcDay(now) - 2 && f.sentinelData.sentinel2Day == UtcDay(now) - 3
    ensures f.trend == TrendOf(d.trend) && f.lastUpdated == now
  {
    var score := StressScore(d.stress);
    FieldReport(field, score, MoistureLevel(d.moisture), TemperatureAnomaly(d.temperature),
      HealthStatusOf(score), YieldRiskOf(score), TrendOf(d.trend), now,
      SentinelData(SimulatedNdvi(d.ndvi), SimulatedNdwi(d.ndwi), UtcDay(now - 2 * MsPerDay), UtcDay(now - 3 * MsPerDay)))
  }

  predicate AllValidDraws(draws: seq<FieldDraws>)
  {
    forall i :: 0 <= i < |draws| ==> ValidDraws(draws[i])
  }

  /** `OLIVE_FIELDS.map(...)`: one report per field, in the listed order. */
  function Reports(now: int, draws: seq<FieldDraws>): (rs: seq<FieldReport>)
    requires |draws| == |OliveFields| && AllValidDraws(draws)
    ensures |rs| == |OliveFields|
    ensures forall i :: 0 <= i < |rs| ==> rs[i] == ReportOf(OliveFields[i], draws[i], now)
  {
    seq(|OliveFields|, i requires 0 <= i < |OliveFields| => ReportOf(OliveFields[i], draws[i], now))
  }

  // The summary.

  /** The health status of each report, in order. */
  function Statuses(reports: seq<FieldReport>): (st: seq<HealthStatus>)
    ensures |st| == |reports|
    ensures forall i :: 0 <= i < |reports| ==> st[i] == reports[i].healthStatus
  {
    seq(|reports|, i requires 0 <= i < |reports| => reports[i].healthStatus)
  }

  /** How many reports have status `s`: the length of `fields.filter(f => f.healthStatus === s)`. */
  function CountWithStatus(reports: seq<FieldReport>, s: HealthStatus): (n: nat)
    ensures n == multiset(Statuses(reports))[s]
    ensures n <= |reports|
    ensures n > 0 <==> exists i :: 0 <= i < |reports| && reports[i].healthStatus == s
  {
    if reports == [] then 0
    else
      var rest := CountWithStatus(reports[1..], s);
      assert forall i :: 1 <= i < |reports| ==> reports[i] == reports[1..][i - 1];
      assert Statuses(reports) == [reports[0].healthStatus] + Statuses(reports[1..]);
      (if reports[0].healthStatus == s then 1 else 0) + rest
  }

  const AttentionOpening := "⚠️" + " Attention needed: "
  const MonitoringOpening := "Some fields need monitoring: "
  const ExcellentHealth := "✅" + " Your olive groves are in excellent health! "

  const CriticalTail := " field(s) showing high water stress. "
  const WarningTail := " field(s) with moderate stress levels. "

  /** The first sentence of the summary: critical fields first, then warning fields. */
  function Headline(critical: nat, warning: nat): string
  {
    if critical > 0 then AttentionOpening + NatToString(critical) + CriticalTail
    else if warning > 0 then MonitoringOpening + NatToString(warning) + WarningTail
    else ExcellentHealth
  }

  /** `Math.round(fields.reduce((a, f) => a + f.stressScore, 0) / fields.length)`. */
  function AverageStress(reports: seq<FieldReport>): int
    requires reports != []
  {
    JsRound(Mean(ScoreColumn(reports)))
  }

  function ScoreColumn(reports: seq<FieldReport>): (col: seq<real>)
    ensures |col| == |reports|
    ensures forall i :: 0 <= i < |reports| ==> col[i] == reports[i].stressScore as real
  {
    seq(|reports|, i requires 0 <= i < |reports| => reports[i].stressScore as real)
  }

  /** The rounded average lies within any integer bounds of the scores. */
  lemma AverageWithinScores(reports: seq<FieldReport>, lo: int, hi: int)
    requires reports != []
    requires forall i :: 0 <= i < |reports| ==> lo <= reports[i].stressScore <= hi
    ensures lo <= AverageStress(reports) <= hi
  {
    var col := ScoreColumn(reports);
    var n, s := |col| as real, Sum(col);
    assert lo as real <= s / n <= hi as real by {
      SumBounds(col, lo as real, hi as real);
      DivideBounds(s, n, lo as real, hi as real);
    }
  }

  const AverageOpening := "Average stress level: "
  const OutOfHundred := "/100."

  /** The sentence appended to the headline: the rounded average stress out of 100. */
  function AverageClosing(reports: seq<FieldReport>): string
    requires reports != []
  {
    AverageOpening + IntToString(AverageStress(reports)) + OutOfHundred
  }

  /** The `summary` string of the route. */
  function Summary(reports: seq<FieldReport>): string
    requires reports != []
  {
    Headline(CountWithStatus(reports, Critical), CountWithStatus(reports, Warning)) + AverageClosing(reports)
  }

  /** The opening a headline starts with. */
  function OpeningOf(critical: nat, warning: nat): string
  {
    if critical > 0 then AttentionOpening else if warning > 0 then MonitoringOpening else ExcellentHealth
  }

  lemma HeadlineOpens(critical: nat, warning: nat)
    ensures StartsWith(Headline(critical, warning), OpeningOf(critical, warning))
  {
    var opening := OpeningOf(critical, warning);
    if critical > 0 {
      StartsWithConcat(AttentionOpening, NatToString(critical));
      StartsWithAppend(AttentionOpening + NatToString(critical), CriticalTail, opening);
    } else if warning > 0 {
      StartsWithConcat(MonitoringOpening, NatToString(warning));
      StartsWithAppend(MonitoringOpening + NatToString(warning), WarningTail, opening);
    } else {
      assert Headline(critical, warning)[..|opening|] == opening;
    }
  }

  /** The summary opens with the attention warning exactly when a field is critical, with the
      monitoring note exactly when none is critical but one is in warning, and with the all-clear
      otherwise; it always closes with the average out of 100. */
  lemma SummaryHeadline(reports: seq<FieldReport>)
    requires reports != []
    ensures var s := Summary(reports);
      var critical := exists i :: 0 <= i < |reports| && reports[i].healthStatus == Critical;
      var warning := exists i :: 0 <= i < |reports| && reports[i].healthStatus == Warning;
      && (StartsWith(s, AttentionOpening) <==> critical)
      && (StartsWith(s, MonitoringOpening) <==> !critical && warning)
      && (StartsWith(s, ExcellentHealth) <==> !critical && !warning)
      && EndsWith(s, OutOfHundred)
  {
    var c, w := CountWithStatus(reports, Critical), CountWithStatus(reports, Warning);
    var h, closing := Headline(c, w), AverageClosing(reports);
    var opening := OpeningOf(c, w);
    HeadlineOpens(c, w);
    StartsWithAppend(h, closing, opening);
    EndsWithConcat(AverageOpening + IntToString(AverageStress(reports)), OutOfHundred);
    EndsWithPrepend(h, closing, OutOfHundred);
    OpeningsDiffer(Summary(reports), opening);
  }

  /** The summary's first sentence states the number of critical fields when there is one, and
      otherwise the number of warning fields when there is one; it closes with the rounded average
      stress out of 100. */
  lemma SummaryCounts(reports: seq<FieldReport>)
    requires reports != []
    ensures var s := Summary(reports);
      var critical, warning := CountWithStatus(reports, Critical), CountWithStatus(reports, Warning);
      && (critical > 0 ==> StartsWith(s, AttentionOpening + NatToString(critical) + CriticalTail))
      && (critical == 0 && warning > 0 ==> StartsWith(s, MonitoringOpening + NatToString(warning) + WarningTail))
      && EndsWith(s, AverageOpening + IntToString(AverageStress(reports)) + OutOfHundred)
  {
    var h := Headline(CountWithStatus(reports, Critical), CountWithStatus(reports, Warning));
    StartsWithConcat(h, AverageClosing(reports));
    EndsWithConcat(h, AverageClosing(reports));
  }

  /** The three openings differ in their first character, so a string starts with at most one. */
  lemma OpeningsDiffer(s: string, opening: string)
    requires opening == AttentionOpening || opening == MonitoringOpening || opening == ExcellentHealth
    requires StartsWith(s, opening)
    ensures StartsWith(s, AttentionOpening) <==> opening == AttentionOpening
    ensures StartsWith(s, MonitoringOpening) <==> opening == MonitoringOpening
    ensures StartsWith(s, ExcellentHealth) <==> opening == ExcellentHealth
  {
    assert AttentionOpening[0] == '⚠';
    assert MonitoringOpening[0] == 'S';
    assert ExcellentHealth[0] == '✅';
    StartsWithAt(s, opening, 0);
    if StartsWith(s, AttentionOpening) { StartsWithAt(s, AttentionOpening, 0); }
    if StartsWith(s, MonitoringOpening) { StartsWithAt(s, MonitoringOpening, 0); }
    if StartsWith(s, ExcellentHealth) { StartsWithAt(s, ExcellentHealth, 0); }
  }

  /** With scores drawn for the three fields, the reported average is a possible score. */
  lemma AverageOfDrawnScores(now: int, draws: seq<FieldDraws>)
    requires |draws| == |OliveFields| && AllValidDraws(draws)
    ensures 10 <= AverageStress(Reports(now, draws)) <= 79
  {
    AverageWithinScores(Reports(now, draws), 10, 79);
  }

  // The recommendations.

  /** What the route can recommend. */
  datatype Advice = ImmediateIrrigation(name: string, score: int) | MonitorClosely(name: string) | AllClear

  const AllHealthyLine := "🌿" + " All fields look healthy - continue current irrigation schedule"

  /** The text pushed for an advice. */
  function AdviceText(a: Advice): string
  {
    match a
    case ImmediateIrrigation(name, score) =>
      "🚨 " + name + ": Consider immediate irrigation - stress level is critical (" + IntToString(score) + "/100)"
    case MonitorClosely(name) => "⚡ " + name + ": Monitor closely and plan irrigation within 3-5 days"
    case AllClear => AllHealthyLine
  }

  /** The texts begin with different signs, so only the all-clear advice reads as the all-clear line. */
  lemma AdviceTextNamesAllClear(a: Advice)
    ensures AdviceText(a) == AllHealthyLine <==> a == AllClear
  {
    assert AllHealthyLine[0] == '🌿';
    if a.ImmediateIrrigation? {
      assert AdviceText(a)[0] == '🚨';
    } else if a.MonitorClosely? {
      assert AdviceText(a)[0] == '⚡';
    }
  }

  /** The advice `forEach` gives for one field, if any: above 60 immediate irrigation, above 40
      close monitoring. */
  function AdviceFor(f: FieldReport): (a: Option<Advice>)
    ensures a.Some? <==> f.stressScore > 40
    ensures a.Some? ==> a.value != AllClear && a.value.name == f.field.name
    ensures a.Some? ==> (a.value.ImmediateIrrigation? <==> f.stressScore > 60)
  {
    if f.stressScore > 60 then Some(ImmediateIrrigation(f.field.name, f.stressScore))
    else if f.stressScore > 40 then Some(MonitorClosely(f.field.name))
    else None
  }

  function AdviceColumn(reports: seq<FieldReport>): (a: seq<Option<Advice>>)
    ensures |a| == |reports|
    ensures forall i :: 0 <= i < |reports| ==> a[i] == AdviceFor(reports[i])
  {
    seq(|reports|, i requires 0 <= i < |reports| => AdviceFor(reports[i]))
  }

  /** The advice list before slicing: the fields' advice in order, or the all-clear. */
  function Advices(reports: seq<FieldReport>): seq<Advice>
  {
    var given := Present(AdviceColumn(reports));
    if given == [] then [AllClear] else given
  }

  function Texts(advices: seq<Advice>): (ts: seq<string>)
    ensures |ts| == |advices|
    ensures forall i :: 0 <= i < |advices| ==> ts[i] == AdviceText(advices[i])
  {
    seq(|advices|, i requires 0 <= i < |advices| => AdviceText(advices[i]))
  }

  /** The recommendation strings before slicing. */
  function RecommendationLines(reports: seq<FieldReport>): seq<string>
  {
    Texts(Advices(reports))
  }

  /** One more field extends the given advice by its own. */
  lemma AdviceStep(reports: seq<FieldReport>, i: int)
    requires 0 <= i < |reports|
    ensures Present(AdviceColumn(reports[..i + 1])) == Present(AdviceColumn(reports[..i])) + Present([AdviceFor(reports[i])])
  {
    assert AdviceColumn(reports[..i + 1]) == AdviceColumn(reports[..i]) + [AdviceFor(reports[i])];
    PresentAppend(AdviceColumn(reports[..i]), [AdviceFor(reports[i])]);
  }

  /** Texts distribute over concatenation. */
  lemma TextsAppend(xs: seq<Advice>, ys: seq<Advice>)
    ensures Texts(xs + ys) == Texts(xs) + Texts(ys)
  {
  }

  /** The text of a listed advice is listed. */
  lemma TextsIn(advices: seq<Advice>, a: Advice)
    requires a in advices
    ensures AdviceText(a) in Texts(advices)
  {
    var k :| 0 <= k < |advices| && advices[k] == a;
    assert Texts(advices)[k] == AdviceText(a);
  }

  /** One more field extends the pushed lines by the text of its own advice, if any. */
  lemma TextsStep(reports: seq<FieldReport>, i: int)
    requires 0 <= i < |reports|
    ensures var advice := AdviceFor(reports[i]);
      Texts(Present(AdviceColumn(reports[..i + 1])))
        == Texts(Present(AdviceColumn(reports[..i]))) + (if advice.Some? then [AdviceText(advice.value)] else [])
  {
    var advice := AdviceFor(reports[i]);
    var given := Present([advice]);
    AdviceStep(reports, i);
    assert given == if advice.Some? then [advice.value] else [];
    TextsAppend(Present(AdviceColumn(reports[..i])), given);
  }

  /** The lines are the pushed lines, or the all-healthy line when none was pushed. */
  lemma LinesOfGiven(reports: seq<FieldReport>)
    ensures var pushed := Texts(Present(AdviceColumn(reports)));
      RecommendationLines(reports) == if pushed == [] then [AllHealthyLine] else pushed
  {
  }

  /** The `forEach` loop and the fallback line. */
  method Recommend(reports: seq<FieldReport>) returns (recommendations: seq<string>)
    ensures recommendations == RecommendationLines(reports)
  {
    recommendations := [];
    var i := 0;
    while i < |reports|
      invariant 0 <= i <= |reports|
      invariant recommendations == Texts(Present(AdviceColumn(reports[..i])))
    {
      var advice := AdviceFor(reports[i]);
      TextsStep(reports, i);
      if advice.Some? {
        recommendations := recommendations + [AdviceText(advice.value)];
      }
      i := i + 1;
    }
    assert reports[..i] == reports;
    LinesOfGiven(reports);
    if recommendations == [] {
      recommendations := [AllHealthyLine];
    }
  }

  /** `xs.slice(0, n)`. */
  function Take(xs: seq<string>, n: nat): (r: seq<string>)
    ensures |r| == if |xs| <= n then |xs| else n
    ensures r == xs[..|r|]
  {
    if |xs| <= n then xs else xs[..n]
  }

  /** The all-clear is the only advice exactly when no score exceeds 40; otherwise every field
      above 40 gets its own advice, naming it, and every advice belongs to such a field. */
  lemma AdvicesCover(reports: seq<FieldReport>)
    ensures var advices := Advices(reports);
      && |advices| >= 1
      && (advices == [AllClear] <==> forall i :: 0 <= i < |reports| ==> reports[i].stressScore <= 40)
      && (forall i :: 0 <= i < |reports| && reports[i].stressScore > 40 ==> AdviceFor(reports[i]).value in advices)
      && (forall k :: 0 <= k < |advices| && advices[k] != AllClear ==>
            exists i :: 0 <= i < |reports| && reports[i].stressScore > 40 && AdviceFor(reports[i]) == Some(advices[k]))
  {
    var a := AdviceColumn(reports);
    var given := Present(a);
    PresentMembers(a);
    if exists i :: 0 <= i < |reports| && reports[i].stressScore > 40 {
      var i :| 0 <= i < |reports| && reports[i].stressScore > 40;
      assert a[i].Some? && a[i].value in given;
    } else {
      PresentOfNone(a);
    }
    forall k | 0 <= k < |given|
      ensures exists i :: 0 <= i < |reports| && reports[i].stressScore > 40 && AdviceFor(reports[i]) == Some(given[k])
    {
      assert Some(given[k]) in a;
      var i :| 0 <= i < |a| && a[i] == Some(given[k]);
    }
  }

  /** The recommendations read "all fields look healthy" exactly when no score exceeds 40; a field
      above 60 is told to irrigate immediately, one above 40 to monitor closely. */
  lemma RecommendationsCover(reports: seq<FieldReport>)
    ensures var rs := RecommendationLines(reports);
      && |rs| >= 1
      && (rs == [AllHealthyLine] <==> forall i :: 0 <= i < |reports| ==> reports[i].stressScore <= 40)
      && (forall i :: 0 <= i < |reports| && reports[i].stressScore > 60 ==>
            AdviceText(ImmediateIrrigation(reports[i].field.name, reports[i].stressScore)) in rs)
      && (forall i :: 0 <= i < |reports| && 40 < reports[i].stressScore <= 60 ==>
            AdviceText(MonitorClosely(reports[i].field.name)) in rs)
  {
    var advices := Advices(reports);
    var rs := RecommendationLines(reports);
    AdvicesCover(reports);
    if rs == [AllHealthyLine] {
      AdviceTextNamesAllClear(advices[0]);
      assert advices == [AllClear];
    }
    forall i | 0 <= i < |reports| && reports[i].stressScore > 40
      ensures AdviceText(AdviceFor(reports[i]).value) in rs
    {
      TextsIn(advices, AdviceFor(reports[i]).value);
    }
  }

  /** With the three listed fields the cap of four never cuts a line. */
  lemma RecommendationsNotTruncated(reports: seq<FieldReport>)
    requires |reports| == |OliveFields|
    ensures Take(RecommendationLines(reports), 4) == RecommendationLines(reports)
    ensures 1 <= |RecommendationLines(reports)| <= 3
  {
    assert |Present(AdviceColumn(reports))| <= 3;
  }

  /** Scores from 31 to 40 are classified as warnings but earn no recommendation: when no score
      exceeds 40 and one exceeds 30, the summary asks for monitoring while the only recommendation
      says that all fields look healthy. */
  lemma SummaryAndRecommendationsCanDisagree(reports: seq<FieldReport>)
    requires reports != []
    requires forall i :: 0 <= i < |reports| ==> reports[i].healthStatus == HealthStatusOf(reports[i].stressScore)
    requires forall i :: 0 <= i < |reports| ==> reports[i].stressScore <= 40
    requires exists i :: 0 <= i < |reports| && reports[i].stressScore > 30
    ensures StartsWith(Summary(reports), MonitoringOpening)
    ensures RecommendationLines(reports) == [AllHealthyLine]
  {
    SummaryHeadline(reports);
    RecommendationsCover(reports);
    var i :| 0 <= i < |reports| && reports[i].stressScore > 30;
    assert reports[i].healthStatus == Warning;
  }

  // The response.

  datatype AiInsights = AiInsights(
    summary: string,
    recommendations: seq<string>,
    confidence: int,
    analysisMethod: string,
    lastAnalysis: int)

  datatype SatelliteStatus = SatelliteStatus(lastSentinel1Day: int, lastSentinel2Day: int, nextUpdate: int, coverageArea: string)

  datatype DashboardResponse = DashboardResponse(
    fields: seq<FieldReport>,
    aiInsights: AiInsights,
    satelliteStatus: SatelliteStatus,
    generatedAt: int)

  /** `85 + Math.floor(r * 10)`. */
  function Confidence(r: real): (c: int)
    requires IsDraw(r)
    ensures 85 <= c <= 94
  {
    85 + (r * 10.0).Floor
  }

  /** `GET()` at instant `now` with the given draws. */
  method Get(now: int, draws: seq<FieldDraws>, confidenceDraw: real) returns (response: DashboardResponse)
    requires |draws| == |OliveFields| && AllValidDraws(draws) && IsDraw(confidenceDraw)
    ensures response.fields == Reports(now, draws)
    ensures response.aiInsights.summary == Summary(response.fields)
    ensures response.aiInsights.recommendations == RecommendationLines(response.fields)
    ensures 1 <= |response.aiInsights.recommendations| <= 3
    ensures 85 <= response.aiInsights.confidence <= 94
    ensures response.aiInsights.lastAnalysis == now && response.generatedAt == now
    ensures response.satelliteStatus.lastSentinel1Day == UtcDay(now) - 2
    ensures response.satelliteStatus.lastSentinel2Day == UtcDay(now) - 3
    ensures response.satelliteStatus.nextUpdate == now + SixHoursMs
  {
    var fields := Reports(now, draws);
    var critical := CountWithStatus(fields, Critical);
    var warning := CountWithStatus(fields, Warning);
    var summary := Headline(critical, warning);
    summary := summary + AverageClosing(fields);
    var recommendations := Recommend(fields);
    RecommendationsNotTruncated(fields);
    var insights := AiInsights(summary, Take(recommendations, 4), Confidence(confidenceDraw),
      "Sentinel-1 SAR + Sentinel-2 Multispectral fusion", now);
    var status := SatelliteStatus(UtcDay(now - 2 * MsPerDay), UtcDay(now - 3 * MsPerDay), now + SixHoursMs,
      "Northern Tunisia (Sfax, Sousse, Kairouan regions)");
    response := DashboardResponse(fields, insights, status, now);
  }
}
