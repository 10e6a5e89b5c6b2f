/**
  * frontend/src/components/LocationCard.jsx: the texts one location card
  * shows, and the charts it hands its samples and summary to.
  */
module LocationCard {
  import opened Wrappers
  import opened PyJson
  import opened Predictor
  import opened Js
  import opened Records
  import opened Charts

  /** "Rising" when the fitted slope is positive, "Falling" otherwise (also for 0 and for a missing slope). */
  function Trend(s: Summary): (text: string)
    ensures text == "Rising" <==> s.Summary? && s.slope > 0.0
    ensures text == "Rising" || text == "Falling"
  {
    if s.Summary? && s.slope > 0.0 then "Rising" else "Falling"
  }

  /** "Busy" when the summary says so, "Normal" otherwise (also on an empty summary). */
  function Badge(s: Summary): (text: string)
    ensures text == "Busy" <==> s.Summary? && s.busy
    ensures text == "Busy" || text == "Normal"
  {
    if s.Summary? && s.busy then "Busy" else "Normal"
  }

  /**
    * For a summary the backend built, the badge reads "Busy" exactly when the
    * integer part of the latest total reaches the 90th percentile.
    */
  lemma BadgeFollowsBackend(location: string, st: LocationStats)
    requires |st.totals| > 0
    ensures Badge(SummarizeLocation(location, st)) == "Busy" <==>
      Trunc(st.totals[|st.totals| - 1]) as real >= st.p90
  {
    var s := SummarizeLocation(location, st);
    var last := st.totals[|st.totals| - 1];
    assert s.current == Trunc(last) by {
      if last >= 0.0 {
        assert 0 <= s.current && s.current as real <= last < s.current as real + 1.0;
      } else {
        assert s.current <= 0 && s.current as real - 1.0 < last <= s.current as real;
      }
    }
  }

  /** `summary.anomalies?.length || 0`. */
  function AnomalyCount(s: Summary): (n: nat)
    ensures s.NoData? ==> n == 0
    ensures s.Summary? ==> n == |s.anomalies|
  {
    if s.Summary? then |s.anomalies| else 0
  }

  /** `Math.round(summary.smoothed || 0)`. */
  function SmoothedDisplay(s: Summary): (n: int)
    ensures s.NoData? ==> n == 0
    ensures s.Summary? ==> n as real - 0.5 <= s.smoothed < n as real + 0.5
  {
    if s.Summary? then JsRound(s.smoothed) else 0
  }

  /** The smoothed value a card shows never leaves the range of the last ten totals it came from. */
  lemma SmoothedDisplayInRange(location: string, st: LocationStats, lo: real, hi: real)
    requires |st.totals| > 0
    requires forall i :: 0 <= i < |st.totals| ==> lo <= st.totals[i] <= hi
    ensures lo - 0.5 <= SmoothedDisplay(SummarizeLocation(location, st)) as real <= hi + 0.5
  {
    var tail := Tail(st.totals, 10);
    forall i | 0 <= i < |tail| ensures lo <= tail[i] <= hi {
      if |st.totals| > 10 {
        assert tail[i] == st.totals[|st.totals| - 10 + i];
      }
    }
    SmoothWithinRange(tail, 0.5, lo, hi);
  }

  /** What one card shows. */
  datatype CardView = CardView(
    key: Option<string>,
    title: string,
    currentText: string,
    smoothed: int,
    badge: string,
    trend: string,
    p90Text: string,
    anomalies: nat,
    reportSummary: string,
    charts: ChartsView)

  /** `{x}` in JSX: React shows nothing for `undefined`. */
  function RenderedLocation(s: Summary): string {
    if s.Summary? then s.location else ""
  }

  function RenderedInt(s: Summary, n: int): string {
    if s.Summary? then IntToString(n) else ""
  }

  /** `LocationCard({summary, raw})`: the charts get `raw` and `summary` as they are. */
  function Card(s: Summary, raw: seq<Sample>): (card: CardView)
    ensures card.charts == ChartsOf(raw, s)
    ensures card.reportSummary == ReportSummary(s)
    ensures card.key == (if s.Summary? then Some(s.location) else None)
    ensures card.badge == Badge(s) && card.trend == Trend(s)
    ensures card.anomalies == AnomalyCount(s) && card.smoothed == SmoothedDisplay(s)
  {
    CardView(
      key := if s.Summary? then Some(s.location) else None,
      title := RenderedLocation(s),
      currentText := RenderedInt(s, if s.Summary? then s.current else 0),
      smoothed := SmoothedDisplay(s),
      badge := Badge(s),
      trend := Trend(s),
      p90Text := RenderedInt(s, if s.Summary? then s.p90 else 0),
      anomalies := AnomalyCount(s),
      reportSummary := ReportSummary(s),
      charts := ChartsOf(raw, s))
  }
}
