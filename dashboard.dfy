/**
  * frontend/src/components/Dashboard.jsx: what the dashboard renders from
  * its state (heat cells, cards, busiest location, table, report file name)
  * and the state itself, a `Dashboard` object whose methods are the load
  * cycle, the range effect with its refresh interval, and the timer ticks.
  * Fetch results and the clock are parameters.
  */
module DashboardUi {
  import opened Wrappers
  import opened PyJson
  import opened Predictor
  import opened Aggregate
  import opened Js
  import opened Records
  import opened LocationCard
  import opened PredictionsTable
  import opened TimeWindow

  /** `summary?.summaries || []`. */
  function SnapshotSummaries(summary: Option<GlobalOut>): seq<Summary> {
    if summary.Some? then summary.value.summaries else []
  }

  /** `Math.max(...heatData.map((s) => s.current || 0), 1)`. */
  function MaxVal(ss: seq<Summary>): (m: int)
    ensures m >= 1
    ensures forall i :: 0 <= i < |ss| ==> CurrentOr0(ss[i]) <= m
    ensures m == 1 || exists i :: 0 <= i < |ss| && CurrentOr0(ss[i]) == m
  {
    if ss == [] then 1
    else
      var pre := ss[..|ss| - 1];
      var m := MaxVal(pre);
      assert forall i :: 0 <= i < |pre| ==> pre[i] == ss[i];
      var c := CurrentOr0(ss[|ss| - 1]);
      if c > m then c else m
  }

  /** `(s.current || 0) / maxVal`. */
  function Intensity(s: Summary, maxVal: int): real
    requires maxVal >= 1
  {
    CurrentOr0(s) as real / maxVal as real
  }

  /** The alpha of the cell colour `rgba(255, 64, 64, 0.3 + intensity * 0.7)`. */
  function Alpha(intensity: real): real {
    0.3 + intensity * 0.7
  }

  /** With non-negative counts every cell's intensity is in [0, 1] and its alpha in [0.3, 1]. */
  lemma HeatColourBounds(ss: seq<Summary>, i: int)
    requires 0 <= i < |ss|
    requires forall j :: 0 <= j < |ss| ==> CurrentOr0(ss[j]) >= 0
    ensures 0.0 <= Intensity(ss[i], MaxVal(ss)) <= 1.0
    ensures 0.3 <= Alpha(Intensity(ss[i], MaxVal(ss))) <= 1.0
  {
    var m := MaxVal(ss);
    RatioBounds(CurrentOr0(ss[i]) as real, m as real);
  }

  lemma RatioBounds(c: real, m: real)
    requires 0.0 <= c <= m && m >= 1.0
    ensures 0.0 <= c / m <= 1.0
    ensures 0.3 <= 0.3 + c / m * 0.7 <= 1.0
  {
    var q := c / m;
    assert q * m == c;
    assert (1.0 - q) * m == m - c;
  }

  lemma DivSelf(x: real)
    requires x != 0.0
    ensures x / x == 1.0
  {
  }

  /** The location with the largest count gets the full colour. */
  lemma HeatColourPeak(ss: seq<Summary>)
    requires exists i :: 0 <= i < |ss| && CurrentOr0(ss[i]) >= 1
    ensures exists i :: 0 <= i < |ss| && Intensity(ss[i], MaxVal(ss)) == 1.0
  {
    var i :| 0 <= i < |ss| && CurrentOr0(ss[i]) >= 1;
    var m := MaxVal(ss);
    var k := i;
    if m != 1 {
      k :| 0 <= k < |ss| && CurrentOr0(ss[k]) == m;
    }
    assert CurrentOr0(ss[k]) == m;
    DivSelf(m as real);
    assert Intensity(ss[k], m) == 1.0;
  }

  /** One heatmap cell: its key, colour alpha and the text the report exporter reads. */
  datatype HeatCell = HeatCell(key: Option<string>, alpha: real, reportSummary: string)

  /** The heatmap cells, one per summary in snapshot order. */
  function HeatCells(ss: seq<Summary>): (cells: seq<HeatCell>)
    ensures |cells| == |ss|
    ensures forall i :: 0 <= i < |ss| ==>
      && cells[i].key == (if ss[i].Summary? then Some(ss[i].location) else None)
      && cells[i].alpha == Alpha(Intensity(ss[i], MaxVal(ss)))
      && cells[i].reportSummary == ReportSummary(ss[i])
  {
    var m := MaxVal(ss);
    seq(|ss|, i requires 0 <= i < |ss| =>
      HeatCell(if ss[i].Summary? then Some(ss[i].location) else None, Alpha(Intensity(ss[i], m)), ReportSummary(ss[i])))
  }

  /** `r.location === s.location`; on an empty summary the location is `undefined`, which no stored sample has. */
  predicate SameLocation(r: Sample, s: Summary) {
    s.Summary? && r.location == Some(s.location)
  }

  /** `raw.filter((r) => r.location === s.location)`. */
  function LocationSamples(raw: seq<Sample>, s: Summary): seq<Sample> {
    if raw == [] then []
    else
      var last := raw[|raw| - 1];
      LocationSamples(raw[..|raw| - 1], s) + if SameLocation(last, s) then [last] else []
  }

  /** A card gets exactly the samples of its location. */
  lemma {:induction false} LocationSamplesMembers(raw: seq<Sample>, s: Summary)
    ensures forall r :: r in LocationSamples(raw, s) <==> r in raw && SameLocation(r, s)
  {
    if raw != [] {
      LocationSamplesMembers(raw[..|raw| - 1], s);
      assert raw == raw[..|raw| - 1] + [raw[|raw| - 1]];
    }
  }

  /** Number of elements of `raw` at `s`'s location. */
  function CountAt(raw: seq<Sample>, s: Summary): nat {
    if raw == [] then 0
    else CountAt(raw[..|raw| - 1], s) + if SameLocation(raw[|raw| - 1], s) then 1 else 0
  }

  /** The filtered samples are those of the location, in their original order, the latest last. */
  lemma {:induction false} LocationSamplesOrder(raw: seq<Sample>, s: Summary)
    ensures |LocationSamples(raw, s)| == CountAt(raw, s)
    ensures forall i :: 0 <= i < |LocationSamples(raw, s)| ==> SameLocation(LocationSamples(raw, s)[i], s)
    ensures raw != [] && SameLocation(raw[|raw| - 1], s) ==>
      LocationSamples(raw, s)[|LocationSamples(raw, s)| - 1] == raw[|raw| - 1]
    ensures IsSubsequence(LocationSamples(raw, s), raw)
  {
    if raw != [] {
      var pre, last := raw[..|raw| - 1], raw[|raw| - 1];
      LocationSamplesOrder(pre, s);
      var a := LocationSamples(raw, s);
      if SameLocation(last, s) {
        assert a[..|a| - 1] == LocationSamples(pre, s);
      } else {
        assert a == LocationSamples(pre, s);
        assert IsSubsequence(a, raw[..|raw| - 1]);
      }
    }
  }

  /** The cards: `summary?.summaries?.map(...)`; filtering a `raw` that is not an array throws. */
  function Cards(summary: Option<GlobalOut>, raw: Raw): (r: Result<seq<CardView>, string>)
    ensures r.Err? <==> raw.NotArray? && |SnapshotSummaries(summary)| > 0
    ensures r.Ok? ==> |r.value| == |SnapshotSummaries(summary)|
    ensures r.Ok? ==> forall i :: 0 <= i < |r.value| ==>
      r.value[i] == Card(SnapshotSummaries(summary)[i], LocationSamples(raw.items, SnapshotSummaries(summary)[i]))
  {
    var ss := SnapshotSummaries(summary);
    if |ss| == 0 then Ok([])
    else if raw.NotArray? then Err("TypeError: raw.filter is not a function")
    else Ok(seq(|ss|, i requires 0 <= i < |ss| => Card(ss[i], LocationSamples(raw.items, ss[i]))))
  }

  /**
    * `ESP32-report-${range}-${Date.now()}.pdf`: the prefix with the range,
    * the milliseconds as `String(n)`, which read back as the clock value,
    * and the ".pdf" suffix.
    */
  function ReportFilename(range: string, nowMs: int): (f: string)
    ensures var pre := "ESP32-report-" + range + "-";
      && |f| == |pre| + |IntToString(nowMs)| + 4
      && f[..|pre|] == pre
      && f[|pre|..|f| - 4] == IntToString(nowMs)
      && ParseInt(f[|pre|..|f| - 4]) == Some(nowMs)
      && f[|f| - 4..] == ".pdf"
  {
    IntToStringRoundTrip(nowMs);
    var f := "ESP32-report-" + range + "-" + IntToString(nowMs) + ".pdf";
    assert f[|"ESP32-report-" + range + "-"|..|f| - 4] == IntToString(nowMs);
    f
  }

  /** Two downloads of the same range at different milliseconds get different file names. */
  lemma ReportFilenamesDiffer(range: string, t1: int, t2: int)
    requires t1 != t2
    ensures ReportFilename(range, t1) != ReportFilename(range, t2)
  {
  }

  /** What the dashboard shows. */
  datatype View = View(
    cards: seq<CardView>,
    busiest: string,
    rows: seq<Row>,
    heat: seq<HeatCell>,
    reportFilename: string)

  /** `summary?.predicted_busiest || "—"`. */
  function BusiestText(summary: Option<GlobalOut>): (text: string)
    ensures text == "—" <==>
      summary.None? || summary.value.predictedBusiest.None? || summary.value.predictedBusiest.value in {"", "—"}
  {
    if summary.Some? && summary.value.predictedBusiest.Some? && summary.value.predictedBusiest.value != "" then
      summary.value.predictedBusiest.value
    else "—"
  }

  /** The dashboard's output for a state; an error when rendering throws. */
  function Render(range: string, summary: Option<GlobalOut>, raw: Raw, nowMs: int): (r: Result<View, string>)
    ensures r.Err? <==> Cards(summary, raw).Err?
    ensures r.Ok? ==>
      && r.value.cards == Cards(summary, raw).value
      && r.value.rows == Rows(SnapshotSummaries(summary))
      && r.value.heat == HeatCells(SnapshotSummaries(summary))
      && r.value.busiest == BusiestText(summary)
      && r.value.reportFilename == ReportFilename(range, nowMs)
  {
    var cards :- Cards(summary, raw);
    Ok(View(cards, BusiestText(summary), Rows(SnapshotSummaries(summary)), HeatCells(SnapshotSummaries(summary)),
            ReportFilename(range, nowMs)))
  }

  /** A fetch the dashboard issues. */
  datatype Request = PredictionsRequest(range: string) | DataRequest(range: string)

  /** A timer operation, in the order issued. */
  datatype TimerOp = Cleared(id: nat) | Armed(id: nat, range: string, periodMs: nat)

  /** The refresh period of the dashboard. */
  const RefreshMs: nat := 5000

  /** The requests one load cycle issues: the data fetch only after the predictions fetch succeeded. */
  function LoadRequests(r: string, p: Result<GlobalOut, string>): seq<Request> {
    if p.Ok? then [PredictionsRequest(r), DataRequest(r)] else [PredictionsRequest(r)]
  }

  /** Both fetches of a load cycle succeeded. */
  predicate Fetched(p: Result<GlobalOut, string>, d: Result<DataBody, string>) {
    p.Ok? && d.Ok?
  }

  class Dashboard {
    var range: string
    var summary: Option<GlobalOut>
    var raw: Raw
    /** `intervalRef.current`; it keeps the id of a cleared interval until a new one is armed. */
    var intervalRef: Option<nat>
    /** The live intervals and the range their callback reloads. */
    var timers: map<nat, string>
    var nextTimer: nat
    var mounted: bool
    var requests: seq<Request>
    var timerLog: seq<TimerOp>

    /** Mounted, exactly one interval is live, it is the one in the ref and it reloads the shown range; unmounted, none is. */
    predicate Valid()
      reads this
    {
      && (forall id :: id in timers ==> id < nextTimer)
      && (mounted ==> intervalRef.Some? && timers == map[intervalRef.value := range])
      && (!mounted ==> timers == map[])
    }

    /** The initial state: range "current", no snapshot, no samples, no interval. */
    constructor()
      ensures Valid() && !mounted
      ensures range == "current" && summary == None && raw == Samples([])
      ensures intervalRef == None && timers == map[] && requests == [] && timerLog == []
    {
      range := "current";
      summary := None;
      raw := Samples([]);
      intervalRef := None;
      timers := map[];
      nextTimer := 0;
      mounted := false;
      requests := [];
      timerLog := [];
    }

    /**
      * `load(r)`: fetch predictions, then data, for the same range; nothing
      * is written unless both fetches succeed.  The snapshot is written
      * first, so a `null` data reply, on which `d.data` throws, leaves the
      * new snapshot beside the old samples.
      */
    method Load(r: string, p: Result<GlobalOut, string>, d: Result<DataBody, string>)
      modifies this
      ensures requests == old(requests) + LoadRequests(r, p)
      ensures Fetched(p, d) ==> summary == Some(p.value)
      ensures !Fetched(p, d) ==> summary == old(summary)
      ensures Fetched(p, d) && !d.value.NullBody? ==> raw == RawOf(d.value)
      ensures !(Fetched(p, d) && !d.value.NullBody?) ==> raw == old(raw)
      ensures range == old(range) && intervalRef == old(intervalRef) && timers == old(timers)
      ensures nextTimer == old(nextTimer) && mounted == old(mounted) && timerLog == old(timerLog)
    {
      requests := requests + [PredictionsRequest(r)];
      if p.Err? {
        return;
      }
      requests := requests + [DataRequest(r)];
      if d.Err? {
        return;
      }
      summary := Some(p.value);
      if d.value.NullBody? {
        return;
      }
      raw := RawOf(d.value);
    }

    /** The body of the `useEffect`: load now, clear the interval in the ref, arm a new one. */
    method RunEffect(p: Result<GlobalOut, string>, d: Result<DataBody, string>)
      requires forall id :: id in timers ==> id < nextTimer
      requires intervalRef.Some? ==> timers.Keys <= {intervalRef.value}
      requires intervalRef.None? ==> timers == map[]
      modifies this
      ensures Valid() && mounted
      ensures requests == old(requests) + LoadRequests(old(range), p)
      ensures timers == map[old(nextTimer) := range] && intervalRef == Some(old(nextTimer))
      ensures nextTimer == old(nextTimer) + 1 && range == old(range)
      ensures timerLog == old(timerLog) +
        (if old(intervalRef).Some? then [Cleared(old(intervalRef).value)] else []) +
        [Armed(old(nextTimer), range, RefreshMs)]
      ensures Fetched(p, d) ==> summary == Some(p.value)
      ensures !Fetched(p, d) ==> summary == old(summary)
      ensures Fetched(p, d) && !d.value.NullBody? ==> raw == RawOf(d.value)
      ensures !(Fetched(p, d) && !d.value.NullBody?) ==> raw == old(raw)
    {
      Load(range, p, d);
      if intervalRef.Some? {
        timers := map id | id in timers && id != intervalRef.value :: timers[id];
        timerLog := timerLog + [Cleared(intervalRef.value)];
      }
      var id := nextTimer;
      timers := timers[id := range];
      timerLog := timerLog + [Armed(id, range, RefreshMs)];
      intervalRef := Some(id);
      nextTimer := nextTimer + 1;
      mounted := true;
    }

    /** The first render runs the effect for the initial range. */
    method Mount(p: Result<GlobalOut, string>, d: Result<DataBody, string>)
      requires Valid() && !mounted
      modifies this
      ensures Valid() && mounted && range == old(range)
      ensures requests == old(requests) + LoadRequests(range, p)
      ensures timers == map[old(nextTimer) := range] && intervalRef == Some(old(nextTimer))
      ensures nextTimer == old(nextTimer) + 1
      ensures timerLog == old(timerLog) +
        (if old(intervalRef).Some? then [Cleared(old(intervalRef).value)] else []) +
        [Armed(old(nextTimer), range, RefreshMs)]
      ensures Fetched(p, d) ==> summary == Some(p.value)
      ensures !Fetched(p, d) ==> summary == old(summary)
      ensures Fetched(p, d) && !d.value.NullBody? ==> raw == RawOf(d.value)
      ensures !(Fetched(p, d) && !d.value.NullBody?) ==> raw == old(raw)
    {
      RunEffect(p, d);
    }

    /**
      * `setRange(r)`: the same range changes nothing; a new one runs the
      * cleanup (clear the live interval), then the effect: one load for the
      * new range and exactly one new interval reloading it.
      */
    method SelectRange(r: string, p: Result<GlobalOut, string>, d: Result<DataBody, string>)
      requires Valid() && mounted
      modifies this
      ensures Valid() && mounted && range == r
      ensures r == old(range) ==>
        requests == old(requests) && timers == old(timers) && timerLog == old(timerLog) &&
        summary == old(summary) && raw == old(raw) &&
        nextTimer == old(nextTimer) && intervalRef == old(intervalRef)
      ensures r != old(range) ==>
        && requests == old(requests) + LoadRequests(r, p)
        && timers == map[old(nextTimer) := r]
        && old(intervalRef).value !in timers
        && intervalRef == Some(old(nextTimer)) && nextTimer == old(nextTimer) + 1
        && timerLog == old(timerLog) +
             [Cleared(old(intervalRef).value), Cleared(old(intervalRef).value), Armed(old(nextTimer), r, RefreshMs)]
        && (Fetched(p, d) ==> summary == Some(p.value))
        && (!Fetched(p, d) ==> summary == old(summary))
        && (Fetched(p, d) && !d.value.NullBody? ==> raw == RawOf(d.value))
        && (!(Fetched(p, d) && !d.value.NullBody?) ==> raw == old(raw))
    {
      if r == range {
        return;
      }
      range := r;
      timers := map[];
      timerLog := timerLog + [Cleared(intervalRef.value)];
      RunEffect(p, d);
    }

    /** An interval firing: a live one reloads the range it was armed for, which is the range shown. */
    method Tick(id: nat, p: Result<GlobalOut, string>, d: Result<DataBody, string>)
      requires Valid()
      modifies this
      ensures Valid()
      ensures id in old(timers) ==> old(timers)[id] == range && requests == old(requests) + LoadRequests(range, p)
      ensures id !in old(timers) ==> requests == old(requests) && summary == old(summary) && raw == old(raw)
      ensures range == old(range) && timers == old(timers) && intervalRef == old(intervalRef) && mounted == old(mounted)
      ensures timerLog == old(timerLog) && nextTimer == old(nextTimer)
      ensures id in old(timers) && Fetched(p, d) ==> summary == Some(p.value)
      ensures id in old(timers) && !Fetched(p, d) ==> summary == old(summary)
      ensures id in old(timers) && Fetched(p, d) && !d.value.NullBody? ==> raw == RawOf(d.value)
      ensures id in old(timers) && !(Fetched(p, d) && !d.value.NullBody?) ==> raw == old(raw)
    {
      if id in timers {
        Load(timers[id], p, d);
      }
    }

    /** Unmounting runs the cleanup: the live interval is cleared and none is left. */
    method Unmount()
      requires Valid() && mounted
      modifies this
      ensures Valid() && !mounted && timers == map[]
      ensures timerLog == old(timerLog) + [Cleared(old(intervalRef).value)]
      ensures requests == old(requests) && summary == old(summary) && raw == old(raw) && range == old(range)
      ensures intervalRef == old(intervalRef) && nextTimer == old(nextTimer)
    {
      timerLog := timerLog + [Cleared(intervalRef.value)];
      timers := map[];
      mounted := false;
    }
  }

  /** A user or timer event after mounting: a range change, or an interval with the given id firing. */
  datatype Action = ChangeRange(r: string) | Fire(id: nat)

  /** The range selected last in `actions`, "current" when none was selected. */
  function LastRange(actions: seq<Action>): string {
    if actions == [] then "current"
    else if actions[|actions| - 1].ChangeRange? then actions[|actions| - 1].r
    else LastRange(actions[..|actions| - 1])
  }

  /**
    * Any run of range changes and firings of any interval id after mounting
    * leaves exactly one live interval, reloading the range selected last.
    */
  method SessionKeepsOneInterval(actions: seq<Action>, p: Result<GlobalOut, string>, d: Result<DataBody, string>)
    returns (live: nat, shown: string)
    ensures live == 1 && shown == LastRange(actions)
  {
    var dash := new Dashboard();
    dash.Mount(p, d);
    var i := 0;
    while i < |actions|
      invariant 0 <= i <= |actions|
      invariant dash.Valid() && dash.mounted
      invariant dash.range == LastRange(actions[..i])
    {
      match actions[i] {
        case ChangeRange(r) => dash.SelectRange(r, p, d);
        case Fire(id) => dash.Tick(id, p, d);
      }
      assert actions[..i + 1][..i] == actions[..i];
      i := i + 1;
    }
    assert actions[..i] == actions;
    live := |dash.timers|;
    shown := dash.timers[dash.intervalRef.value];
  }
}
