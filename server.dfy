/**
  * The request handlers of backend/server.py: ingest-point normalisation in
  * `receive_data`, the `range` default of the two GET handlers, and the
  * numpy-to-Python conversion `to_native`.  The data file is the sequence
  * `store`; the per-location summary of the stored data enters through
  * `summarize`, which may raise.
  */
module Server {
  import opened Wrappers
  import opened PyJson
  import opened TimeWindow
  import opened Aggregate
  import opened Predictor

  /** An HTTP reply: status code and JSON body. */
  datatype Response = Response(code: int, body: Value)

  /** A normalised sample as `receive_data` stores it. */
  datatype Point = Point(location: Value, timestamp: Value, wifi: int, ble: int, total: int)

  /** The dict a point is stored as. */
  function PointValue(p: Point): (v: Value)
    ensures v.Dict? && Truthy(v)
    ensures v.fields.Keys == {"location", "timestamp", "wifi_count", "ble_count", "total_count"}
  {
    var fields := map[
      "location" := p.location,
      "timestamp" := p.timestamp,
      "wifi_count" := Int(p.wifi),
      "ble_count" := Int(p.ble),
      "total_count" := Int(p.total)];
    assert "location" in fields;
    Dict(fields)
  }

  /**
    * The point built from a request body AS WRITTEN: the default for
    * `total_count` adds the raw `wifi_count` and `ble_count` values, and is
    * evaluated even when `total_count` is present.
    */
  function NormalizePointAsWritten(d: map<string, Value>): Result<Point, PyError> {
    var wifi :- ToInt(Get(d, "wifi_count", Int(0)));
    var ble :- ToInt(Get(d, "ble_count", Int(0)));
    var fallback :- Add(Get(d, "wifi_count", Int(0)), Get(d, "ble_count", Int(0)));
    var total :- ToInt(Get(d, "total_count", fallback));
    Ok(Point(
      Get(d, "location", Str("Unknown")),
      Get(d, "timestamp", Get(d, "ts", Null)),
      wifi, ble, total))
  }

  /** Counts sent as strings: the as-written default concatenates them, "3" and "4" give 34. */
  lemma AsWrittenConcatenatesStringCounts()
    ensures NormalizePointAsWritten(map["wifi_count" := Str("3"), "ble_count" := Str("4")]).Ok?
    ensures NormalizePointAsWritten(map["wifi_count" := Str("3"), "ble_count" := Str("4")]).value.total == 34
  {
    var d := map["wifi_count" := Str("3"), "ble_count" := Str("4")];
    assert "3" + "4" == "34";
    assert Add(Str("3"), Str("4")) == Ok(Str("34"));
    assert ParseInt("34") == Some(34) by {
      assert "34"[..1] == "3";
      assert DigitsValue("3") == 3 by { assert "3"[..0] == ""; }
    }
    assert ToInt(Str("34")) == Ok(34);
  }

  /** A string count next to a numeric one fails the request although `total_count` is given. */
  lemma AsWrittenRejectsMixedCounts()
    ensures NormalizePointAsWritten(
      map["wifi_count" := Str("3"), "ble_count" := Int(4), "total_count" := Int(7)]) == Err(TypeError)
  {
    var d := map["wifi_count" := Str("3"), "ble_count" := Int(4), "total_count" := Int(7)];
    assert ParseInt("3") == Some(3) by { assert "3"[..0] == ""; }
  }

  /**
    * The point built from a request body: location "Unknown" when absent,
    * the timestamp from "timestamp" or else "ts", counts converted with
    * `int()` and defaulting to 0, and `total_count` defaulting to the sum of
    * the two converted counts when it is absent.
    */
  function NormalizePoint(d: map<string, Value>): (r: Result<Point, PyError>)
    ensures r.Ok? ==>
      && r.value.location == (if "location" in d then d["location"] else Str("Unknown"))
      && r.value.timestamp == (if "timestamp" in d then d["timestamp"] else if "ts" in d then d["ts"] else Null)
      && ("wifi_count" !in d ==> r.value.wifi == 0)
      && ("ble_count" !in d ==> r.value.ble == 0)
      && ("total_count" !in d ==> r.value.total == r.value.wifi + r.value.ble)
      && ("wifi_count" in d ==> ToInt(d["wifi_count"]) == Ok(r.value.wifi))
      && ("ble_count" in d ==> ToInt(d["ble_count"]) == Ok(r.value.ble))
      && ("total_count" in d ==> ToInt(d["total_count"]) == Ok(r.value.total))
    ensures r.Ok? <==>
      && ("wifi_count" !in d || ToInt(d["wifi_count"]).Ok?)
      && ("ble_count" !in d || ToInt(d["ble_count"]).Ok?)
      && ("total_count" !in d || ToInt(d["total_count"]).Ok?)
  {
    var wifi :- ToInt(Get(d, "wifi_count", Int(0)));
    var ble :- ToInt(Get(d, "ble_count", Int(0)));
    var total :- if "total_count" in d then ToInt(d["total_count"]) else Ok(wifi + ble);
    Ok(Point(
      Get(d, "location", Str("Unknown")),
      Get(d, "timestamp", Get(d, "ts", Null)),
      wifi, ble, total))
  }

  /** Normalising a stored point gives the same point back. */
  lemma NormalizeStoredPoint(p: Point)
    ensures NormalizePoint(PointValue(p).fields) == Ok(p)
  {
  }

  /** The corrected default sums the converted counts: "3" and "4" give 7. */
  lemma NormalizeSumsStringCounts()
    ensures NormalizePoint(map["wifi_count" := Str("3"), "ble_count" := Str("4")]) ==
      Ok(Point(Str("Unknown"), Null, 3, 4, 7))
  {
    assert ParseInt("3") == Some(3) by { assert "3"[..0] == ""; }
    assert ParseInt("4") == Some(4) by { assert "4"[..0] == ""; }
  }

  /** The text of an exception, `str(e)`, reduced to its class. */
  function ErrorText(e: PyError): string {
    match e
    case TypeError => "TypeError"
    case ValueError => "ValueError"
    case AttributeError => "AttributeError"
  }

  function ErrorReply(msg: string): Response {
    Response(400, Dict(map["status" := Str("error"), "msg" := Str(msg)]))
  }

  /** The outcome of one ingest request: the reply and the stored samples after it. */
  datatype Ingest = Ingest(reply: Response, store: seq<Value>)

  /** Whether `body` is a dict from which a point can be built. */
  predicate Accepted(body: Value) {
    body.Dict? && Truthy(body) && NormalizePoint(body.fields).Ok?
  }

  /**
    * `receive_data`: a falsy body is refused with "no json body"; a body that
    * is not a dict, or whose counts do not convert, is refused with the
    * exception's text and nothing is stored.  Otherwise the point is
    * written first; the location's summary is computed afterwards in the
    * same `try`, so when it raises the reply is a 400 although the point is
    * kept.  When it does not, the reply carries the point and the summary
    * (`{}` when falsy).
    */
  function ReceiveData(body: Value, store: seq<Value>, summarize: (seq<Value>, Value) -> Result<Value, PyError>): (out: Ingest)
    ensures !Truthy(body) ==> out == Ingest(ErrorReply("no json body"), store)
    ensures Truthy(body) && !body.Dict? ==> out == Ingest(ErrorReply(ErrorText(AttributeError)), store)
    ensures body.Dict? && NormalizePoint(body.fields).Err? ==>
      out == Ingest(ErrorReply(ErrorText(NormalizePoint(body.fields).error)), store)
    ensures out.store == (if Accepted(body) then store + [PointValue(NormalizePoint(body.fields).value)] else store)
    ensures Accepted(body) ==>
      var point := NormalizePoint(body.fields).value;
      var s := summarize(store + [PointValue(point)], point.location);
      && (s.Err? ==> out.reply == ErrorReply(ErrorText(s.error)))
      && (s.Ok? ==> out.reply.code == 200)
    ensures out.reply.code == 200 <==>
      Accepted(body) && summarize(out.store, NormalizePoint(body.fields).value.location).Ok?
    ensures out.reply.code == 200 ==>
      var point := NormalizePoint(body.fields).value;
      && out.reply.body.Dict?
      && Get(out.reply.body.fields, "received", Null) == PointValue(point)
      && Get(out.reply.body.fields, "status", Null) == Str("success")
      && var s := summarize(out.store, point.location).value;
         Get(out.reply.body.fields, "summary", Null) == (if Truthy(s) then s else Dict(map[]))
    ensures out.reply.code != 200 ==> out.reply.code == 400
  {
    if !Truthy(body) then Ingest(ErrorReply("no json body"), store)
    else if !body.Dict? then Ingest(ErrorReply(ErrorText(AttributeError)), store)
    else match NormalizePoint(body.fields)
      case Err(e) => Ingest(ErrorReply(ErrorText(e)), store)
      case Ok(point) =>
        var stored := store + [PointValue(point)];
        match summarize(stored, point.location)
        case Err(e) => Ingest(ErrorReply(ErrorText(e)), stored)
        case Ok(s) =>
          var summary := if Truthy(s) then s else Dict(map[]);
          Ingest(
            Response(200, Dict(map["status" := Str("success"), "received" := PointValue(point), "summary" := summary])),
            stored)
  }

  /**
    * A 400 does not mean nothing was stored: a valid point whose location
    * summary raises is kept, and the reply is the error.
    */
  lemma FailedSummaryKeepsPoint(body: Value, store: seq<Value>, summarize: (seq<Value>, Value) -> Result<Value, PyError>)
    requires Accepted(body)
    requires summarize(store + [PointValue(NormalizePoint(body.fields).value)], NormalizePoint(body.fields).value.location).Err?
    ensures ReceiveData(body, store, summarize).reply.code == 400
    ensures |ReceiveData(body, store, summarize).store| == |store| + 1
  {
  }

  /** Two requests whose bodies normalise to the same point store the same thing. */
  lemma IngestDependsOnlyOnPoint(b1: Value, b2: Value, store: seq<Value>, summarize: (seq<Value>, Value) -> Result<Value, PyError>)
    requires b1.Dict? && b2.Dict? && Truthy(b1) && Truthy(b2)
    requires NormalizePoint(b1.fields).Ok? && NormalizePoint(b1.fields) == NormalizePoint(b2.fields)
    ensures ReceiveData(b1, store, summarize).store == ReceiveData(b2, store, summarize).store
  {
  }

  /** `request.args.get("range", "current")`. */
  function RangeParam(args: map<string, string>): (r: string)
    ensures "range" !in args ==> r == "current"
    ensures "range" in args ==> r == args["range"]
  {
    if "range" in args then args["range"] else "current"
  }

  /**
    * The data both GET handlers work on: the stored samples in the window,
    * or all stored samples when filtering raises.
    */
  function Windowed(data: seq<Value>, rangeKey: string, now: real, p: TextParsers): seq<Value> {
    if AllDicts(data) then Select(data, rangeKey, now, p) else data
  }

  /** `get_data`: the range key and the windowed samples. */
  method GetData(args: map<string, string>, data: seq<Value>, now: real, p: TextParsers) returns (body: Value)
    ensures body == Dict(map[
      "range" := Str(RangeParam(args)),
      "data" := List(Windowed(data, RangeParam(args), now, p))])
  {
    var rangeKey := RangeParam(args);
    var filtered := FilterByTime(data, rangeKey, now, p);
    var items := if filtered.Ok? then filtered.value else data;
    return Dict(map["range" := Str(rangeKey), "data" := List(items)]);
  }

  /** Whatever the range, the GET handlers only ever return stored samples, in stored order. */
  lemma WindowedIsSubsequence(data: seq<Value>, rangeKey: string, now: real, p: TextParsers)
    ensures IsSubsequence(Windowed(data, rangeKey, now, p), data)
  {
    if AllDicts(data) {
      SelectIsSubsequence(data, rangeKey, now, p);
    } else {
      SubsequenceRefl(data);
    }
  }

  lemma {:induction false} SubsequenceRefl<T>(a: seq<T>)
    ensures IsSubsequence(a, a)
  {
    if a != [] {
      SubsequenceRefl(a[..|a| - 1]);
    }
  }

  /** `to_native`: each numpy scalar replaced by its Python value, recursively. */
  function ToNative(v: Value): (r: Value)
    ensures WellFormed(v) ==> IsNative(r) && SameShape(v, r)
  {
    match v
    case Np(x) => x
    case List(xs) => List(seq(|xs|, i requires 0 <= i < |xs| => ToNative(xs[i])))
    case Dict(m) => Dict(map k | k in m :: ToNative(m[k]))
    case _ => v
  }

  /**
    * `b` is `a` with every numpy scalar replaced by its `.item()`: the same
    * dict keys, the same list lengths and order, the same other scalars.
    */
  predicate SameShape(a: Value, b: Value) {
    match a
    case List(xs) =>
      b.List? && |b.items| == |xs| && forall i :: 0 <= i < |xs| ==> SameShape(xs[i], b.items[i])
    case Dict(m) =>
      b.Dict? && b.fields.Keys == m.Keys && forall k :: k in m ==> SameShape(m[k], b.fields[k])
    case Np(x) => b == x
    case _ => b == a
  }

  /** A value without numpy scalars passes through `to_native` unchanged. */
  lemma {:induction false} ToNativeKeepsNative(v: Value)
    requires IsNative(v)
    ensures ToNative(v) == v
  {
    match v
    case List(xs) =>
      forall i | 0 <= i < |xs| ensures ToNative(xs[i]) == xs[i] {
        ToNativeKeepsNative(xs[i]);
      }
      assert seq(|xs|, i requires 0 <= i < |xs| => ToNative(xs[i])) == xs;
    case Dict(m) =>
      forall k | k in m ensures ToNative(m[k]) == m[k] {
        ToNativeKeepsNative(m[k]);
      }
      assert (map k | k in m :: ToNative(m[k])) == m;
    case _ =>
  }

  /** Converting twice is converting once. */
  lemma ToNativeIdempotent(v: Value)
    requires WellFormed(v)
    ensures ToNative(ToNative(v)) == ToNative(v)
  {
    ToNativeKeepsNative(ToNative(v));
  }

  /** The JSON form of a location summary; an empty summary is `{}`. */
  function SummaryValue(s: Summary): Value {
    match s
    case NoData => Dict(map[])
    case Summary(location, current, smoothed, slope, shortPred, anomalies, busy, p90, growthRate) =>
      Dict(map[
        "location" := Str(location),
        "current" := Int(current),
        "smoothed" := Real(smoothed),
        "slope" := Real(slope),
        "short_pred" := IntList(shortPred),
        "anomalies" := IntList(anomalies),
        "busy" := Bool(busy),
        "p90" := Int(p90),
        "growth_rate" := Real(growthRate)])
  }

  /** The heat map key as JSON writes it: None becomes "null". */
  function KeyText(k: Option<string>): string {
    if k.Some? then k.value else "null"
  }

  function StrList(xs: seq<string>): (v: Value)
    ensures v.List? && |v.items| == |xs| && IsNative(v)
    ensures forall i :: 0 <= i < |xs| ==> v.items[i] == Str(xs[i])
  {
    List(seq(|xs|, i requires 0 <= i < |xs| => Str(xs[i])))
  }

  function IntList(xs: seq<int>): (v: Value)
    ensures v.List? && |v.items| == |xs| && IsNative(v)
    ensures forall i :: 0 <= i < |xs| ==> v.items[i] == Int(xs[i])
  {
    List(seq(|xs|, i requires 0 <= i < |xs| => Int(xs[i])))
  }

  /** The JSON form of the `global_summary` output. */
  function OutValue(out: GlobalOut): Value {
    var heat := out.heatmapData;
    Dict(map[
      "locations" := StrList(out.locations),
      "summaries" := List(seq(|out.summaries|, i requires 0 <= i < |out.summaries| => SummaryValue(out.summaries[i]))),
      "predicted_busiest" := if out.predictedBusiest.Some? then Str(out.predictedBusiest.value) else Null,
      "heatmap_data" := Dict(map s | s in HeatKeys(heat) :: Real(HeatAt(heat, s)))])
  }

  /** The JSON keys of the heat map. */
  function HeatKeys(heat: map<Option<string>, real>): set<string> {
    set k | k in heat :: KeyText(k)
  }

  /** The value JSON shows under the key `s`; a location named "null" hides the None entry. */
  function HeatAt(heat: map<Option<string>, real>, s: string): real
    requires s in HeatKeys(heat)
  {
    if Some(s) in heat then heat[Some(s)] else heat[None]
  }

  /** The summary output holds no numpy scalar, so `to_native` leaves it as it is. */
  lemma OutValueUnchangedByToNative(out: GlobalOut)
    ensures ToNative(OutValue(out)) == OutValue(out)
  {
    var ss := List(seq(|out.summaries|, i requires 0 <= i < |out.summaries| => SummaryValue(out.summaries[i])));
    forall i | 0 <= i < |out.summaries| ensures IsNative(ss.items[i]) {
      SummaryValueNative(out.summaries[i]);
    }
    assert IsNative(ss);
    var heat := out.heatmapData;
    var hv := Dict(map s | s in HeatKeys(heat) :: Real(HeatAt(heat, s)));
    assert IsNative(hv);
    assert IsNative(StrList(out.locations));
    ToNativeKeepsNative(OutValue(out));
  }

  lemma SummaryValueNative(s: Summary)
    ensures IsNative(SummaryValue(s))
  {
    if s.Summary? {
      var v := SummaryValue(s);
      assert forall k :: k in v.fields ==> IsNative(v.fields[k]);
    }
  }

  /** The reply lists the locations of the summary it was built from. */
  lemma OutValueLocations(out: GlobalOut)
    ensures OutValue(out).Dict?
    ensures Get(OutValue(out).fields, "locations", Null) == StrList(out.locations)
  {
  }

  /**
    * `jsonify` sorts dict keys, and comparing None with a string raises
    * TypeError: a heat map holding both the None key of an empty summary and
    * a location cannot be serialised.
    */
  predicate MixedHeatKeys(heat: map<Option<string>, real>) {
    None in heat && exists k :: k in heat && k.Some?
  }

  /** Mixed heat keys arise only from an empty summary beside a non-empty one. */
  lemma MixedHeatKeysNeedEmptySummary(ss: seq<Summary>)
    requires MixedHeatKeys(HeatSpec(ss))
    ensures exists i :: 0 <= i < |ss| && ss[i].NoData?
    ensures exists i :: 0 <= i < |ss| && ss[i].Summary?
  {
    HeatSpecKeys(ss);
    var k :| k in HeatSpec(ss) && k.Some?;
    var i :| 0 <= i < |ss| && HeatKey(ss[i]) == k;
    var j :| 0 <= j < |ss| && HeatKey(ss[j]) == None;
  }

  /**
    * `get_predictions`: the summary of the windowed samples, converted by
    * `to_native` and serialised by `jsonify`; neither an exception from
    * `global_summary` nor one from `jsonify` is caught.
    */
  method GetPredictions(args: map<string, string>, data: seq<Value>, now: real, p: TextParsers,
                        stats: string -> Result<LocationStats, PyError>)
    returns (r: Result<Value, PyError>)
    ensures var g := GlobalOutOf(Windowed(data, RangeParam(args), now, p), stats);
      && (g.Err? ==> r == Err(g.error))
      && (g.Ok? && MixedHeatKeys(g.value.heatmapData) ==> r == Err(TypeError))
      && (g.Ok? && !MixedHeatKeys(g.value.heatmapData) ==> r == Ok(OutValue(g.value)))
    ensures SortedLocations(Windowed(data, RangeParam(args), now, p)).Err? ==>
      r == Err(SortedLocations(Windowed(data, RangeParam(args), now, p)).error)
    ensures var locations := SortedLocations(Windowed(data, RangeParam(args), now, p));
      locations.Ok? && Summaries(locations.value, stats).Err? ==> r == Err(Summaries(locations.value, stats).error)
    ensures r.Ok? ==>
      && r.value.Dict?
      && Get(r.value.fields, "locations", Null) == StrList(SortedLocations(Windowed(data, RangeParam(args), now, p)).value)
  {
    var rangeKey := RangeParam(args);
    var filtered := FilterByTime(data, rangeKey, now, p);
    var items := if filtered.Ok? then filtered.value else data;
    assert items == Windowed(data, rangeKey, now, p);
    var out :- GlobalSummary(items, stats);
    var native := ToNative(OutValue(out));
    if MixedHeatKeys(out.heatmapData) {
      return Err(TypeError);
    }
    OutValueUnchangedByToNative(out);
    OutValueLocations(out);
    return Ok(native);
  }
}
