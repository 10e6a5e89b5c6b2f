/**
  * Timestamp normalisation and time-window filtering of the stored samples
  * (`parse_ts_val` and `filter_by_time` in backend/model_predictor.py).
  * The wall clock is the parameter `now`, in epoch seconds.
  */
module TimeWindow {
  import opened Wrappers
  import opened PyJson

  /** Above this a numeric timestamp is read as epoch milliseconds. */
  const MillisThreshold: real := 1000000000000.0

  /** The cutoff used for every range key other than hour, day and week. */
  const IncludeAll: real := -1000000000000000000.0

  const Hour: real := 3600.0
  const Day: real := 86400.0
  const Week: real := 7.0 * 86400.0

  /** `float(v)` of a number is its numeric value. */
  lemma {:induction false} FloatOfNumber(v: Value, p: TextParsers)
    ensures IsNumber(v) ==> ToFloat(v, p) == Ok(NumberOf(v))
  {
    if v.Np? {
      FloatOfNumber(v.item, p);
    }
  }

  /**
    * `parse_ts_val`: epoch seconds for a timestamp-like value, None when it
    * is missing or cannot be read.
    */
  function ParseTs(t: Value, p: TextParsers): (r: Option<real>)
    ensures t == Null ==> r == None
    ensures IsNumber(t) ==> r == Some(if NumberOf(t) > MillisThreshold then NumberOf(t) / 1000.0 else NumberOf(t))
    ensures t.List? || t.Dict? ==> r == None
    ensures t.Str? ==>
      r == (if p.float(t.s).Some? then
              Some(if p.float(t.s).value > MillisThreshold then p.float(t.s).value / 1000.0 else p.float(t.s).value)
            else p.iso(t.s))
  {
    if t == Null then None
    else
      FloatOfNumber(t, p);
      match ToFloat(t, p)
      case Ok(val) =>
        Some(if val > MillisThreshold then val / 1000.0 else val)
      case Err(_) => if t.Str? then p.iso(t.s) else None
  }

  /**
    * The same instant written in epoch seconds and in epoch milliseconds
    * normalises to the same value, for every instant after 1e9 seconds.
    */
  lemma MillisAndSecondsAgree(secs: real, p: TextParsers)
    requires 1000000000.0 < secs <= MillisThreshold
    ensures ParseTs(Real(secs * 1000.0), p) == ParseTs(Real(secs), p) == Some(secs)
  {
  }

  /** The lower bound a range key puts on kept timestamps. */
  function Cutoff(rangeKey: string, now: real): real {
    if rangeKey == "hour" then now - Hour
    else if rangeKey == "day" then now - Day
    else if rangeKey == "week" then now - Week
    else IncludeAll
  }

  /** The parsed timestamp of a stored point (None for a point that is not a dict). */
  function TsOf(d: Value, p: TextParsers): Option<real> {
    if d.Dict? then ParseTs(Get(d.fields, "timestamp", Null), p) else None
  }

  /** Whether `filter_by_time` keeps the point `d`. */
  predicate Keep(d: Value, rangeKey: string, now: real, p: TextParsers) {
    match TsOf(d, p)
    case None => rangeKey == "current"
    case Some(ts) => ts >= Cutoff(rangeKey, now)
  }

  predicate AllDicts(data: seq<Value>) {
    forall i :: 0 <= i < |data| ==> data[i].Dict?
  }

  /** The points kept, in their original order. */
  function Select(data: seq<Value>, rangeKey: string, now: real, p: TextParsers): seq<Value> {
    if data == [] then []
    else
      var last := data[|data| - 1];
      Select(data[..|data| - 1], rangeKey, now, p) + (if Keep(last, rangeKey, now, p) then [last] else [])
  }

  /**
    * `filter_by_time`: the points in the window, in their original order;
    * AttributeError when a stored point is not a dict.
    */
  method FilterByTime(data: seq<Value>, rangeKey: string, now: real, p: TextParsers)
    returns (r: Result<seq<Value>, PyError>)
    ensures AllDicts(data) ==> r == Ok(Select(data, rangeKey, now, p))
    ensures !AllDicts(data) ==> r == Err(AttributeError)
  {
    if |data| == 0 {
      return Ok([]);
    }
    var cutoff := Cutoff(rangeKey, now);
    var filtered := [];
    var i := 0;
    while i < |data|
      invariant 0 <= i <= |data|
      invariant AllDicts(data[..i])
      invariant filtered == Select(data[..i], rangeKey, now, p)
    {
      var d := data[i];
      if !d.Dict? {
        return Err(AttributeError);
      }
      var ts := ParseTs(Get(d.fields, "timestamp", Null), p);
      if ts.None? {
        if rangeKey == "current" {
          filtered := filtered + [d];
        }
      } else if ts.value >= cutoff {
        filtered := filtered + [d];
      }
      assert data[..i + 1][..i] == data[..i];
      i := i + 1;
    }
    assert data[..i] == data;
    return Ok(filtered);
  }

  /** `a` is `b` with some elements left out, the rest in the same order. */
  predicate IsSubsequence<T(==)>(a: seq<T>, b: seq<T>)
    decreases |b|
  {
    if a == [] then true
    else if b == [] then false
    else (a[|a| - 1] == b[|b| - 1] && IsSubsequence(a[..|a| - 1], b[..|b| - 1]))
         || IsSubsequence(a, b[..|b| - 1])
  }

  /** Filtering keeps the original order and invents nothing. */
  lemma {:induction false} SelectIsSubsequence(data: seq<Value>, rangeKey: string, now: real, p: TextParsers)
    ensures IsSubsequence(Select(data, rangeKey, now, p), data)
  {
    if data != [] {
      var pre := data[..|data| - 1];
      var last := data[|data| - 1];
      var a := Select(data, rangeKey, now, p);
      SelectIsSubsequence(pre, rangeKey, now, p);
      if Keep(last, rangeKey, now, p) {
        assert a[..|a| - 1] == Select(pre, rangeKey, now, p);
      } else {
        assert a == Select(pre, rangeKey, now, p);
      }
    }
  }

  /** A point is kept exactly when it is in the input and passes `Keep`. */
  lemma {:induction false} SelectMembers(data: seq<Value>, rangeKey: string, now: real, p: TextParsers)
    ensures forall x :: x in Select(data, rangeKey, now, p) <==> x in data && Keep(x, rangeKey, now, p)
  {
    if data != [] {
      var pre := data[..|data| - 1];
      SelectMembers(pre, rangeKey, now, p);
      assert data == pre + [data[|data| - 1]];
    }
  }

  /** Every kept timestamped point lies inside the requested window. */
  lemma WindowBounds(data: seq<Value>, rangeKey: string, now: real, p: TextParsers)
    ensures rangeKey == "hour" ==>
      forall x :: x in Select(data, rangeKey, now, p) && TsOf(x, p).Some? ==> TsOf(x, p).value >= now - 3600.0
    ensures rangeKey == "day" ==>
      forall x :: x in Select(data, rangeKey, now, p) && TsOf(x, p).Some? ==> TsOf(x, p).value >= now - 86400.0
    ensures rangeKey == "week" ==>
      forall x :: x in Select(data, rangeKey, now, p) && TsOf(x, p).Some? ==> TsOf(x, p).value >= now - 604800.0
  {
    SelectMembers(data, rangeKey, now, p);
  }

  /**
    * Any other range key keeps every timestamped point at or after the
    * include-all cutoff of -1e18 seconds.
    */
  lemma OtherKeysKeepAll(data: seq<Value>, rangeKey: string, now: real, p: TextParsers)
    requires rangeKey != "hour" && rangeKey != "day" && rangeKey != "week"
    ensures forall x :: x in data && TsOf(x, p).Some? && TsOf(x, p).value >= IncludeAll ==>
      x in Select(data, rangeKey, now, p)
  {
    SelectMembers(data, rangeKey, now, p);
  }

  /** A point without a readable timestamp is kept only for the range key "current". */
  lemma UntimedKeptOnlyForCurrent(data: seq<Value>, rangeKey: string, now: real, p: TextParsers)
    ensures forall x :: x in data && TsOf(x, p).None? ==>
      (x in Select(data, rangeKey, now, p) <==> rangeKey == "current")
  {
    SelectMembers(data, rangeKey, now, p);
  }
}
