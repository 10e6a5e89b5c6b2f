/**
  * The JSON the frontend receives, as the components read it: stored samples
  * from `/data` and the `global_summary` snapshot from `/predictions`.  A
  * location summary is `Predictor.Summary`, whose `NoData` case is the empty
  * object `{}` on which every field reads as `undefined`.
  */
module Records {
  import opened Wrappers
  import opened PyJson
  import opened Predictor
  import opened Js

  /** A stored timestamp: null, an integer, or a string (an ISO date). */
  datatype Stamp = NullStamp | NumStamp(n: int) | TextStamp(s: string)

  /** A stored sample; `location` is None when the stored value is not a string. */
  datatype Sample = Sample(timestamp: Stamp, location: Option<string>, wifi: int, ble: int, total: int)

  /**
    * A `/data` reply: the object `{range, data}`, a bare array of samples,
    * an object without a `data` field, or the JSON `null`.
    */
  datatype DataBody = Wrapped(range: string, data: seq<Sample>) | Bare(samples: seq<Sample>) | OtherObject | NullBody

  /** What the dashboard holds as `raw`: an array of samples, or an object that is not one. */
  datatype Raw = Samples(items: seq<Sample>) | NotArray

  /** `d.data || d`: an array is always truthy, so `data` wins whenever it is there. */
  function RawOf(d: DataBody): Raw
    requires !d.NullBody?
  {
    match d
    case Wrapped(_, data) => Samples(data)
    case Bare(samples) => Samples(samples)
    case OtherObject => NotArray
  }

  /** `s.current || 0`, and `summary?.current || 0`. */
  function CurrentOr0(s: Summary): int {
    if s.Summary? then s.current else 0
  }

  /** `${s.location}`: the location, or "undefined" on an empty summary. */
  function LocationText(s: Summary): string {
    if s.Summary? then s.location else "undefined"
  }

  /** `${s.current}`: the current count, or "undefined" on an empty summary. */
  function CurrentText(s: Summary): string {
    if s.Summary? then IntToString(s.current) else "undefined"
  }

  /** `${s.location}: Current ${s.current}`, the text the report exporter reads. */
  function ReportSummary(s: Summary): (r: string)
    ensures s.Summary? ==>
      && |r| > |s.location| + 10
      && r[..|s.location|] == s.location
      && r[|s.location|..|s.location| + 10] == ": Current "
      && r[|s.location| + 10..] == IntToString(s.current)
      && ParseInt(r[|s.location| + 10..]) == Some(s.current)
    ensures s.NoData? ==> r == "undefined: Current undefined"
  {
    var r := LocationText(s) + ": Current " + CurrentText(s);
    if s.Summary? then
      assert r[|s.location| + 10..] == IntToString(s.current);
      IntToStringRoundTrip(s.current);
      r
    else r
  }
}
