/**
  * frontend/src/components/Charts.jsx: the chart points built from a
  * location's samples and the three-slice device breakdown.  The recharts
  * drawing itself is not modelled.
  */
module Charts {
  import opened Wrappers
  import opened PyJson
  import opened Predictor
  import opened Js
  import opened Records

  /** One point of the line, bar and area charts. */
  datatype ChartPoint = ChartPoint(t: string, wifi: int, ble: int, total: int)

  /** `String(r.timestamp)`. */
  function StampText(st: Stamp): string {
    match st
    case NullStamp => "null"
    case NumStamp(n) => IntToString(n)
    case TextStamp(s) => s
  }

  /** A numeric timestamp label reads back as the same number. */
  lemma StampTextRoundTrip(n: int)
    ensures ParseInt(StampText(NumStamp(n))) == Some(n)
  {
    IntToStringRoundTrip(n);
  }

  /** `toChartData`: one point per sample, in sample order, with the counts copied. */
  function ToChartData(raw: seq<Sample>): (data: seq<ChartPoint>)
    ensures |data| == |raw|
    ensures forall i :: 0 <= i < |raw| ==>
      && data[i].t == StampText(raw[i].timestamp)
      && data[i].wifi == raw[i].wifi
      && data[i].ble == raw[i].ble
      && data[i].total == raw[i].total
  {
    if |raw| == 0 then
      []
    else
      seq(|raw|, i requires 0 <= i < |raw| =>
        ChartPoint(StampText(raw[i].timestamp), raw[i].wifi, raw[i].ble, raw[i].total))
  }

  /** Chart data of two sample lists joined is the two chart data joined. */
  lemma ToChartDataAppend(a: seq<Sample>, b: seq<Sample>)
    ensures ToChartData(a + b) == ToChartData(a) + ToChartData(b)
  {
  }

  /** Different integer timestamps get different axis labels. */
  lemma ChartLabelsDistinguishStamps(m: int, n: int)
    requires m != n
    ensures StampText(NumStamp(m)) != StampText(NumStamp(n))
  {
    if StampText(NumStamp(m)) == StampText(NumStamp(n)) {
      IntToStringInjective(m, n);
    }
  }

  /** One slice of the pie. */
  datatype Slice = Slice(name: string, value: int)

  /** The WiFi count of the last sample, 0 when there is none. */
  function LastWifi(raw: seq<Sample>): int {
    if |raw| > 0 then raw[|raw| - 1].wifi else 0
  }

  /** The BLE count of the last sample, 0 when there is none. */
  function LastBle(raw: seq<Sample>): int {
    if |raw| > 0 then raw[|raw| - 1].ble else 0
  }

  /**
    * The pie: WiFi and BLE from the last sample and "Other" for the part of
    * the current count they do not explain, never negative.
    */
  function PieSlices(raw: seq<Sample>, summary: Summary): (pie: seq<Slice>)
    ensures |pie| == 3
    ensures pie[0] == Slice("WiFi", LastWifi(raw))
    ensures pie[1] == Slice("BLE", LastBle(raw))
    ensures pie[2].name == "Other" && pie[2].value >= 0
    ensures pie[2].value >= CurrentOr0(summary) - LastWifi(raw) - LastBle(raw)
    ensures pie[2].value == 0 || pie[2].value == CurrentOr0(summary) - LastWifi(raw) - LastBle(raw)
  {
    var current := CurrentOr0(summary);
    var wifi := LastWifi(raw);
    var ble := LastBle(raw);
    [Slice("WiFi", wifi), Slice("BLE", ble), Slice("Other", if 0 > current - wifi - ble then 0 else current - wifi - ble)]
  }

  /** The slices add up to the larger of the current count and the last sample's WiFi and BLE counts. */
  lemma PieTotal(raw: seq<Sample>, summary: Summary)
    ensures var pie := PieSlices(raw, summary);
      var wb := LastWifi(raw) + LastBle(raw);
      pie[0].value + pie[1].value + pie[2].value == if CurrentOr0(summary) > wb then CurrentOr0(summary) else wb
  {
  }

  /** With no samples and no summary the pie is all zeros. */
  lemma PieEmpty()
    ensures PieSlices([], NoData) == [Slice("WiFi", 0), Slice("BLE", 0), Slice("Other", 0)]
  {
  }

  /** What `Charts` draws from: the chart points and the pie. */
  datatype ChartsView = ChartsView(data: seq<ChartPoint>, pie: seq<Slice>)

  /** `Charts({raw, summary})`. */
  function ChartsOf(raw: seq<Sample>, summary: Summary): ChartsView {
    ChartsView(ToChartData(raw), PieSlices(raw, summary))
  }
}
