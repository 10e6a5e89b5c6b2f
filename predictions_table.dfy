/**
  * frontend/src/components/PredictionsTable.jsx: one row per summary, in
  * the order given, showing location, current count and the first
  * short-horizon prediction.
  */
module PredictionsTable {
  import opened Wrappers
  import opened PyJson
  import opened Predictor
  import opened Aggregate
  import opened Js

  /** A table row: its React key and the three cells. */
  datatype Row = Row(key: Option<string>, location: string, current: string, next: string)

  /** `s.short_pred?.[0] ?? '—'`. */
  function NextCell(s: Summary): (cell: string)
    ensures s.Summary? && |s.shortPred| > 0 ==> cell == IntToString(s.shortPred[0])
    ensures s.Summary? && |s.shortPred| > 0 ==> ParseInt(cell) == Some(s.shortPred[0])
    ensures cell == "—" <==> s.NoData? || |s.shortPred| == 0
  {
    if s.Summary? && |s.shortPred| > 0 then
      IntToStringRoundTrip(s.shortPred[0]);
      var c := IntToString(s.shortPred[0]);
      assert c != "—" by {
        assert ParseInt(c).Some? && ParseInt("—") == None;
      }
      c
    else "—"
  }

  function RowOf(s: Summary): Row {
    if s.Summary? then Row(Some(s.location), s.location, IntToString(s.current), NextCell(s))
    else Row(None, "", "", NextCell(s))
  }

  /** `summaries.map(...)`: exactly one row per summary, in input order. */
  function Rows(ss: seq<Summary>): (rows: seq<Row>)
    ensures |rows| == |ss|
    ensures forall i :: 0 <= i < |ss| ==> rows[i] == RowOf(ss[i])
  {
    seq(|ss|, i requires 0 <= i < |ss| => RowOf(ss[i]))
  }

  /** Each row shows its summary's location and `String(current)`, which reads back as that count. */
  lemma RowShowsSummary(ss: seq<Summary>, i: int)
    requires 0 <= i < |ss| && ss[i].Summary?
    ensures Rows(ss)[i].location == ss[i].location
    ensures Rows(ss)[i].current == IntToString(ss[i].current)
    ensures ParseInt(Rows(ss)[i].current) == Some(ss[i].current)
  {
    IntToStringRoundTrip(ss[i].current);
  }

  /**
    * Rows are keyed by location; for the summaries `global_summary` builds
    * from its sorted, duplicate-free locations, no two non-empty rows share
    * a key.
    */
  lemma RowKeysUnique(locations: seq<string>, stats: string -> Result<LocationStats, PyError>)
    requires StrictlySorted(locations)
    ensures Summaries(locations, stats).Ok? ==> var rows := Rows(Summaries(locations, stats).value);
      forall i, j :: 0 <= i < j < |rows| && rows[i].key.Some? && rows[j].key.Some? ==> rows[i].key != rows[j].key
  {
    SummaryLocationsDistinct(locations, stats);
  }
}
