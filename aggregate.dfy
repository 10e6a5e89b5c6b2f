/**
  * `global_summary` in backend/model_predictor.py: the sorted, duplicate-free
  * location list, one summary per location, the predicted busiest location
  * and the heatmap values.  What the statistics libraries compute for each
  * location comes in through `stats`.
  */
module Aggregate {
  import opened Wrappers
  import opened PyJson
  import opened Predictor
  import opened TimeWindow

  /** Python's `<` on str: lexicographic by code point. */
  predicate Less(a: string, b: string) {
    if a == [] then b != []
    else if b == [] then false
    else a[0] < b[0] || (a[0] == b[0] && Less(a[1..], b[1..]))
  }

  lemma {:induction false} LessIrreflexive(a: string)
    ensures !Less(a, a)
  {
    if a != [] {
      LessIrreflexive(a[1..]);
    }
  }

  lemma {:induction false} LessTransitive(a: string, b: string, c: string)
    requires Less(a, b) && Less(b, c)
    ensures Less(a, c)
  {
    if a != [] && a[0] == b[0] && b[0] == c[0] {
      LessTransitive(a[1..], b[1..], c[1..]);
    }
  }

  lemma {:induction false} LessTotal(a: string, b: string)
    ensures a == b || Less(a, b) || Less(b, a)
  {
    if a != [] && b != [] && a[0] == b[0] {
      LessTotal(a[1..], b[1..]);
      if a[1..] == b[1..] {
        assert a == [a[0]] + a[1..] && b == [b[0]] + b[1..];
      }
    }
  }

  /** Sorted in increasing order with no element twice. */
  predicate StrictlySorted(xs: seq<string>) {
    forall i, j :: 0 <= i < j < |xs| ==> Less(xs[i], xs[j])
  }

  /** Insert `s` into a strictly sorted list unless it is already there. */
  function Insert(xs: seq<string>, s: string): (r: seq<string>)
    requires StrictlySorted(xs)
    ensures StrictlySorted(r)
    ensures forall x :: x in r <==> x in xs || x == s
  {
    if xs == [] then [s]
    else if s == xs[0] then xs
    else if Less(s, xs[0]) then
      forall j | 0 < j < |xs| ensures Less(s, xs[j]) {
        LessTransitive(s, xs[0], xs[j]);
      }
      [s] + xs
    else
      LessTotal(s, xs[0]);
      var rest := Insert(xs[1..], s);
      assert forall x :: x in rest ==> Less(xs[0], x);
      [xs[0]] + rest
  }

  /** `r.get("location")`. */
  function LocationOf(r: Value): Value
    requires r.Dict?
  {
    Get(r.fields, "location", Null)
  }

  /** Whether the record `r` carries the non-empty location name `s`. */
  predicate NamedAt(r: Value, s: string) {
    r.Dict? && LocationOf(r) == Str(s) && s != ""
  }

  /** The distinct location names of `data`, sorted. */
  function SortedNames(data: seq<Value>): (r: seq<string>)
    ensures StrictlySorted(r)
    ensures forall s :: s in r <==> exists i :: 0 <= i < |data| && NamedAt(data[i], s)
  {
    if data == [] then []
    else
      var pre := data[..|data| - 1];
      var last := data[|data| - 1];
      var names := SortedNames(pre);
      assert forall i :: 0 <= i < |pre| ==> pre[i] == data[i];
      if last.Dict? && LocationOf(last).Str? && LocationOf(last).s != "" then
        Insert(names, LocationOf(last).s)
      else names
  }

  /**
    * A truthy location that is not a string.  Sorting then compares values
    * of different types, which the model treats as Python's TypeError.
    */
  predicate UnsortableLocation(r: Value) {
    r.Dict? && Truthy(LocationOf(r)) && !LocationOf(r).Str?
  }

  /**
    * `sorted(list({r.get("location") for r in data if r.get("location")}))`:
    * AttributeError for a record that is not a dict, TypeError for a
    * location that is not a string, otherwise the sorted distinct non-empty
    * names.
    */
  function SortedLocations(data: seq<Value>): (r: Result<seq<string>, PyError>)
    ensures !AllDicts(data) ==> r == Err(AttributeError)
    ensures AllDicts(data) && (exists i :: 0 <= i < |data| && UnsortableLocation(data[i])) ==> r == Err(TypeError)
    ensures AllDicts(data) && !(exists i :: 0 <= i < |data| && UnsortableLocation(data[i])) ==> r.Ok?
    ensures r.Ok? ==>
      && StrictlySorted(r.value)
      && forall s :: s in r.value <==> exists i :: 0 <= i < |data| && NamedAt(data[i], s)
  {
    if !AllDicts(data) then Err(AttributeError)
    else if exists i :: 0 <= i < |data| && UnsortableLocation(data[i]) then Err(TypeError)
    else Ok(SortedNames(data))
  }

  /**
    * `[summarize_location(data, loc) for loc in locations]`.  `stats` is what
    * the statistics code yields for one location, or the exception
    * `summarize_location` raises for it; the comprehension stops at the
    * first location that raises.
    */
  function Summaries(locations: seq<string>, stats: string -> Result<LocationStats, PyError>): (r: Result<seq<Summary>, PyError>)
    ensures r.Ok? <==> forall i :: 0 <= i < |locations| ==> stats(locations[i]).Ok?
    ensures r.Err? ==> exists i :: FirstFailure(locations, stats, i) && r.error == stats(locations[i]).error
    ensures r.Ok? ==>
      && |r.value| == |locations|
      && forall i :: 0 <= i < |locations| ==> r.value[i] == SummarizeLocation(locations[i], stats(locations[i]).value)
  {
    if locations == [] then Ok([])
    else match stats(locations[0])
      case Err(e) => assert FirstFailure(locations, stats, 0); Err(e)
      case Ok(st) =>
        var rest := Summaries(locations[1..], stats);
        if rest.Err? then
          var k :| FirstFailure(locations[1..], stats, k) && rest.error == stats(locations[1..][k]).error;
          assert FirstFailure(locations, stats, k + 1);
          Err(rest.error)
        else Ok([SummarizeLocation(locations[0], st)] + rest.value)
  }

  /** The location at `k` is the first one whose statistics raise. */
  predicate FirstFailure(locations: seq<string>, stats: string -> Result<LocationStats, PyError>, k: int) {
    && 0 <= k < |locations|
    && stats(locations[k]).Err?
    && forall j :: 0 <= j < k ==> stats(locations[j]).Ok?
  }

  function ToReals(xs: seq<int>): (r: seq<real>)
    ensures |r| == |xs|
    ensures forall i :: 0 <= i < |xs| ==> r[i] == xs[i] as real
  {
    seq(|xs|, i requires 0 <= i < |xs| => xs[i] as real)
  }

  /** `avg_short`: the mean short-horizon prediction, 0.0 when there is none. */
  function AvgShort(s: Summary): real {
    if s.NoData? || |s.shortPred| == 0 then 0.0 else Mean(ToReals(s.shortPred))
  }

  /** `k` is where Python's `max(ss, key=avg_short)` stops: the first maximal element. */
  predicate IsFirstMax(ss: seq<Summary>, k: int) {
    && 0 <= k < |ss|
    && (forall j :: 0 <= j < |ss| ==> AvgShort(ss[j]) <= AvgShort(ss[k]))
    && (forall j :: 0 <= j < k ==> AvgShort(ss[j]) < AvgShort(ss[k]))
  }

  /** The index `max` returns: it replaces its candidate only on a strictly larger key. */
  function FirstMax(ss: seq<Summary>): (k: nat)
    requires |ss| > 0
    ensures IsFirstMax(ss, k)
  {
    if |ss| == 1 then 0
    else
      var pre := ss[..|ss| - 1];
      var k := FirstMax(pre);
      assert forall j :: 0 <= j < |pre| ==> pre[j] == ss[j];
      if AvgShort(ss[|ss| - 1]) > AvgShort(ss[k]) then |ss| - 1 else k
  }

  /**
    * `predicted_busiest`: None for no summaries; otherwise the location of
    * the first summary with the largest mean prediction, which is None when
    * that summary is an empty one.
    */
  function Busiest(ss: seq<Summary>): (b: Option<string>)
    ensures |ss| == 0 ==> b == None
    ensures b.Some? ==> exists k :: IsFirstMax(ss, k) && ss[k].Summary? && ss[k].location == b.value
    ensures |ss| > 0 && b.None? ==> exists k :: IsFirstMax(ss, k) && ss[k].NoData?
  {
    if |ss| == 0 then None
    else
      var k := FirstMax(ss);
      if ss[k].Summary? then Some(ss[k].location) else None
  }

  /** The heatmap key of a summary: `s.get("location")`. */
  function HeatKey(s: Summary): Option<string> {
    if s.Summary? then Some(s.location) else None
  }

  /** The mean short-horizon prediction, or `float(s.get("current") or 0)` when there is none. */
  function HeatValue(s: Summary): real {
    if s.Summary? && |s.shortPred| > 0 then Mean(ToReals(s.shortPred))
    else if s.Summary? then s.current as real
    else 0.0
  }

  /** The dict the heatmap loop builds, one assignment per summary in order. */
  function HeatSpec(ss: seq<Summary>): map<Option<string>, real> {
    if ss == [] then map[]
    else HeatSpec(ss[..|ss| - 1])[HeatKey(ss[|ss| - 1]) := HeatValue(ss[|ss| - 1])]
  }

  /** The heatmap loop of `global_summary`. */
  method HeatData(ss: seq<Summary>) returns (heat: map<Option<string>, real>)
    ensures heat == HeatSpec(ss)
  {
    heat := map[];
    var i := 0;
    while i < |ss|
      invariant 0 <= i <= |ss|
      invariant heat == HeatSpec(ss[..i])
    {
      var s := ss[i];
      var vals := if s.Summary? then s.shortPred else [];
      if |vals| > 0 {
        heat := heat[HeatKey(s) := Mean(ToReals(vals))];
      } else {
        heat := heat[HeatKey(s) := if s.Summary? then s.current as real else 0.0];
      }
      assert ss[..i + 1][..i] == ss[..i];
      i := i + 1;
    }
    assert ss[..i] == ss;
  }

  /** Two summaries with the same key have the same heat value. */
  predicate HeatConsistent(ss: seq<Summary>) {
    forall i, j :: 0 <= i < |ss| && 0 <= j < |ss| && HeatKey(ss[i]) == HeatKey(ss[j]) ==>
      HeatValue(ss[i]) == HeatValue(ss[j])
  }

  /** The heatmap has exactly one key per summary key. */
  lemma {:induction false} HeatSpecKeys(ss: seq<Summary>)
    ensures forall key :: key in HeatSpec(ss) <==> exists i :: 0 <= i < |ss| && HeatKey(ss[i]) == key
  {
    if ss != [] {
      var pre := ss[..|ss| - 1];
      HeatSpecKeys(pre);
      assert forall i :: 0 <= i < |pre| ==> pre[i] == ss[i];
    }
  }

  /** When keys determine values, every summary finds its own value in the heatmap. */
  lemma {:induction false} HeatSpecValues(ss: seq<Summary>)
    requires HeatConsistent(ss)
    ensures forall i :: 0 <= i < |ss| ==>
      HeatKey(ss[i]) in HeatSpec(ss) && HeatSpec(ss)[HeatKey(ss[i])] == HeatValue(ss[i])
  {
    if ss != [] {
      var pre := ss[..|ss| - 1];
      assert forall i :: 0 <= i < |pre| ==> pre[i] == ss[i];
      HeatSpecValues(pre);
    }
  }

  /** The output of `global_summary`. */
  datatype GlobalOut = GlobalOut(
    locations: seq<string>,
    summaries: seq<Summary>,
    predictedBusiest: Option<string>,
    heatmapData: map<Option<string>, real>)

  /** Summaries built from strictly sorted locations never share a key with different values. */
  lemma SummariesConsistent(locations: seq<string>, stats: string -> Result<LocationStats, PyError>)
    requires StrictlySorted(locations)
    ensures Summaries(locations, stats).Ok? ==> HeatConsistent(Summaries(locations, stats).value)
  {
    if Summaries(locations, stats).Err? {
      return;
    }
    var ss := Summaries(locations, stats).value;
    forall i, j | 0 <= i < |ss| && 0 <= j < |ss| && HeatKey(ss[i]) == HeatKey(ss[j])
      ensures HeatValue(ss[i]) == HeatValue(ss[j])
    {
      if i < j {
        LessIrreflexive(locations[i]);
      } else if j < i {
        LessIrreflexive(locations[j]);
      }
    }
  }

  /** The value `global_summary` returns, built from its specification functions. */
  function GlobalOutOf(data: seq<Value>, stats: string -> Result<LocationStats, PyError>): Result<GlobalOut, PyError> {
    var locations :- SortedLocations(data);
    var summaries :- Summaries(locations, stats);
    Ok(GlobalOut(locations, summaries, Busiest(summaries), HeatSpec(summaries)))
  }

  /**
    * `global_summary`: the locations, one summary per location in the same
    * order, the busiest location and a heatmap entry holding every summary's
    * value; the error of the location list when it cannot be built, and
    * otherwise the error of the first location whose summary raises.
    */
  method GlobalSummary(data: seq<Value>, stats: string -> Result<LocationStats, PyError>) returns (r: Result<GlobalOut, PyError>)
    ensures r == GlobalOutOf(data, stats)
    ensures SortedLocations(data).Err? ==> r == Err(SortedLocations(data).error)
    ensures SortedLocations(data).Ok? ==>
      var locations := SortedLocations(data).value;
      && (r.Ok? <==> forall i :: 0 <= i < |locations| ==> stats(locations[i]).Ok?)
      && (r.Err? ==> exists k :: FirstFailure(locations, stats, k) && r.error == stats(locations[k]).error)
    ensures r.Ok? ==>
      var out := r.value;
      && out.locations == SortedLocations(data).value
      && |out.summaries| == |out.locations|
      && (forall i :: 0 <= i < |out.summaries| ==>
            out.summaries[i] == SummarizeLocation(out.locations[i], stats(out.locations[i]).value))
      && out.predictedBusiest == Busiest(out.summaries)
      && (forall key :: key in out.heatmapData <==>
            exists i :: 0 <= i < |out.summaries| && HeatKey(out.summaries[i]) == key)
      && (forall i :: 0 <= i < |out.summaries| ==>
            out.heatmapData[HeatKey(out.summaries[i])] == HeatValue(out.summaries[i]))
  {
    var locations :- SortedLocations(data);
    var summaries :- Summaries(locations, stats);
    var busiest := None;
    if |summaries| > 0 {
      busiest := if summaries[FirstMax(summaries)].Summary? then Some(summaries[FirstMax(summaries)].location) else None;
    }
    var heat := HeatData(summaries);
    HeatSpecKeys(summaries);
    SummariesConsistent(locations, stats);
    HeatSpecValues(summaries);
    return Ok(GlobalOut(locations, summaries, busiest, heat));
  }

  /** Distinct locations give the non-empty summaries distinct locations, so rows keyed by location are unique. */
  lemma SummaryLocationsDistinct(locations: seq<string>, stats: string -> Result<LocationStats, PyError>)
    requires StrictlySorted(locations)
    ensures Summaries(locations, stats).Ok? ==> var ss := Summaries(locations, stats).value;
      forall i, j :: 0 <= i < j < |ss| && ss[i].Summary? && ss[j].Summary? ==> ss[i].location != ss[j].location
  {
    if Summaries(locations, stats).Err? {
      return;
    }
    var ss := Summaries(locations, stats).value;
    forall i, j | 0 <= i < j < |ss| && ss[i].Summary? && ss[j].Summary?
      ensures ss[i].location != ss[j].location
    {
      LessIrreflexive(locations[i]);
    }
  }
}
