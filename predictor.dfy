/**
  * The per-location helpers of backend/model_predictor.py: the short-series
  * fallbacks of the regression predictor, exponential smoothing, the growth
  * rate and the current/busy part of `summarize_location`.  The regression
  * itself, percentiles and anomaly detection are numerical library code and
  * enter as opaque inputs.
  */
module Predictor {
  import opened Wrappers
  import opened PyJson

  /** Sum of a sequence, from the back. */
  function Sum(xs: seq<real>): real {
    if xs == [] then 0.0 else Sum(xs[..|xs| - 1]) + xs[|xs| - 1]
  }

  /** `np.mean` of a non-empty sequence. */
  function Mean(xs: seq<real>): real
    requires |xs| > 0
  {
    Sum(xs) / |xs| as real
  }

  lemma {:induction false} SumBounds(xs: seq<real>, lo: real, hi: real)
    requires forall i :: 0 <= i < |xs| ==> lo <= xs[i] <= hi
    ensures |xs| as real * lo <= Sum(xs) <= |xs| as real * hi
  {
    if xs != [] {
      SumBounds(xs[..|xs| - 1], lo, hi);
    }
  }

  /** A mean lies between the smallest and the largest value averaged. */
  lemma MeanBounds(xs: seq<real>, lo: real, hi: real)
    requires |xs| > 0
    requires forall i :: 0 <= i < |xs| ==> lo <= xs[i] <= hi
    ensures lo <= Mean(xs) <= hi
  {
    SumBounds(xs, lo, hi);
    var n := |xs| as real;
    assert n * lo <= Sum(xs) <= n * hi;
    assert lo == (n * lo) / n && hi == (n * hi) / n;
  }

  /** `xs[-n:]` in Python for n > 0 (the callers slice with 10 and 20); for n = 0 the empty tail, where Python's `xs[-0:]` is the whole list. */
  function Tail<T>(xs: seq<T>, n: nat): (r: seq<T>)
    ensures |r| == if |xs| > n then n else |xs|
    ensures |xs| > 0 && n > 0 ==> r[|r| - 1] == xs[|xs| - 1]
    ensures forall i :: 0 <= i < |r| ==> r[i] == xs[|xs| - |r| + i]
  {
    if |xs| > n then xs[|xs| - n..] else xs
  }

  /** `max(0.0, v)`: predictions are never negative. */
  function Clamp0(v: real): real {
    if v > 0.0 then v else 0.0
  }

  /**
    * What the fitted regression contributes: the intercept and slope of the
    * line fitted to the last 20 points and the median step between their
    * timestamps; or the failure of the fit, handled by the `except` branch.
    */
  datatype Fit = Fitted(intercept: real, coef: real, step: real) | FitFailed

  /** `model.predict([[t]])[0]` for a fitted line. */
  function Line(fit: Fit, t: real): real
    requires fit.Fitted?
  {
    fit.intercept + fit.coef * t
  }

  /**
    * `predict_with_lr`: `futureSteps` predictions.  Fewer than two values
    * repeat the last value (0.0 for none); a fitted line is sampled at the
    * next `futureSteps` time steps and clamped at zero; a failed fit repeats
    * the mean of the last 20 values.
    */
  method PredictWithLr(ts: seq<real>, ys: seq<real>, futureSteps: nat, fit: Fit) returns (preds: seq<real>)
    requires |ts| == |ys|
    ensures |preds| == futureSteps
    ensures |ys| == 0 ==> forall i :: 0 <= i < futureSteps ==> preds[i] == 0.0
    ensures |ys| == 1 ==> forall i :: 0 <= i < futureSteps ==> preds[i] == ys[0]
    ensures |ys| >= 2 && fit.Fitted? ==>
      forall i :: 0 <= i < futureSteps ==>
        preds[i] == Predicted(fit, ts[|ts| - 1], i + 1)
    ensures |ys| >= 2 && fit.FitFailed? ==>
      forall i :: 0 <= i < futureSteps ==> preds[i] == Mean(Tail(ys, 20))
    ensures (forall j :: 0 <= j < |ys| ==> ys[j] >= 0.0) ==>
      forall i :: 0 <= i < futureSteps ==> preds[i] >= 0.0
  {
    if |ys| < 2 {
      var v := if |ys| > 0 then ys[|ys| - 1] else 0.0;
      return seq(futureSteps, _ => v);
    }
    var yFit := Tail(ys, 20);
    if fit.FitFailed? {
      var ma := Mean(yFit);
      if forall j :: 0 <= j < |ys| ==> ys[j] >= 0.0 {
        MeanBounds(yFit, 0.0, Max(yFit));
      }
      return seq(futureSteps, _ => ma);
    }
    var lastTs := ts[|ts| - 1];
    preds := [];
    var i := 1;
    while i < futureSteps + 1
      invariant 1 <= i <= futureSteps + 1
      invariant |preds| == i - 1
      invariant forall k :: 0 <= k < i - 1 ==> preds[k] == Predicted(fit, lastTs, k + 1)
    {
      var t := lastTs + i as real * fit.step;
      var val := Line(fit, t);
      ghost var before := preds;
      preds := preds + [Clamp0(val)];
      assert forall k :: 0 <= k < i - 1 ==> preds[k] == before[k];
      i := i + 1;
    }
  }

  /** The fitted line `i` steps after the last timestamp, clamped at zero. */
  function Predicted(fit: Fit, lastTs: real, i: int): (v: real)
    requires fit.Fitted?
    ensures v >= 0.0
  {
    Clamp0(Line(fit, lastTs + i as real * fit.step))
  }

  /** The largest element of a non-empty sequence. */
  function Max(xs: seq<real>): (m: real)
    requires |xs| > 0
    ensures forall i :: 0 <= i < |xs| ==> xs[i] <= m
  {
    if |xs| == 1 then xs[0]
    else
      var m' := Max(xs[..|xs| - 1]);
      assert forall i :: 0 <= i < |xs| - 1 ==> xs[..|xs| - 1][i] == xs[i];
      if xs[|xs| - 1] > m' then xs[|xs| - 1] else m'
  }

  /** Exponential smoothing of a non-empty series, folded from the front. */
  function Smooth(series: seq<real>, alpha: real): real
    requires |series| > 0
  {
    if |series| == 1 then series[0]
    else alpha * series[|series| - 1] + (1.0 - alpha) * Smooth(series[..|series| - 1], alpha)
  }

  /** `exponential_smoothing`: None for an empty series. */
  method ExponentialSmoothing(series: seq<real>, alpha: real) returns (s: Option<real>)
    ensures |series| == 0 ==> s == None
    ensures |series| > 0 ==> s == Some(Smooth(series, alpha))
  {
    if |series| == 0 {
      return None;
    }
    var acc := series[0];
    var i := 1;
    while i < |series|
      invariant 1 <= i <= |series|
      invariant acc == Smooth(series[..i], alpha)
    {
      assert series[..i + 1][..i] == series[..i];
      acc := alpha * series[i] + (1.0 - alpha) * acc;
      i := i + 1;
    }
    assert series[..i] == series;
    return Some(acc);
  }

  lemma MulNonNeg(a: real, b: real)
    requires 0.0 <= a && 0.0 <= b
    ensures 0.0 <= a * b
  {
  }

  /** A weighted average of two values in [lo, hi] stays in [lo, hi]. */
  lemma Convex(alpha: real, x: real, y: real, lo: real, hi: real)
    requires 0.0 <= alpha <= 1.0
    requires lo <= x <= hi && lo <= y <= hi
    ensures lo <= alpha * x + (1.0 - alpha) * y <= hi
  {
    MulNonNeg(alpha, x - lo);
    MulNonNeg(1.0 - alpha, y - lo);
    MulNonNeg(alpha, hi - x);
    MulNonNeg(1.0 - alpha, hi - y);
  }

  /** With a weight in [0, 1], the smoothed value stays within the range of the series. */
  lemma {:induction false} SmoothWithinRange(series: seq<real>, alpha: real, lo: real, hi: real)
    requires |series| > 0
    requires 0.0 <= alpha <= 1.0
    requires forall i :: 0 <= i < |series| ==> lo <= series[i] <= hi
    ensures lo <= Smooth(series, alpha) <= hi
  {
    if |series| > 1 {
      var pre := series[..|series| - 1];
      var x := series[|series| - 1];
      SmoothWithinRange(pre, alpha, lo, hi);
      var s := Smooth(pre, alpha);
      assert Smooth(series, alpha) == alpha * x + (1.0 - alpha) * s;
      Convex(alpha, x, s, lo, hi);
    }
  }

  /** Python's `round(x)`: the nearest integer, ties to the even one. */
  function RoundHalfEven(x: real): (n: int)
    ensures n as real - x <= 0.5 && x - n as real <= 0.5
    ensures (n as real - x == 0.5 || x - n as real == 0.5) ==> n % 2 == 0
    ensures x >= 0.0 ==> n >= 0
    ensures x <= 0.0 ==> n <= 0
  {
    var f := x.Floor;
    var frac := x - f as real;
    if frac < 0.5 then f
    else if frac > 0.5 then f + 1
    else if f % 2 == 0 then f
    else f + 1
  }

  /** `round(x, 2)` on an exact value. */
  function Round2(x: real): real {
    RoundHalfEven(x * 100.0) as real / 100.0
  }

  /**
    * `compute_growth_rate`: the percentage change between the last two
    * values, rounded to two decimals; the previous value is floored at 1.0
    * in the denominator, so there is never a division by zero.
    */
  function GrowthRate(series: seq<real>): (g: real)
    ensures |series| < 2 ==> g == 0.0
    ensures |series| >= 2 ==>
      var last, prev := series[|series| - 1], series[|series| - 2];
      var raw := (last - prev) / (if prev > 1.0 then prev else 1.0) * 100.0;
      -0.005 <= g - raw <= 0.005
      && (g * 100.0).Floor as real == g * 100.0
      && ((g - raw == 0.005 || raw - g == 0.005) ==> (g * 100.0).Floor % 2 == 0)
      && (last >= prev ==> g >= 0.0)
      && (last <= prev ==> g <= 0.0)
  {
    if |series| < 2 then 0.0
    else
      var last, prev := series[|series| - 1], series[|series| - 2];
      var denom := if prev > 1.0 then prev else 1.0;
      var growth := (last - prev) / denom * 100.0;
      assert last >= prev ==> growth >= 0.0;
      assert last <= prev ==> growth <= 0.0;
      Round2(growth)
  }

  /**
    * What the statistics libraries compute for one location from its rows
    * sorted by time: the total counts, the fitted slope, the 90th
    * percentile, the raw short-horizon predictions and the anomaly stamps.
    */
  datatype LocationStats = LocationStats(
    totals: seq<real>, slope: real, p90: real, shortRaw: seq<real>, anomalies: seq<int>)

  /** A location summary; `NoData` is the empty dict returned when no row has a usable timestamp. */
  datatype Summary =
    | NoData
    | Summary(location: string, current: int, smoothed: real, slope: real, shortPred: seq<int>,
              anomalies: seq<int>, busy: bool, p90: int, growthRate: real)

  /**
    * `summarize_location` over the location's statistics: the empty summary
    * when there are no usable rows; otherwise the current count is the
    * integer part of the latest total, the location is busy when that count
    * reaches the 90th percentile, smoothed is the 0.5-smoothing of the last
    * ten totals, short predictions and p90 are rounded half to even, the
    * growth rate is `compute_growth_rate` of the totals, and slope and
    * anomalies pass through.
    */
  function SummarizeLocation(location: string, st: LocationStats): (s: Summary)
    ensures s.NoData? <==> |st.totals| == 0
    ensures s.Summary? ==>
      var last := st.totals[|st.totals| - 1];
      && s.location == location
      && (last >= 0.0 ==> 0 <= s.current && s.current as real <= last < s.current as real + 1.0)
      && (last < 0.0 ==> s.current <= 0 && s.current as real - 1.0 < last <= s.current as real)
      && (s.busy <==> s.current as real >= st.p90)
      && |s.shortPred| == |st.shortRaw|
      && (forall i :: 0 <= i < |s.shortPred| ==>
            -0.5 <= s.shortPred[i] as real - st.shortRaw[i] <= 0.5)
      && (forall i :: 0 <= i < |s.shortPred| ==> s.shortPred[i] == RoundHalfEven(st.shortRaw[i]))
      && s.p90 == RoundHalfEven(st.p90)
      && s.smoothed == Smooth(Tail(st.totals, 10), 0.5)
      && s.growthRate == GrowthRate(st.totals)
      && s.slope == st.slope && s.anomalies == st.anomalies
  {
    if |st.totals| == 0 then NoData
    else
      var total := st.totals;
      var current := Trunc(total[|total| - 1]);
      Summary(
        location := location,
        current := current,
        smoothed := Smooth(Tail(total, 10), 0.5),
        slope := st.slope,
        shortPred := seq(|st.shortRaw|, i requires 0 <= i < |st.shortRaw| => RoundHalfEven(st.shortRaw[i])),
        anomalies := st.anomalies,
        busy := current as real >= st.p90,
        p90 := RoundHalfEven(st.p90),
        growthRate := GrowthRate(total))
  }
}
