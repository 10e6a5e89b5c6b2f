# Crowd-density dashboard: a Dafny model

This project models the data shaping of a crowd-density dashboard. ESP32
sensors post WiFi and BLE device counts to a Flask backend. The backend
stores the samples, filters them by time window, and builds per-location
summaries and a global snapshot. A React frontend renders cards, charts, a
predictions table and a heatmap, and exports a PDF report.

The modules follow the source files:

- `Wrappers`: `Option` and `Result`.
- `PyJson`: the Python values the backend handles, with `bool()`, `dict.get`, `float()`, `int()` and `+`. Numpy scalars are included.
- `TimeWindow` (`parse_ts_val`, `filter_by_time`): timestamp normalisation, and the window filter as a loop proved equal to an order-preserving selection.
- `Predictor`:
  - the short-series fallbacks and clamping of `predict_with_lr`;
  - `exponential_smoothing`, proved against a fold;
  - `compute_growth_rate`, including Python's round-half-even;
  - `summarize_location` over the per-location statistics: current, busy, smoothed, rounded short predictions and p90, growth rate, slope and anomalies.
- `Aggregate` (`global_summary`):
  - the sorted, duplicate-free location list;
  - one summary per location;
  - the first-maximum "predicted busiest" location;
  - the heatmap loop.
- `Server`:
  - ingest-point normalisation and the `receive_data` replies;
  - the `range` default and the windowed data of the GET handlers;
  - `to_native`.
- `Js`: `String(n)` of an integer, with its parse-back round trip, and `Math.round`.
- `Records`: samples, `/data` replies and report-summary strings as the frontend reads them.
- `Charts`, `LocationCard`, `PredictionsTable`: the pure view projections of the three components.
- `DashboardUi`:
  - heat intensity and alpha, the per-card sample filter and the rendered view;
  - a `Dashboard` class holding the component state: range, snapshot, samples, interval ref, live timers and a log of fetches and timer operations.
  - Its methods are the all-or-nothing load cycle, the range effect (clear, then arm one interval), ticks and unmount.
- `DownloadReport`: `handleDownload` as the ordered command list given to a `Pdf` object, with the image geometry.

Inputs the code takes from its environment are parameters:

- the wall clock `now`, and `Date.now()`;
- the text parsers behind `float(str)` and `datetime.fromisoformat`;
- what the statistics libraries compute for one location (`LocationStats`: sorted totals, fitted slope, 90th percentile, raw short predictions, anomaly stamps), or the exception `summarize_location` raises for that location, and the fitted regression line (`Fit`);
- fetch results, the capture outcome and the formatted date.

## Model

| member | source | states |
|---|---|---|
| `PyJson.Trunc` | backend/model_predictor.py:220 | `int()` of a float truncates toward zero: the result lies within one of the value, on the value's side of zero |
| `TimeWindow.ParseTs` | backend/model_predictor.py:39-53 | None maps to None; a number, or text `float()` reads, above 1e12 is milliseconds and is divided by 1000, otherwise it is returned unchanged; other text goes to the ISO parser; lists and dicts give None |
| `TimeWindow.MillisAndSecondsAgree` | backend/model_predictor.py:44-47 | an instant after 1e9 s written in seconds or in milliseconds normalises to the same seconds |
| `TimeWindow.FilterByTime` | backend/model_predictor.py:55-83 | the loop returns exactly the selection `Select` of the input (empty input gives `[]`); a point that is not a dict raises AttributeError |
| `TimeWindow.SelectIsSubsequence` | backend/model_predictor.py:73-83 | the filtered points are an order-preserving subsequence of the input |
| `TimeWindow.SelectMembers` | backend/model_predictor.py:73-83 | a point is kept exactly when it is in the input and passes the window test |
| `TimeWindow.WindowBounds` | backend/model_predictor.py:64-82 | for hour, day and week every kept timestamped point has ts >= now-3600, now-86400, now-604800 |
| `TimeWindow.OtherKeysKeepAll` | backend/model_predictor.py:70-82 | any other range key keeps every timestamped point at or after -1e18 |
| `TimeWindow.UntimedKeptOnlyForCurrent` | backend/model_predictor.py:76-80 | a point without a readable timestamp is kept exactly when the key is "current" |
| `Predictor.MeanBounds` | backend/model_predictor.py:128 | the mean of a non-empty series lies between any lower and upper bound of its values |
| `Predictor.Tail` | backend/model_predictor.py:113 | `xs[-n:]` for the positive n the code uses: the last min(n, len) elements of the list, in order |
| `Predictor.PredictWithLr` | backend/model_predictor.py:106-129 | exactly `future_steps` values; fewer than 2 inputs repeat the last value (0.0 for none); a fitted line is sampled at last_ts + i*step and clamped at 0; a failed fit repeats the mean of the last 20; non-negative input gives non-negative predictions |
| `Predictor.Predicted` | backend/model_predictor.py:122-125 | every regression prediction is clamped to be >= 0 |
| `Predictor.ExponentialSmoothing` | backend/model_predictor.py:131-137 | None for an empty series, otherwise the left fold `alpha*x + (1-alpha)*s` |
| `Predictor.SmoothWithinRange` | backend/model_predictor.py:131-137 | with alpha in [0,1] the smoothed value stays within the bounds of the series |
| `Predictor.RoundHalfEven` | backend/model_predictor.py:234 | Python's `round`: within 0.5 of the value, ties to the even integer, sign preserved |
| `Predictor.GrowthRate` | backend/model_predictor.py:165-172 | 0.0 for fewer than two values; otherwise the percentage change over max(previous, 1.0) (never a division by zero) rounded to two decimals: a multiple of 0.01 within 0.005 of it, the even hundredth on a tie, with the sign of last minus previous |
| `Predictor.SummarizeLocation` | backend/model_predictor.py:190-243 | the empty summary exactly when no row is usable; otherwise the location is kept, current is the truncated last total, busy iff current >= p90, each short prediction and p90 are Python's `round` (ties to even) of the raw values, smoothed is the 0.5-smoothing of the last ten totals, growth rate is `compute_growth_rate` of the totals, and slope and anomalies pass through |
| `Aggregate.LessIrreflexive` | backend/model_predictor.py:247 | no string sorts before itself |
| `Aggregate.LessTransitive` | backend/model_predictor.py:247 | string order is transitive |
| `Aggregate.LessTotal` | backend/model_predictor.py:247 | of two different strings one sorts first |
| `Aggregate.Insert` | backend/model_predictor.py:247 | inserting into a sorted duplicate-free list keeps it so and adds exactly the new name |
| `Aggregate.SortedNames` | backend/model_predictor.py:247 | strictly increasing, and holds exactly the non-empty string locations of the data |
| `Aggregate.SortedLocations` | backend/model_predictor.py:247 | AttributeError for a non-dict record, TypeError for a truthy non-string location, otherwise success with the sorted duplicate-free list of non-empty locations |
| `Aggregate.Summaries` | backend/model_predictor.py:248 | one summary per location, in location order, when no location's summary raises; otherwise the error of the first location that raises |
| `Aggregate.FirstMax` | backend/model_predictor.py:250-256 | the index `max(key=avg_short)` returns: a maximal mean prediction, and no earlier element reaches it |
| `Aggregate.Busiest` | backend/model_predictor.py:254-256 | None for no summaries; otherwise the location of the first maximal summary, None when that summary is empty |
| `Aggregate.HeatData` | backend/model_predictor.py:259-266 | the loop builds the dict of one assignment per summary in order |
| `Aggregate.HeatSpecKeys` | backend/model_predictor.py:259-266 | the heatmap has a key for every summary and no other |
| `Aggregate.HeatSpecValues` | backend/model_predictor.py:259-266 | when equal keys carry equal values, each summary finds its mean short prediction (or current) under its key |
| `Aggregate.SummariesConsistent` | backend/model_predictor.py:247-266 | built summaries from distinct locations never put two different values under one heatmap key |
| `Aggregate.SummaryLocationsDistinct` | backend/model_predictor.py:247-248 | built non-empty summaries have pairwise distinct locations |
| `Aggregate.GlobalSummary` | backend/model_predictor.py:245-275 | equals the specification `GlobalOutOf`: the location-list error; otherwise the error of the first location whose summary raises; otherwise sorted locations, one summary each in order, the first-max busiest, and every summary's heat value under its key |
| `Server.PointValue` | backend/server.py:23-29 | a stored point is a truthy dict with exactly the five normalised keys |
| `Server.NormalizePointAsWritten` | backend/server.py:23-29 | the point as the code builds it: the total default adds the raw counts and is evaluated eagerly |
| `Server.AsWrittenConcatenatesStringCounts` | backend/server.py:28 | counts "3" and "4" give a stored total of 34 |
| `Server.AsWrittenRejectsMixedCounts` | backend/server.py:26-28 | a string count beside a numeric one is refused even with `total_count` given |
| `Server.NormalizePoint` | backend/server.py:23-29 | location defaults to "Unknown"; timestamp from "timestamp", else "ts"; each present count is its `int()` value, an absent one 0; total defaults to wifi+ble when absent; fails exactly when a present count does not convert |
| `Server.NormalizeStoredPoint` | backend/server.py:23-29 | normalising a stored point gives it back |
| `Server.NormalizeSumsStringCounts` | backend/server.py:28 | the corrected default stores 7 for counts "3" and "4" |
| `Server.ReceiveData` | backend/server.py:17-37 | a falsy body gives 400 "no json body"; a non-dict or unconvertible body gives 400 with the error and stores nothing; an accepted point is appended to the store; the reply is 200 with the point and the summary (`{}` when falsy) when the location summary succeeds, and 400 with its error when it raises |
| `Server.FailedSummaryKeepsPoint` | backend/server.py:30-37 | an accepted point whose location summary raises is stored although the reply is 400 |
| `Server.IngestDependsOnlyOnPoint` | backend/server.py:23-30 | two bodies that normalise to the same point store the same thing |
| `Server.RangeParam` | backend/server.py:42 | the range defaults to "current" |
| `Server.GetData` | backend/server.py:39-51 | the reply carries the range and the windowed samples, or all samples when filtering raises |
| `Server.WindowedIsSubsequence` | backend/server.py:46-50 | the GET handlers only return stored samples, in stored order |
| `Server.ToNative` | backend/server.py:68-75 | a value whose numpy scalars wrap plain scalars becomes numpy-free: each numpy scalar is replaced by its `.item()`, with the same dict keys, list lengths and order, and other leaves unchanged |
| `Server.ToNativeKeepsNative` | backend/server.py:68-75 | a numpy-free value passes through unchanged |
| `Server.ToNativeIdempotent` | backend/server.py:68-75 | converting twice is converting once |
| `Server.OutValueUnchangedByToNative` | backend/server.py:65-77 | the `global_summary` output holds no numpy scalar, so `to_native` leaves it as is |
| `Server.GetPredictions` | backend/server.py:53-77 | the `global_summary` of the windowed data as JSON, with its sorted locations; the error of `global_summary` (from the location list or from the first location whose summary raises) is not caught; a heat map holding the None key beside a location makes `jsonify`'s key sort raise TypeError |
| `Server.MixedHeatKeysNeedEmptySummary` | backend/server.py:65-77 | the serialisation failure needs an empty summary beside a non-empty one |
| `Js.NatToString` | frontend/src/components/LocationCard.jsx:6 | the decimal digits of a natural number, never empty, with a leading '0' only for 0 |
| `Js.IntToString` | frontend/src/components/LocationCard.jsx:6 | `String(n)`: a leading '-' exactly for negatives, then a non-empty run of digits that starts with '0' only for 0 |
| `Js.IntToStringRoundTrip` | frontend/src/components/LocationCard.jsx:6 | the printed integer parses back to itself |
| `Js.IntToStringInjective` | frontend/src/components/LocationCard.jsx:6 | different integers print differently |
| `Js.JsRound` | frontend/src/components/LocationCard.jsx:10 | `Math.round`: the nearest integer, halves upward |
| `Records.ReportSummary` | frontend/src/components/LocationCard.jsx:6 | exactly "<location>: Current " followed by `String(current)`, which parses back to the current count; "undefined: Current undefined" for the empty summary |
| `Charts.StampTextRoundTrip` | frontend/src/components/Charts.jsx:13 | an integer timestamp label reads back as the timestamp |
| `Charts.ChartLabelsDistinguishStamps` | frontend/src/components/Charts.jsx:13 | different integer timestamps get different labels |
| `Charts.ToChartData` | frontend/src/components/Charts.jsx:10-18 | empty input gives `[]`; one point per sample, same order, `t = String(timestamp)` and the counts copied |
| `Charts.ToChartDataAppend` | frontend/src/components/Charts.jsx:12 | the mapping distributes over concatenation |
| `Charts.PieSlices` | frontend/src/components/Charts.jsx:22-94 | three slices WiFi, BLE, Other; WiFi and BLE from the last sample or 0; Other = max(0, current - wifi - ble), never negative |
| `Charts.PieTotal` | frontend/src/components/Charts.jsx:93 | the slices sum to max(current, wifi + ble) |
| `Charts.PieEmpty` | frontend/src/components/Charts.jsx:22-24 | no samples and no summary give an all-zero pie |
| `LocationCard.Trend` | frontend/src/components/LocationCard.jsx:23 | "Rising" exactly when slope > 0, "Falling" otherwise (also 0 and missing) |
| `LocationCard.Badge` | frontend/src/components/LocationCard.jsx:12-13 | "Busy" exactly when busy is truthy, "Normal" otherwise |
| `LocationCard.BadgeFollowsBackend` | frontend/src/components/LocationCard.jsx:13 | for a backend summary, "Busy" exactly when the truncated latest total reaches p90 |
| `LocationCard.AnomalyCount` | frontend/src/components/LocationCard.jsx:25 | the number of anomalies, 0 when missing |
| `LocationCard.SmoothedDisplay` | frontend/src/components/LocationCard.jsx:10 | the rounded smoothed value, 0 when missing |
| `LocationCard.SmoothedDisplayInRange` | frontend/src/components/LocationCard.jsx:10 | the displayed smoothed value stays within half a unit of the range of the totals |
| `LocationCard.Card` | frontend/src/components/LocationCard.jsx:4-28 | the charts get the card's samples and summary unchanged; key, report summary, badge, trend, anomaly count and smoothed value as above |
| `PredictionsTable.NextCell` | frontend/src/components/PredictionsTable.jsx:19 | `String` of the first short prediction (it parses back to it) when present, '—' exactly when there is none |
| `PredictionsTable.Rows` | frontend/src/components/PredictionsTable.jsx:15-21 | exactly one row per summary, in input order |
| `PredictionsTable.RowShowsSummary` | frontend/src/components/PredictionsTable.jsx:17-18 | each row shows its summary's location and `String(current)`, which parses back to the count |
| `PredictionsTable.RowKeysUnique` | frontend/src/components/PredictionsTable.jsx:16 | for the summaries `global_summary` builds, no two non-empty rows share a key |
| `DashboardUi.MaxVal` | frontend/src/components/Dashboard.jsx:33 | at least 1, at least every current (missing counts as 0), and equal to 1 or to some current |
| `DashboardUi.RatioBounds` | frontend/src/components/Dashboard.jsx:80-81 | a count over a larger maximum lies in [0,1], and its alpha in [0.3,1] |
| `DashboardUi.HeatColourBounds` | frontend/src/components/Dashboard.jsx:80-81 | with non-negative currents every intensity is in [0,1] and every alpha in [0.3,1] |
| `DashboardUi.HeatColourPeak` | frontend/src/components/Dashboard.jsx:33-80 | when some current is at least 1, some cell has intensity exactly 1 |
| `DashboardUi.HeatCells` | frontend/src/components/Dashboard.jsx:79-93 | one cell per summary in snapshot order, with its key, alpha and report summary |
| `DashboardUi.LocationSamplesMembers` | frontend/src/components/Dashboard.jsx:57 | a card receives exactly the samples whose location equals its summary's |
| `DashboardUi.LocationSamplesOrder` | frontend/src/components/Dashboard.jsx:57 | the card's samples are a subsequence of the samples in their original order, all match, their number is the number of matching samples, and the latest matching sample comes last |
| `DashboardUi.Cards` | frontend/src/components/Dashboard.jsx:56-58 | one card per summary in order, each with its location's samples; rendering throws exactly when raw is not an array and there are summaries |
| `DashboardUi.ReportFilename` | frontend/src/components/Dashboard.jsx:69 | "ESP32-report-", the range and "-", then `String(Date.now())`, which parses back to the clock value, then ".pdf" |
| `DashboardUi.ReportFilenamesDiffer` | frontend/src/components/Dashboard.jsx:69 | downloads of one range at different milliseconds get different file names |
| `DashboardUi.BusiestText` | frontend/src/components/Dashboard.jsx:64 | '—' exactly when there is no snapshot or no non-empty busiest location |
| `DashboardUi.Render` | frontend/src/components/Dashboard.jsx:31-97 | the view fails exactly when the cards do; otherwise cards, table rows, heat cells and busiest text are those of the snapshot, and the report file name is built from the range and the clock |
| `DashboardUi.Dashboard.constructor` | frontend/src/components/Dashboard.jsx:8-11 | range "current", no snapshot, no samples, no interval |
| `DashboardUi.Dashboard.Load` | frontend/src/components/Dashboard.jsx:13-22 | both fetches use the same range, data only after predictions; nothing is written unless both succeed; then the snapshot is written, and `raw = d.data \|\| d` too unless the data reply is `null`, on which reading `d.data` throws |
| `DashboardUi.Dashboard.RunEffect` | frontend/src/components/Dashboard.jsx:24-29 | one immediate load with the effect of `Load`, the interval in the ref cleared, exactly one new 5000 ms interval armed for the range |
| `DashboardUi.Dashboard.Mount` | frontend/src/components/Dashboard.jsx:24-29 | the first render loads once, clears nothing (the ref is still empty after the constructor), arms exactly one interval for the shown range and leaves it the only live one |
| `DashboardUi.Dashboard.SelectRange` | frontend/src/components/Dashboard.jsx:24-44 | an unchanged range changes no field; a new range clears the live interval, loads once and arms exactly one new interval for it |
| `DashboardUi.Dashboard.Tick` | frontend/src/components/Dashboard.jsx:27 | a live interval reloads the range shown, with the effect of `Load`; a cleared one does nothing; timers and their log are unchanged |
| `DashboardUi.Dashboard.Unmount` | frontend/src/components/Dashboard.jsx:28 | the cleanup clears the live interval and leaves none; the ref keeps the cleared id |
| `DashboardUi.SessionKeepsOneInterval` | frontend/src/components/Dashboard.jsx:24-29 | after any sequence of range changes and firings of any interval id, exactly one interval is live, reloading the range selected last |
| `DownloadReport.Pdf.constructor` | frontend/src/components/DownloadReport.jsx:13-14 | a new A4 document has no commands and the A4 width in mm |
| `DownloadReport.DrawTitlePage` | frontend/src/components/DownloadReport.jsx:17-27 | the title page commands, in order |
| `DownloadReport.DrawVisualsHeader` | frontend/src/components/DownloadReport.jsx:31-36 | the visuals heading and caption commands, in order |
| `DownloadReport.ReportTraceLayout` | frontend/src/components/DownloadReport.jsx:17-44 | one addPage, after the title page; title texts centred at pageWidth/2 with y 30, 45, 55; visuals texts at x 15; one image; save last and only there |
| `DownloadReport.PlacedImageGeometry` | frontend/src/components/DownloadReport.jsx:38-41 | the image is at (15,40) with a 15 mm margin on each side, and height*imgWidth = imgHeight*width |
| `DownloadReport.HandleDownload` | frontend/src/components/DownloadReport.jsx:5-45 | a missing node only alerts; otherwise one capture at scale 2 with CORS; a failed capture builds no document; a captured canvas gives one fresh A4 document; with a non-empty image it holds the full report trace saved under the file name (default 'Crowd_Trends_Report.pdf'), with an image of zero width or height it stops after the visuals header |

## Left out

- File and network I/O: `read_data` (its fallback to `[]` on a bad file), `write_data_point`, the data-file creation, Flask routing, CORS and start-up, and the `fetch` wrappers. The store is a sequence and fetch results are parameters.
- Numerical library code, which enters as opaque inputs:
  - the pandas frame building and sorting in `build_location_df`;
  - the sklearn fit and predict; `np.median`, `np.percentile`, `np.corrcoef`;
  - `detect_anomalies`, `compute_peak_hour_forecast`, `compute_correlation`.
- The summary fields the frontend never reads: `medium_pred_sample`, `long_pred_sample`, `peak_hour` and `wifi_ble_corr`.
- Floating point: reals are exact, so NaN, infinities and rounding error are not modelled, and `round(x, 2)` is exact.
- JavaScript numbers are unbounded integers or exact reals here. `String(n)` has no exponent form, and timestamps are integers or strings, not floats.
- `float(str)` and `datetime.fromisoformat` are parameters. `int(str)` accepts an optional sign and ASCII digits only: no whitespace, underscores or non-ASCII digits.
- Error messages: `str(e)` is reduced to the exception's class name.
- `SortedLocations`: any truthy non-string location is treated as a TypeError, where Python fails only when values of incomparable types meet while sorting.
- `Server.OutValue` renders the heatmap's None key as "null"; it only reaches the reply when no location key is beside it, since otherwise `Server.GetPredictions` fails.
- Stored sample locations that are not strings read as no location on the frontend.
- `Server.ReceiveData`: the location summary for the reply is the parameter `summarize`, which may raise. Which inputs make `summarize_location` raise (a timestamp `datetime.fromtimestamp` rejects, say) is not modelled.
- `Aggregate.GlobalSummary`, `Server.GetPredictions`: the per-location statistics come in as `stats`, which may raise for a location (an ISO stamp on an anomalous row reaching `int()`, a stamp past year 9999 reaching `datetime.fromtimestamp`); which inputs raise is not modelled, only that the first such error aborts the summary and is not caught.
- `Server.ReceiveData` uses the corrected total default (see Findings). The code as written is `Server.NormalizePointAsWritten`. The corrected default sums the converted counts, so float counts differ from the code as written: 1.5 and 1.5 give 2, where the code gives `int(3.0)` = 3.
- A data file holding something other than a list is not modelled.
- Concurrency:
  - in-flight fetches are not interleaved;
  - a load completes when it is issued;
  - state updates after unmount and React's double effects in development are not modelled.
- html2canvas and jsPDF internals. The capture is an outcome parameter. A capture of zero width or zero height has no pixels; it is assumed to fail when the image is read, after the visuals header and before the image.
- `Date.now()` and `toLocaleString()` are parameters.
- Static markup and styling, apart from the alpha of the heat colour.

## Findings

| source | as written | input that shows it | evidently intended | confidence | as-written member | corrected member |
|---|---|---|---|---|---|---|
| backend/server.py:28 | the `total_count` default adds the raw `wifi_count` and `ble_count` values, and is evaluated even when `total_count` is present | `{"wifi_count": "3", "ble_count": "4"}` stores total 34 (`Server.AsWrittenConcatenatesStringCounts`); `{"wifi_count": "3", "ble_count": 4, "total_count": 7}` is refused with a TypeError (`Server.AsWrittenRejectsMixedCounts`) | default to the sum of the converted counts, only when `total_count` is absent | medium; not executed | `Server.NormalizePointAsWritten` | `Server.NormalizePoint` |
