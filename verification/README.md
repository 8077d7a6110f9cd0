# Task time estimator: log-normal kernel

A Dafny model of the numeric kernel of a browser widget that turns a single
"median estimate" of a task's duration into a log-normal distribution. The
user enters a median and a unit (days, hours or minutes). The page rejects
an estimate that is not a positive number. Otherwise it converts the median
to hours, the base unit, and computes two things:

- a curve of 200 evenly spaced points of the log-normal density
  (sigma = 1, mu = ln(median)), sampled from max(0.01, median * 0.001) up to
  the 99th percentile median * exp(sigma * z_0.99);
- a summary: P50 (the median), the mean median * exp(sigma^2 / 2), and the
  rule-of-thumb percentiles P80, P90, P95 and P99 at 3, 4, 5 and 7 times the
  median.

Both are shown in the unit the user picked.

Modules, one per concern of `script.js`:

- `Units` (units.dfy): the unit selector, `ToHours` and `FromHours`.
- `JsMath` (jsmath.dfy): the parts of JavaScript's `Math` the page calls. A
  `Math` value is any choice of `exp`, `log`, `sqrt` and `PI`. The predicate
  `Sound` holds the only facts the proofs use: `exp` is positive and exceeds
  1 on positive arguments; `log` and `sqrt` are defined on positive
  arguments; `sqrt` is positive there; `PI` is positive. `log` and `sqrt`
  are partial functions, so each of their calls in the model carries a
  proof obligation that its argument is positive. No concrete value of
  these functions is ever assumed.
- `Density` (density.dfy): `SIGMA`, `Z_99` and the density function.
- `Graph` (graph.dfy): the sampled curve. `GenerateGraphData` keeps the
  source's loop that appends one point per step. It is proved against the
  function `PointAt`, which gives the `i`-th point directly, and the lemmas
  about the curve are stated about `PointAt`.
- `Stats` (stats.dfy): the percentile ladder and the mean.
- `Page` (page.dfy): the input guard, the click handler and the initial
  rendering on page load.

Two behaviours of `script.js` are worth stating up front:

- The x values of the curve increase only when median * exp(sigma * z_0.99)
  exceeds 0.01 hours (script.js:79-85). Below about 0.00098 hours the start
  point 0.01 lies above the 99th percentile, and the x values decrease
  (`Graph.HoursOrderFollowsRange`, `Graph.RangeNonEmptyIff`,
  `Graph.TinyMedianReversesCurve`).
- `script.js` has one calibration, sigma = 1 with the percentile multipliers
  3, 4, 5 and 7 (lines 21, 105-109), and that is what the model fixes.

## Model

| member | source | states |
|---|---|---|
| `Units.UnitOf` | script.js:30-38 | The conversions recognise exactly the strings "days", "hours" and "minutes"; every other selector value, including other capitalisations, falls to the default case. |
| `Units.ToHours` | script.js:29-40 | Converting to hours keeps the sign: the result is positive exactly when the value is, and zero exactly when the value is. |
| `Units.FromHours` | script.js:43-54 | Converting from hours keeps the sign in the same way. |
| `Units.ToHoursRoundTrip` | script.js:29-54 | For every unit, the unknown one included, converting a value to hours and back gives the value exactly. |
| `Units.FromHoursRoundTrip` | script.js:29-54 | For every unit, converting hours to the unit and back gives the hours exactly. |
| `Units.UnknownUnitIsIdentity` | script.js:37-52 | An unrecognised selector value leaves a quantity unchanged in both directions. |
| `Units.FromHoursMonotone` | script.js:43-54 | Conversion to the display unit is strictly monotone and injective: it preserves and reflects both `<` and `==`. |
| `Units.FromHoursScales` | script.js:43-54 | Conversion to the display unit is linear: k times a quantity converts to k times the converted quantity. |
| `Units.ConversionExamples` | script.js:31-38 | One day is 24 hours, 60 minutes is one hour, 24 hours is one day, and an unknown unit such as "weeks" is the identity. |
| `Density.LogNormalPdf` | script.js:60-67 | For sigma > 0 the density is 0 for every x <= 0 and positive for every x > 0, so it is never negative. The logarithm is only applied to a positive x. |
| `Graph.StartX` | script.js:82 | The start of the axis is the larger of 0.01 and median * 0.001: it is at least both and equals one of them. |
| `Graph.MaxX` | script.js:79 | The end of the axis, median * exp(SIGMA * Z_99), lies above the median exactly when the median is positive, and is positive exactly when the median is. |
| `Graph.XHours` | script.js:85 | Defines the i-th sample in hours. Sample 0 is StartX, which is positive, and sample 199 is exactly MaxX. |
| `Graph.PointAt` | script.js:85-88 | Defines the i-th plotted point: the sample converted to the display unit, paired with the density at the sample in hours. Its x and its density are positive exactly when the sample in hours is. |
| `Graph.GenerateGraphData` | script.js:72-91 | The loop returns exactly 200 points. Point i is the i-th evenly spaced sample in hours, converted to the display unit, paired with the density at that sample in hours. The logarithm of the median is taken only for a positive median. |
| `Graph.Spacing` | script.js:84-85 | Samples i and j lie (MaxX - StartX) * (j - i) / 199 apart. |
| `Graph.EvenSpacing` | script.js:84-85 | Consecutive samples differ by the constant step (MaxX - StartX) / 199. |
| `Graph.SamplePositive` | script.js:79-85 | For a positive median every one of the 200 samples in hours is positive, whichever end of the axis is larger. |
| `Graph.PointsPositive` | script.js:84-88 | For a positive median, every one of the 200 plotted points has a positive x in the display unit and a positive density: the zero branch of the density is never taken on the curve. |
| `Graph.HoursOrderFollowsRange` | script.js:79-85 | For i < j, sample i lies below sample j exactly when MaxX > StartX, and above it exactly when MaxX < StartX. |
| `Graph.PointOrderFollowsRange` | script.js:84-88 | The same holds for the plotted x values in every display unit. |
| `Graph.RangeNonEmptyIff` | script.js:79-82 | For a positive median, MaxX > StartX holds exactly when median * exp(SIGMA * Z_99) exceeds 0.01 hours. |
| `Graph.TinyMedianReversesCurve` | script.js:79-87 | The positive median 0.005 / exp(SIGMA * Z_99) hours has its axis end below its start, and its first plotted x lies above its last. |
| `Stats.SummaryInHours` | script.js:98-109 | Defines the figures in hours. P50 is the median. The mean, median * exp(SIGMA^2 / 2), lies above P50 exactly when the median is positive. For a positive median P50 < P80 < P90 < P95 < P99. |
| `Stats.Summarize` | script.js:105-118 | In the display unit, P50 is the median converted. The mean is exp(SIGMA^2 / 2) times P50. P80, P90, P95 and P99 are 3, 4, 5 and 7 times P50, so the multipliers survive the conversion. |
| `Stats.SummaryOrdered` | script.js:98-118 | For a positive median, in every unit: 0 < P50 < P80 < P90 < P95 < P99, and the mean lies above P50. |
| `Stats.TenHourMedian` | script.js:105-109 | A 10-hour median gives P50 = 10, P80 = 30, P90 = 40, P95 = 50 and P99 = 70 hours. |
| `Page.IsInvalidEstimate` | script.js:204 | The guard rejects exactly the inputs that are NaN or not above zero. An estimate it accepts is positive in hours for every unit, so the logarithm at line 73 is defined. |
| `Page.ChartFor` | script.js:209-211 | Defines the chart of an estimate: 200 points equal to `PointAt` of the median in hours, and the summary of that median in the selected unit. Such a chart shows the entered estimate as its P50, and every plotted point has a positive time and a positive density. |
| `Page.Render` | script.js:209-211 | A positive estimate is converted to hours, and the curve and the summary of that median are computed in the selected unit. The P50 shown equals the entered estimate exactly. |
| `Page.OnGenerateClick` | script.js:200-212 | The click shows the warning exactly when the estimate is NaN or not above zero, with the source's message. Otherwise the chart of the positive estimate is drawn. |
| `Page.OnPageLoad` | script.js:215-221 | On load, nothing is drawn, and no warning is raised, exactly when the initial estimate is NaN or not above zero. Otherwise the chart of the estimate is drawn. |

## Left out

- DOM lookups and writes to the list items (script.js:2-14, 121-126). They are presentation only.
- Chart.js: building and configuring the chart, and destroying the previous chart held in the module-level handle before drawing a new one (script.js:17, 100-102, 129-197). The library is not part of this model. The model's `Chart` value holds only what the page computes for it.
- Registering the event listeners, and `alert` itself (script.js:200, 205). The click handler returns the warning's text instead.
- `parseFloat`: the model receives its result as an optional real, with `None` for NaN. A parsed `Infinity` passes the guard in the source. Reals have no infinity, so that case is not modelled.
- String formatting (`toFixed`, `toExponential`, `toLowerCase`, capitalising the axis title) and the displayed ratio mean / median (script.js:121-126, 133, 151, 172).
- Floating-point overflow and underflow. Exact reals drop them. A median above about 1.7e307 hours makes the end of the axis (script.js:79) Infinity, and the first sample at line 85 then becomes NaN. A positive estimate in minutes below about 1.5e-322 becomes 0 hours at line 36, and `Math.log` at line 73 then gives -Infinity.
- Floating-point rounding, and the concrete values of `exp`, `log`, `sqrt` and `PI`. The model works over exact reals and fixes only the facts in `JsMath.Sound`. So a figure like "mean is about 16.49 for a 10-hour median" is not stated.
- The constant `Z_50` (script.js:24) is declared in the source but never used.
- Density.LogNormalPdf: requires sigma > 0. The source's only call passes SIGMA = 1. A zero sigma would divide by zero, and a negative one would give a negative density; neither is modelled.
- Density.LogNormalPdf: states that the density is positive for x > 0 over exact reals. In floating point, `Math.exp` can underflow to 0 far out in the tail, so there the source's value can be 0.
- Graph.GenerateGraphData: requires a positive median in hours. In the source, `Math.log` of a non-positive median yields NaN or -Infinity instead of failing. Both callers pass it only after the guard has accepted the estimate, and `Page.Render` discharges that requirement.
