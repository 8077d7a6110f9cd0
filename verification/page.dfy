/** The page's entry points: the click handler of the "generate" button and
    the first rendering when the page loads. Both read the median estimate
    and the unit selector, reject an estimate that is not a positive number,
    and otherwise compute the curve and the summary. */
module Page {
  import opened JsMath
  import opened Units
  import opened Graph
  import opened Stats

  /** A number read from the estimate field; `None` is NaN, what parsing a
      non-numeric entry yields. */
  datatype Option<T> = None | Some(value: T)

  /** What one rendering computes: the plotted points and the figures under
      the chart, both in the display unit. */
  datatype Chart = Chart(points: seq<Point>, summary: Summary)

  /** What a click produces: a warning, or a freshly drawn chart. */
  datatype Response = Alert(message: string) | Drawn(chart: Chart)

  const INVALID_ESTIMATE_MESSAGE: string :=
    "Please enter a valid positive number for the median estimate."

  /** The guard on the estimate: not a number, or not above zero. An
      estimate that passes it is positive in hours whatever the unit, so
      the logarithm of the median in hours is defined. */
  predicate IsInvalidEstimate(input: Option<real>): (invalid: bool)
    ensures !invalid <==> input.Some? && input.value > 0.0
    ensures !invalid ==> forall u :: ToHours(input.value, u) > 0.0
  {
    input.None? || input.value <= 0.0
  }

  /** `c` is the chart for the estimate `median` given in the selector value
      `unitName`: the curve and the summary of the median converted to hours,
      shown in the selected unit. Such a chart shows the entered estimate as
      its P50, and every plotted point has a positive time and density. */
  ghost predicate ChartFor(m: Math, median: real, unitName: string, c: Chart): (holds: bool)
    requires Sound(m)
    requires median > 0.0
    ensures holds ==> c.summary.p50 == median
    ensures holds ==> forall i :: 0 <= i < |c.points| ==> c.points[i].x > 0.0 && c.points[i].y > 0.0
  {
    var u := UnitOf(unitName);
    var medianHours := ToHours(median, u);
    ToHoursRoundTrip(median, u);
    PointsPositive(m, medianHours, u);
    && |c.points| == NUM_POINTS
    && (forall i :: 0 <= i < NUM_POINTS ==> c.points[i] == PointAt(m, medianHours, u, i))
    && c.summary == Summarize(m, medianHours, u)
  }

  /** Converts a valid estimate to hours, samples the curve and computes the
      summary. The median in hours is positive, so its logarithm is defined,
      and the P50 shown is exactly the estimate entered. */
  method Render(m: Math, median: real, unitName: string) returns (c: Chart)
    requires Sound(m)
    requires median > 0.0
    ensures ChartFor(m, median, unitName, c)
    ensures c.summary.p50 == median
  {
    var u := UnitOf(unitName);
    var medianHours := ToHours(median, u);
    var points := GenerateGraphData(m, medianHours, u);
    c := Chart(points, Summarize(m, medianHours, u));
  }

  /** The click handler: an invalid estimate raises the warning and draws
      nothing; a valid one is rendered. */
  method OnGenerateClick(m: Math, input: Option<real>, unitName: string) returns (r: Response)
    requires Sound(m)
    ensures r.Alert? <==> IsInvalidEstimate(input)
    ensures r.Alert? ==> r.message == INVALID_ESTIMATE_MESSAGE
    ensures r.Drawn? ==>
      input.Some? && input.value > 0.0 && ChartFor(m, input.value, unitName, r.chart)
  {
    if IsInvalidEstimate(input) {
      return Alert(INVALID_ESTIMATE_MESSAGE);
    }
    var c := Render(m, input.value, unitName);
    r := Drawn(c);
  }

  /** The first rendering on page load: an invalid initial estimate draws
      nothing and raises no warning. */
  method OnPageLoad(m: Math, input: Option<real>, unitName: string) returns (r: Option<Chart>)
    requires Sound(m)
    ensures r.None? <==> IsInvalidEstimate(input)
    ensures r.Some? ==>
      input.Some? && input.value > 0.0 && ChartFor(m, input.value, unitName, r.value)
  {
    r := None;
    if !IsInvalidEstimate(input) {
      var c := Render(m, input.value, unitName);
      r := Some(c);
    }
  }
}
