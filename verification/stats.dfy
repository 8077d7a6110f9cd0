/** The percentile ladder and the mean shown beside the chart. */
module Stats {
  import opened JsMath
  import opened Units
  import opened Density

  /** The figures listed under the chart, all in one unit. */
  datatype Summary = Summary(p50: real, mean: real, p80: real, p90: real, p95: real, p99: real)

  /** The figures in hours: P50 is the median, the mean is
      median * exp(SIGMA^2 / 2), and the upper percentiles are the fixed
      multiples 3, 4, 5 and 7 of the median. */
  function SummaryInHours(m: Math, medianHours: real): (s: Summary)
    ensures s.p50 == medianHours
    ensures Sound(m) ==> (s.mean > s.p50 <==> medianHours > 0.0)
    ensures medianHours > 0.0 ==> s.p50 < s.p80 < s.p90 < s.p95 < s.p99
  {
    var f := m.exp(SIGMA * SIGMA / 2.0);
    assert Sound(m) ==> f > 1.0;
    assert f > 1.0 ==> (medianHours * f > medianHours <==> medianHours > 0.0) by {
      if f > 1.0 { ScaledAboveOne(medianHours, f); }
    }
    Summary(
      medianHours,
      medianHours * f,
      medianHours * 3.0,
      medianHours * 4.0,
      medianHours * 5.0,
      medianHours * 7.0)
  }

  /** The figures converted to the display unit `u`. In that unit P50 is the
      median, the percentiles keep their multipliers and the mean keeps its
      factor exp(SIGMA^2 / 2). */
  function Summarize(m: Math, medianHours: real, u: Unit): (s: Summary)
    ensures s.p50 == FromHours(medianHours, u)
    ensures s.mean == m.exp(SIGMA * SIGMA / 2.0) * s.p50
    ensures s.p80 == 3.0 * s.p50
    ensures s.p90 == 4.0 * s.p50
    ensures s.p95 == 5.0 * s.p50
    ensures s.p99 == 7.0 * s.p50
  {
    var h := SummaryInHours(m, medianHours);
    FromHoursScales(m.exp(SIGMA * SIGMA / 2.0), medianHours, u);
    FromHoursScales(3.0, medianHours, u);
    FromHoursScales(4.0, medianHours, u);
    FromHoursScales(5.0, medianHours, u);
    FromHoursScales(7.0, medianHours, u);
    Summary(
      FromHours(h.p50, u),
      FromHours(h.mean, u),
      FromHours(h.p80, u),
      FromHours(h.p90, u),
      FromHours(h.p95, u),
      FromHours(h.p99, u))
  }

  /** For a positive median the figures are positive and ordered
      P50 < P80 < P90 < P95 < P99, with the mean above the median, in every
      display unit. */
  lemma SummaryOrdered(m: Math, medianHours: real, u: Unit)
    requires Sound(m)
    requires medianHours > 0.0
    ensures var s := Summarize(m, medianHours, u);
            && 0.0 < s.p50 < s.p80 < s.p90 < s.p95 < s.p99
            && s.p50 < s.mean
  {
    var s := Summarize(m, medianHours, u);
    var f := m.exp(SIGMA * SIGMA / 2.0);
    assert f > 1.0;
    assert s.p50 > 0.0;
    var excess, p := f - 1.0, s.p50;
    assert excess > 0.0 && p > 0.0;
    var gap := excess * p;
    assert gap > 0.0;
    assert s.mean == s.p50 + gap;
  }

  /** The worked case of a ten-hour median. */
  lemma TenHourMedian(m: Math)
    ensures var s := Summarize(m, 10.0, Hours);
            s.p50 == 10.0 && s.p80 == 30.0 && s.p90 == 40.0 && s.p95 == 50.0 && s.p99 == 70.0
  {
  }
}
