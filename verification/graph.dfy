/** The sampled density curve that the page plots. */
module Graph {
  import opened JsMath
  import opened Units
  import opened Density

  /** Number of points on the curve. */
  const NUM_POINTS: nat := 200

  /** One point of the plot: `x` in the display unit, `y` the density. */
  datatype Point = Point(x: real, y: real)

  /** Right end of the x-axis in hours: the 99th percentile of the
      distribution, median * exp(SIGMA * Z_99). */
  function MaxX(m: Math, medianHours: real): (r: real)
    ensures Sound(m) ==> (r > medianHours <==> medianHours > 0.0)
    ensures Sound(m) ==> (r > 0.0 <==> medianHours > 0.0)
  {
    var k := m.exp(SIGMA * Z_99);
    assert Sound(m) ==> k > 1.0;
    assert k > 1.0 ==>
      (medianHours * k > medianHours <==> medianHours > 0.0) && (medianHours * k > 0.0 <==> medianHours > 0.0) by {
      if k > 1.0 { ScaledAboveOne(medianHours, k); }
    }
    medianHours * k
  }

  /** Left end of the x-axis in hours: max(0.01, median * 0.001), which
      keeps the first sample away from zero. */
  function StartX(medianHours: real): (s: real)
    ensures s >= 0.01 && s >= medianHours * 0.001
    ensures s == 0.01 || s == medianHours * 0.001
  {
    if 0.01 >= medianHours * 0.001 then 0.01 else medianHours * 0.001
  }

  /** The `i`-th sample in hours: StartX moved `i / (NUM_POINTS - 1)` of the
      way towards MaxX. */
  function XHours(m: Math, medianHours: real, i: nat): (x: real)
    ensures i == 0 ==> x == StartX(medianHours) > 0.0
    ensures i == NUM_POINTS - 1 ==> x == MaxX(m, medianHours)
  {
    var s := StartX(medianHours);
    s + (MaxX(m, medianHours) - s) * (i as real / (NUM_POINTS - 1) as real)
  }

  /** The `i`-th point of the plot: the sample converted to the display
      unit, paired with the density at the sample in hours. */
  function PointAt(m: Math, medianHours: real, u: Unit, i: nat): (p: Point)
    requires Sound(m)
    requires medianHours > 0.0
    ensures p.x > 0.0 <==> XHours(m, medianHours, i) > 0.0
    ensures p.y > 0.0 <==> XHours(m, medianHours, i) > 0.0
  {
    var xh := XHours(m, medianHours, i);
    FromHoursRoundTrip(xh, u);
    Point(FromHours(xh, u), LogNormalPdf(m, xh, m.log(medianHours), SIGMA))
  }

  /** Builds the plot point by point, appending each to the list. */
  method GenerateGraphData(m: Math, medianHours: real, u: Unit) returns (points: seq<Point>)
    requires Sound(m)
    requires medianHours > 0.0
    ensures |points| == NUM_POINTS
    ensures forall i :: 0 <= i < |points| ==> points[i] == PointAt(m, medianHours, u, i)
  {
    var mu := m.log(medianHours);
    points := [];
    var maxX := MaxX(m, medianHours);
    var startX := StartX(medianHours);
    for i := 0 to NUM_POINTS
      invariant |points| == i
      invariant forall j :: 0 <= j < i ==> points[j] == PointAt(m, medianHours, u, j)
    {
      var xHours := startX + (maxX - startX) * (i as real / (NUM_POINTS - 1) as real);
      var y := LogNormalPdf(m, xHours, mu, SIGMA);
      var xUnit := FromHours(xHours, u);
      assert xHours == XHours(m, medianHours, i);
      assert Point(xUnit, y) == PointAt(m, medianHours, u, i);
      points := points + [Point(xUnit, y)];
    }
  }

  /** Two samples lie apart by their index distance times the step
      (MaxX - StartX) / (NUM_POINTS - 1). */
  lemma Spacing(m: Math, medianHours: real, i: nat, j: nat)
    ensures XHours(m, medianHours, j) - XHours(m, medianHours, i)
         == (MaxX(m, medianHours) - StartX(medianHours)) * ((j - i) as real / (NUM_POINTS - 1) as real)
  {
    var s, d, n := StartX(medianHours), MaxX(m, medianHours) - StartX(medianHours), (NUM_POINTS - 1) as real;
    calc {
      XHours(m, medianHours, j) - XHours(m, medianHours, i);
      (s + d * (j as real / n)) - (s + d * (i as real / n));
      d * (j as real / n) - d * (i as real / n);
      { assert j as real / n - i as real / n == (j - i) as real / n; }
      d * ((j - i) as real / n);
    }
  }

  /** Consecutive samples are evenly spaced. */
  lemma EvenSpacing(m: Math, medianHours: real, i: nat)
    requires i + 1 < NUM_POINTS
    ensures XHours(m, medianHours, i + 1) - XHours(m, medianHours, i)
         == (MaxX(m, medianHours) - StartX(medianHours)) / (NUM_POINTS - 1) as real
  {
    Spacing(m, medianHours, i, i + 1);
  }

  /** Every sample is a weighted average of StartX and MaxX, both positive,
      so every sample is positive. */
  lemma SamplePositive(m: Math, medianHours: real, i: nat)
    requires Sound(m)
    requires medianHours > 0.0
    requires i < NUM_POINTS
    ensures XHours(m, medianHours, i) > 0.0
  {
    var s, mx := StartX(medianHours), MaxX(m, medianHours);
    var t := i as real / (NUM_POINTS - 1) as real;
    assert 0.0 <= t <= 1.0;
    assert mx > 0.0;
    // XHours is the convex combination (1 - t) * s + t * mx of two positives.
    assert XHours(m, medianHours, i) == (1.0 - t) * s + t * mx;
    assert (1.0 - t) * s >= 0.0;
    assert t * mx >= 0.0;
    if t == 0.0 {
      assert (1.0 - t) * s == s;
    } else {
      assert t * mx > 0.0;
    }
  }

  /** Every point of the plot has a positive x and a positive density: the
      zero branch of the density is never taken on the curve. */
  lemma PointsPositive(m: Math, medianHours: real, u: Unit)
    requires Sound(m)
    requires medianHours > 0.0
    ensures forall i :: 0 <= i < NUM_POINTS ==>
      PointAt(m, medianHours, u, i).x > 0.0 && PointAt(m, medianHours, u, i).y > 0.0
  {
    forall i | 0 <= i < NUM_POINTS
      ensures PointAt(m, medianHours, u, i).x > 0.0 && PointAt(m, medianHours, u, i).y > 0.0
    {
      SamplePositive(m, medianHours, i);
    }
  }

  /** The samples in hours are strictly increasing exactly when MaxX lies
      above StartX, and strictly decreasing exactly when it lies below. */
  lemma HoursOrderFollowsRange(m: Math, medianHours: real, i: nat, j: nat)
    requires i < j
    ensures XHours(m, medianHours, i) < XHours(m, medianHours, j)
        <==> MaxX(m, medianHours) > StartX(medianHours)
    ensures XHours(m, medianHours, i) > XHours(m, medianHours, j)
        <==> MaxX(m, medianHours) < StartX(medianHours)
  {
    Spacing(m, medianHours, i, j);
    var d := MaxX(m, medianHours) - StartX(medianHours);
    var f := (j - i) as real / (NUM_POINTS - 1) as real;
    var gap := XHours(m, medianHours, j) - XHours(m, medianHours, i);
    assert gap == d * f;
    assert f > 0.0;
    ProductSign(d, f);
  }

  /** Multiplying by a positive factor keeps the sign. */
  lemma ProductSign(d: real, f: real)
    requires f > 0.0
    ensures d * f > 0.0 <==> d > 0.0
    ensures d * f < 0.0 <==> d < 0.0
  {
    if d > 0.0 {
      assert d * f > 0.0;
    } else if d < 0.0 {
      assert d * f < 0.0;
    } else {
      assert d * f == 0.0;
    }
  }

  /** The plotted x values keep that order in every display unit. */
  lemma PointOrderFollowsRange(m: Math, medianHours: real, u: Unit, i: nat, j: nat)
    requires Sound(m)
    requires medianHours > 0.0
    requires i < j
    ensures PointAt(m, medianHours, u, i).x < PointAt(m, medianHours, u, j).x
        <==> MaxX(m, medianHours) > StartX(medianHours)
    ensures PointAt(m, medianHours, u, i).x > PointAt(m, medianHours, u, j).x
        <==> MaxX(m, medianHours) < StartX(medianHours)
  {
    HoursOrderFollowsRange(m, medianHours, i, j);
    FromHoursMonotone(XHours(m, medianHours, i), XHours(m, medianHours, j), u);
    FromHoursMonotone(XHours(m, medianHours, j), XHours(m, medianHours, i), u);
  }

  /** MaxX lies above StartX exactly when median * exp(SIGMA * Z_99)
      exceeds 0.01 hours. */
  lemma RangeNonEmptyIff(m: Math, medianHours: real)
    requires Sound(m)
    requires medianHours > 0.0
    ensures MaxX(m, medianHours) > StartX(medianHours) <==> MaxX(m, medianHours) > 0.01
  {
    assert MaxX(m, medianHours) > medianHours > medianHours * 0.001;
  }

  /** A median small enough that median * exp(SIGMA * Z_99) stays below
      0.01 hours exists, and for it the plotted x values decrease. */
  lemma TinyMedianReversesCurve(m: Math, u: Unit)
    requires Sound(m)
    ensures var k := m.exp(SIGMA * Z_99);
            var tiny := 0.005 / k;
            && tiny > 0.0
            && MaxX(m, tiny) < StartX(tiny)
            && PointAt(m, tiny, u, 0).x > PointAt(m, tiny, u, NUM_POINTS - 1).x
  {
    var k := m.exp(SIGMA * Z_99);
    var tiny := 0.005 / k;
    assert k > 1.0;
    assert tiny * k == 0.005;
    assert MaxX(m, tiny) == 0.005;
    assert StartX(tiny) == 0.01 by {
      assert tiny < 0.005;
    }
    PointOrderFollowsRange(m, tiny, u, 0, NUM_POINTS - 1);
  }
}
