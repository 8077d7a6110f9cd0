/** The log-normal probability density: ln(T) ~ N(mu, sigma^2). */
module Density {
  import opened JsMath

  /** Shape of the distribution: sigma of the underlying normal. */
  const SIGMA: real := 1.0

  /** z-score of the 99th percentile of the standard normal distribution. */
  const Z_99: real := 2.32635

  /** Density of the log-normal distribution at `x` hours, where `mu` is the
      logarithm of the median. Zero at and below zero, where the logarithm
      is not taken; positive everywhere else. */
  function LogNormalPdf(m: Math, x: real, mu: real, sigma: real): (y: real)
    requires Sound(m)
    requires sigma > 0.0
    ensures x <= 0.0 ==> y == 0.0
    ensures x > 0.0 ==> y > 0.0
    ensures y >= 0.0
  {
    if x <= 0.0 then 0.0
    else
      var root := m.sqrt(2.0 * m.pi);
      var scale := x * sigma * root;
      assert scale > 0.0 by {
        assert x * sigma > 0.0;
      }
      var term1 := 1.0 / scale;
      var d := m.log(x) - mu;
      var term2 := m.exp(-(d * d) / (2.0 * (sigma * sigma)));
      term1 * term2
  }
}
