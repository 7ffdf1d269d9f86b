/** The log-normal distribution whose logarithm is normal with the given mean and sd
    (distributions/log_normal.py). */
module LogNormal {
  import opened Base

  /** The slider ranges get_params offers for the underlying mean and sd. */
  predicate InRange(mean: real, std: real)
  {
    -5.0 <= mean <= 5.0 && 0.1 <= std <= 5.0
  }

  /** generate_data: by default 500 points from 0 to exp(mean + 4 std). */
  function GenerateData(mean: real, std: real, xRange: Option<seq<real>>, lib: Numerics): (r: Curve)
    ensures EvaluatedOn(r, LogNormalParams(mean, std), lib) && r.kind == PDF
    ensures xRange.Some? ==> r.x == xRange.value
    ensures xRange.None? ==> |r.x| == Points && r.x[0] == 0.0 && r.x[Points - 1] == lib.exp(mean + 4.0 * std)
    ensures xRange.None? && lib.exp(mean + 4.0 * std) > 0.0 ==> Ascending(r.x)
  {
    Evaluate(ContinuousDomain(xRange, 0.0, lib.exp(mean + 4.0 * std)), LogNormalParams(mean, std), PDF, lib)
  }

  /** The closed-form variance (exp(σ²) - 1) exp(2μ + σ²). */
  function Variance(mu: real, sigma: real, lib: Numerics): real
  {
    (lib.exp(Sq(sigma)) - 1.0) * lib.exp(2.0 * mu + Sq(sigma))
  }

  /** calculate_stats: all five statistics are numbers, with no sentinel branch;
      the sd is the square root of the very variance reported. */
  function CalculateStats(mu: real, sigma: real, lib: Numerics): (r: Stats)
    ensures AllNumeric(r)
    ensures r.mean.value == lib.exp(mu + Sq(sigma) / 2.0)
    ensures r.variance.value == Variance(mu, sigma, lib)
    ensures r.sd.value == lib.sqrt(r.variance.value)
    ensures r.skewness.value == (lib.exp(Sq(sigma)) + 2.0) * lib.sqrt(lib.exp(Sq(sigma)) - 1.0)
    ensures r.kurtosis.value
         == lib.exp(4.0 * Sq(sigma)) + 2.0 * lib.exp(3.0 * Sq(sigma)) + 3.0 * lib.exp(2.0 * Sq(sigma)) - 3.0
  {
    var s2 := Sq(sigma);
    SqSign(sigma);
    var variance := Variance(mu, sigma, lib);
    Stats(Num(lib.exp(mu + s2 / 2.0)),
          Num(variance),
          Num(lib.sqrt(variance)),
          Num((lib.exp(s2) + 2.0) * lib.sqrt(lib.exp(s2) - 1.0)),
          Num(lib.exp(4.0 * s2) + 2.0 * lib.exp(3.0 * s2) + 3.0 * lib.exp(2.0 * s2) - 3.0))
  }

  /** With a lawful exp the variance is never negative, so its square root is taken
      of a non-negative number, and the kurtosis is at least 3. */
  lemma StatsBounds(mu: real, sigma: real, lib: Numerics)
    requires LawfulExp(lib)
    ensures Variance(mu, sigma, lib) >= 0.0
    ensures CalculateStats(mu, sigma, lib).mean.value > 0.0
    ensures CalculateStats(mu, sigma, lib).kurtosis.value >= 3.0
  {
    var s2 := Sq(sigma);
    SqSign(sigma);
    assert lib.exp(s2) >= 1.0;
    var e := lib.exp(2.0 * mu + s2);
    assert e > 0.0;
    assert (lib.exp(s2) - 1.0) * e >= 0.0;
    assert lib.exp(4.0 * s2) >= 1.0 && lib.exp(3.0 * s2) >= 1.0 && lib.exp(2.0 * s2) >= 1.0;
  }

  /** With a lawful sqrt and exp, for the sd the sliders offer: every statistic is a
      number, the variance is positive and the sd is its square root. */
  lemma Moments(mu: real, sigma: real, lib: Numerics)
    requires InRange(mu, sigma) && LawfulSqrt(lib) && LawfulExp(lib)
    ensures var r := CalculateStats(mu, sigma, lib);
            && AllNumeric(r) && r.variance.value > 0.0
            && r.sd.value >= 0.0 && r.sd.value * r.sd.value == r.variance.value
  {
    var s2 := Sq(sigma);
    SqSign(sigma);
    assert lib.exp(s2) > 1.0;
    var e := lib.exp(2.0 * mu + s2);
    assert e > 0.0;
    ProductPositive(lib.exp(s2) - 1.0, e);
  }

  /** get_default_comp_params: the standard log-normal. */
  function DefaultCompParams(): (r: Params)
    ensures r.LogNormalParams? && InRange(r.mean, r.std) && r.mean == 0.0 && r.std == 1.0
  {
    LogNormalParams(0.0, 1.0)
  }
}
