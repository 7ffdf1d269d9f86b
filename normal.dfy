/** The normal distribution (distributions/normal.py). */
module Normal {
  import opened Base

  /** The slider ranges get_params offers for the mean and the standard deviation. */
  predicate InRange(mean: real, std: real)
  {
    -10.0 <= mean <= 10.0 && 0.1 <= std <= 5.0
  }

  /** generate_data: by default 500 points from mean - 4 std to mean + 4 std. */
  function GenerateData(mean: real, std: real, xRange: Option<seq<real>>, lib: Numerics): (r: Curve)
    ensures EvaluatedOn(r, NormalParams(mean, std), lib) && r.kind == PDF
    ensures xRange.Some? ==> r.x == xRange.value
    ensures xRange.None? ==> |r.x| == Points && r.x[0] == mean - 4.0 * std && r.x[Points - 1] == mean + 4.0 * std
    ensures xRange.None? ==> forall i :: 0 <= i < Points ==> r.x[i] - mean == -(r.x[Points - 1 - i] - mean)
    ensures xRange.None? && std > 0.0 ==> Ascending(r.x)
  {
    LinspaceSymmetric(mean - 4.0 * std, mean + 4.0 * std);
    Evaluate(ContinuousDomain(xRange, mean - 4.0 * std, mean + 4.0 * std), NormalParams(mean, std), PDF, lib)
  }

  /** calculate_stats: the mean and sd are the parameters, the shape is that of every normal. */
  function CalculateStats(mean: real, std: real): (r: Stats)
    ensures AllNumeric(r)
    ensures r.mean.value == mean && r.sd.value == std
    ensures r.variance.value == r.sd.value * r.sd.value
    ensures r.skewness.value == 0.0 && r.kurtosis.value == 3.0
  {
    Stats(Num(mean), Num(Sq(std)), Num(std), Num(0.0), Num(3.0))
  }

  /** get_default_comp_params: the standard normal. */
  function DefaultCompParams(): (r: Params)
    ensures r.NormalParams? && InRange(r.mean, r.std)
    ensures r.mean == 0.0 && r.std == 1.0
  {
    NormalParams(0.0, 1.0)
  }
}
