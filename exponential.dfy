/** The exponential distribution with scale 1/λ (distributions/exponential.py). */
module Exponential {
  import opened Base

  /** The slider range get_params offers for the scale. */
  predicate InRange(scale: real)
  {
    0.1 <= scale <= 10.0
  }

  /** generate_data: by default 500 points from 0 to 5 scales. */
  function GenerateData(scale: real, xRange: Option<seq<real>>, lib: Numerics): (r: Curve)
    ensures EvaluatedOn(r, ExponentialParams(scale), lib) && r.kind == PDF
    ensures xRange.Some? ==> r.x == xRange.value
    ensures xRange.None? ==> |r.x| == Points && r.x[0] == 0.0 && r.x[Points - 1] == 5.0 * scale
    ensures xRange.None? && scale > 0.0 ==> Ascending(r.x)
  {
    Evaluate(ContinuousDomain(xRange, 0.0, 5.0 * scale), ExponentialParams(scale), PDF, lib)
  }

  /** calculate_stats: mean and sd are the scale; the shape does not depend on it. */
  function CalculateStats(scale: real): (r: Stats)
    ensures AllNumeric(r)
    ensures r.mean.value == scale && r.sd.value == scale
    ensures r.variance.value == r.sd.value * r.sd.value
    ensures r.skewness.value == 2.0 && r.kurtosis.value == 9.0
  {
    Stats(Num(scale), Num(Sq(scale)), Num(scale), Num(2.0), Num(9.0))
  }

  /** get_default_comp_params: unit scale. */
  function DefaultCompParams(): (r: Params)
    ensures r.ExponentialParams? && InRange(r.scale) && r.scale == 1.0
  {
    ExponentialParams(1.0)
  }
}
