/** The gamma distribution with shape k and scale θ (distributions/gamma.py). */
module Gamma {
  import opened Base

  /** The slider ranges get_params offers for the shape and the scale. */
  predicate InRange(shape: real, scale: real)
  {
    0.1 <= shape <= 10.0 && 0.1 <= scale <= 5.0
  }

  /** generate_data: by default 500 points on the fixed range [0, 20], whatever the parameters. */
  function GenerateData(shape: real, scale: real, xRange: Option<seq<real>>, lib: Numerics): (r: Curve)
    ensures EvaluatedOn(r, GammaParams(shape, scale), lib) && r.kind == PDF
    ensures xRange.Some? ==> r.x == xRange.value
    ensures xRange.None? ==> |r.x| == Points && r.x[0] == 0.0 && r.x[Points - 1] == 20.0
    ensures xRange.None? ==> Ascending(r.x)
  {
    Evaluate(ContinuousDomain(xRange, 0.0, 20.0), GammaParams(shape, scale), PDF, lib)
  }

  /** calculate_stats. The division 6 / shape is a Python division, so shape = 0 would raise. */
  function CalculateStats(shape: real, scale: real, lib: Numerics): (r: Stats)
    requires shape != 0.0
    ensures r.mean.Num? && r.mean.value == shape * scale
    ensures r.variance.Num? && r.variance.value == r.mean.value * scale
    ensures r.sd == Num(lib.sqrt(shape) * scale)
    ensures r.skewness == NpDivide(2.0, lib.sqrt(shape))
    ensures r.kurtosis.Num? && (r.kurtosis.value - 3.0) * shape == 6.0
    ensures shape > 0.0 ==> r.kurtosis.value > 3.0
  {
    Stats(Num(shape * scale),
          Num(shape * Sq(scale)),
          Num(lib.sqrt(shape) * scale),
          NpDivide(2.0, lib.sqrt(shape)),
          Num(6.0 / shape + 3.0))
  }

  /** With a lawful sqrt, every statistic is a number and sqrt(shape) scale is the
      positive square root of the positive variance shape scale². */
  lemma Moments(shape: real, scale: real, lib: Numerics)
    requires InRange(shape, scale) && LawfulSqrt(lib)
    ensures var r := CalculateStats(shape, scale, lib);
            && AllNumeric(r) && r.variance.value > 0.0
            && r.sd.value > 0.0 && r.sd.value * r.sd.value == r.variance.value
  {
    var s := lib.sqrt(shape);
    assert s >= 0.0 && s * s == shape;
    assert s != 0.0;
    assert s * scale > 0.0;
    assert (s * scale) * (s * scale) == (s * s) * (scale * scale);
    assert shape * scale > 0.0;
  }

  /** get_default_comp_params: shape 2, unit scale. */
  function DefaultCompParams(): (r: Params)
    ensures r.GammaParams? && InRange(r.shape, r.scale) && r.shape == 2.0 && r.scale == 1.0
  {
    GammaParams(2.0, 1.0)
  }

  /** The fixed default domain does not always reach the mean: shape 10 and scale 5,
      both offered by the sliders, put the mean at 50, beyond the domain's end at 20. */
  lemma MeanCanLieBeyondDomain(lib: Numerics)
    ensures InRange(10.0, 5.0)
    ensures CalculateStats(10.0, 5.0, lib).mean.value > GenerateData(10.0, 5.0, None, lib).x[Points - 1]
  {
  }
}
