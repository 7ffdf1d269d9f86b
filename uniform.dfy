/** The continuous uniform distribution on [low, high] (distributions/uniform.py). */
module Uniform {
  import opened Base

  /** The slider ranges get_params offers, together with the check it makes. */
  predicate InRange(low: real, high: real)
  {
    -10.0 <= low <= 10.0 && -10.0 <= high <= 10.0 && low < high
  }

  /** The message get_params shows before stopping the page. */
  const BoundsError := "❌ Lower bound must be less than upper bound!"

  /** get_params after the two sliders: a pair with low >= high stops the page with an error. */
  function GetParams(low: real, high: real): (r: Result<Params, string>)
    ensures r.Success? <==> low < high
    ensures r.Success? ==> r.value == UniformParams(low, high) && r.value.low < r.value.high
    ensures r.Failure? ==> r.error == BoundsError
  {
    if low >= high then Failure(BoundsError) else Success(UniformParams(low, high))
  }

  /** generate_data: by default 500 points from low - 1 to high + 1, strictly around [low, high]. */
  function GenerateData(low: real, high: real, xRange: Option<seq<real>>, lib: Numerics): (r: Curve)
    ensures EvaluatedOn(r, UniformParams(low, high), lib) && r.kind == PDF
    ensures xRange.Some? ==> r.x == xRange.value
    ensures xRange.None? ==> |r.x| == Points && r.x[0] == low - 1.0 && r.x[Points - 1] == high + 1.0
    ensures xRange.None? ==> r.x[0] < low && high < r.x[Points - 1]
    ensures xRange.None? && low < high ==> Ascending(r.x)
  {
    Evaluate(ContinuousDomain(xRange, low - 1.0, high + 1.0), UniformParams(low, high), PDF, lib)
  }

  /** calculate_stats: the midpoint, the squared width over 12, and the fixed shape of a uniform. */
  function CalculateStats(low: real, high: real, lib: Numerics): (r: Stats)
    ensures r.mean.Num? && r.mean.value - low == high - r.mean.value
    ensures r.variance.Num? && 12.0 * r.variance.value == Sq(high - low)
    ensures r.sd == NpDivide(high - low, lib.sqrt(12.0))
    ensures r.skewness == Num(0.0) && r.kurtosis == Num(9.0 / 5.0)
  {
    Stats(Num((low + high) / 2.0),
          Num(Sq(high - low) / 12.0),
          NpDivide(high - low, lib.sqrt(12.0)),
          Num(0.0),
          Num(9.0 / 5.0))
  }

  /** With a lawful sqrt, every statistic is a number, the sd is the positive square root
      of the variance, and the variance is positive for the pairs get_params lets through. */
  lemma Moments(low: real, high: real, lib: Numerics)
    requires InRange(low, high) && LawfulSqrt(lib)
    ensures var r := CalculateStats(low, high, lib);
            && AllNumeric(r) && r.variance.value > 0.0
            && r.sd.value > 0.0 && r.sd.value * r.sd.value == r.variance.value
  {
    var s := lib.sqrt(12.0);
    assert s >= 0.0 && s * s == 12.0;
    var w := high - low;
    var sd := w / s;
    assert sd * s == w;
    assert sd * sd * 12.0 == w * w by {
      assert sd * sd * (s * s) == (sd * s) * (sd * s);
    }
    SqSign(w);
  }

  /** get_default_comp_params: the uniform on [-2, 2]. */
  function DefaultCompParams(): (r: Params)
    ensures r.UniformParams? && InRange(r.low, r.high)
    ensures r.low == -2.0 && r.high == 2.0
  {
    UniformParams(-2.0, 2.0)
  }
}
