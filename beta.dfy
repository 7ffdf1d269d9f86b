/** The beta distribution on [0, 1] with shapes α and β (distributions/beta.py). */
module Beta {
  import opened Base

  /** The slider ranges get_params offers for the two shapes. */
  predicate InRange(a: real, b: real)
  {
    0.1 <= a <= 10.0 && 0.1 <= b <= 10.0
  }

  /** generate_data: by default 500 points on [0, 1], the support. */
  function GenerateData(a: real, b: real, xRange: Option<seq<real>>, lib: Numerics): (r: Curve)
    ensures EvaluatedOn(r, BetaParams(a, b), lib) && r.kind == PDF
    ensures xRange.Some? ==> r.x == xRange.value
    ensures xRange.None? ==> |r.x| == Points && r.x[0] == 0.0 && r.x[Points - 1] == 1.0
    ensures xRange.None? ==> Ascending(r.x)
  {
    Evaluate(ContinuousDomain(xRange, 0.0, 1.0), BetaParams(a, b), PDF, lib)
  }

  /** The closed-form variance αβ / ((α + β)² (α + β + 1)). */
  function Variance(a: real, b: real): real
    requires a + b != 0.0 && a + b + 1.0 != 0.0
  {
    var s := a + b;
    DenominatorNonZero(s);
    (a * b) / (Sq(s) * (s + 1.0))
  }

  lemma DenominatorNonZero(s: real)
    requires s != 0.0 && s + 1.0 != 0.0
    ensures Sq(s) * (s + 1.0) != 0.0
  {
    SqSign(s);
    NonZeroProduct(Sq(s), s + 1.0);
  }

  /** calculate_stats. The mean and variance are Python divisions, which raise on a zero divisor;
      the skewness divides by a numpy value. The kurtosis is the "Complex" sentinel. */
  function CalculateStats(a: real, b: real, lib: Numerics): (r: Stats)
    requires a + b != 0.0 && a + b + 1.0 != 0.0
    ensures r.mean.Num? && r.mean.value * (a + b) == a
    ensures a > 0.0 && b > 0.0 ==> 0.0 < r.mean.value < 1.0
    ensures r.variance == Num(Variance(a, b))
    ensures r.sd == Num(lib.sqrt(r.variance.value))
    ensures r.skewness == NpDivide(2.0 * (b - a) * lib.sqrt(a + b + 1.0), (a + b + 2.0) * lib.sqrt(a * b))
    ensures r.kurtosis == Complex
  {
    var m := a / (a + b);
    assert m * (a + b) == a;
    Stats(Num(m),
          Num(Variance(a, b)),
          Num(lib.sqrt(Variance(a, b))),
          NpDivide(2.0 * (b - a) * lib.sqrt(a + b + 1.0), (a + b + 2.0) * lib.sqrt(a * b)),
          Complex)
  }

  /** For shapes the sliders offer and a lawful sqrt: the variance is positive, the sd is
      its square root, and the skewness is a number; only the kurtosis is a sentinel. */
  lemma Moments(a: real, b: real, lib: Numerics)
    requires InRange(a, b) && LawfulSqrt(lib)
    ensures var r := CalculateStats(a, b, lib);
            && r.mean.Num? && r.variance.Num? && r.sd.Num? && r.skewness.Num? && !r.kurtosis.Num?
            && r.variance.value > 0.0
            && r.sd.value >= 0.0 && r.sd.value * r.sd.value == r.variance.value
  {
    var s := a + b;
    SqSign(s);
    ProductPositive(Sq(s), s + 1.0);
    assert a * b > 0.0;
    assert Variance(a, b) > 0.0;
    var q := lib.sqrt(a * b);
    assert q * q == a * b;
    assert q != 0.0;
    assert (s + 2.0) * q != 0.0 by {
      assert q > 0.0;
      assert (s + 2.0) * q > 0.0;
    }
  }

  /** get_default_comp_params: the symmetric beta(2, 2). */
  function DefaultCompParams(): (r: Params)
    ensures r.BetaParams? && InRange(r.a, r.b) && r.a == 2.0 && r.b == 2.0
  {
    BetaParams(2.0, 2.0)
  }
}
