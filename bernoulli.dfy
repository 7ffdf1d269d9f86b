/** The Bernoulli distribution with success probability p (distributions/bernoulli.py). */
module Bernoulli {
  import opened Base

  /** The slider range get_params offers for p; both ends are included. */
  predicate InRange(p: real)
  {
    0.0 <= p <= 1.0
  }

  /** generate_data: the support [0, 1]; a supplied domain is ignored. */
  function GenerateData(p: real, xRange: Option<seq<real>>, lib: Numerics): (r: Curve)
    ensures EvaluatedOn(r, BernoulliParams(p), lib) && r.kind == PMF
    ensures r.x == [0.0, 1.0]
  {
    Evaluate([0.0, 1.0], BernoulliParams(p), PMF, lib)
  }

  /** calculate_stats. The kurtosis divides the plain float p(1 - p), so the whole call
      raises ZeroDivisionError exactly when p(1 - p) = 0, that is at p = 0 and p = 1.
      Otherwise the mean is p and the variance p(1 - p), never above 1/4. */
  function CalculateStats(p: real, lib: Numerics): (r: Result<Stats, StatsError>)
    ensures r.Failure? <==> p == 0.0 || p == 1.0
    ensures r.Success? ==> r.value.mean == Num(p) && r.value.variance == Num(p * (1.0 - p))
    ensures r.Success? ==> r.value.variance.value <= 0.25
    ensures r.Success? ==> r.value.sd == Num(lib.sqrt(r.value.variance.value))
    ensures r.Success? ==> r.value.skewness == NpDivide(1.0 - 2.0 * p, lib.sqrt(p * (1.0 - p)))
    ensures r.Success? ==> r.value.kurtosis.Num?
    ensures r.Success? ==> (r.value.kurtosis.value - 3.0) * (p * (1.0 - p)) == 1.0 - 6.0 * p * (1.0 - p)
  {
    var q := p * (1.0 - p);
    assert q == 0.0 <==> p == 0.0 || p == 1.0 by {
      if p != 0.0 && p != 1.0 {
        NonZeroProduct(p, 1.0 - p);
      }
    }
    assert q <= 0.25 by {
      SqSign(p - 0.5);
      assert 0.25 - q == Sq(p - 0.5);
    }
    if q == 0.0 then Failure(ZeroDivision)
    else
      Success(Stats(Num(p), Num(q), Num(lib.sqrt(q)),
                    NpDivide(1.0 - 2.0 * p, lib.sqrt(q)),
                    Num((1.0 - 6.0 * p * (1.0 - p)) / q + 3.0)))
  }

  /** When the statistics exist and sqrt is lawful: every statistic is a number, the
      variance is positive, the sd is its square root, and the kurtosis is at least 1. */
  lemma Moments(p: real, lib: Numerics)
    requires InRange(p) && LawfulSqrt(lib)
    ensures var r := CalculateStats(p, lib);
            r.Success? ==>
              && AllNumeric(r.value) && r.value.variance.value > 0.0
              && r.value.sd.value >= 0.0 && r.value.sd.value * r.value.sd.value == r.value.variance.value
              && r.value.kurtosis.value >= 1.0
  {
    var r := CalculateStats(p, lib);
    if r.Success? {
      var g := 1.0 - p;
      var q := p * g;
      ProductPositive(p, g);
      assert lib.sqrt(q) * lib.sqrt(q) == q;
      assert lib.sqrt(q) != 0.0;
      var k := r.value.kurtosis.value;
      assert (k - 3.0) * q == 1.0 - 6.0 * q;
      assert (k - 1.0) * q == 1.0 - 4.0 * q;
      NonNegativeFactor(k - 1.0, q);
    }
  }

  /** get_default_comp_params: the fair coin. */
  function DefaultCompParams(): (r: Params)
    ensures r.BernoulliParams? && InRange(r.p) && r.p == 0.5
  {
    BernoulliParams(0.5)
  }
}
