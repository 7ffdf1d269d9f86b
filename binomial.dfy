/** The binomial distribution of successes in n trials with probability p (distributions/binomial.py). */
module Binomial {
  import opened Base

  /** The slider ranges get_params offers for n and p; both ends of p are included. */
  predicate InRange(n: int, p: real)
  {
    1 <= n <= 100 && 0.0 <= p <= 1.0
  }

  /** generate_data: the support 0, 1, ..., n in ascending order; a supplied domain is ignored. */
  function GenerateData(n: int, p: real, xRange: Option<seq<real>>, lib: Numerics): (r: Curve)
    ensures EvaluatedOn(r, BinomialParams(n, p), lib) && r.kind == PMF
    ensures n >= 0 ==> |r.x| == n + 1
    ensures n < 0 ==> r.x == []
    ensures forall i :: 0 <= i < |r.x| ==> r.x[i] == i as real
    ensures Ascending(r.x)
  {
    Evaluate(Arange(n + 1), BinomialParams(n, p), PMF, lib)
  }

  /** calculate_stats. The kurtosis divides the plain float n p (1 - p), so the whole call
      raises ZeroDivisionError exactly when that product is 0; for n >= 1 that is p = 0 or p = 1.
      Otherwise the mean is n p and the variance n p (1 - p). */
  function CalculateStats(n: int, p: real, lib: Numerics): (r: Result<Stats, StatsError>)
    ensures r.Failure? <==> n == 0 || p == 0.0 || p == 1.0
    ensures r.Success? ==> r.value.mean == Num(n as real * p)
    ensures r.Success? ==> r.value.variance == Num(r.value.mean.value * (1.0 - p))
    ensures r.Success? ==> r.value.sd == Num(lib.sqrt(r.value.variance.value))
    ensures r.Success? ==> r.value.skewness == NpDivide(1.0 - 2.0 * p, lib.sqrt(r.value.variance.value))
    ensures r.Success? ==> r.value.kurtosis.Num?
    ensures r.Success? ==> (r.value.kurtosis.value - 3.0) * r.value.variance.value == 1.0 - 6.0 * p * (1.0 - p)
  {
    var m := n as real * p;
    var v := m * (1.0 - p);
    assert v == 0.0 <==> n == 0 || p == 0.0 || p == 1.0 by {
      if n != 0 && p != 0.0 && p != 1.0 {
        NonZeroProduct(n as real, p);
        NonZeroProduct(m, 1.0 - p);
      }
    }
    if v == 0.0 then Failure(ZeroDivision)
    else
      Success(Stats(Num(m), Num(v), Num(lib.sqrt(v)),
                    NpDivide(1.0 - 2.0 * p, lib.sqrt(v)),
                    Num((1.0 - 6.0 * p * (1.0 - p)) / v + 3.0)))
  }

  /** For p in [0, 1] the variance never exceeds the mean. */
  lemma VarianceAtMostMean(n: int, p: real, lib: Numerics)
    requires InRange(n, p)
    ensures var r := CalculateStats(n, p, lib);
            r.Success? ==> r.value.variance.value <= r.value.mean.value
  {
    var m := n as real * p;
    assert m >= 0.0;
    assert m * (1.0 - p) <= m;
  }

  /** When the statistics exist and sqrt is lawful: every statistic is a number, the
      variance is positive, the sd is its square root, and the kurtosis is at least 1. */
  lemma Moments(n: int, p: real, lib: Numerics)
    requires InRange(n, p) && LawfulSqrt(lib)
    ensures var r := CalculateStats(n, p, lib);
            r.Success? ==>
              && AllNumeric(r.value) && r.value.variance.value > 0.0
              && r.value.sd.value >= 0.0 && r.value.sd.value * r.value.sd.value == r.value.variance.value
              && r.value.kurtosis.value >= 1.0
  {
    var r := CalculateStats(n, p, lib);
    if r.Success? {
      var g := 1.0 - p;
      var q := p * g;
      var nr := n as real;
      var v := r.value.variance.value;
      assert v == nr * q;
      ProductPositive(p, g);
      assert q <= 0.25 by {
        SqSign(p - 0.5);
        assert 0.25 - q == Sq(p - 0.5);
      }
      ProductPositive(nr, q);
      assert lib.sqrt(v) * lib.sqrt(v) == v;
      assert lib.sqrt(v) != 0.0;
      var k := r.value.kurtosis.value;
      assert (k - 3.0) * v == 1.0 - 6.0 * q;
      KurtosisBound(nr, q, k);
    }
  }

  /** (k - 3) n q = 1 - 6 q with n >= 1 and 0 < q <= 1/4 forces k >= 1. */
  lemma KurtosisBound(nr: real, q: real, k: real)
    requires nr >= 1.0 && 0.0 < q <= 0.25
    requires (k - 3.0) * (nr * q) == 1.0 - 6.0 * q
    ensures k >= 1.0
  {
    var v := nr * q;
    assert v > 0.0;
    assert (k - 1.0) * v == (1.0 - 4.0 * q) + q * (2.0 * nr - 2.0);
    assert q * (2.0 * nr - 2.0) >= 0.0;
    NonNegativeFactor(k - 1.0, v);
  }

  /** get_default_comp_params: ten fair trials. */
  function DefaultCompParams(): (r: Params)
    ensures r.BinomialParams? && InRange(r.n, r.p) && r.n == 10 && r.p == 0.5
  {
    BinomialParams(10, 0.5)
  }
}
