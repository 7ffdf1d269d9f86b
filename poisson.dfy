/** The Poisson distribution with rate λ (distributions/poisson.py). */
module Poisson {
  import opened Base

  /** The slider range get_params offers for the rate. */
  predicate InRange(mu: real)
  {
    0.1 <= mu <= 20.0
  }

  /** The length of the support shown: min(30, int(3 mu) + 5). */
  function SupportSize(mu: real): (k: int)
    ensures k <= 30
    ensures mu >= 0.0 ==> 5 <= k
    ensures mu >= 0.0 && k < 30 ==> (k - 5) as real <= 3.0 * mu < (k - 4) as real
    ensures mu >= 0.0 && k == 30 ==> 3.0 * mu >= 25.0
  {
    var t := Trunc(3.0 * mu) + 5;
    if 30 <= t then 30 else t
  }

  /** generate_data: the integers 0, 1, ..., SupportSize(mu) - 1 in ascending order,
      at most 30 of them and at least 5 for mu >= 0; a supplied domain is ignored. */
  function GenerateData(mu: real, xRange: Option<seq<real>>, lib: Numerics): (r: Curve)
    ensures EvaluatedOn(r, PoissonParams(mu), lib) && r.kind == PMF
    ensures |r.x| <= 30
    ensures mu >= 0.0 ==> |r.x| == SupportSize(mu) && |r.x| >= 5
    ensures forall i :: 0 <= i < |r.x| ==> r.x[i] == i as real
    ensures Ascending(r.x)
  {
    Evaluate(Arange(SupportSize(mu)), PoissonParams(mu), PMF, lib)
  }

  /** calculate_stats: mean and variance are both the rate. The division 1 / mu is a Python
      division, so mu = 0 would raise. */
  function CalculateStats(mu: real, lib: Numerics): (r: Stats)
    requires mu != 0.0
    ensures r.mean == Num(mu) && r.variance == r.mean
    ensures r.sd == Num(lib.sqrt(mu))
    ensures r.skewness == NpDivide(1.0, lib.sqrt(mu))
    ensures r.kurtosis.Num? && (r.kurtosis.value - 3.0) * mu == 1.0
    ensures mu > 0.0 ==> r.kurtosis.value > 3.0
  {
    Stats(Num(mu), Num(mu), Num(lib.sqrt(mu)), NpDivide(1.0, lib.sqrt(mu)), Num(1.0 / mu + 3.0))
  }

  /** With a lawful sqrt, every statistic is a number and the sd is the square root of
      the positive variance. */
  lemma Moments(mu: real, lib: Numerics)
    requires InRange(mu) && LawfulSqrt(lib)
    ensures var r := CalculateStats(mu, lib);
            && AllNumeric(r) && r.variance.value > 0.0
            && r.sd.value >= 0.0 && r.sd.value * r.sd.value == r.variance.value
  {
    assert lib.sqrt(mu) * lib.sqrt(mu) == mu;
    assert lib.sqrt(mu) != 0.0;
  }

  /** get_default_comp_params: rate 3. */
  function DefaultCompParams(): (r: Params)
    ensures r.PoissonParams? && InRange(r.mu) && r.mu == 3.0
  {
    PoissonParams(3.0)
  }

  /** The default comparison rate 3 gives the 14-point support 0, ..., 13. */
  lemma DefaultCompSupport(xRange: Option<seq<real>>, lib: Numerics)
    ensures var x := GenerateData(3.0, xRange, lib).x;
            |x| == 14 && x[0] == 0.0 && x[13] == 13.0
  {
    assert Trunc(9.0) == 9;
  }
}
