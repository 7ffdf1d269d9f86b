/** Snedecor's F-distribution with dfn and dfd degrees of freedom (distributions/f_distribution.py). */
module FDistribution {
  import opened Base

  /** The slider ranges get_params offers for the two degrees of freedom. */
  predicate InRange(dfn: int, dfd: int)
  {
    1 <= dfn <= 50 && 1 <= dfd <= 50
  }

  /** generate_data: by default 500 points on the fixed range [0, 5], whatever dfn and dfd are. */
  function GenerateData(dfn: int, dfd: int, xRange: Option<seq<real>>, lib: Numerics): (r: Curve)
    ensures EvaluatedOn(r, FParams(dfn, dfd), lib) && r.kind == PDF
    ensures xRange.Some? ==> r.x == xRange.value
    ensures xRange.None? ==> |r.x| == Points && r.x[0] == 0.0 && r.x[Points - 1] == 5.0
    ensures xRange.None? ==> Ascending(r.x)
  {
    Evaluate(ContinuousDomain(xRange, 0.0, 5.0), FParams(dfn, dfd), PDF, lib)
  }

  /** The closed-form variance 2 dfd² (dfn + dfd - 2) / (dfn (dfd - 2)² (dfd - 4)). */
  function Variance(dfn: int, dfd: int): real
    requires dfd > 4 && dfn != 0
  {
    var n := dfn as real;
    var d := dfd as real;
    SqSign(d - 2.0);
    ProductPositive(Sq(d - 2.0), d - 4.0);
    NonZeroProduct(n, Sq(d - 2.0) * (d - 4.0));
    (2.0 * Sq(d) * (n + d - 2.0)) / (n * (Sq(d - 2.0) * (d - 4.0)))
  }

  /** The closed-form mean dfd / (dfd - 2). */
  function Mean(dfd: int): real
    requires dfd > 2
  {
    dfd as real / (dfd - 2) as real
  }

  /** The mean undoes the division by dfd - 2 and exceeds 1. */
  lemma MeanBounds(dfd: int)
    requires dfd > 2
    ensures Mean(dfd) * (dfd - 2) as real == dfd as real && Mean(dfd) > 1.0
  {
    var d := (dfd - 2) as real;
    var m := Mean(dfd);
    assert m * d == dfd as real;
    assert (m - 1.0) * d == 2.0;
  }

  /** calculate_stats: the mean is a number exactly when dfd > 2 and the variance exactly
      when dfd > 4, the "∞" sentinel otherwise; the higher statistics are always "Complex".
      The variance divides by dfn as a Python division, so dfn = 0 would raise. */
  function CalculateStats(dfn: int, dfd: int): (r: Stats)
    requires dfd > 4 ==> dfn != 0
    ensures r.mean.Num? <==> dfd > 2
    ensures r.mean.Num? ==> r.mean.value * (dfd - 2) as real == dfd as real && r.mean.value > 1.0
    ensures !r.mean.Num? ==> r.mean == Infinite
    ensures r.variance.Num? <==> dfd > 4
    ensures r.variance.Num? ==> r.variance.value == Variance(dfn, dfd)
    ensures !r.variance.Num? ==> r.variance == Infinite
    ensures r.sd == Complex && r.skewness == Complex && r.kurtosis == Complex
  {
    var mean := if dfd > 2 then MeanBounds(dfd); Num(Mean(dfd)) else Infinite;
    var variance := if dfd > 4 then Num(Variance(dfn, dfd)) else Infinite;
    Stats(mean, variance, Complex, Complex, Complex)
  }

  /** The variance is positive for every dfn >= 1 and dfd > 4. */
  lemma VariancePositive(dfn: int, dfd: int)
    requires dfn >= 1 && dfd > 4
    ensures Variance(dfn, dfd) > 0.0
  {
    var n := dfn as real;
    var d := dfd as real;
    var num := 2.0 * Sq(d) * (n + d - 2.0);
    var den := n * (Sq(d - 2.0) * (d - 4.0));
    SqSign(d);
    ProductPositive(2.0 * Sq(d), n + d - 2.0);
    SqSign(d - 2.0);
    ProductPositive(Sq(d - 2.0), d - 4.0);
    ProductPositive(n, Sq(d - 2.0) * (d - 4.0));
    assert Variance(dfn, dfd) == num / den;
  }

  /** The mean depends on dfd alone. */
  lemma MeanIgnoresDfn(dfn1: int, dfn2: int, dfd: int)
    requires dfd > 4 ==> dfn1 != 0 && dfn2 != 0
    ensures CalculateStats(dfn1, dfd).mean == CalculateStats(dfn2, dfd).mean
  {
  }

  /** get_default_comp_params: dfn = 3, dfd = 5, for which both mean and variance are numbers. */
  function DefaultCompParams(): (r: Params)
    ensures r.FParams? && InRange(r.dfn, r.dfd) && r.dfn == 3 && r.dfd == 5
    ensures CalculateStats(r.dfn, r.dfd).mean.Num? && CalculateStats(r.dfn, r.dfd).variance.Num?
  {
    FParams(3, 5)
  }
}
