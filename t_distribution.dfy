/** Student's t-distribution with df degrees of freedom (distributions/t_distribution.py). */
module TDistribution {
  import opened Base

  /** The slider range get_params offers for the degrees of freedom. */
  predicate InRange(df: int)
  {
    1 <= df <= 30
  }

  /** generate_data: by default 500 points on the fixed range [-5, 5], whatever df is. */
  function GenerateData(df: int, xRange: Option<seq<real>>, lib: Numerics): (r: Curve)
    ensures EvaluatedOn(r, TParams(df), lib) && r.kind == PDF
    ensures xRange.Some? ==> r.x == xRange.value
    ensures xRange.None? ==> |r.x| == Points && r.x[0] == -5.0 && r.x[Points - 1] == 5.0
    ensures xRange.None? ==> Ascending(r.x)
  {
    Evaluate(ContinuousDomain(xRange, -5.0, 5.0), TParams(df), PDF, lib)
  }

  /** calculate_stats: each moment is a number exactly when df exceeds its threshold
      (1, 2, 3, 4 for the first four moments) and the "∞" sentinel otherwise; no
      division by zero can happen. The standard deviation is always "Complex". */
  function CalculateStats(df: int): (r: Stats)
    ensures r.mean.Num? <==> df > 1
    ensures r.mean.Num? ==> r.mean.value == 0.0
    ensures r.variance.Num? <==> df > 2
    ensures r.variance.Num? ==> r.variance.value * (df - 2) as real == df as real && r.variance.value > 1.0
    ensures r.sd == Complex
    ensures r.skewness.Num? <==> df > 3
    ensures r.skewness.Num? ==> r.skewness.value == 0.0
    ensures r.kurtosis.Num? <==> df > 4
    ensures r.kurtosis.Num? ==> (r.kurtosis.value - 3.0) * (df - 4) as real == 6.0 && r.kurtosis.value > 3.0
    ensures r.mean.Num? || r.mean == Infinite
    ensures r.variance.Num? || r.variance == Infinite
    ensures r.skewness.Num? || r.skewness == Infinite
    ensures r.kurtosis.Num? || r.kurtosis == Infinite
  {
    var mean := if df > 1 then Num(0.0) else Infinite;
    var variance := if df > 2 then Num(df as real / (df - 2) as real) else Infinite;
    var skewness := if df > 3 then Num(0.0) else Infinite;
    var kurtosis := if df > 4 then Num(6.0 / (df - 4) as real + 3.0) else Infinite;
    Stats(mean, variance, Complex, skewness, kurtosis)
  }

  /** get_default_comp_params: five degrees of freedom. */
  function DefaultCompParams(): (r: Params)
    ensures r.TParams? && InRange(r.df) && r.df == 5
  {
    TParams(5)
  }
}
