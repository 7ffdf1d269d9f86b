/** The chi-square distribution with df degrees of freedom (distributions/chi_square.py). */
module ChiSquare {
  import opened Base

  /** The slider range get_params offers for the degrees of freedom. */
  predicate InRange(df: int)
  {
    1 <= df <= 30
  }

  /** generate_data: by default 500 points from 0 to max(30, 3 df). */
  function GenerateData(df: int, xRange: Option<seq<real>>, lib: Numerics): (r: Curve)
    ensures EvaluatedOn(r, ChiSquareParams(df), lib) && r.kind == PDF
    ensures xRange.Some? ==> r.x == xRange.value
    ensures xRange.None? ==> |r.x| == Points && r.x[0] == 0.0
    ensures xRange.None? ==> r.x[Points - 1] >= 30.0 && r.x[Points - 1] >= 3.0 * df as real
    ensures xRange.None? ==> r.x[Points - 1] == 30.0 || r.x[Points - 1] == 3.0 * df as real
    ensures xRange.None? ==> Ascending(r.x)
  {
    var hi := if 30 >= 3 * df then 30 else 3 * df;
    Evaluate(ContinuousDomain(xRange, 0.0, hi as real), ChiSquareParams(df), PDF, lib)
  }

  /** calculate_stats. The divisions by df are Python divisions, so df = 0 would raise. */
  function CalculateStats(df: int, lib: Numerics): (r: Stats)
    requires df != 0
    ensures r.mean == Num(df as real) && r.variance == Num(2.0 * df as real)
    ensures r.sd == Num(lib.sqrt(r.variance.value))
    ensures r.skewness == Num(lib.sqrt(8.0 / df as real))
    ensures r.kurtosis.Num? && (r.kurtosis.value - 3.0) * df as real == 12.0
    ensures df > 0 ==> r.kurtosis.value > 3.0
  {
    Stats(Num(df as real),
          Num(2.0 * df as real),
          Num(lib.sqrt(2.0 * df as real)),
          Num(lib.sqrt(8.0 / df as real)),
          Num(12.0 / df as real + 3.0))
  }

  /** With a lawful sqrt, every statistic is a number and the sd is the square root of
      the positive variance 2 df. */
  lemma Moments(df: int, lib: Numerics)
    requires InRange(df) && LawfulSqrt(lib)
    ensures var r := CalculateStats(df, lib);
            && AllNumeric(r) && r.variance.value > 0.0
            && r.sd.value >= 0.0 && r.sd.value * r.sd.value == r.variance.value
  {
  }

  /** get_default_comp_params: three degrees of freedom. */
  function DefaultCompParams(): (r: Params)
    ensures r.ChiSquareParams? && InRange(r.df) && r.df == 3
  {
    ChiSquareParams(3)
  }
}
