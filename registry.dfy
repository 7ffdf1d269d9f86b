/** The variant registry of distributions/__init__.py and the dispatch of the base
    contract (distributions/base.py) to the thirteen registered variants. */
module Distributions {
  import opened Base
  import Normal
  import Uniform
  import Exponential
  import ChiSquare
  import Gamma
  import Beta
  import TDist = TDistribution
  import FDist = FDistribution
  import LogNormal
  import Bernoulli
  import Binomial
  import Poisson

  /** One constructor per class the registry instantiates. */
  datatype Variant =
    | NormalDistribution
    | StandardNormalDistribution
    | ChiSquareDistribution
    | BinomialDistribution
    | BernoulliDistribution
    | UniformDistribution
    | FDistribution
    | TDistribution
    | PoissonDistribution
    | BetaDistribution
    | GammaDistribution
    | ExponentialDistribution
    | LogNormalDistribution

  /** dist_registry: the display names and their variants, in insertion order.
      It is a literal built once; nothing adds or removes entries. */
  const Registry: seq<(string, Variant)> := [
    ("Normal", NormalDistribution),
    ("Standard Normal", StandardNormalDistribution),
    ("Chi-square", ChiSquareDistribution),
    ("Binomial", BinomialDistribution),
    ("Bernoulli", BernoulliDistribution),
    ("Uniform", UniformDistribution),
    ("F-distribution", FDistribution),
    ("t-distribution", TDistribution),
    ("Poisson", PoissonDistribution),
    ("Beta", BetaDistribution),
    ("Gamma", GammaDistribution),
    ("Exponential", ExponentialDistribution),
    ("Log-Normal", LogNormalDistribution)
  ]

  /** The variants whose behaviour this model defines: all but Standard Normal,
      whose module is not part of it. */
  predicate Modelled(v: Variant)
  {
    v != StandardNormalDistribution
  }

  /** The variants with an integer support and a mass function. */
  predicate Discrete(v: Variant)
  {
    v == BinomialDistribution || v == BernoulliDistribution || v == PoissonDistribution
  }

  /** Where the variant sits in the registry. */
  function Position(v: Variant): (i: nat)
    ensures i < |Registry| && Registry[i].1 == v
  {
    match v
    case NormalDistribution => 0
    case StandardNormalDistribution => 1
    case ChiSquareDistribution => 2
    case BinomialDistribution => 3
    case BernoulliDistribution => 4
    case UniformDistribution => 5
    case FDistribution => 6
    case TDistribution => 7
    case PoissonDistribution => 8
    case BetaDistribution => 9
    case GammaDistribution => 10
    case ExponentialDistribution => 11
    case LogNormalDistribution => 12
  }

  /** The display name the registry gives the variant. */
  function NameOf(v: Variant): string
  {
    Registry[Position(v)].0
  }

  /** Thirteen entries with distinct names, each variant registered exactly once. */
  lemma RegistryShape()
    ensures |Registry| == 13
    ensures forall i, j :: 0 <= i < j < |Registry| ==> Registry[i].0 != Registry[j].0
    ensures forall i :: 0 <= i < |Registry| ==> Position(Registry[i].1) == i
  {
  }

  /** The keys of the registry in order: the choices of the distribution selectors. */
  function Names(): (r: seq<string>)
    ensures |r| == |Registry|
    ensures forall i :: 0 <= i < |r| ==> r[i] == NameOf(Registry[i].1)
    ensures forall i, j :: 0 <= i < j < |r| ==> r[i] != r[j]
  {
    RegistryShape();
    seq(|Registry|, i requires 0 <= i < |Registry| => Registry[i].0)
  }

  /** The first entry of entries named name. */
  function Find(entries: seq<(string, Variant)>, name: string): (r: Option<Variant>)
    ensures r.Some? ==> exists i :: 0 <= i < |entries| && entries[i] == (name, r.value)
    ensures r.None? <==> forall i :: 0 <= i < |entries| ==> entries[i].0 != name
  {
    if entries == [] then None
    else if entries[0].0 == name then Some(entries[0].1)
    else
      var r := Find(entries[1..], name);
      assert r.Some? ==> entries[1..][0..] == entries[1..];
      if r.Some? then
        var i :| 0 <= i < |entries[1..]| && entries[1..][i] == (name, r.value);
        assert entries[i + 1] == (name, r.value);
        r
      else
        assert forall i :: 1 <= i < |entries| ==> entries[i] == entries[1..][i - 1];
        r
  }

  /** dist_registry[name]: the variant registered under name, None for a name it does not hold. */
  function Lookup(name: string): (r: Option<Variant>)
    ensures r.Some? <==> name in Names()
    ensures r.Some? ==> NameOf(r.value) == name
  {
    RegistryShape();
    var r := Find(Registry, name);
    assert r.None? ==> name !in Names();
    r
  }

  /** Every variant is found under its own name. */
  lemma LookupNameOf(v: Variant)
    ensures Lookup(NameOf(v)) == Some(v)
  {
    RegistryShape();
    var r := Lookup(NameOf(v));
    assert Names()[Position(v)] == NameOf(v);
    var i :| 0 <= i < |Registry| && Registry[i] == (NameOf(v), r.value);
    assert Registry[i].0 == Registry[Position(v)].0;
  }

  /** A parameter set of the shape the variant's get_params returns. No parameter set
      of this model belongs to Standard Normal. */
  predicate Fits(v: Variant, params: Params)
  {
    match v
    case NormalDistribution => params.NormalParams?
    case StandardNormalDistribution => false
    case ChiSquareDistribution => params.ChiSquareParams?
    case BinomialDistribution => params.BinomialParams?
    case BernoulliDistribution => params.BernoulliParams?
    case UniformDistribution => params.UniformParams?
    case FDistribution => params.FParams?
    case TDistribution => params.TParams?
    case PoissonDistribution => params.PoissonParams?
    case BetaDistribution => params.BetaParams?
    case GammaDistribution => params.GammaParams?
    case ExponentialDistribution => params.ExponentialParams?
    case LogNormalDistribution => params.LogNormalParams?
  }

  /** A parameter set the variant's sliders can produce (for Uniform, one get_params lets through). */
  predicate ValidParams(v: Variant, params: Params)
  {
    Fits(v, params) &&
    match v
    case NormalDistribution => Normal.InRange(params.mean, params.std)
    case StandardNormalDistribution => false
    case ChiSquareDistribution => ChiSquare.InRange(params.df)
    case BinomialDistribution => Binomial.InRange(params.n, params.p)
    case BernoulliDistribution => Bernoulli.InRange(params.p)
    case UniformDistribution => Uniform.InRange(params.low, params.high)
    case FDistribution => FDist.InRange(params.dfn, params.dfd)
    case TDistribution => TDist.InRange(params.df)
    case PoissonDistribution => Poisson.InRange(params.mu)
    case BetaDistribution => Beta.InRange(params.a, params.b)
    case GammaDistribution => Gamma.InRange(params.shape, params.scale)
    case ExponentialDistribution => Exponential.InRange(params.scale)
    case LogNormalDistribution => LogNormal.InRange(params.mean, params.std)
  }

  /** The parameter sets for which calculate_stats performs no plain-float or int division
      by zero other than the ones it reports as ZeroDivision (Bernoulli and Binomial). */
  predicate StatsDefined(v: Variant, params: Params)
  {
    Fits(v, params) &&
    match v
    case ChiSquareDistribution => params.df != 0
    case FDistribution => params.dfd > 4 ==> params.dfn != 0
    case PoissonDistribution => params.mu != 0.0
    case BetaDistribution => params.a + params.b != 0.0 && params.a + params.b + 1.0 != 0.0
    case GammaDistribution => params.shape != 0.0
    case _ => true
  }

  /** Every parameter set the sliders produce can be given to calculate_stats. */
  lemma ValidParamsDefineStats(v: Variant, params: Params)
    requires ValidParams(v, params)
    ensures StatsDefined(v, params)
  {
  }

  /** generate_data(params, x_range): the curve of the variant on its domain. */
  function GenerateData(v: Variant, params: Params, xRange: Option<seq<real>>, lib: Numerics): (r: Curve)
    requires Fits(v, params)
    ensures EvaluatedOn(r, params, lib)
    ensures r.kind == (if Discrete(v) then PMF else PDF)
    ensures !Discrete(v) && xRange.Some? ==> r.x == xRange.value
    ensures !Discrete(v) && xRange.None? ==> |r.x| == Points
    ensures Discrete(v) ==> forall i :: 0 <= i < |r.x| ==> r.x[i] == i as real
  {
    match v
    case NormalDistribution => Normal.GenerateData(params.mean, params.std, xRange, lib)
    case ChiSquareDistribution => ChiSquare.GenerateData(params.df, xRange, lib)
    case BinomialDistribution => Binomial.GenerateData(params.n, params.p, xRange, lib)
    case BernoulliDistribution => Bernoulli.GenerateData(params.p, xRange, lib)
    case UniformDistribution => Uniform.GenerateData(params.low, params.high, xRange, lib)
    case FDistribution => FDist.GenerateData(params.dfn, params.dfd, xRange, lib)
    case TDistribution => TDist.GenerateData(params.df, xRange, lib)
    case PoissonDistribution => Poisson.GenerateData(params.mu, xRange, lib)
    case BetaDistribution => Beta.GenerateData(params.a, params.b, xRange, lib)
    case GammaDistribution => Gamma.GenerateData(params.shape, params.scale, xRange, lib)
    case ExponentialDistribution => Exponential.GenerateData(params.scale, xRange, lib)
    case LogNormalDistribution => LogNormal.GenerateData(params.mean, params.std, xRange, lib)
  }

  /** The discrete variants build their own support whatever domain they are given. */
  lemma DiscreteIgnoresDomain(v: Variant, params: Params, x1: Option<seq<real>>, x2: Option<seq<real>>, lib: Numerics)
    requires Fits(v, params) && Discrete(v)
    ensures GenerateData(v, params, x1, lib) == GenerateData(v, params, x2, lib)
  {
  }

  /** For slider parameters (and a lawful exp, for the log-normal end point) the default
      domain is strictly increasing with at least two points; a discrete one starts at 0. */
  lemma DefaultDomainAscending(v: Variant, params: Params, lib: Numerics)
    requires ValidParams(v, params) && LawfulExp(lib)
    ensures var x := GenerateData(v, params, None, lib).x;
            |x| >= 2 && Ascending(x) && (Discrete(v) ==> x[0] == 0.0)
  {
    var x := GenerateData(v, params, None, lib).x;
    match v
    case NormalDistribution =>
    case ChiSquareDistribution =>
    case BinomialDistribution =>
    case BernoulliDistribution =>
      assert x[0] < x[1];
    case UniformDistribution =>
    case FDistribution =>
    case TDistribution =>
    case PoissonDistribution =>
    case BetaDistribution =>
    case GammaDistribution =>
    case ExponentialDistribution =>
    case LogNormalDistribution =>
  }

  /** get_quantile_dist(params): the frozen distribution the parameters describe for the
      continuous variants, which override it; the base class's None for the discrete ones. */
  function QuantileDist(v: Variant, params: Params): (r: Option<Params>)
    requires Fits(v, params)
    ensures r.Some? <==> !Discrete(v)
    ensures r.Some? ==> r.value == params
  {
    if Discrete(v) then BaseQuantileDist() else Some(params)
  }

  /** A variant offers quantiles exactly when it draws a density. */
  lemma QuantileIffDensity(v: Variant, params: Params, xRange: Option<seq<real>>, lib: Numerics)
    requires Fits(v, params)
    ensures QuantileDist(v, params).Some? <==> GenerateData(v, params, xRange, lib).kind == PDF
  {
  }

  /** get_default_comp_params(): the fixed parameters a variant is drawn with as a
      comparison. Every modelled variant overrides the base class's empty set with
      parameters its own sliders could produce. */
  function DefaultCompParams(v: Variant): (r: Params)
    requires Modelled(v)
    ensures ValidParams(v, r)
    ensures r != BaseDefaultCompParams()
  {
    match v
    case NormalDistribution => Normal.DefaultCompParams()
    case ChiSquareDistribution => ChiSquare.DefaultCompParams()
    case BinomialDistribution => Binomial.DefaultCompParams()
    case BernoulliDistribution => Bernoulli.DefaultCompParams()
    case UniformDistribution => Uniform.DefaultCompParams()
    case FDistribution => FDist.DefaultCompParams()
    case TDistribution => TDist.DefaultCompParams()
    case PoissonDistribution => Poisson.DefaultCompParams()
    case BetaDistribution => Beta.DefaultCompParams()
    case GammaDistribution => Gamma.DefaultCompParams()
    case ExponentialDistribution => Exponential.DefaultCompParams()
    case LogNormalDistribution => LogNormal.DefaultCompParams()
  }

  /** The variants whose results carry a sentinel string in place of a statistic. */
  predicate HasSentinel(v: Variant)
  {
    v == TDistribution || v == FDistribution || v == BetaDistribution
  }

  /** No statistic is the "∞" or "Complex" sentinel. */
  predicate NoSentinel(s: Stats)
  {
    !s.mean.Infinite? && !s.mean.Complex? && !s.variance.Infinite? && !s.variance.Complex?
    && !s.sd.Infinite? && !s.sd.Complex? && !s.skewness.Infinite? && !s.skewness.Complex?
    && !s.kurtosis.Infinite? && !s.kurtosis.Complex?
  }

  /** calculate_stats(params). Only Bernoulli and Binomial can raise, at a degenerate p
      (or n = 0); only t, F and beta ever put a sentinel string in the result. */
  function CalculateStats(v: Variant, params: Params, lib: Numerics): (r: Result<Stats, StatsError>)
    requires StatsDefined(v, params)
    ensures r.Failure? <==>
              || (v == BernoulliDistribution && (params.p == 0.0 || params.p == 1.0))
              || (v == BinomialDistribution && (params.n == 0 || params.p == 0.0 || params.p == 1.0))
    ensures r.Success? && !HasSentinel(v) ==> NoSentinel(r.value)
    ensures r.Success? && (v == TDistribution || v == FDistribution) ==> r.value.sd == Complex
    ensures r.Success? && v == BetaDistribution ==> r.value.kurtosis == Complex
  {
    match v
    case NormalDistribution => Success(Normal.CalculateStats(params.mean, params.std))
    case ChiSquareDistribution => Success(ChiSquare.CalculateStats(params.df, lib))
    case BinomialDistribution => Binomial.CalculateStats(params.n, params.p, lib)
    case BernoulliDistribution => Bernoulli.CalculateStats(params.p, lib)
    case UniformDistribution => Success(Uniform.CalculateStats(params.low, params.high, lib))
    case FDistribution => Success(FDist.CalculateStats(params.dfn, params.dfd))
    case TDistribution => Success(TDist.CalculateStats(params.df))
    case PoissonDistribution => Success(Poisson.CalculateStats(params.mu, lib))
    case BetaDistribution => Success(Beta.CalculateStats(params.a, params.b, lib))
    case GammaDistribution => Success(Gamma.CalculateStats(params.shape, params.scale, lib))
    case ExponentialDistribution => Success(Exponential.CalculateStats(params.scale))
    case LogNormalDistribution => Success(LogNormal.CalculateStats(params.mean, params.std, lib))
  }

  /** The facts each variant's own lemmas establish about its statistics, gathered so the
      lemmas below can each use the part they need. */
  predicate Consistent(v: Variant, s: Stats)
  {
    && (AllNumeric(s) <==> !HasSentinel(v))
    && (s.variance.Num? ==> s.variance.value > 0.0)
    && (s.sd.Num? ==> s.variance.Num? && s.sd.value >= 0.0 && s.sd.value * s.sd.value == s.variance.value)
    && (s.kurtosis.Num? ==> s.kurtosis.value >= 1.0)
  }

  /** For slider parameters and lawful sqrt and exp, whenever the statistics exist:
      all five are numbers exactly for the variants without sentinels; a numeric variance
      is positive; a numeric sd is its non-negative square root; a numeric kurtosis is at
      least 1, as for every distribution. */
  lemma StatsConsistent(v: Variant, params: Params, lib: Numerics)
    requires ValidParams(v, params) && LawfulSqrt(lib) && LawfulExp(lib)
    ensures var r := CalculateStats(v, params, lib);
            r.Success? ==> Consistent(v, r.value)
  {
    match v
    case NormalDistribution => NormalConsistent(params.mean, params.std);
    case ChiSquareDistribution => ChiSquareConsistent(params.df, lib);
    case BinomialDistribution => BinomialConsistent(params.n, params.p, lib);
    case BernoulliDistribution => BernoulliConsistent(params.p, lib);
    case UniformDistribution => UniformConsistent(params.low, params.high, lib);
    case FDistribution => FConsistent(params.dfn, params.dfd);
    case TDistribution => TConsistent(params.df);
    case PoissonDistribution => PoissonConsistent(params.mu, lib);
    case BetaDistribution => BetaConsistent(params.a, params.b, lib);
    case GammaDistribution => GammaConsistent(params.shape, params.scale, lib);
    case ExponentialDistribution => ExponentialConsistent(params.scale);
    case LogNormalDistribution => LogNormalConsistent(params.mean, params.std, lib);
  }

  lemma NormalConsistent(mean: real, std: real)
    requires Normal.InRange(mean, std)
    ensures Consistent(NormalDistribution, Normal.CalculateStats(mean, std))
  {
    SqSign(std);
  }

  lemma ChiSquareConsistent(df: int, lib: Numerics)
    requires ChiSquare.InRange(df) && LawfulSqrt(lib)
    ensures Consistent(ChiSquareDistribution, ChiSquare.CalculateStats(df, lib))
  {
    ChiSquare.Moments(df, lib);
  }

  lemma BinomialConsistent(n: int, p: real, lib: Numerics)
    requires Binomial.InRange(n, p) && LawfulSqrt(lib)
    ensures var r := Binomial.CalculateStats(n, p, lib);
            r.Success? ==> Consistent(BinomialDistribution, r.value)
  {
    Binomial.Moments(n, p, lib);
  }

  lemma BernoulliConsistent(p: real, lib: Numerics)
    requires Bernoulli.InRange(p) && LawfulSqrt(lib)
    ensures var r := Bernoulli.CalculateStats(p, lib);
            r.Success? ==> Consistent(BernoulliDistribution, r.value)
  {
    Bernoulli.Moments(p, lib);
  }

  lemma UniformConsistent(low: real, high: real, lib: Numerics)
    requires Uniform.InRange(low, high) && LawfulSqrt(lib)
    ensures Consistent(UniformDistribution, Uniform.CalculateStats(low, high, lib))
  {
    Uniform.Moments(low, high, lib);
  }

  lemma FConsistent(dfn: int, dfd: int)
    requires FDist.InRange(dfn, dfd)
    ensures Consistent(FDistribution, FDist.CalculateStats(dfn, dfd))
  {
    if dfd > 4 {
      FDist.VariancePositive(dfn, dfd);
    }
  }

  lemma TConsistent(df: int)
    requires TDist.InRange(df)
    ensures Consistent(TDistribution, TDist.CalculateStats(df))
  {
  }

  lemma PoissonConsistent(mu: real, lib: Numerics)
    requires Poisson.InRange(mu) && LawfulSqrt(lib)
    ensures Consistent(PoissonDistribution, Poisson.CalculateStats(mu, lib))
  {
    Poisson.Moments(mu, lib);
  }

  lemma BetaConsistent(a: real, b: real, lib: Numerics)
    requires Beta.InRange(a, b) && LawfulSqrt(lib)
    ensures Consistent(BetaDistribution, Beta.CalculateStats(a, b, lib))
  {
    Beta.Moments(a, b, lib);
  }

  lemma GammaConsistent(shape: real, scale: real, lib: Numerics)
    requires Gamma.InRange(shape, scale) && LawfulSqrt(lib)
    ensures Consistent(GammaDistribution, Gamma.CalculateStats(shape, scale, lib))
  {
    Gamma.Moments(shape, scale, lib);
  }

  lemma ExponentialConsistent(scale: real)
    requires Exponential.InRange(scale)
    ensures Consistent(ExponentialDistribution, Exponential.CalculateStats(scale))
  {
    SqSign(scale);
  }

  lemma LogNormalConsistent(mean: real, std: real, lib: Numerics)
    requires LogNormal.InRange(mean, std) && LawfulSqrt(lib) && LawfulExp(lib)
    ensures Consistent(LogNormalDistribution, LogNormal.CalculateStats(mean, std, lib))
  {
    LogNormal.Moments(mean, std, lib);
    LogNormal.StatsBounds(mean, std, lib);
  }

  /** The default comparison parameters never make calculate_stats raise. */
  lemma DefaultCompStatsExist(v: Variant, lib: Numerics)
    requires Modelled(v)
    ensures StatsDefined(v, DefaultCompParams(v))
    ensures CalculateStats(v, DefaultCompParams(v), lib).Success?
  {
  }
}
