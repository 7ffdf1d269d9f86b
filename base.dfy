/** The shared contract of every distribution variant (distributions/base.py):
    parameter sets, curve results, statistics results, and the numeric library
    (scipy's pdf/cdf/ppf, numpy's sqrt and exp) that the variants call into. */
module Base {

  datatype Option<T> = None | Some(value: T)

  datatype Result<T, E> = Success(value: T) | Failure(error: E)

  /** Whether a curve holds densities of a continuous variant or masses of a discrete one. */
  datatype Kind = PDF | PMF

  /** One entry of a statistics result: a number, or one of the two sentinel strings
      ("∞" and "Complex") the variants put where a closed form does not exist.
      NonFinite stands for the inf or nan that numpy yields (without raising) when a
      float is divided by a zero returned from np.sqrt. */
  datatype Stat = Num(value: real) | Infinite | Complex | NonFinite

  /** The text of the two sentinels. */
  const InfiniteText := "∞"
  const ComplexText := "Complex"

  /** The five statistics every variant reports, in the order they are displayed. */
  datatype Stats = Stats(mean: Stat, variance: Stat, sd: Stat, skewness: Stat, kurtosis: Stat)

  /** Python's ZeroDivisionError, raised by a division of plain floats or ints by zero. */
  datatype StatsError = ZeroDivision

  /** A parameter set, one constructor per variant family; NoParams is the empty dict. */
  datatype Params =
    | NormalParams(mean: real, std: real)
    | ChiSquareParams(df: int)
    | BinomialParams(n: int, p: real)
    | BernoulliParams(p: real)
    | UniformParams(low: real, high: real)
    | FParams(dfn: int, dfd: int)
    | TParams(df: int)
    | PoissonParams(mu: real)
    | BetaParams(a: real, b: real)
    | GammaParams(shape: real, scale: real)
    | ExponentialParams(scale: real)
    | LogNormalParams(mean: real, std: real)
    | NoParams

  /** What generate_data returns: the domain, the density or mass at each point,
      the cumulative value at each point, and the kind. */
  datatype Curve = Curve(x: seq<real>, pdf: seq<real>, cdf: seq<real>, kind: Kind)

  /** The foreign numeric routines. pdf, cdf and ppf are those of the frozen scipy
      distribution that the parameter set describes (pdf is the pmf for discrete families). */
  datatype Numerics = Numerics(
    pdf: (Params, real) -> real,
    cdf: (Params, real) -> real,
    ppf: (Params, real) -> real,
    sqrt: real -> real,
    exp: real -> real)

  /** np.sqrt behaves as the square root on the non-negative reals. */
  ghost predicate LawfulSqrt(lib: Numerics)
  {
    forall y :: y >= 0.0 ==> lib.sqrt(y) >= 0.0 && lib.sqrt(y) * lib.sqrt(y) == y
  }

  /** np.exp is positive everywhere, at least 1 on the non-negative reals and above 1 on the positive ones. */
  ghost predicate LawfulExp(lib: Numerics)
  {
    forall y :: lib.exp(y) > 0.0 && (y >= 0.0 ==> lib.exp(y) >= 1.0) && (y > 0.0 ==> lib.exp(y) > 1.0)
  }

  /** Python's y ** 2. */
  function Sq(y: real): real
  {
    Mul(y, y)
  }

  /** The product of two reals, as a function of its own: the solver then sees a square
      and a product of two factors as the same term, which plain `*` does not give it. */
  function Mul(x: real, y: real): real
  {
    x * y
  }

  /** A square is never negative, and positive for a non-zero base. */
  lemma SqSign(y: real)
    ensures Sq(y) >= 0.0
    ensures y != 0.0 ==> Sq(y) > 0.0
  {
    if y > 0.0 {
      ProductPositive(y, y);
    } else if y < 0.0 {
      ProductPositive(-y, -y);
      assert Mul(-y, -y) == Mul(y, y);
    }
  }

  /** The product of two positive reals is positive. */
  lemma ProductPositive(x: real, y: real)
    requires x > 0.0 && y > 0.0
    ensures Mul(x, y) > 0.0
  {
  }

  lemma NonZeroProduct(x: real, y: real)
    requires x != 0.0 && y != 0.0
    ensures x * y != 0.0
  {
  }

  /** A factor of a non-negative product with a positive other factor is non-negative. */
  lemma NonNegativeFactor(y: real, q: real)
    requires q > 0.0 && y * q >= 0.0
    ensures y >= 0.0
  {
  }

  /** Number of points in every default continuous domain. */
  const Points: nat := 500

  /** np.linspace(a, b, 500): Points evenly spaced values from a to b. As in numpy,
      the last point is set to b itself rather than computed. */
  function Linspace(a: real, b: real): (r: seq<real>)
    ensures |r| == Points && r[0] == a && r[Points - 1] == b
  {
    seq(Points, i requires 0 <= i < Points =>
      if i == Points - 1 then b else a + (i as real) * ((b - a) / 499.0))
  }

  /** Consecutive points of the default domain are one step (b - a) / 499 apart. */
  lemma LinspaceStep(a: real, b: real, i: nat)
    requires i + 1 < Points
    ensures Linspace(a, b)[i + 1] - Linspace(a, b)[i] == (b - a) / 499.0
  {
    var d := (b - a) / 499.0;
    assert ((i + 1) as real) * d == (i as real) * d + d;
  }

  /** The default domain is symmetric about the midpoint of its ends. */
  lemma LinspaceSymmetric(a: real, b: real)
    ensures forall i :: 0 <= i < Points ==> Linspace(a, b)[i] + Linspace(a, b)[Points - 1 - i] == a + b
  {
    var x := Linspace(a, b);
    var d := (b - a) / 499.0;
    forall i | 0 <= i < Points
      ensures x[i] + x[Points - 1 - i] == a + b
    {
      var j := Points - 1 - i;
      if 0 < i < Points - 1 {
        assert (i as real) * d + (j as real) * d == 499.0 * d;
      }
    }
  }

  /** The default domain from a to b with a < b is strictly increasing. */
  lemma LinspaceIncreasing(a: real, b: real)
    requires a < b
    ensures Ascending(Linspace(a, b))
  {
    var x := Linspace(a, b);
    forall i | 0 <= i && i + 1 < Points
      ensures x[i] < x[i + 1]
    {
      LinspaceStep(a, b, i);
    }
    AdjacentAscending(x);
  }

  /** Strictly increasing. */
  predicate Ascending(x: seq<real>)
  {
    forall i, j :: 0 <= i < j < |x| ==> x[i] < x[j]
  }

  lemma {:induction false} AdjacentAscending(x: seq<real>)
    requires forall i :: 0 <= i && i + 1 < |x| ==> x[i] < x[i + 1]
    ensures Ascending(x)
  {
    if |x| >= 2 {
      AdjacentAscending(x[1..]);
      forall j | 0 < j < |x|
        ensures x[0] < x[j]
      {
        assert x[1..][0] == x[1];
        if j > 1 {
          assert x[1..][j - 1] == x[j];
        }
      }
      forall i, j | 0 <= i < j < |x|
        ensures x[i] < x[j]
      {
        if i > 0 {
          assert x[1..][i - 1] == x[i] && x[1..][j - 1] == x[j];
        }
      }
    }
  }

  /** np.arange(0, stop): the integers 0, 1, ..., stop - 1, empty when stop <= 0. */
  function Arange(stop: int): (r: seq<real>)
    ensures |r| == (if stop > 0 then stop else 0)
    ensures forall i :: 0 <= i < |r| ==> r[i] == i as real
    ensures Ascending(r)
  {
    seq(if stop > 0 then stop else 0, i => i as real)
  }

  /** Python's int() of a float: truncation toward zero. */
  function Trunc(y: real): (k: int)
    ensures y >= 0.0 ==> k as real <= y < (k + 1) as real
    ensures y < 0.0 ==> (k - 1) as real < y <= k as real
  {
    if y >= 0.0 then y.Floor else -((-y).Floor)
  }

  /** The density/mass and cumulative values of the parametrised distribution, point by point on x. */
  predicate EvaluatedOn(c: Curve, params: Params, lib: Numerics)
  {
    && |c.pdf| == |c.x|
    && |c.cdf| == |c.x|
    && (forall i :: 0 <= i < |c.x| ==> c.pdf[i] == lib.pdf(params, c.x[i]))
    && (forall i :: 0 <= i < |c.x| ==> c.cdf[i] == lib.cdf(params, c.x[i]))
  }

  /** Applies scipy's pdf and cdf to every point of x. */
  function Evaluate(x: seq<real>, params: Params, kind: Kind, lib: Numerics): (r: Curve)
    ensures r.x == x && r.kind == kind && EvaluatedOn(r, params, lib)
  {
    Curve(x,
          seq(|x|, i requires 0 <= i < |x| => lib.pdf(params, x[i])),
          seq(|x|, i requires 0 <= i < |x| => lib.cdf(params, x[i])),
          kind)
  }

  /** The domain a continuous variant works on: the supplied one verbatim, else its default linspace. */
  function ContinuousDomain(xRange: Option<seq<real>>, lo: real, hi: real): (x: seq<real>)
    ensures xRange.Some? ==> x == xRange.value
    ensures xRange.None? ==> |x| == Points && x[0] == lo && x[Points - 1] == hi
    ensures xRange.None? && lo < hi ==> Ascending(x)
  {
    if xRange.Some? then xRange.value
    else if lo < hi then
      LinspaceIncreasing(lo, hi);
      Linspace(lo, hi)
    else Linspace(lo, hi)
  }

  /** A division whose divisor is a numpy float (here always a value of np.sqrt):
      numpy yields inf or nan instead of raising when the divisor is zero. */
  function NpDivide(num: real, den: real): (r: Stat)
    ensures den != 0.0 ==> r.Num? && r.value * den == num
    ensures den == 0.0 ==> r == NonFinite
  {
    if den == 0.0 then NonFinite else Num(num / den)
  }

  /** All five statistics are numbers. */
  predicate AllNumeric(s: Stats)
  {
    s.mean.Num? && s.variance.Num? && s.sd.Num? && s.skewness.Num? && s.kurtosis.Num?
  }

  /** get_quantile_dist of the base class: no quantile capability. */
  function BaseQuantileDist(): (r: Option<Params>)
    ensures r.None?
  {
    None
  }

  /** get_default_comp_params of the base class: the empty parameter set. */
  function BaseDefaultCompParams(): (r: Params)
    ensures r.NoParams?
  {
    NoParams
  }
}
