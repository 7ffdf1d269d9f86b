/** The decision rules of the page script (app.py) that combine the variants: the
    comparison overlay, the quantile markers, the scaling of the theoretical overlay on
    the sample histogram, the display of statistics, and the handling of a failure while
    drawing samples. Widgets, figures and export are not part of this model. */
module App {
  import opened Base
  import opened Distributions
  import Bernoulli
  import Uniform
  import Poisson

  /** The sidebar choices the rules depend on. */
  datatype Options = Options(
    showCdf: bool,
    showStats: bool,
    showSamples: bool,
    showQuantiles: bool,
    sampleSize: int,
    enableComparison: bool,
    comparisonName: string)

  /** The probabilities at which quantile markers are drawn. */
  const Quantiles: seq<real> := [0.025, 0.25, 0.5, 0.75, 0.975]

  /** The quantile markers as (probability, value) pairs: one per probability when they are
      asked for and the variant has a quantile distribution, none otherwise. */
  function QuantileMarkers(show: bool, v: Variant, params: Params, lib: Numerics): (r: seq<(real, real)>)
    requires Fits(v, params)
    ensures r != [] <==> show && QuantileDist(v, params).Some?
    ensures r != [] ==> |r| == |Quantiles|
    ensures r != [] ==> forall i :: 0 <= i < |r| ==> r[i] == (Quantiles[i], lib.ppf(params, Quantiles[i]))
  {
    if !show then []
    else
      match QuantileDist(v, params)
      case None => []
      case Some(q) => seq(|Quantiles|, i requires 0 <= i < |Quantiles| => (Quantiles[i], lib.ppf(q, Quantiles[i])))
  }

  /** Only a continuous variant gets markers, and the discrete ones never do. */
  lemma MarkersOnlyForDensities(show: bool, v: Variant, params: Params, lib: Numerics)
    requires Fits(v, params)
    ensures QuantileMarkers(show, v, params, lib) != [] <==> show && GenerateData(v, params, None, lib).kind == PDF
  {
    QuantileIffDensity(v, params, None, lib);
  }

  /** The variant chosen for comparison, when one is drawn. */
  predicate ComparisonReady(enabled: bool, primaryName: string, comparisonName: string)
  {
    enabled && comparisonName != primaryName ==>
      Lookup(comparisonName).Some? && Modelled(Lookup(comparisonName).value)
  }

  /** The comparison curve: drawn only when comparison is enabled and a different name is
      chosen, always with the comparison variant's default parameters (never the user's),
      and evaluated on the primary domain x. */
  function Comparison(enabled: bool, primaryName: string, comparisonName: string, x: seq<real>, lib: Numerics): (r: Option<Curve>)
    requires ComparisonReady(enabled, primaryName, comparisonName)
    ensures r.Some? <==> enabled && comparisonName != primaryName
    ensures r.Some? ==>
              var w := Lookup(comparisonName).value;
              && EvaluatedOn(r.value, DefaultCompParams(w), lib)
              && r.value.kind == (if Discrete(w) then PMF else PDF)
              && (!Discrete(w) ==> r.value.x == x)
              && (Discrete(w) ==> r.value == GenerateData(w, DefaultCompParams(w), None, lib))
  {
    if enabled && comparisonName != primaryName then
      var w := Lookup(comparisonName).value;
      var c := GenerateData(w, DefaultCompParams(w), Some(x), lib);
      if Discrete(w) then
        DiscreteIgnoresDomain(w, DefaultCompParams(w), Some(x), None, lib);
        Some(c)
      else Some(c)
    else None
  }

  /** A Bernoulli comparison is drawn on [0, 1] whatever the primary domain is. */
  lemma BernoulliComparisonOnOwnSupport(primaryName: string, x: seq<real>, lib: Numerics)
    requires primaryName != "Bernoulli"
    ensures var r := Comparison(true, primaryName, "Bernoulli", x, lib);
            r.Some? && r.value.x == [0.0, 1.0]
  {
    assert NameOf(BernoulliDistribution) == "Bernoulli";
    LookupNameOf(BernoulliDistribution);
    var params := DefaultCompParams(BernoulliDistribution);
    assert params == BernoulliParams(0.5);
    var r := Comparison(true, primaryName, "Bernoulli", x, lib);
    assert r.value == GenerateData(BernoulliDistribution, params, None, lib);
    assert GenerateData(BernoulliDistribution, params, None, lib) == Bernoulli.GenerateData(0.5, None, lib);
  }

  /** A Poisson comparison is drawn with rate 3 on the 14 points 0, ..., 13, whatever the
      primary domain is. */
  lemma PoissonComparisonOnOwnSupport(primaryName: string, x: seq<real>, lib: Numerics)
    requires primaryName != "Poisson"
    ensures var r := Comparison(true, primaryName, "Poisson", x, lib);
            r.Some? && |r.value.x| == 14 && r.value.x[13] == 13.0
  {
    assert NameOf(PoissonDistribution) == "Poisson";
    LookupNameOf(PoissonDistribution);
    var params := DefaultCompParams(PoissonDistribution);
    assert params == PoissonParams(3.0);
    var r := Comparison(true, primaryName, "Poisson", x, lib);
    assert r.value == GenerateData(PoissonDistribution, params, None, lib);
    assert GenerateData(PoissonDistribution, params, None, lib) == Poisson.GenerateData(3.0, None, lib);
    Poisson.DefaultCompSupport(None, lib);
  }

  /** The largest value of a non-empty sequence (numpy's max). */
  function Max(s: seq<real>): (m: real)
    requires |s| > 0
    ensures m in s
    ensures forall i :: 0 <= i < |s| ==> s[i] <= m
  {
    if |s| == 1 then s[0]
    else
      var rest := Max(s[1..]);
      assert forall i :: 1 <= i < |s| ==> s[i] == s[1..][i - 1];
      if s[0] >= rest then s[0] else rest
  }

  /** The smallest value of a non-empty sequence (numpy's min). */
  function Min(s: seq<real>): (m: real)
    requires |s| > 0
    ensures m in s
    ensures forall i :: 0 <= i < |s| ==> m <= s[i]
  {
    if |s| == 1 then s[0]
    else
      var rest := Min(s[1..]);
      assert forall i :: 1 <= i < |s| ==> s[i] == s[1..][i - 1];
      if s[0] <= rest then s[0] else rest
  }

  /** Whether the samples spread over a range of positive width. */
  predicate Spread(samples: seq<real>)
  {
    |samples| > 1 && Max(samples) > Min(samples)
  }

  /** The histogram bin width used to scale a density overlay: a thirtieth of the sample
      range when the samples spread, 1 otherwise; never zero or negative. */
  function BinWidth(samples: seq<real>): (w: real)
    ensures w > 0.0
    ensures Spread(samples) ==> 30.0 * w == Max(samples) - Min(samples)
    ensures !Spread(samples) ==> w == 1.0
  {
    if Spread(samples) then (Max(samples) - Min(samples)) / 30.0 else 1.0
  }

  /** Thirty bins of that width starting at the smallest sample cover every sample. */
  lemma BinsCoverSamples(samples: seq<real>)
    requires |samples| > 0
    ensures forall i :: 0 <= i < |samples| ==>
              Min(samples) <= samples[i] <= Min(samples) + 30.0 * BinWidth(samples)
  {
  }

  /** The factor the theoretical overlay multiplies the density or mass by: the sample size
      over the number of support points for a mass function, the sample size times the bin
      width for a density. */
  function OverlayScale(kind: Kind, points: nat, sampleSize: int, samples: seq<real>): (c: real)
    ensures kind == PMF ==> c * points as real == (if points == 0 then 0.0 else sampleSize as real)
    ensures kind == PDF ==> c == sampleSize as real * BinWidth(samples)
    ensures sampleSize > 0 && (kind == PMF ==> points > 0) ==> c > 0.0
  {
    match kind
    case PMF => if points == 0 then 0.0 else sampleSize as real / points as real
    case PDF => sampleSize as real * BinWidth(samples)
  }

  /** The theoretical overlay on the histogram: every density or mass value of the curve
      times the overlay scale. */
  function Overlay(curve: Curve, sampleSize: int, samples: seq<real>): (y: seq<real>)
    ensures |y| == |curve.pdf|
    ensures forall i :: 0 <= i < |y| ==>
              y[i] == curve.pdf[i] * OverlayScale(curve.kind, |curve.x|, sampleSize, samples)
  {
    var c := OverlayScale(curve.kind, |curve.x|, sampleSize, samples);
    seq(|curve.pdf|, i requires 0 <= i < |curve.pdf| => curve.pdf[i] * c)
  }

  /** For a positive sample size the overlay keeps the shape of the curve: the order of
      any two of its values is that of the density or mass values they scale. */
  lemma OverlayPreservesOrder(curve: Curve, sampleSize: int, samples: seq<real>, i: nat, j: nat)
    requires sampleSize > 0 && |curve.pdf| == |curve.x|
    requires i < |curve.pdf| && j < |curve.pdf|
    ensures var y := Overlay(curve, sampleSize, samples);
            y[i] <= y[j] <==> curve.pdf[i] <= curve.pdf[j]
  {
    var c := OverlayScale(curve.kind, |curve.x|, sampleSize, samples);
    assert c > 0.0;
    var y := Overlay(curve, sampleSize, samples);
    ScaleMonotone(curve.pdf[i], curve.pdf[j], c, y[i], y[j]);
  }

  /** Scaling two values by the same positive factor keeps their order. */
  lemma ScaleMonotone(a: real, b: real, c: real, ya: real, yb: real)
    requires c > 0.0 && ya == a * c && yb == b * c
    ensures ya <= yb <==> a <= b
  {
    assert yb - ya == (b - a) * c;
    if a <= b {
      assert (b - a) * c >= 0.0;
    } else {
      assert (a - b) * c > 0.0;
    }
  }

  /** How a statistic is shown: a float formatted with three decimals, numpy's inf or nan
      through the same float formatting, or a string shown as it is. */
  datatype Metric = Formatted(value: real) | FormattedNonFinite | Verbatim(text: string)

  /** A statistic is formatted as a number exactly when it is an int or float; the two
      sentinel strings are shown verbatim. */
  function DisplayStat(s: Stat): (m: Metric)
    ensures m.Verbatim? <==> s.Infinite? || s.Complex?
    ensures m.Formatted? <==> s.Num?
    ensures s.Num? ==> m == Formatted(s.value)
    ensures s.NonFinite? ==> m == FormattedNonFinite
    ensures s.Infinite? ==> m.text == InfiniteText
    ensures s.Complex? ==> m.text == ComplexText
  {
    match s
    case Num(value) => Formatted(value)
    case NonFinite => FormattedNonFinite
    case Infinite => Verbatim(InfiniteText)
    case Complex => Verbatim(ComplexText)
  }

  /** The display tells the kinds of statistic apart: a number, numpy's inf or nan, "∞" and
      "Complex" are never shown alike, and a shown sentinel names its statistic. Two numbers
      may still look alike once rounded to three decimals, which Formatted does not model. */
  lemma DisplaySeparatesKinds(s: Stat, t: Stat)
    requires DisplayStat(s) == DisplayStat(t)
    ensures s.Num? <==> t.Num?
    ensures s.NonFinite? <==> t.NonFinite?
    ensures !s.Num? ==> s == t
  {
    assert InfiniteText != ComplexText by {
      assert InfiniteText[0] != ComplexText[0];
    }
  }

  /** The labels of the statistics, in the order they are shown. */
  const StatNames: seq<string> := ["Mean", "Variance", "Standard Deviation", "Skewness", "Kurtosis"]

  /** The i-th statistic in display order. */
  function StatAt(s: Stats, i: nat): Stat
    requires i < 5
  {
    match i
    case 0 => s.mean
    case 1 => s.variance
    case 2 => s.sd
    case 3 => s.skewness
    case _ => s.kurtosis
  }

  /** The rows of the statistics panel: each label with its statistic as displayed. */
  function StatsRows(s: Stats): (r: seq<(string, Metric)>)
    ensures |r| == |StatNames|
    ensures forall i :: 0 <= i < |r| ==> r[i] == (StatNames[i], DisplayStat(StatAt(s, i)))
  {
    seq(|StatNames|, i requires 0 <= i < |StatNames| => (StatNames[i], DisplayStat(StatAt(s, i))))
  }

  /** For slider parameters of a variant without sentinels (and lawful sqrt and exp),
      every row of the panel shows a formatted number. */
  lemma RowsFormattedWithoutSentinels(v: Variant, params: Params, lib: Numerics)
    requires ValidParams(v, params) && LawfulSqrt(lib) && LawfulExp(lib) && !HasSentinel(v)
    requires CalculateStats(v, params, lib).Success?
    ensures forall row :: row in StatsRows(CalculateStats(v, params, lib).value) ==> row.1.Formatted?
  {
    StatsConsistent(v, params, lib);
    var rows := StatsRows(CalculateStats(v, params, lib).value);
    forall row | row in rows
      ensures row.1.Formatted?
    {
      var i :| 0 <= i < |rows| && rows[i] == row;
    }
  }

  /** The message shown when drawing the samples fails. */
  const SampleErrorPrefix := "Error generating samples: "

  /** The sample section when it draws: the samples and the overlay on their histogram. */
  datatype SamplePanel = SamplePanel(samples: seq<real>, overlay: seq<real>)

  /** The sample section: the outcome of drawing the samples (its failure carrying the
      exception text) becomes either the panel or the error message. */
  function SampleSection(drawn: Result<seq<real>, string>, primary: Curve, sampleSize: int): (r: Result<SamplePanel, string>)
    ensures r.Failure? <==> drawn.Failure?
    ensures r.Failure? ==> r.error == SampleErrorPrefix + drawn.error
    ensures r.Success? ==> r.value.samples == drawn.value
    ensures r.Success? ==> r.value.overlay == Overlay(primary, sampleSize, drawn.value)
  {
    match drawn
    case Failure(e) => Failure(SampleErrorPrefix + e)
    case Success(samples) => Success(SamplePanel(samples, Overlay(primary, sampleSize, samples)))
  }

  /** What the page shows for one run of the script. */
  datatype Page = Page(
    primary: Curve,
    cdfShown: bool,
    markers: seq<(real, real)>,
    comparison: Option<Curve>,
    samples: Option<Result<SamplePanel, string>>,
    stats: Option<Result<seq<(string, Metric)>, StatsError>>)

  /** The requirements of one run: the chosen name is registered, its parameters are ones
      calculate_stats accepts, a uniform pair passed get_params' low < high check (the
      script stops there otherwise), and a comparison, if drawn, is of a modelled variant. */
  predicate PageReady(opts: Options, name: string, params: Params)
  {
    && Lookup(name).Some?
    && StatsDefined(Lookup(name).value, params)
    && ComparisonReady(opts.enableComparison, name, opts.comparisonName)
    && (Lookup(name).value == UniformDistribution ==>
          params.UniformParams? && Uniform.GetParams(params.low, params.high) == Success(params))
  }

  /** One run of the script: the primary curve on its default domain, the cdf if asked
      for, the quantile markers, the comparison on the primary domain, the sample section
      if asked for, and the statistics panel if asked for (a ZeroDivision there is the
      exception that ends the run). */
  function BuildPage(opts: Options, name: string, params: Params, drawn: Result<seq<real>, string>, lib: Numerics): (p: Page)
    requires PageReady(opts, name, params)
    ensures var v := Lookup(name).value;
            && p.primary == GenerateData(v, params, None, lib)
            && p.cdfShown == opts.showCdf
            && p.markers == QuantileMarkers(opts.showQuantiles, v, params, lib)
            && p.comparison == Comparison(opts.enableComparison, name, opts.comparisonName, p.primary.x, lib)
            && (p.samples.Some? <==> opts.showSamples)
            && (p.samples.Some? ==> p.samples.value == SampleSection(drawn, p.primary, opts.sampleSize))
            && (p.stats.Some? <==> opts.showStats)
            && (p.stats.Some? ==> (p.stats.value.Failure? <==> CalculateStats(v, params, lib).Failure?))
            && (p.stats.Some? && p.stats.value.Success? ==>
                  p.stats.value.value == StatsRows(CalculateStats(v, params, lib).value))
  {
    var v := Lookup(name).value;
    var primary := GenerateData(v, params, None, lib);
    var stats :=
      if !opts.showStats then None
      else match CalculateStats(v, params, lib)
        case Failure(e) => Some(Failure(e))
        case Success(s) => Some(Success(StatsRows(s)));
    Page(primary,
         opts.showCdf,
         QuantileMarkers(opts.showQuantiles, v, params, lib),
         Comparison(opts.enableComparison, name, opts.comparisonName, primary.x, lib),
         if opts.showSamples then Some(SampleSection(drawn, primary, opts.sampleSize)) else None,
         stats)
  }

  /** A failure while drawing samples is reported in the sample section and changes
      nothing else on the page. */
  lemma SampleFailureIsolated(opts: Options, name: string, params: Params, e: string,
                              drawn: Result<seq<real>, string>, lib: Numerics)
    requires PageReady(opts, name, params)
    ensures var failed := BuildPage(opts, name, params, Failure(e), lib);
            var other := BuildPage(opts, name, params, drawn, lib);
            && failed.primary == other.primary
            && failed.cdfShown == other.cdfShown
            && failed.markers == other.markers
            && failed.comparison == other.comparison
            && failed.stats == other.stats
            && (opts.showSamples ==> failed.samples == Some(Failure(SampleErrorPrefix + e)))
  {
  }
}
