# Statistical distribution layer of the Distribution Visualizer

This project models the distribution layer of the Streamlit Distribution Visualizer in Dafny.

- **Base contract.** One base contract (`distributions/base.py`) is implemented by thirteen stateless variant classes. The registry (`distributions/__init__.py`) maps each display name to its variant.
- **What each variant does.**
  - It builds a default domain, or reuses or ignores a supplied one.
  - It tags its curve as a density (PDF) or a mass function (PMF).
  - It reports five closed-form statistics, with the sentinel strings "∞" and "Complex" where a moment does not exist.
  - It names fixed parameters for use as a comparison overlay.
- **Page rules modelled from `app.py`.**
  - The comparison step, and the gating of quantile markers.
  - The histogram bin width and the scaling of the theoretical overlay.
  - How a statistic is displayed, and how a failure while drawing samples is reported.

Everything in the core is pure, so the model is made of datatypes, functions and lemmas:

- `base.dfy` (module `Base`): the shared datatypes. It also models `np.linspace(a, b, 500)`, `np.arange`, Python's `int()`, and the two kinds of division by zero:
  - a plain Python division raises `ZeroDivisionError`;
  - a division by a numpy value yields inf or nan.
- One file per variant: `normal.dfy`, `uniform.dfy`, `exponential.dfy`, `chi_square.dfy`, `gamma.dfy`, `beta.dfy`, `t_distribution.dfy`, `f_distribution.dfy`, `log_normal.dfy`, `bernoulli.dfy`, `binomial.dfy`, `poisson.dfy`.
- `registry.dfy` (module `Distributions`): the `Variant` datatype, the ordered registry, name lookup, and dispatch of the base contract. It also holds lemmas across all variants.
- `app.dfy` (module `App`): the page rules listed above, and one run of the page as a `Page` value.

The foreign numeric routines are fields of a `Numerics` value passed as a parameter. These are scipy's `pdf`/`cdf`/`ppf` for the frozen distribution and numpy's `sqrt` and `exp`. Lemmas that depend on `sqrt` or `exp` require only that they behave as the square root (`LawfulSqrt`) or as an exponential that is positive, at least 1 on non-negative arguments and above 1 on positive ones (`LawfulExp`).

## Notes on the code

- **No coverage guarantee.** The default domains are not made to contain the mode or the central 99% of the mass. Gamma's domain is fixed at [0, 20], while its mean can reach 50 (`Gamma.MeanCanLieBeyondDomain`).
- **A ZeroDivisionError in calculate_stats ends the run.** Bernoulli and Binomial at p = 0 or p = 1 divide a plain float by zero in the kurtosis, and `app.py` does not catch the exception. The model returns `Failure(ZeroDivision)` there.
- **Sentinels.** The statistic sentinels are the strings "∞" and "Complex". A skewness divided by a zero numpy square root becomes numpy's inf or nan, a float that is formatted like any other number.
- **Histogram bins.** A histogram whose samples have no spread is not reported as an error. The bin width falls back to 1.
- **Uniform bounds.** `get_params` stops the script when low ≥ high, so a page is only built for low < high (`App.PageReady`).

## Model

| member | source | states |
|---|---|---|
| Base.Linspace | distributions/normal.py:17 | the default domain has 500 points, starts at a, and its last point is b itself |
| Base.LinspaceStep | distributions/normal.py:17 | consecutive points are (b − a)/499 apart |
| Base.LinspaceSymmetric | distributions/normal.py:17 | x[i] + x[499 − i] = a + b: the domain is symmetric about its midpoint |
| Base.LinspaceIncreasing | distributions/normal.py:17 | for a < b the domain is strictly increasing |
| Base.Arange | distributions/binomial.py:16 | np.arange(0, k) is 0, 1, …, k − 1 (empty for k ≤ 0), strictly increasing |
| Base.Trunc | distributions/poisson.py:12 | int() truncates toward zero: the floor for non-negative values, the ceiling for negative ones |
| Base.Evaluate | distributions/normal.py:20-21 | pdf and cdf are scipy's values at every domain point, so both have the domain's length |
| Base.ContinuousDomain | distributions/normal.py:16-19 | a supplied domain is used verbatim; otherwise the 500-point default from lo to hi, increasing when lo < hi |
| Base.NpDivide | distributions/uniform.py:31 | dividing by a non-zero numpy value gives the quotient; dividing by zero gives inf/nan, never an exception |
| Base.BaseQuantileDist | distributions/base.py:25-26 | without an override there is no quantile distribution |
| Base.BaseDefaultCompParams | distributions/base.py:28-29 | without an override the comparison parameter set is empty |
| Normal.GenerateData | distributions/normal.py:15-22 | kind PDF, pointwise values, supplied domain reused; the default runs from mean − 4·std to mean + 4·std, is symmetric about the mean, and is increasing for std > 0 |
| Normal.CalculateStats | distributions/normal.py:24-31 | all numeric: mean and sd are the parameters, variance = sd², skewness 0, kurtosis 3 |
| Normal.DefaultCompParams | distributions/normal.py:42-43 | mean 0, std 1, within the slider ranges |
| Uniform.GetParams | distributions/uniform.py:7-16 | succeeds exactly when low < high; otherwise the page stops with the bounds message |
| Uniform.GenerateData | distributions/uniform.py:18-25 | kind PDF, supplied domain reused; the default runs from low − 1 to high + 1 and strictly contains [low, high] |
| Uniform.CalculateStats | distributions/uniform.py:27-34 | mean is the midpoint, 12·variance = (high − low)², sd is (high − low)/sqrt(12) with numpy division, skewness 0, kurtosis 9/5 |
| Uniform.Moments | distributions/uniform.py:27-34 | for slider bounds, all statistics are numbers, the variance is positive, and the sd is its positive square root |
| Uniform.DefaultCompParams | distributions/uniform.py:45-46 | low −2 < high 2 |
| Exponential.GenerateData | distributions/exponential.py:11-18 | kind PDF, supplied domain reused, default from 0 to 5·scale |
| Exponential.CalculateStats | distributions/exponential.py:20-27 | mean = sd = scale, variance = sd², skewness 2, kurtosis 9 |
| Exponential.DefaultCompParams | distributions/exponential.py:38-39 | scale 1 |
| ChiSquare.GenerateData | distributions/chi_square.py:11-18 | kind PDF, supplied domain reused; the default ends at max(30, 3·df), so its end is ≥ 30 and ≥ 3·df |
| ChiSquare.CalculateStats | distributions/chi_square.py:20-27 | mean df, variance 2·df, sd = sqrt(variance), (kurtosis − 3)·df = 12, so kurtosis > 3 for df > 0 |
| ChiSquare.Moments | distributions/chi_square.py:20-27 | for slider df, every statistic is a number and sd² = variance > 0 |
| ChiSquare.DefaultCompParams | distributions/chi_square.py:38-39 | df 3 |
| Gamma.GenerateData | distributions/gamma.py:15-22 | kind PDF, supplied domain reused; the default is fixed at [0, 20] whatever the parameters |
| Gamma.CalculateStats | distributions/gamma.py:24-31 | mean shape·scale, variance mean·scale, sd sqrt(shape)·scale, skewness with numpy division, (kurtosis − 3)·shape = 6 |
| Gamma.Moments | distributions/gamma.py:24-31 | for slider parameters, every statistic is a number and sd² = variance > 0 |
| Gamma.DefaultCompParams | distributions/gamma.py:42-43 | shape 2, scale 1 |
| Gamma.MeanCanLieBeyondDomain | distributions/gamma.py:16-26 | shape 10 and scale 5 (both slider values) give mean 50, beyond the default domain's end at 20 |
| Beta.GenerateData | distributions/beta.py:15-22 | kind PDF, supplied domain reused, default [0, 1] |
| Beta.CalculateStats | distributions/beta.py:24-31 | mean·(a + b) = a and lies in (0, 1) for a, b > 0; sd is sqrt of the very variance reported; kurtosis is "Complex" |
| Beta.Moments | distributions/beta.py:24-31 | for slider shapes, mean, variance, sd and skewness are numbers, the variance is positive, sd² = variance, and only the kurtosis is a sentinel |
| Beta.DefaultCompParams | distributions/beta.py:42-43 | a 2, b 2 |
| TDistribution.GenerateData | distributions/t_distribution.py:11-18 | kind PDF, supplied domain reused, default fixed at [−5, 5] |
| TDistribution.CalculateStats | distributions/t_distribution.py:20-33 | mean, variance, skewness and kurtosis are numbers exactly when df > 1, 2, 3, 4 respectively, else "∞"; variance·(df − 2) = df and variance > 1; (kurtosis − 3)·(df − 4) = 6 and kurtosis > 3; mean and skewness are 0; sd is always "Complex" |
| TDistribution.DefaultCompParams | distributions/t_distribution.py:44-45 | df 5 |
| FDistribution.GenerateData | distributions/f_distribution.py:15-22 | kind PDF, supplied domain reused, default fixed at [0, 5] |
| FDistribution.CalculateStats | distributions/f_distribution.py:24-37 | mean is a number exactly when dfd > 2 (then mean·(dfd − 2) = dfd and mean > 1), variance exactly when dfd > 4, "∞" otherwise; sd, skewness, kurtosis "Complex" |
| FDistribution.MeanBounds | distributions/f_distribution.py:26-27 | for dfd > 2 the mean dfd/(dfd − 2) times dfd − 2 gives back dfd, and the mean exceeds 1 |
| FDistribution.VariancePositive | distributions/f_distribution.py:30-31 | for dfn ≥ 1 and dfd > 4 the variance's denominator is non-zero and the variance positive |
| FDistribution.MeanIgnoresDfn | distributions/f_distribution.py:26-27 | the mean depends on dfd alone |
| FDistribution.DefaultCompParams | distributions/f_distribution.py:48-49 | dfn 3, dfd 5, for which mean and variance are both numbers |
| LogNormal.GenerateData | distributions/log_normal.py:15-22 | kind PDF, supplied domain reused, default from 0 to exp(mean + 4·std) |
| LogNormal.CalculateStats | distributions/log_normal.py:24-35 | all five are numbers with no sentinel branch; sd is sqrt of the very variance reported |
| LogNormal.StatsBounds | distributions/log_normal.py:27-34 | with a lawful exp: variance ≥ 0, mean > 0, kurtosis ≥ 3 |
| LogNormal.Moments | distributions/log_normal.py:24-35 | for slider parameters, the variance is positive and sd² = variance |
| LogNormal.DefaultCompParams | distributions/log_normal.py:46-47 | mean 0, std 1 |
| Bernoulli.GenerateData | distributions/bernoulli.py:11-15 | kind PMF, domain always [0, 1], a supplied one ignored |
| Bernoulli.CalculateStats | distributions/bernoulli.py:17-24 | raises ZeroDivision exactly at p = 0 or p = 1; otherwise mean p, variance p(1 − p) ≤ 1/4, (kurtosis − 3)·p(1 − p) = 1 − 6p(1 − p) |
| Bernoulli.Moments | distributions/bernoulli.py:17-24 | when the statistics exist: all numbers, variance > 0, sd² = variance, kurtosis ≥ 1 |
| Bernoulli.DefaultCompParams | distributions/bernoulli.py:32-33 | p 0.5 |
| Binomial.GenerateData | distributions/binomial.py:15-19 | kind PMF, domain 0, 1, …, n (n + 1 points, ascending), a supplied one ignored |
| Binomial.CalculateStats | distributions/binomial.py:21-28 | raises ZeroDivision exactly when n = 0, p = 0 or p = 1; otherwise mean np, variance np(1 − p), (kurtosis − 3)·variance = 1 − 6p(1 − p) |
| Binomial.VarianceAtMostMean | distributions/binomial.py:23-24 | for slider parameters the variance never exceeds the mean |
| Binomial.Moments | distributions/binomial.py:21-28 | when the statistics exist: all numbers, variance > 0, sd² = variance, kurtosis ≥ 1 |
| Binomial.KurtosisBound | distributions/binomial.py:27 | (k − 3)·n·q = 1 − 6q with n ≥ 1 and 0 < q ≤ 1/4 forces k ≥ 1 |
| Binomial.DefaultCompParams | distributions/binomial.py:36-37 | n 10, p 0.5 |
| Poisson.SupportSize | distributions/poisson.py:12 | min(30, int(3·mu) + 5) is at most 30, at least 5 for mu ≥ 0, and below 30 it is int(3·mu) + 5 |
| Poisson.GenerateData | distributions/poisson.py:11-15 | kind PMF, domain 0, …, SupportSize − 1 (5 to 30 points), a supplied one ignored |
| Poisson.CalculateStats | distributions/poisson.py:17-24 | mean = variance = mu, (kurtosis − 3)·mu = 1, so kurtosis > 3 for mu > 0 |
| Poisson.Moments | distributions/poisson.py:17-24 | for slider mu, all numbers and sd² = variance > 0 |
| Poisson.DefaultCompParams | distributions/poisson.py:32-33 | mu 3 |
| Poisson.DefaultCompSupport | distributions/poisson.py:12 | rate 3 gives the 14-point domain 0, …, 13 whatever domain is supplied |
| Distributions.Position | distributions/__init__.py:16-30 | every variant has an entry in the registry holding it |
| Distributions.RegistryShape | distributions/__init__.py:16-30 | 13 entries, distinct names, each variant registered exactly once |
| Distributions.Names | app.py:49 | the selector choices are the 13 distinct registry keys in insertion order |
| Distributions.Find | app.py:77 | a key lookup finds an entry with that key, and finds none exactly when no entry has it |
| Distributions.Lookup | app.py:77 | a name is found exactly when it is a registry key, and the variant found carries that name |
| Distributions.LookupNameOf | distributions/__init__.py:17-29 | each name maps to its own variant |
| Distributions.ValidParamsDefineStats | distributions/base.py:13-15 | slider parameters never cause a division by zero beyond the ones reported as ZeroDivision |
| Distributions.GenerateData | distributions/base.py:9-11 | pointwise values for the given parameters; PMF exactly for the discrete variants; a continuous variant reuses a supplied domain or builds 500 points; a discrete domain is 0, 1, 2, … |
| Distributions.DiscreteIgnoresDomain | distributions/binomial.py:15-16 | the discrete variants return the same curve whatever domain they are given |
| Distributions.DefaultDomainAscending | distributions/base.py:9-11 | for slider parameters every default domain has at least two points and is strictly increasing; a discrete one starts at 0 |
| Distributions.QuantileDist | distributions/base.py:25-26 | a quantile distribution exists exactly for the continuous variants, and it is the one the parameters describe |
| Distributions.QuantileIffDensity | distributions/base.py:25-26 | a variant has quantiles exactly when its curve is a PDF |
| Distributions.DefaultCompParams | distributions/base.py:28-29 | every modelled variant overrides the empty default with parameters its sliders could produce |
| Distributions.CalculateStats | distributions/base.py:13-15 | fails exactly for Bernoulli/Binomial at degenerate p (or n = 0); only t, F and beta ever return a sentinel |
| Distributions.StatsConsistent | distributions/base.py:13-15 | for slider parameters: all five are numbers exactly for the variants without sentinels; a numeric variance is positive, a numeric sd is its square root, a numeric kurtosis is ≥ 1 |
| Distributions.FConsistent | distributions/f_distribution.py:24-37 | the F statistics meet the same consistency conditions |
| Distributions.DefaultCompStatsExist | distributions/base.py:28-29 | the statistics of every default comparison parameter set exist |
| App.QuantileMarkers | app.py:103-107 | markers appear exactly when asked for and a quantile distribution exists, one per probability 0.025, 0.25, 0.5, 0.75, 0.975 at the ppf value |
| App.MarkersOnlyForDensities | app.py:103-105 | markers appear exactly when asked for and the variant draws a PDF |
| App.Comparison | app.py:116-119 | drawn exactly when enabled and the names differ; evaluated with the comparison variant's default parameters; on the primary domain for a continuous variant |
| App.BernoulliComparisonOnOwnSupport | app.py:116-119 | a Bernoulli comparison is drawn on [0, 1], not on the primary domain |
| App.PoissonComparisonOnOwnSupport | app.py:116-119 | a Poisson comparison is drawn on its own 14 points |
| App.Max | app.py:167 | the maximum is a member of the samples and bounds every one from above |
| App.Min | app.py:167 | the minimum is a member of the samples and bounds every one from below |
| App.BinWidth | app.py:167 | always positive: (max − min)/30 when there are several samples of positive spread, else 1 |
| App.BinsCoverSamples | app.py:167 | thirty bins of that width from the minimum cover every sample |
| App.OverlayScale | app.py:162-168 | a mass is scaled by sample_size/len(x), a density by sample_size·bin width; positive for a positive sample size |
| App.Overlay | app.py:162-168 | one overlay value per curve value, each the value times the scale |
| App.OverlayPreservesOrder | app.py:162-168 | for a positive sample size the overlay orders its points as the curve does |
| App.DisplayStat | app.py:204-208 | a statistic is shown verbatim exactly when it is a sentinel string ("∞" or "Complex"); numbers, including numpy inf/nan, are formatted |
| App.DisplaySeparatesKinds | app.py:204-208 | the display tells the kinds apart: a number, numpy inf/nan, "∞" and "Complex" are never shown alike, and a shown sentinel names its statistic |
| App.StatsRows | app.py:201-208 | five rows, Mean, Variance, Standard Deviation, Skewness, Kurtosis in order, each with its displayed statistic |
| App.RowsFormattedWithoutSentinels | app.py:203-208 | for variants other than t, F and beta, every row shows a formatted number |
| App.SampleSection | app.py:150-194 | a failure to draw becomes "Error generating samples: " + the exception text; otherwise the samples and the overlay |
| App.BuildPage | app.py:83-208 | primary curve on its default domain, markers, comparison on the primary domain, sample section and statistics panel each exactly when asked for; the panel fails exactly when calculate_stats raises |
| App.SampleFailureIsolated | app.py:153-194 | a sample failure changes only the sample section, which shows the error message |

## Left out

- `get_params` slider widgets of every variant are user interface. Their ranges appear as each module's `InRange` predicate. Uniform's low < high rejection is modelled as `Uniform.GetParams`.
- `get_info` texts, CSS, page layout, Plotly figure construction, quantile marker traces and their `int(q*100)` labels, PNG/CSV export, and the reset and help buttons are presentation only.
- `generate_samples` draws from numpy's global random source. Its outcome is the `drawn` parameter of `App.BuildPage`.
- The sample metrics (np.mean, np.std, min and max of the samples, formatted) are numpy formatting of the drawn values.
- scipy's pdf/cdf/ppf values are foreign library calls, modelled as uninterpreted fields of `Numerics`. Nothing is proved about density shapes, cdf monotonicity or mass sums.
- np.sqrt and np.exp are fields of `Numerics`. Lemmas require only the laws `LawfulSqrt` and `LawfulExp`, where stated.
- IEEE floating point is not modelled: all arithmetic is over exact reals, including np.linspace's step.
- Standard Normal's module is not part of this model. Its registry entry is kept, but no parameter set fits it, so it cannot be drawn, compared or asked for statistics. The comparison selector's default choice (index 1) is exactly this entry.
- config.py is not imported by any file of the core, and its ranges disagree with the sliders.
- `f"{value:.3f}"` formatting: `App.Metric.Formatted` holds the value to be formatted, not its text. Two numbers that round to the same three decimals look the same on the page but differ in the model, so nothing is claimed about telling numbers apart.
- After an uncaught `ZeroDivisionError` in calculate_stats the run ends. The parts of the page rendered after that point are presentation and are left out.
- App.BuildPage: the `if x is not None` and `if comp_x is not None` checks are not modelled. Every `generate_data` here returns a domain, so both always hold.
- Distributions.QuantileDist: the frozen scipy distribution is modelled as the parameter set it is built from. Uniform's `uniform(loc=low, scale=high − low)` and Log-Normal's `lognorm(s=std, scale=exp(mean))` are taken to describe the same distribution as the pdf/cdf calls in their `generate_data`.
- Distributions.GenerateData: the dispatch states only what all variants share. Each variant's default-domain endpoints are stated by that variant's own `GenerateData`.
- App.OverlayScale: for a mass curve with no points the scale is 0. numpy would divide by zero there, but there are no values to scale.
- Distributions.StatsConsistent: stated for slider parameters and under `LawfulSqrt` and `LawfulExp` only. Outside them the foreign routines are unconstrained.
