# Distribution Explorer — a Dafny model of its computational core

The Probability Distribution Explorer (`distViz.py`) lets a user pick one of
fourteen probability distribution families, enter its parameters, and see the
mean, standard deviation and skewness together with four curves (pdf, cdf,
reliability and hazard) drawn over a per-family evaluation range. A second
tab draws the log-likelihood of an exponential sample over a grid of rates
and reports the maximum-likelihood rate.

This project models the four pure computations under the Streamlit and
matplotlib code:

- `Statistics` — `safe_stats`: each of mean, standard deviation and
  skewness is guarded on its own. A raised exception or a non-finite value
  becomes the sentinel 'undefined', modelled as `None`.
- `Catalog` — the family dispatch: the scipy distribution each family
  builds, including the `int()` truncation of the Erlang shape and the
  Kolmogorov-Smirnov sample size. It also holds the per-family range rule
  and the 500-point `np.linspace` over it (`Numerics.Linspace`, exact real
  arithmetic, last point overwritten with the upper bound as numpy does).
- `Curves` — pdf and cdf sampled on the range, reliability = 1 − cdf, and
  hazard = pdf / reliability, which is `None` exactly where reliability is 0
  (the masked NaN of the source).
- `Likelihood` — the exponential log-likelihood n·ln λ − λ·S over 1000 rates
  in [0.1, 10] and at the chosen rate, and the estimate n / S.
- `Explorer.Explore` ties them together for one selection.

scipy.stats is foreign code. The model receives its pdf, cdf, ppf, moments
and `np.exp` as the fields of a `Scipy.Library` value of total functions.
The quantile and the moments may be non-finite (`None`, `NaN`, `±∞`); pdf,
cdf and exp return plain reals, so the model assumes them finite.
Lemmas that need facts about them (a monotone cdf, a cdf within [0, 1], a
non-negative pdf, an ordered pair of quantiles) take those facts as
hypotheses. The natural logarithm of the likelihood tab is a parameter `ln`.
The sample is an input sequence, not drawn.

In three places the model follows the code where a more defensive tool
would behave differently:

- A non-finite quantile is not rejected with an invalid-parameters error.
  The code passes it to `np.linspace`, and the model represents that as an
  absent range with no curves.
- The noncentral chi-square degrees of freedom are never truncated. The
  numeric input asks for a whole number (`format='%d'`, line 170), but the
  slider (line 165) passes 0.25 or 0.5 to `ncx2` as they are. Only the
  Erlang shape (line 145) and the KS sample size (line 194) go through
  `int()`.
- Out-of-range parameters are neither clamped nor rejected, and there is no
  "unknown family" error. The family set is a closed datatype, and the
  commented-out Cauchy branch is not part of it.

Note also that the sliders for the Erlang shape and the KS sample size offer
0.25 and 0.5, which `int()` turns into 0. The model passes such values on
exactly as the code does.

## Model

| member | source | states |
|---|---|---|
| `Numerics.Trunc` | distViz.py:145 | `int()` truncates toward zero: for x ≥ 0 the result r is a non-negative integer with r ≤ x < r + 1, and for x < 0 the mirror image |
| `Numerics.TruncOfWhole` | distViz.py:142 | a whole number, as the `%d` numeric input delivers it, passes through `int()` unchanged |
| `Numerics.Linspace` | distViz.py:62 | `np.linspace(lo, hi, num)` has exactly num points; the first is lo, the last is hi, and point i is lo + i·(hi − lo)/(num − 1) |
| `Numerics.LinspaceEvenlySpaced` | distViz.py:76 | consecutive points of a linspace differ by exactly one step (hi − lo)/(num − 1) |
| `Numerics.LinspaceOrdered` | distViz.py:216 | when lo ≤ hi the points are non-decreasing and all lie within [lo, hi] |
| `Catalog.Instantiate` | distViz.py:61-215 | each of the fourteen families builds its own scipy distribution (Normal `norm`, Gamma `gamma`, …, Weibull `weibull_min`, one to one); the Erlang shape (line 145) and the KS sample size (line 194) become the integer part of the entered value with the scale unchanged, and the log-normal gets shape σ and scale exp(μ) (line 131) |
| `Catalog.Bounds` | distViz.py:62-216 | Normal, Beta and Power always get bounds; bounds are missing only when the 99% quantile is not finite, or, for Pareto and noncentral t, the 1% quantile; every family except Normal, Pareto and noncentral t starts its range at 0 |
| `Catalog.IntegerParametersTruncated` | distViz.py:194 | the Erlang shape (line 145) and the KS sample size reach scipy as the integer part of the entered value, never more than it |
| `Catalog.EvaluationRange` | distViz.py:49-216 | every family's range, when present, has exactly 500 points running from its lower bound to its upper bound in equal steps; it is absent exactly when a needed quantile is not finite |
| `Catalog.BoundsObeyRule` | distViz.py:49-216 | the bounds chosen branch by branch agree with the per-family rule table: Normal [μ − 4σ, μ + 4σ]; Beta and Power [0, 1]; Pareto and noncentral t [ppf(0.01), ppf(0.99)]; the other nine families [0, ppf(0.99)] |
| `Catalog.NormalRangeSymmetric` | distViz.py:62 | the Normal range always exists, is centred on μ, and is 8σ wide |
| `Catalog.UnitRangeFamilies` | distViz.py:90 | Beta and Power ranges (lines 90 and 202) run exactly from 0 to 1, whatever the parameters and the library |
| `Catalog.RangeNonDecreasing` | distViz.py:76 | a range whose bounds are ordered exists and is non-decreasing |
| `Catalog.QuantileRangeOrdered` | distViz.py:153 | for Pareto and noncentral t (line 188), ordered 1% and 99% quantiles give a non-decreasing range |
| `Statistics.Guard` | distViz.py:17-22 | one guarded moment is defined exactly when the computation returned a finite value, and then it is that value |
| `Statistics.SafeStats` | distViz.py:16-35 | each of the three fields is defined exactly when its own moment returned a finite value, and then equals it |
| `Statistics.StatsOf` | distViz.py:223 | each displayed statistic of a built distribution is defined exactly when the library's own moment call returned a finite value, and then equals it |
| `Statistics.FieldsIndependent` | distViz.py:23-34 | changing the outcome of one moment computation, including to a failure, leaves the other two fields unchanged |
| `Statistics.FailuresBecomeUndefined` | distViz.py:29-34 | an exception, NaN and ±∞ all become 'undefined'; a finite value is kept |
| `Statistics.SkewnessShowsMean` | distViz.py:227 | for a distribution with mean 1 and skewness 0 the panel as written shows 1 as the skewness |
| `Statistics.DisplaysAgreeIff` | distViz.py:226-227 | the panel as written and the intended panel agree exactly when mean and skewness coincide |
| `Curves.Hazard` | distViz.py:251-253 | the hazard is undefined exactly where the reliability is 0; elsewhere hazard × reliability = pdf |
| `Curves.EvalPoint` | distViz.py:247-253 | at one point: pdf and cdf come from the library, reliability + cdf = 1, hazard is undefined exactly where cdf = 1, and hazard × reliability = pdf where it is defined |
| `Curves.ComputeCurves` | distViz.py:247-253 | the array computation gives four arrays aligned with the range that agree at every index with the scalar evaluation; reliability[i] + cdf[i] = 1; hazard[i] is undefined exactly where reliability[i] = 0 and equals pdf[i]/reliability[i] elsewhere |
| `Curves.CurvesInRange` | distViz.py:249-253 | with a cdf in [0, 1] and a non-negative pdf, reliability stays in [0, 1] and every defined hazard is non-negative |
| `Curves.CurvesMonotone` | distViz.py:248-249 | over a non-decreasing range, a monotone cdf gives a non-decreasing cdf curve and a non-increasing reliability curve |
| `Likelihood.Sum` | distViz.py:392 | the sum of non-negative draws is non-negative |
| `Likelihood.LogLikelihood` | distViz.py:395 | for a non-negative rate and sample sum, the log-likelihood never exceeds n·ln λ; the same formula gives the chosen-rate value at line 408 |
| `Likelihood.ClosedFormIsSampleSum` | distViz.py:395 | n·ln λ − λ·S equals the sum over the sample of the exponential log density ln λ − λ·x |
| `Likelihood.SumZeroIffAllZero` | distViz.py:392 | the sum of non-negative draws is non-negative, and zero exactly when every draw is zero |
| `Likelihood.LambdaGrid` | distViz.py:394 | the rate grid has 1000 points, starts at 0.1, ends at 10, and stays within [0.1, 10] |
| `Likelihood.Mle` | distViz.py:414 | the estimate is defined exactly when S ≠ 0, and then λ̂·S = n |
| `Likelihood.MleIsStationary` | distViz.py:414 | for n > 0 and S ≠ 0 the estimate is the one non-zero rate where the score n/λ − S vanishes |
| `Likelihood.ScoreSign` | distViz.py:414 | with S > 0 the score is positive below n/S and negative above it |
| `Likelihood.ComputePanel` | distViz.py:392-414 | the tab's grid is the rate grid; every curve value and the chosen-rate value is the sample's summed log density at that rate; the estimate is defined exactly when S ≠ 0 and satisfies λ̂·S = n |
| `Likelihood.ChosenOnCurve` | distViz.py:408 | when the chosen rate is a grid point, the reported log-likelihood is the curve's value there |
| `Explorer.Explore` | distViz.py:223-253 | one evaluation reports the guarded statistics of the built distribution, shows each in its own cell (true skewness), uses that family's 500-point evaluation range, and has curves exactly when the range exists, aligned to it and equal to the scalar evaluation at every point |

## Left out

- Streamlit widgets: the input-method radio, the family selectbox, sliders, numeric inputs and the tick-mark arrays. They only collect the parameters, which the model takes as the fields of `Catalog.Family`. The same goes for the Weibull slider limits.
- Matplotlib styling and plotting. This is presentation, except for one behaviour: the mean ±1 SD markers (lines 287-294) call `np.interp(mean, …)` and compute `mean + std_dev`. When either statistic is the string 'undefined', that raises. The script then stops before any plot and before the likelihood tab is drawn. The default Pareto (b = 2, line 149) and Log-Logistic (c = 2, line 156) reach this case, because their variance is infinite. The model computes the curves whatever the statistics are and does not represent this crash.
- The internals of scipy.stats (closed-form pdf, cdf, ppf and moments) and `np.exp`. They are foreign code and appear as the fields of `Scipy.Library`.
- The natural logarithm. It is a parameter, so the model does not prove that n/S maximises the log-likelihood. It proves only that the score vanishes there and changes sign around it.
- Random sampling with `np.random.exponential`. It is nondeterministic, so the sample is an input.
- Floating-point rounding, NaN and infinity propagation, and `np.errstate`. Reals are exact. Non-finite quantiles and moments are `None`; a non-finite pdf, cdf or exp cannot be represented.
- Curves.Hazard: its "undefined exactly where reliability is 0" relies on pdf and cdf being finite. Two source behaviours fall outside it. First, an infinite pdf at x = 0 when the shape is below 1 (Beta α < 1, Gamma and Power shape < 1, Weibull c < 1, Chi-Square df < 2, Log-Logistic c < 1 from the slider at line 156, noncentral chi-square df < 2 from the slider at line 165 or the numeric input at line 170) gives an infinite hazard[0]. Second, zero parameters accepted by the `min_value=0.0` inputs in families whose range needs no quantile (Normal σ = 0 at line 60, Beta a = 0 at line 86, Power a = 0 at line 200) give NaN pdf and cdf, and then every hazard point is NaN while reliability is not 0.
- Catalog.EvaluationRange: a non-finite quantile gives no range and no curves. The code would instead fill the range and the curves with non-finite numbers.
- Likelihood.Mle: a zero sum gives `None`. numpy would return infinity.
- Display rounding to two decimals (lines 224-225). `Statistics.Display` shows the unrounded guarded value.
- The commented-out Cauchy branch and the unreachable fallback `else`. The family datatype is closed.

## Findings

| source | as written | input that shows it | evidently intended | confidence | as-written member | corrected member |
|---|---|---|---|---|---|---|
| distViz.py:227 | the skewness cell shows `round(mean, 2)` | Normal with μ = 1, σ = 1: mean 1 and skewness 0, but the skewness cell shows 1 | show the skewness, as the commented-out line 226 does | high; not executed | `Statistics.DisplayAsWritten` (counterexample `Statistics.SkewnessShowsMean`) | `Statistics.Display` (used by `Explorer.Explore`) |
