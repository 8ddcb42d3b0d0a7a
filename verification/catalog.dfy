/** The families the explorer offers, the scipy distribution each one
    builds, and the interval on which its curves are drawn. */
module Catalog {
  import opened Wrappers
  import opened Scipy
  import opened Numerics

  /** A selected family together with the values entered for its
      parameters. Integer-valued inputs (Erlang shape, KS sample size)
      arrive as reals, as the sliders deliver them. */
  datatype Family =
    | Normal(mu: real, sigma: real)
    | Gamma(shape: real, scale: real)
    | Beta(a: real, b: real)
    | Exponential(scale: real)
    | Weibull(c: real, scale: real)
    | ChiSquare(df: real)
    | LogNormal(mu: real, sigma: real)
    | Erlang(k: real, scale: real)
    | Pareto(b: real)
    | LogLogistic(c: real)
    | NoncentralChiSquare(df: real, nc: real)
    | NoncentralT(df: real, nc: real)
    | KolmogorovSmirnov(n: real)
    | Power(a: real)

  /** Every range holds this many points. */
  const RangePoints: nat := 500

  /** The probabilities whose quantiles bound the quantile-based ranges. */
  const LowerTail: real := 0.01
  const UpperTail: real := 0.99

  /** The scipy distribution built for a family. Erlang's shape and the
      Kolmogorov-Smirnov sample size go through `int()`; the log-normal
      scale is `exp(mu)`. */
  function Instantiate(f: Family, lib: Library): (d: Dist)
    ensures f.Normal? <==> d.Norm?
    ensures f.Gamma? <==> d.GammaDist?
    ensures f.Beta? <==> d.BetaDist?
    ensures f.Exponential? <==> d.Expon?
    ensures f.ChiSquare? <==> d.Chi2?
    ensures f.Pareto? <==> d.ParetoDist?
    ensures f.LogLogistic? <==> d.Fisk?
    ensures f.NoncentralChiSquare? <==> d.Ncx2?
    ensures f.NoncentralT? <==> d.Nct?
    ensures f.Power? <==> d.PowerLaw?
    ensures f.Weibull? <==> d.WeibullMin?
    ensures f.Erlang? <==> d.ErlangDist?
    ensures f.Erlang? ==> d.scale == f.scale
    ensures f.Erlang? && 0.0 <= f.k ==> 0 <= d.k && d.k as real <= f.k < d.k as real + 1.0
    ensures f.KolmogorovSmirnov? <==> d.KsTwo?
    ensures f.KolmogorovSmirnov? && 0.0 <= f.n ==> 0 <= d.n && d.n as real <= f.n < d.n as real + 1.0
    ensures f.LogNormal? <==> d.LogNorm?
    ensures f.LogNormal? ==> d.s == f.sigma && d.scale == lib.exp(f.mu)
  {
    match f
    case Normal(mu, sigma) => Norm(mu, sigma)
    case Gamma(shape, scale) => GammaDist(shape, scale)
    case Beta(a, b) => BetaDist(a, b)
    case Exponential(scale) => Expon(scale)
    case ChiSquare(df) => Chi2(df)
    case LogNormal(mu, sigma) => LogNorm(sigma, lib.exp(mu))
    case Erlang(k, scale) => ErlangDist(Trunc(k), scale)
    case Pareto(b) => ParetoDist(b)
    case LogLogistic(c) => Fisk(c)
    case NoncentralChiSquare(df, nc) => Ncx2(df, nc)
    case NoncentralT(df, nc) => Nct(df, nc)
    case KolmogorovSmirnov(n) => KsTwo(Trunc(n))
    case Power(a) => PowerLaw(a)
    case Weibull(c, scale) => WeibullMin(c, scale)
  }

  /** The Erlang shape and the KS sample size reach scipy as whole numbers:
      the integer part of a non-negative input, and never more than it. */
  lemma IntegerParametersTruncated(f: Family, lib: Library)
    requires f.Erlang? || f.KolmogorovSmirnov?
    ensures var d := Instantiate(f, lib);
            var v := if f.Erlang? then f.k else f.n;
            var w := if d.ErlangDist? then d.k else d.n;
            && (d.ErlangDist? <==> f.Erlang?)
            && (0.0 <= v ==> 0 <= w && w as real <= v < w as real + 1.0)
            && (v < 0.0 ==> w <= 0 && w as real - 1.0 < v <= w as real)
  {
  }

  /** [0, ppf(0.99)]: for families supported on the non-negative axis. */
  function ZeroToUpper(d: Dist, lib: Library): Option<(real, real)>
  {
    match lib.ppf(d, UpperTail)
    case Some(hi) => Some((0.0, hi))
    case None => None
  }

  /** [ppf(0.01), ppf(0.99)]: for families with an unbounded or shifted tail. */
  function LowerToUpper(d: Dist, lib: Library): Option<(real, real)>
  {
    match (lib.ppf(d, LowerTail), lib.ppf(d, UpperTail))
    case (Some(lo), Some(hi)) => Some((lo, hi))
    case _ => None
  }

  /** The end points of a family's evaluation range, branch by branch as
      the explorer chooses them; None where a quantile it needs is not
      finite. */
  function Bounds(f: Family, lib: Library): (b: Option<(real, real)>)
    ensures f.Normal? || f.Beta? || f.Power? ==> b.Some?
    ensures b.None? ==> lib.ppf(Instantiate(f, lib), UpperTail).None?
                        || ((f.Pareto? || f.NoncentralT?) && lib.ppf(Instantiate(f, lib), LowerTail).None?)
    ensures b.Some? && !f.Normal? && !f.Pareto? && !f.NoncentralT? ==> b.value.0 == 0.0
  {
    var d := Instantiate(f, lib);
    match f
    case Normal(mu, sigma) => Some((mu - 4.0 * sigma, mu + 4.0 * sigma))
    case Gamma(_, _) => ZeroToUpper(d, lib)
    case Beta(_, _) => Some((0.0, 1.0))
    case Exponential(_) => ZeroToUpper(d, lib)
    case ChiSquare(_) => ZeroToUpper(d, lib)
    case LogNormal(_, _) => ZeroToUpper(d, lib)
    case Erlang(_, _) => ZeroToUpper(d, lib)
    case Pareto(_) => LowerToUpper(d, lib)
    case LogLogistic(_) => ZeroToUpper(d, lib)
    case NoncentralChiSquare(_, _) => ZeroToUpper(d, lib)
    case NoncentralT(_, _) => LowerToUpper(d, lib)
    case KolmogorovSmirnov(_) => ZeroToUpper(d, lib)
    case Power(_) => Some((0.0, 1.0))
    case Weibull(_, _) => ZeroToUpper(d, lib)
  }

  /** The 500 evenly spaced points on which a family's curves are drawn. */
  function EvaluationRange(f: Family, lib: Library): (r: Option<seq<real>>)
    ensures r.Some? <==> Bounds(f, lib).Some?
    ensures r.Some? ==>
      var (lo, hi) := Bounds(f, lib).value;
      && |r.value| == RangePoints
      && r.value[0] == lo
      && r.value[RangePoints - 1] == hi
      && forall i :: 0 <= i < RangePoints ==> r.value[i] == lo + i as real * Step(lo, hi, RangePoints)
  {
    match Bounds(f, lib)
    case Some((lo, hi)) => Some(Linspace(lo, hi, RangePoints))
    case None => None
  }

  /** The range rules as a table keyed by family, independent of the branch
      structure of `Bounds`. */
  datatype RangeRule = FourSigma | UnitInterval | ZeroToUpperQuantile | QuantileSpan

  function RuleOf(f: Family): RangeRule {
    if f.Normal? then FourSigma
    else if f.Beta? || f.Power? then UnitInterval
    else if f.Pareto? || f.NoncentralT? then QuantileSpan
    else ZeroToUpperQuantile
  }

  /** What a bound pair `b` must be under `rule` for family `f`. */
  ghost predicate Obeys(rule: RangeRule, f: Family, lib: Library, b: Option<(real, real)>) {
    var d := Instantiate(f, lib);
    match rule
    case FourSigma =>
      && f.Normal? && b.Some?
      && b.value.0 + b.value.1 == 2.0 * f.mu
      && b.value.1 - b.value.0 == 8.0 * f.sigma
    case UnitInterval => b == Some((0.0, 1.0))
    case ZeroToUpperQuantile =>
      && (b.Some? <==> lib.ppf(d, UpperTail).Some?)
      && (b.Some? ==> b.value.0 == 0.0 && b.value.1 == lib.ppf(d, UpperTail).value)
    case QuantileSpan =>
      && (b.Some? <==> lib.ppf(d, LowerTail).Some? && lib.ppf(d, UpperTail).Some?)
      && (b.Some? ==> b.value.0 == lib.ppf(d, LowerTail).value && b.value.1 == lib.ppf(d, UpperTail).value)
  }

  /** Every family's bounds follow its rule from the table. */
  lemma BoundsObeyRule(f: Family, lib: Library)
    ensures Obeys(RuleOf(f), f, lib, Bounds(f, lib))
  {
  }

  /** The Normal range is centred on the mean and 8 standard deviations
      wide; it is never missing. */
  lemma NormalRangeSymmetric(mu: real, sigma: real, lib: Library)
    ensures var r := EvaluationRange(Normal(mu, sigma), lib);
            && r.Some?
            && r.value[0] + r.value[RangePoints - 1] == 2.0 * mu
            && r.value[RangePoints - 1] - r.value[0] == 8.0 * sigma
  {
  }

  /** Beta and Power ranges are exactly [0, 1], whatever the parameters and
      whatever the library. */
  lemma UnitRangeFamilies(f: Family, lib: Library)
    requires f.Beta? || f.Power?
    ensures var r := EvaluationRange(f, lib);
            r.Some? && r.value[0] == 0.0 && r.value[RangePoints - 1] == 1.0
  {
  }

  /** A range exists and is non-decreasing whenever its bounds are ordered;
      for the Normal family that is whenever sigma >= 0. */
  lemma RangeNonDecreasing(f: Family, lib: Library)
    requires Bounds(f, lib).Some? && Bounds(f, lib).value.0 <= Bounds(f, lib).value.1
    ensures EvaluationRange(f, lib).Some?
    ensures NonDecreasing(EvaluationRange(f, lib).value)
  {
    var (lo, hi) := Bounds(f, lib).value;
    LinspaceOrdered(lo, hi, RangePoints);
  }

  /** For the quantile-based families the range is ordered as soon as the
      library's 1% quantile does not exceed its 99% quantile. */
  lemma QuantileRangeOrdered(f: Family, lib: Library)
    requires RuleOf(f) == QuantileSpan
    requires var d := Instantiate(f, lib);
             lib.ppf(d, LowerTail).Some? && lib.ppf(d, UpperTail).Some?
             && lib.ppf(d, LowerTail).value <= lib.ppf(d, UpperTail).value
    ensures EvaluationRange(f, lib).Some?
    ensures NonDecreasing(EvaluationRange(f, lib).value)
  {
    BoundsObeyRule(f, lib);
    RangeNonDecreasing(f, lib);
  }
}
