/** The numeric library the explorer calls into (scipy.stats and numpy).
    Its distributions and special functions are foreign code: the model
    receives them as a `Library` value of total functions and assumes
    nothing about them beyond what an individual lemma states. */
module Scipy {
  import opened Wrappers

  /** An IEEE double as the library may return it: a finite value or one
      of the non-finite values that `np.isfinite` rejects. */
  datatype Float = Finite(r: real) | PosInf | NegInf | NaN

  /** The outcome of asking a distribution for a moment: it either raises
      an exception or returns a (possibly non-finite) number. */
  datatype Moment = Raises | Returns(v: Float)

  /** A frozen scipy distribution, one constructor per family the explorer
      builds, carrying exactly the arguments it is built with. */
  datatype Dist =
    | Norm(loc: real, scale: real)
    | GammaDist(a: real, scale: real)
    | BetaDist(a: real, b: real)
    | Expon(scale: real)
    | Chi2(df: real)
    | LogNorm(s: real, scale: real)
    | ErlangDist(k: int, scale: real)
    | ParetoDist(b: real)
    | Fisk(c: real)
    | Ncx2(df: real, nc: real)
    | Nct(df: real, nc: real)
    | KsTwo(n: int)
    | PowerLaw(a: real)
    | WeibullMin(c: real, scale: real)

  /** The library's evaluators. `ppf` answers None where scipy would
      return a non-finite quantile (degenerate or invalid parameters). */
  datatype Library = Library(
    pdf: (Dist, real) -> real,
    cdf: (Dist, real) -> real,
    ppf: (Dist, real) -> Option<real>,
    mean: Dist -> Moment,
    std: Dist -> Moment,
    skewness: Dist -> Moment,
    exp: real -> real)

  /** The cdf of `d` is non-decreasing in x (true of every valid cdf; a
      hypothesis of the lemmas that need it). */
  ghost predicate CdfMonotone(lib: Library, d: Dist) {
    forall x, y :: x <= y ==> lib.cdf(d, x) <= lib.cdf(d, y)
  }

  /** The cdf of `d` takes values in [0, 1]. */
  ghost predicate CdfIsProbability(lib: Library, d: Dist) {
    forall x :: 0.0 <= lib.cdf(d, x) <= 1.0
  }

  /** The pdf of `d` is never negative. */
  ghost predicate PdfNonNegative(lib: Library, d: Dist) {
    forall x :: 0.0 <= lib.pdf(d, x)
  }
}
