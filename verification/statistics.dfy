/** The summary panel: mean, standard deviation and skewness, each guarded
    on its own so that an undefined moment shows as 'undefined'. */
module Statistics {
  import opened Wrappers
  import opened Scipy

  /** The three guarded statistics; None is the sentinel 'undefined'. */
  datatype Stats = Stats(mean: Option<real>, stdDev: Option<real>, skewness: Option<real>)

  /** One guarded computation: a moment that raised, or returned a value
      `np.isfinite` rejects, becomes 'undefined'. */
  function Guard(m: Moment): (r: Option<real>)
    ensures r.Some? <==> m.Returns? && m.v.Finite?
    ensures r.Some? ==> m == Returns(Finite(r.value))
  {
    match m
    case Returns(Finite(x)) => Some(x)
    case Returns(_) => None
    case Raises => None
  }

  /** The guard applied to the three moments separately. */
  function SafeStats(mean: Moment, std: Moment, skew: Moment): (s: Stats)
    ensures s.mean.Some? <==> mean.Returns? && mean.v.Finite?
    ensures s.stdDev.Some? <==> std.Returns? && std.v.Finite?
    ensures s.skewness.Some? <==> skew.Returns? && skew.v.Finite?
    ensures s.mean.Some? ==> mean == Returns(Finite(s.mean.value))
    ensures s.stdDev.Some? ==> std == Returns(Finite(s.stdDev.value))
    ensures s.skewness.Some? ==> skew == Returns(Finite(s.skewness.value))
  {
    Stats(Guard(mean), Guard(std), Guard(skew))
  }

  /** The statistics of a built distribution, asking the library once per
      moment. */
  function StatsOf(lib: Library, d: Dist): (s: Stats)
    ensures s.mean.Some? <==> lib.mean(d).Returns? && lib.mean(d).v.Finite?
    ensures s.stdDev.Some? <==> lib.std(d).Returns? && lib.std(d).v.Finite?
    ensures s.skewness.Some? <==> lib.skewness(d).Returns? && lib.skewness(d).v.Finite?
    ensures s.mean.Some? ==> lib.mean(d) == Returns(Finite(s.mean.value))
    ensures s.stdDev.Some? ==> lib.std(d) == Returns(Finite(s.stdDev.value))
    ensures s.skewness.Some? ==> lib.skewness(d) == Returns(Finite(s.skewness.value))
  {
    SafeStats(lib.mean(d), lib.std(d), lib.skewness(d))
  }

  /** Each field depends on its own moment only: changing the outcome of one
      computation, to a failure or to anything else, leaves the other two
      fields as they were. */
  lemma FieldsIndependent(m: Moment, s: Moment, k: Moment, m': Moment, s': Moment, k': Moment)
    ensures SafeStats(m', s, k).stdDev == SafeStats(m, s, k).stdDev
    ensures SafeStats(m', s, k).skewness == SafeStats(m, s, k).skewness
    ensures SafeStats(m, s', k).mean == SafeStats(m, s, k).mean
    ensures SafeStats(m, s', k).skewness == SafeStats(m, s, k).skewness
    ensures SafeStats(m, s, k').mean == SafeStats(m, s, k).mean
    ensures SafeStats(m, s, k').stdDev == SafeStats(m, s, k).stdDev
  {
  }

  /** A raised exception and a non-finite result both end as the sentinel;
      a finite result is shown unchanged. */
  lemma FailuresBecomeUndefined(x: real)
    ensures Guard(Raises) == None
    ensures Guard(Returns(NaN)) == None
    ensures Guard(Returns(PosInf)) == None && Guard(Returns(NegInf)) == None
    ensures Guard(Returns(Finite(x))) == Some(x)
  {
  }

  /** What the summary panel shows, as written: its skewness cell is filled
      from the mean. */
  function DisplayAsWritten(s: Stats): (shown: Stats)
  {
    Stats(s.mean, s.stdDev, s.mean)
  }

  /** The panel as evidently intended: every cell shows its own statistic. */
  function Display(s: Stats): (shown: Stats)
  {
    Stats(s.mean, s.stdDev, s.skewness)
  }

  /** A Normal(1, 1) reports mean 1 and skewness 0; the panel as written
      shows 1 in the skewness cell. */
  lemma SkewnessShowsMean()
    ensures var s := SafeStats(Returns(Finite(1.0)), Returns(Finite(1.0)), Returns(Finite(0.0)));
            DisplayAsWritten(s).skewness == Some(1.0) != s.skewness
  {
  }

  /** The panel as written agrees with the intended one exactly when the
      mean and the skewness coincide. */
  lemma DisplaysAgreeIff(s: Stats)
    ensures DisplayAsWritten(s) == Display(s) <==> s.mean == s.skewness
  {
  }
}
