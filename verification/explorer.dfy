/** One evaluation of the explorer: build the selected distribution, guard
    its statistics, choose its range and compute the curves over it. Each
    call depends on its arguments only. */
module Explorer {
  import opened Wrappers
  import opened Scipy
  import opened Catalog
  import opened Statistics
  import opened Curves

  datatype Report = Report(
    stats: Stats, shown: Stats, range: Option<seq<real>>, curves: Option<DerivedCurves>)

  method Explore(f: Family, lib: Library) returns (rep: Report)
    ensures var d := Instantiate(f, lib);
            && (rep.stats.mean.Some? <==> lib.mean(d).Returns? && lib.mean(d).v.Finite?)
            && (rep.stats.stdDev.Some? <==> lib.std(d).Returns? && lib.std(d).v.Finite?)
            && (rep.stats.skewness.Some? <==> lib.skewness(d).Returns? && lib.skewness(d).v.Finite?)
    ensures rep.stats == StatsOf(lib, Instantiate(f, lib))
    ensures rep.shown == Display(rep.stats)
    ensures rep.shown.skewness == rep.stats.skewness
    ensures rep.range == EvaluationRange(f, lib)
    ensures rep.range.Some? <==> Bounds(f, lib).Some?
    ensures rep.curves.Some? <==> rep.range.Some?
    ensures rep.range.Some? ==> |rep.range.value| == RangePoints
    ensures rep.curves.Some? ==>
              var x := rep.range.value;
              var c := rep.curves.value;
              && c.AlignedWith(x)
              && forall i :: 0 <= i < |x| ==> c.At(i) == EvalPoint(lib, Instantiate(f, lib), x[i])
  {
    var d := Instantiate(f, lib);
    var stats := StatsOf(lib, d);
    var range := EvaluationRange(f, lib);
    var curves: Option<DerivedCurves> := None;
    if range.Some? {
      var c := ComputeCurves(lib, d, range.value);
      curves := Some(c);
    }
    rep := Report(stats, Display(stats), range, curves);
  }
}
