/** The four curves drawn over an evaluation range: pdf, cdf, reliability
    and hazard. */
module Curves {
  import opened Wrappers
  import opened Scipy
  import opened Numerics

  /** The curves at a single point; hazard None is the masked NaN. */
  datatype Point = Point(pdf: real, cdf: real, reliability: real, hazard: Option<real>)

  /** Four arrays, index-aligned with the range they were computed on. */
  datatype DerivedCurves = DerivedCurves(
    pdf: seq<real>, cdf: seq<real>, reliability: seq<real>, hazard: seq<Option<real>>)
  {
    ghost predicate AlignedWith(x: seq<real>) {
      |pdf| == |x| && |cdf| == |x| && |reliability| == |x| && |hazard| == |x|
    }

    function At(i: nat): Point
      requires i < |pdf| && i < |cdf| && i < |reliability| && i < |hazard|
    {
      Point(pdf[i], cdf[i], reliability[i], hazard[i])
    }
  }

  /** The guarded hazard quotient: undefined where the reliability is 0. */
  function Hazard(pdf: real, reliability: real): (h: Option<real>)
    ensures h.None? <==> reliability == 0.0
    ensures h.Some? ==> h.value * reliability == pdf
  {
    if reliability == 0.0 then None else Some(pdf / reliability)
  }

  /** The curves at one point, evaluated scalar by scalar. */
  function EvalPoint(lib: Library, d: Dist, x: real): (p: Point)
    ensures p.pdf == lib.pdf(d, x) && p.cdf == lib.cdf(d, x)
    ensures p.reliability + p.cdf == 1.0
    ensures p.hazard.None? <==> p.cdf == 1.0
    ensures p.hazard.Some? ==> p.hazard.value * p.reliability == p.pdf
  {
    var c := lib.cdf(d, x);
    Point(lib.pdf(d, x), c, 1.0 - c, Hazard(lib.pdf(d, x), 1.0 - c))
  }

  /** The curves over a whole range, array by array as numpy computes them:
      pdf and cdf, then reliability = 1 - cdf, then the quotient pdf /
      reliability with the zero-reliability points masked. The result agrees
      point for point with the scalar evaluation. */
  method ComputeCurves(lib: Library, d: Dist, x: seq<real>) returns (c: DerivedCurves)
    ensures c.AlignedWith(x)
    ensures forall i :: 0 <= i < |x| ==> c.At(i) == EvalPoint(lib, d, x[i])
    ensures forall i :: 0 <= i < |x| ==> c.reliability[i] + c.cdf[i] == 1.0
    ensures forall i :: 0 <= i < |x| ==> (c.hazard[i].None? <==> c.reliability[i] == 0.0)
    ensures forall i :: 0 <= i < |x| && c.reliability[i] != 0.0 ==>
              c.hazard[i] == Some(c.pdf[i] / c.reliability[i])
  {
    var pdf: seq<real> := [];
    var cdf: seq<real> := [];
    var rel: seq<real> := [];
    var i := 0;
    while i < |x|
      invariant 0 <= i <= |x|
      invariant |pdf| == i && |cdf| == i && |rel| == i
      invariant forall j :: 0 <= j < i ==> pdf[j] == lib.pdf(d, x[j])
      invariant forall j :: 0 <= j < i ==> cdf[j] == lib.cdf(d, x[j])
      invariant forall j :: 0 <= j < i ==> rel[j] == 1.0 - cdf[j]
    {
      pdf := pdf + [lib.pdf(d, x[i])];
      cdf := cdf + [lib.cdf(d, x[i])];
      rel := rel + [1.0 - cdf[i]];
      i := i + 1;
    }
    var hazard: seq<Option<real>> := [];
    i := 0;
    while i < |x|
      invariant 0 <= i <= |x|
      invariant |hazard| == i
      invariant forall j :: 0 <= j < i ==> hazard[j] == Hazard(pdf[j], rel[j])
    {
      hazard := hazard + [if rel[i] == 0.0 then None else Some(pdf[i] / rel[i])];
      i := i + 1;
    }
    c := DerivedCurves(pdf, cdf, rel, hazard);
  }

  /** Reliability lies in [0, 1] and hazard is never negative when the
      library's cdf is a probability and its pdf is non-negative; hazard is
      then undefined exactly where the cdf has reached 1. */
  lemma CurvesInRange(lib: Library, d: Dist, x: seq<real>, c: DerivedCurves)
    requires CdfIsProbability(lib, d) && PdfNonNegative(lib, d)
    requires c.AlignedWith(x)
    requires forall i :: 0 <= i < |x| ==> c.At(i) == EvalPoint(lib, d, x[i])
    ensures forall i :: 0 <= i < |x| ==> 0.0 <= c.reliability[i] <= 1.0
    ensures forall i :: 0 <= i < |x| && c.hazard[i].Some? ==> 0.0 <= c.hazard[i].value
  {
    forall i | 0 <= i < |x|
      ensures 0.0 <= c.reliability[i] <= 1.0
      ensures c.hazard[i].Some? ==> 0.0 <= c.hazard[i].value
    {
      assert c.At(i) == EvalPoint(lib, d, x[i]);
      var p := lib.pdf(d, x[i]);
      var r := c.reliability[i];
      assert 0.0 <= p && 0.0 <= r;
      if c.hazard[i].Some? {
        assert r != 0.0;
        assert c.hazard[i].value == p / r;
      }
    }
  }

  /** Over a non-decreasing range, a monotone cdf gives a non-decreasing cdf
      curve and a non-increasing reliability curve. */
  lemma CurvesMonotone(lib: Library, d: Dist, x: seq<real>, c: DerivedCurves)
    requires CdfMonotone(lib, d) && NonDecreasing(x)
    requires c.AlignedWith(x)
    requires forall i :: 0 <= i < |x| ==> c.At(i) == EvalPoint(lib, d, x[i])
    ensures NonDecreasing(c.cdf)
    ensures NonIncreasing(c.reliability)
  {
    forall i, j | 0 <= i <= j < |x|
      ensures c.cdf[i] <= c.cdf[j] && c.reliability[j] <= c.reliability[i]
    {
      assert c.At(i) == EvalPoint(lib, d, x[i]);
      assert c.At(j) == EvalPoint(lib, d, x[j]);
      assert x[i] <= x[j];
    }
  }
}
