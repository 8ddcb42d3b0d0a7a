/** Python's `int()` on a float and numpy's `linspace`, in exact reals. */
module Numerics {

  /** Python `int(x)` for a float: truncation toward zero. */
  function Trunc(x: real): (r: int)
    ensures 0.0 <= x ==> 0 <= r && r as real <= x < r as real + 1.0
    ensures x < 0.0 ==> r <= 0 && r as real - 1.0 < x <= r as real
  {
    if 0.0 <= x then x.Floor else -((-x).Floor)
  }

  /** Truncation leaves whole numbers unchanged. */
  lemma TruncOfWhole(n: int)
    ensures Trunc(n as real) == n
  {
  }

  /** The non-decreasing sequences. */
  ghost predicate NonDecreasing(s: seq<real>) {
    forall i, j :: 0 <= i <= j < |s| ==> s[i] <= s[j]
  }

  /** The non-increasing sequences. */
  ghost predicate NonIncreasing(s: seq<real>) {
    forall i, j :: 0 <= i <= j < |s| ==> s[j] <= s[i]
  }

  /** The spacing numpy uses between consecutive points. */
  function Step(lo: real, hi: real, num: nat): real
    requires num > 1
  {
    (hi - lo) / (num - 1) as real
  }

  /** `np.linspace(lo, hi, num)` with its default `endpoint=True`: point i is
      `lo + i * step`, and the last point is then overwritten with `hi`. */
  function Linspace(lo: real, hi: real, num: nat): (r: seq<real>)
    ensures |r| == num
    ensures num > 0 ==> r[0] == lo
    ensures num > 1 ==> r[num - 1] == hi
    ensures num > 1 ==> forall i :: 0 <= i < num ==> r[i] == lo + i as real * Step(lo, hi, num)
  {
    if num <= 1 then
      seq(num, i requires 0 <= i < num => lo)
    else
      var y := seq(num, i requires 0 <= i < num => lo + i as real * Step(lo, hi, num));
      StepLands(lo, hi, num);
      y[num - 1 := hi]
  }

  /** Taking num - 1 steps from lo lands exactly on hi. */
  lemma StepLands(lo: real, hi: real, num: nat)
    requires num > 1
    ensures lo + (num - 1) as real * Step(lo, hi, num) == hi
  {
    var d := (num - 1) as real;
    assert d * ((hi - lo) / d) == hi - lo;
  }

  /** Consecutive points of a linspace are exactly one step apart. */
  lemma LinspaceEvenlySpaced(lo: real, hi: real, num: nat, i: nat)
    requires num > 1 && i + 1 < num
    ensures Linspace(lo, hi, num)[i + 1] - Linspace(lo, hi, num)[i] == Step(lo, hi, num)
  {
    var r := Linspace(lo, hi, num);
    var s := Step(lo, hi, num);
    assert r[i + 1] == lo + (i + 1) as real * s;
    assert r[i] == lo + i as real * s;
    assert (i + 1) as real * s == i as real * s + s;
  }

  /** With lo <= hi a linspace is non-decreasing and stays inside [lo, hi]. */
  lemma LinspaceOrdered(lo: real, hi: real, num: nat)
    requires lo <= hi
    ensures NonDecreasing(Linspace(lo, hi, num))
    ensures forall i :: 0 <= i < num ==> lo <= Linspace(lo, hi, num)[i] <= hi
  {
    var r := Linspace(lo, hi, num);
    if num > 1 {
      var s := Step(lo, hi, num);
      var d := (num - 1) as real;
      assert 0.0 <= s by {
        assert 0.0 <= hi - lo && 0.0 < d;
      }
      forall i, j | 0 <= i <= j < num
        ensures r[i] <= r[j]
      {
        MulMonotone(i as real, j as real, s);
      }
      forall i | 0 <= i < num
        ensures lo <= r[i] <= hi
      {
        MulMonotone(0.0, i as real, s);
        MulMonotone(i as real, d, s);
        StepLands(lo, hi, num);
      }
    }
  }

  lemma MulMonotone(a: real, b: real, s: real)
    requires a <= b && 0.0 <= s
    ensures a * s <= b * s
  {
  }
}
