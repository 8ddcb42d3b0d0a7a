/** The exponential likelihood tab: the log-likelihood of a sample over a
    grid of rates and at the chosen rate, and the closed-form estimate.
    `ln` is the natural logarithm, supplied by the caller. */
module Likelihood {
  import opened Wrappers
  import opened Numerics

  /** The rate grid: 1000 evenly spaced rates from 0.1 to 10. */
  const GridPoints: nat := 1000
  const GridLow: real := 0.1
  const GridHigh: real := 10.0

  /** The sum of the draws; non-negative draws have a non-negative sum. */
  function Sum(xs: seq<real>): (s: real)
    ensures (forall i :: 0 <= i < |xs| ==> 0.0 <= xs[i]) ==> 0.0 <= s
  {
    if |xs| == 0 then 0.0 else xs[0] + Sum(xs[1..])
  }

  /** The closed form the tab uses: n ln(rate) - rate S. */
  function LogLikelihood(ln: real -> real, n: int, s: real, rate: real): (l: real)
    ensures 0.0 <= rate && 0.0 <= s ==> l <= n as real * ln(rate)
  {
    n as real * ln(rate) - rate * s
  }

  /** The reference definition: the sum over the sample of the log of the
      exponential density, ln(rate e^(-rate x)) = ln(rate) - rate x. */
  function SampleLogLikelihood(ln: real -> real, xs: seq<real>, rate: real): real {
    if |xs| == 0 then 0.0
    else (ln(rate) - rate * xs[0]) + SampleLogLikelihood(ln, xs[1..], rate)
  }

  /** The closed form equals the sum of the per-sample log densities. */
  lemma {:induction false} ClosedFormIsSampleSum(ln: real -> real, xs: seq<real>, rate: real)
    ensures LogLikelihood(ln, |xs|, Sum(xs), rate) == SampleLogLikelihood(ln, xs, rate)
  {
    if |xs| > 0 {
      ClosedFormIsSampleSum(ln, xs[1..], rate);
      var m := |xs[1..]| as real;
      assert |xs| as real == m + 1.0;
      assert (m + 1.0) * ln(rate) == m * ln(rate) + ln(rate);
      assert rate * Sum(xs) == rate * xs[0] + rate * Sum(xs[1..]);
    }
  }

  /** Exponential draws are non-negative, so their sum is; and it is zero
      exactly when every draw is zero. */
  lemma {:induction false} SumZeroIffAllZero(xs: seq<real>)
    requires forall i :: 0 <= i < |xs| ==> 0.0 <= xs[i]
    ensures 0.0 <= Sum(xs)
    ensures Sum(xs) == 0.0 <==> forall i :: 0 <= i < |xs| ==> xs[i] == 0.0
  {
    if |xs| > 0 {
      assert forall i :: 0 <= i < |xs[1..]| ==> xs[1..][i] == xs[i + 1];
      SumZeroIffAllZero(xs[1..]);
      if Sum(xs) == 0.0 {
        forall i | 0 <= i < |xs|
          ensures xs[i] == 0.0
        {
          if i > 0 {
            assert xs[1..][i - 1] == xs[i];
          }
        }
      }
    }
  }

  function LambdaGrid(): (g: seq<real>)
    ensures |g| == GridPoints
    ensures g[0] == GridLow && g[GridPoints - 1] == GridHigh
    ensures forall i :: 0 <= i < GridPoints ==> GridLow <= g[i] <= GridHigh
  {
    LinspaceOrdered(GridLow, GridHigh, GridPoints);
    Linspace(GridLow, GridHigh, GridPoints)
  }

  /** The maximum-likelihood rate n / S; undefined for a zero sum. */
  function Mle(n: int, s: real): (r: Option<real>)
    ensures r.Some? <==> s != 0.0
    ensures r.Some? ==> r.value * s == n as real
  {
    if s == 0.0 then None else Some(n as real / s)
  }

  /** The derivative of the log-likelihood with respect to the rate: n / rate - S. */
  function Score(n: int, s: real, rate: real): real
    requires rate != 0.0
  {
    n as real / rate - s
  }

  /** For a non-empty sample with a non-zero sum, the estimate is the one
      non-zero rate where the score vanishes. */
  lemma MleIsStationary(n: int, s: real, rate: real)
    requires n > 0 && s != 0.0 && rate != 0.0
    ensures Mle(n, s).Some? && Mle(n, s).value != 0.0
    ensures Score(n, s, Mle(n, s).value) == 0.0
    ensures Score(n, s, rate) == 0.0 <==> Mle(n, s) == Some(rate)
  {
    var m := n as real / s;
    assert m * s == n as real;
    assert n as real / m == s by {
      assert s * m == n as real;
    }
    if Score(n, s, rate) == 0.0 {
      assert n as real / rate == s;
      assert n as real == s * rate;
      assert rate == n as real / s;
    }
  }

  /** With a positive sum the score is positive below the estimate and
      negative above it. */
  lemma ScoreSign(n: int, s: real, rate: real)
    requires n > 0 && s > 0.0 && rate > 0.0
    ensures rate < n as real / s ==> Score(n, s, rate) > 0.0
    ensures rate > n as real / s ==> Score(n, s, rate) < 0.0
  {
    var m := n as real / s;
    assert m * s == n as real;
    if rate < m {
      assert rate * s < m * s;
      assert n as real / rate > s by {
        assert (n as real / rate) * rate == n as real;
      }
    }
    if rate > m {
      assert rate * s > m * s;
      assert n as real / rate < s by {
        assert (n as real / rate) * rate == n as real;
      }
    }
  }

  /** What the tab computes from a sample and the chosen rate. */
  datatype Panel = Panel(grid: seq<real>, logLikelihoods: seq<real>, chosen: real, mle: Option<real>)

  /** The tab's numbers for `samples`, drawn at the chosen `rate`: the curve
      over the grid, the value at the chosen rate, and the estimate. Each
      log-likelihood it reports is the sum of the sample's log densities. */
  function ComputePanel(ln: real -> real, samples: seq<real>, rate: real): (p: Panel)
    ensures p.grid == LambdaGrid() && |p.logLikelihoods| == GridPoints
    ensures forall i :: 0 <= i < GridPoints ==>
              p.logLikelihoods[i] == SampleLogLikelihood(ln, samples, p.grid[i])
    ensures p.chosen == SampleLogLikelihood(ln, samples, rate)
    ensures p.mle.Some? <==> Sum(samples) != 0.0
    ensures p.mle.Some? ==> p.mle.value * Sum(samples) == |samples| as real
  {
    var n := |samples|;
    var s := Sum(samples);
    var grid := LambdaGrid();
    ClosedFormIsSampleSum(ln, samples, rate);
    AllClosedForms(ln, samples, grid);
    Panel(grid, seq(GridPoints, i requires 0 <= i < GridPoints => LogLikelihood(ln, n, s, grid[i])),
          LogLikelihood(ln, n, s, rate), Mle(n, s))
  }

  lemma AllClosedForms(ln: real -> real, xs: seq<real>, grid: seq<real>)
    ensures forall i :: 0 <= i < |grid| ==>
              LogLikelihood(ln, |xs|, Sum(xs), grid[i]) == SampleLogLikelihood(ln, xs, grid[i])
  {
    forall i | 0 <= i < |grid|
      ensures LogLikelihood(ln, |xs|, Sum(xs), grid[i]) == SampleLogLikelihood(ln, xs, grid[i])
    {
      ClosedFormIsSampleSum(ln, xs, grid[i]);
    }
  }

  /** Where the chosen rate is a grid point, the reported value is the
      curve's value there. */
  lemma ChosenOnCurve(ln: real -> real, samples: seq<real>, rate: real, i: nat)
    requires i < GridPoints && LambdaGrid()[i] == rate
    ensures ComputePanel(ln, samples, rate).chosen == ComputePanel(ln, samples, rate).logLikelihoods[i]
  {
  }
}
