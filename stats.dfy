/** Exact arithmetic over real-valued scores: sums, the arithmetic mean, the
    population variance and standard deviation, and the incremental running
    average the report keeps. */
module Stats {

  function Sum(xs: seq<real>): real {
    if |xs| == 0 then 0.0 else Sum(xs[..|xs| - 1]) + xs[|xs| - 1]
  }

  /** The arithmetic mean; an empty sample has mean 0, which is also the
      average a fresh report entry starts with. */
  function Mean(xs: seq<real>): real {
    if |xs| == 0 then 0.0 else Sum(xs) / |xs| as real
  }

  /** The sum of the squared deviations of the samples from `m`. */
  function SquaredDeviations(xs: seq<real>, m: real): real {
    if |xs| == 0 then 0.0
    else SquaredDeviations(xs[..|xs| - 1], m) + (xs[|xs| - 1] - m) * (xs[|xs| - 1] - m)
  }

  /** The population variance (numpy's default, no degrees-of-freedom correction). */
  function Variance(xs: seq<real>): real
    requires |xs| > 0
  {
    SquaredDeviations(xs, Mean(xs)) / |xs| as real
  }

  /** `sd` is the population standard deviation of `xs`: the non-negative
      square root of its variance. */
  predicate IsPopulationStd(xs: seq<real>, sd: real) {
    |xs| > 0 && sd >= 0.0 && sd * sd == Variance(xs)
  }

  /** The incremental update `(avg * c + s) / (c + 1)`. */
  function NextAverage(avg: real, count: nat, score: real): (r: real)
    ensures count == 0 ==> r == score
    ensures avg <= score ==> avg <= r <= score
    ensures score <= avg ==> score <= r <= avg
  {
    var n := count as real;
    var r := (avg * n + score) / (n + 1.0);
    assert r * (n + 1.0) == avg * n + score;
    r
  }

  lemma SumSnoc(xs: seq<real>, x: real)
    ensures Sum(xs + [x]) == Sum(xs) + x
  {
    assert (xs + [x])[..|xs|] == xs;
  }

  /** The incremental update turns the mean of `xs` into the mean of `xs + [x]`. */
  lemma NextAverageIsMean(xs: seq<real>, x: real)
    ensures NextAverage(Mean(xs), |xs|, x) == Mean(xs + [x])
  {
    SumSnoc(xs, x);
    var n := |xs| as real;
    if |xs| > 0 {
      assert Mean(xs) * n == Sum(xs);
    }
  }

  lemma {:induction false} SumBounds(xs: seq<real>, lo: real, hi: real)
    requires forall i :: 0 <= i < |xs| ==> lo <= xs[i] <= hi
    ensures |xs| as real * lo <= Sum(xs) <= |xs| as real * hi
  {
    if |xs| > 0 {
      SumBounds(xs[..|xs| - 1], lo, hi);
    }
  }

  /** The mean of samples in `[lo, hi]` lies in `[lo, hi]`. */
  lemma MeanBounds(xs: seq<real>, lo: real, hi: real)
    requires |xs| > 0
    requires forall i :: 0 <= i < |xs| ==> lo <= xs[i] <= hi
    ensures lo <= Mean(xs) <= hi
  {
    SumBounds(xs, lo, hi);
    var n := |xs| as real;
    assert Mean(xs) * n == Sum(xs);
  }

  lemma {:induction false} SquaredDeviationsNonNegative(xs: seq<real>, m: real)
    ensures SquaredDeviations(xs, m) >= 0.0
  {
    if |xs| > 0 {
      SquaredDeviationsNonNegative(xs[..|xs| - 1], m);
      var d := xs[|xs| - 1] - m;
      assert d * d >= 0.0;
    }
  }

  /** A single sample has variance 0, so its standard deviation is 0. */
  lemma SingleSampleStd(x: real)
    ensures Variance([x]) == 0.0
    ensures IsPopulationStd([x], 0.0)
  {
    assert [x][..0] == [];
    assert Sum([x]) == x;
    assert Mean([x]) == x;
    assert SquaredDeviations([x], x) == 0.0;
  }

  /** The standard deviation is determined by the samples. */
  lemma PopulationStdUnique(xs: seq<real>, a: real, b: real)
    requires IsPopulationStd(xs, a) && IsPopulationStd(xs, b)
    ensures a == b
  {
    if a < b {
      SquareStrictlyMonotone(a, b);
    } else if b < a {
      SquareStrictlyMonotone(b, a);
    }
  }

  lemma SquareStrictlyMonotone(a: real, b: real)
    requires 0.0 <= a < b
    ensures a * a < b * b
  {
    var d := b - a;
    assert b * b == a * a + d * (a + b);
    assert d * (a + b) > 0.0;
  }

  /** The population variance is never negative, so it always has a
      non-negative square root for the standard deviation to be. */
  lemma VarianceNonNegative(xs: seq<real>)
    requires |xs| > 0
    ensures Variance(xs) >= 0.0
  {
    SquaredDeviationsNonNegative(xs, Mean(xs));
  }
}
