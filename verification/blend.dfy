/** Combining risk factors into one score: Python's left-to-right `sum`,
    the unweighted mean and the weighted sum. */
module Blend {

  function Sum(xs: seq<real>): real {
    if |xs| == 0 then 0.0 else Sum(xs[..|xs| - 1]) + xs[|xs| - 1]
  }

  /** Sums accumulate left to right. */
  lemma SumStep(xs: seq<real>, n: nat)
    requires n < |xs|
    ensures Sum(xs[..n + 1]) == Sum(xs[..n]) + xs[n]
  {
    assert xs[..n + 1][..n] == xs[..n];
  }

  ghost predicate AllInUnit(xs: seq<real>) {
    forall i :: 0 <= i < |xs| ==> 0.0 <= xs[i] <= 1.0
  }

  ghost predicate AllNonNegative(xs: seq<real>) {
    forall i :: 0 <= i < |xs| ==> xs[i] >= 0.0
  }

  /** A sum of values in [0, 1] lies between 0 and the number of values. */
  lemma {:induction false} SumOfUnitValues(xs: seq<real>)
    requires AllInUnit(xs)
    ensures 0.0 <= Sum(xs) <= |xs| as real
  {
    if |xs| > 0 {
      SumOfUnitValues(xs[..|xs| - 1]);
    }
  }

  /** A sum of non-negative values is at least each of them. */
  lemma {:induction false} SumBoundsEachTerm(xs: seq<real>, i: nat)
    requires AllNonNegative(xs) && i < |xs|
    ensures Sum(xs) >= xs[i]
  {
    var n := |xs| - 1;
    NonNegativeSum(xs[..n]);
    if i < n {
      SumBoundsEachTerm(xs[..n], i);
    }
  }

  lemma {:induction false} NonNegativeSum(xs: seq<real>)
    requires AllNonNegative(xs)
    ensures Sum(xs) >= 0.0
  {
    if |xs| > 0 {
      NonNegativeSum(xs[..|xs| - 1]);
    }
  }

  /** `sum(xs) / len(xs)`. */
  function Mean(xs: seq<real>): (m: real)
    requires |xs| > 0
    ensures AllNonNegative(xs) ==> m >= 0.0
  {
    assert AllNonNegative(xs) ==> Sum(xs) >= 0.0 by {
      if AllNonNegative(xs) {
        NonNegativeSum(xs);
      }
    }
    Sum(xs) / (|xs| as real)
  }

  /** The mean of factors in [0, 1] is itself in [0, 1]. */
  lemma MeanOfUnitValues(xs: seq<real>)
    requires |xs| > 0 && AllInUnit(xs)
    ensures 0.0 <= Mean(xs) <= 1.0
  {
    SumOfUnitValues(xs);
    var n := |xs| as real;
    assert Sum(xs) / n <= n / n;
  }

  /** `sum(f * w for f, w in zip(factors, weights))`. */
  function WeightedSum(fs: seq<real>, ws: seq<real>): real
    requires |fs| == |ws|
  {
    if |fs| == 0 then 0.0
    else WeightedSum(fs[..|fs| - 1], ws[..|ws| - 1]) + fs[|fs| - 1] * ws[|ws| - 1]
  }

  lemma WeightedSumStep(fs: seq<real>, ws: seq<real>, n: nat)
    requires |fs| == |ws| && n < |fs|
    ensures WeightedSum(fs[..n + 1], ws[..n + 1]) == WeightedSum(fs[..n], ws[..n]) + fs[n] * ws[n]
  {
    assert fs[..n + 1][..n] == fs[..n];
    assert ws[..n + 1][..n] == ws[..n];
  }

  /** With non-negative weights, a weighted sum of factors in [0, 1] lies
      between 0 and the total weight. */
  lemma {:induction false} WeightedSumBounds(fs: seq<real>, ws: seq<real>)
    requires |fs| == |ws| && AllInUnit(fs) && AllNonNegative(ws)
    ensures 0.0 <= WeightedSum(fs, ws) <= Sum(ws)
  {
    if |fs| > 0 {
      var n := |fs| - 1;
      WeightedSumBounds(fs[..n], ws[..n]);
      assert 0.0 <= fs[n] * ws[n] <= ws[n] by {
        assert ws[n] - fs[n] * ws[n] == (1.0 - fs[n]) * ws[n];
      }
      assert WeightedSum(fs, ws) == WeightedSum(fs[..n], ws[..n]) + fs[n] * ws[n];
      assert Sum(ws) == Sum(ws[..n]) + ws[n];
    }
  }

  /** Weights that total 1 blend factors in [0, 1] into a score in [0, 1]. */
  lemma WeightedSumOfUnitValues(fs: seq<real>, ws: seq<real>)
    requires |fs| == |ws| && AllInUnit(fs) && AllNonNegative(ws) && Sum(ws) == 1.0
    ensures 0.0 <= WeightedSum(fs, ws) <= 1.0
  {
    WeightedSumBounds(fs, ws);
  }

  /** Equal weights of `1/n` turn the weighted sum into the mean. */
  lemma {:induction false} UniformWeightsGiveMean(fs: seq<real>, ws: seq<real>)
    requires |fs| == |ws| > 0
    requires forall i :: 0 <= i < |ws| ==> ws[i] == 1.0 / (|ws| as real)
    ensures WeightedSum(fs, ws) == Mean(fs)
  {
    ScaledSum(fs, ws, 1.0 / (|ws| as real));
  }

  lemma {:induction false} ScaledSum(fs: seq<real>, ws: seq<real>, c: real)
    requires |fs| == |ws|
    requires forall i :: 0 <= i < |ws| ==> ws[i] == c
    ensures WeightedSum(fs, ws) == Sum(fs) * c
  {
    if |fs| > 0 {
      var n := |fs| - 1;
      ScaledSum(fs[..n], ws[..n], c);
      assert WeightedSum(fs, ws) == Sum(fs[..n]) * c + fs[n] * c;
    }
  }
}
