/**
  The two Wasserstein losses of the cWGAN, over exact reals.

  A batch of critic scores is a non-empty sequence of reals; the losses are
  built from its arithmetic mean (reduce_mean).
 */
module Losses {

  /** Sum of the scores, accumulated from the left. */
  function Sum(s: seq<real>): (total: real)
  {
    if |s| == 0 then 0.0 else Sum(s[..|s| - 1]) + s[|s| - 1]
  }

  /** Arithmetic mean of a non-empty batch of scores. */
  function Mean(s: seq<real>): (mean: real)
    requires |s| > 0
  {
    Sum(s) / (|s| as real)
  }

  /** Every score moved by the same constant k. */
  function Shift(s: seq<real>, k: real): (r: seq<real>)
    ensures |r| == |s|
    ensures forall i :: 0 <= i < |s| ==> r[i] == s[i] + k
  {
    seq(|s|, i requires 0 <= i < |s| => s[i] + k)
  }

  /**
    The critic's loss: the negated Wasserstein estimate, so that gradient
    descent on it is gradient ascent on mean(real) - mean(fake). Identical
    real and fake scores give a zero loss.
   */
  function CriticLoss(realOutput: seq<real>, fakeOutput: seq<real>): (loss: real)
    requires |realOutput| > 0 && |fakeOutput| > 0
    ensures realOutput == fakeOutput ==> loss == 0.0
  {
    -(Mean(realOutput) - Mean(fakeOutput))
  }

  /**
    The generator's loss: the negated mean critic score of its samples, so it
    is never positive when the critic scores every sample non-negatively, and
    never negative when it scores every sample non-positively.
   */
  function GeneratorLoss(fakeOutput: seq<real>): (loss: real)
    requires |fakeOutput| > 0
    ensures (forall i :: 0 <= i < |fakeOutput| ==> 0.0 <= fakeOutput[i]) ==> loss <= 0.0
    ensures (forall i :: 0 <= i < |fakeOutput| ==> fakeOutput[i] <= 0.0) ==> 0.0 <= loss
  {
    SumSign(fakeOutput);
    -Mean(fakeOutput)
  }

  /** A sum of non-negative scores is non-negative, and of non-positive ones non-positive. */
  lemma {:induction false} SumSign(s: seq<real>)
    ensures (forall i :: 0 <= i < |s| ==> 0.0 <= s[i]) ==> 0.0 <= Sum(s)
    ensures (forall i :: 0 <= i < |s| ==> s[i] <= 0.0) ==> Sum(s) <= 0.0
  {
    if |s| > 0 {
      SumSign(s[..|s| - 1]);
    }
  }

  lemma {:induction false} SumShift(s: seq<real>, k: real)
    ensures Sum(Shift(s, k)) == Sum(s) + (|s| as real) * k
  {
    if |s| > 0 {
      var n := |s| - 1;
      assert Shift(s, k)[..n] == Shift(s[..n], k);
      SumShift(s[..n], k);
    }
  }

  /** Moving every score by k moves the mean by exactly k. */
  lemma MeanShift(s: seq<real>, k: real)
    requires |s| > 0
    ensures Mean(Shift(s, k)) == Mean(s) + k
  {
    SumShift(s, k);
    var n := |s| as real;
    var a := Sum(s);
    assert (a / n + k) * n == a + n * k;
    assert (a + n * k) / n == a / n + k;
  }

  lemma {:induction false} SumMonotone(a: seq<real>, b: seq<real>)
    requires |a| == |b|
    requires forall i :: 0 <= i < |a| ==> a[i] <= b[i]
    ensures Sum(a) <= Sum(b)
  {
    if |a| > 0 {
      var n := |a| - 1;
      SumMonotone(a[..n], b[..n]);
    }
  }

  lemma {:induction false} SumBounds(s: seq<real>, lo: real, hi: real)
    requires forall i :: 0 <= i < |s| ==> lo <= s[i] <= hi
    ensures (|s| as real) * lo <= Sum(s) <= (|s| as real) * hi
  {
    if |s| > 0 {
      SumBounds(s[..|s| - 1], lo, hi);
    }
  }

  /** The mean of a batch lies between its smallest and largest admissible score. */
  lemma MeanBounds(s: seq<real>, lo: real, hi: real)
    requires |s| > 0
    requires forall i :: 0 <= i < |s| ==> lo <= s[i] <= hi
    ensures lo <= Mean(s) <= hi
  {
    SumBounds(s, lo, hi);
    var n := |s| as real;
    assert Sum(s) / n >= (n * lo) / n;
    assert Sum(s) / n <= (n * hi) / n;
  }

  /**
    When every score of both batches lies in [lo, hi], the critic loss (and
    so the Wasserstein estimate, its negation) lies in [lo - hi, hi - lo].
   */
  lemma CriticLossBounded(realOutput: seq<real>, fakeOutput: seq<real>, lo: real, hi: real)
    requires |realOutput| > 0 && |fakeOutput| > 0
    requires forall i :: 0 <= i < |realOutput| ==> lo <= realOutput[i] <= hi
    requires forall i :: 0 <= i < |fakeOutput| ==> lo <= fakeOutput[i] <= hi
    ensures lo - hi <= CriticLoss(realOutput, fakeOutput) <= hi - lo
  {
    MeanBounds(realOutput, lo, hi);
    MeanBounds(fakeOutput, lo, hi);
  }

  /** Swapping real and fake scores negates the critic loss. */
  lemma CriticLossAntisymmetric(realOutput: seq<real>, fakeOutput: seq<real>)
    requires |realOutput| > 0 && |fakeOutput| > 0
    ensures CriticLoss(realOutput, fakeOutput) == -CriticLoss(fakeOutput, realOutput)
  {
  }

  /** Raising every fake score by k raises the critic loss by exactly k. */
  lemma CriticLossShiftFake(realOutput: seq<real>, fakeOutput: seq<real>, k: real)
    requires |realOutput| > 0 && |fakeOutput| > 0
    ensures CriticLoss(realOutput, Shift(fakeOutput, k)) == CriticLoss(realOutput, fakeOutput) + k
  {
    MeanShift(fakeOutput, k);
  }

  /** A common offset of all critic scores does not change the critic loss. */
  lemma CriticLossShiftBoth(realOutput: seq<real>, fakeOutput: seq<real>, k: real)
    requires |realOutput| > 0 && |fakeOutput| > 0
    ensures CriticLoss(Shift(realOutput, k), Shift(fakeOutput, k)) == CriticLoss(realOutput, fakeOutput)
  {
    MeanShift(realOutput, k);
    MeanShift(fakeOutput, k);
  }

  /** Adding k to every fake score changes the generator loss by exactly -k. */
  lemma GeneratorLossShift(fakeOutput: seq<real>, k: real)
    requires |fakeOutput| > 0
    ensures GeneratorLoss(Shift(fakeOutput, k)) == GeneratorLoss(fakeOutput) - k
  {
    MeanShift(fakeOutput, k);
  }

  /** So a positive offset strictly decreases the generator loss. */
  lemma GeneratorLossStrictlyDecreasing(fakeOutput: seq<real>, k: real)
    requires |fakeOutput| > 0 && k > 0.0
    ensures GeneratorLoss(Shift(fakeOutput, k)) < GeneratorLoss(fakeOutput)
  {
    GeneratorLossShift(fakeOutput, k);
  }

  /** Scores that are pointwise no lower never give a higher generator loss. */
  lemma GeneratorLossMonotone(lower: seq<real>, higher: seq<real>)
    requires |lower| == |higher| > 0
    requires forall i :: 0 <= i < |lower| ==> lower[i] <= higher[i]
    ensures GeneratorLoss(higher) <= GeneratorLoss(lower)
  {
    SumMonotone(lower, higher);
    var n := |lower| as real;
    assert Sum(lower) / n <= Sum(higher) / n;
  }
}
