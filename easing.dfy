/**
 * The cubic ease-in-out curve that turns progress into a blend factor.
 * The same expression is written out in Ornaments.tsx, TopStar.tsx,
 * Bear.tsx and the particle vertex shader; it is defined once here.
 */
module Easing {
  import opened Numerics

  /** The branch used below one half: 4x^3. */
  function EaseIn(x: real): real
  {
    4.0 * x * x * x
  }

  /** The branch used from one half on: 1 - (-2x + 2)^3 / 2. */
  function EaseOut(x: real): real
  {
    1.0 - PowN(-2.0 * x + 2.0, 3) / 2.0
  }

  /** Each branch stays on its own side of one half, and the curve is pinned at 0 and 1. */
  lemma BranchRanges(x: real)
    ensures 0.0 <= x < 0.5 ==> 0.0 <= EaseIn(x) < 0.5
    ensures 0.5 <= x <= 1.0 ==> 0.5 <= EaseOut(x) <= 1.0
    ensures EaseIn(0.0) == 0.0 && EaseOut(1.0) == 1.0
  {
    PowNCube(x);
    PowNCube(0.5);
    if 0.0 <= x < 0.5 {
      PowNNonNegative(x, 3);
      PowNStrictlyIncreasing(x, 0.5, 3);
    }
    if 0.5 <= x <= 1.0 {
      PowNUnit(-2.0 * x + 2.0, 3);
    }
    PowNCube(0.0);
  }

  /** The two branches meet at one half, both giving 0.5, so the curve has no jump there. */
  lemma BranchesMeet()
    ensures EaseIn(0.5) == 0.5 && EaseOut(0.5) == 0.5
  {
    PowNCube(1.0);
  }

  /** easeInOutCubic: for t < 0.5, 4t^3, otherwise 1 - (-2t + 2)^3 / 2. */
  function Ease(x: real): (r: real)
    ensures 0.0 <= x <= 1.0 ==> 0.0 <= r <= 1.0
    ensures x == 0.0 ==> r == 0.0
    ensures x == 1.0 ==> r == 1.0
  {
    BranchRanges(x);
    if x < 0.5 then EaseIn(x) else EaseOut(x)
  }

  lemma EaseInStrictlyIncreasing(a: real, b: real)
    requires 0.0 <= a < b
    ensures EaseIn(a) < EaseIn(b)
  {
    PowNCube(a);
    PowNCube(b);
    PowNStrictlyIncreasing(a, b, 3);
    var ca, cb := a * a * a, b * b * b;
    assert ca < cb;
    assert EaseIn(a) == 4.0 * ca && EaseIn(b) == 4.0 * cb;
  }

  lemma EaseOutStrictlyIncreasing(a: real, b: real)
    requires a < b <= 1.0
    ensures EaseOut(a) < EaseOut(b)
  {
    PowNStrictlyIncreasing(-2.0 * b + 2.0, -2.0 * a + 2.0, 3);
  }

  /** On [0, 1] the ease is strictly increasing. */
  lemma EaseStrictlyIncreasing(a: real, b: real)
    requires 0.0 <= a < b <= 1.0
    ensures Ease(a) < Ease(b)
  {
    if b < 0.5 {
      assert Ease(a) == EaseIn(a) && Ease(b) == EaseIn(b);
      EaseInStrictlyIncreasing(a, b);
    } else if 0.5 <= a {
      assert Ease(a) == EaseOut(a) && Ease(b) == EaseOut(b);
      EaseOutStrictlyIncreasing(a, b);
    } else {
      assert Ease(a) == EaseIn(a) && Ease(b) == EaseOut(b);
      BranchRanges(a);
      BranchRanges(b);
    }
  }

  /** On [0, 1] the ease never decreases. */
  lemma EaseMonotone(a: real, b: real)
    requires 0.0 <= a <= b <= 1.0
    ensures Ease(a) <= Ease(b)
  {
    if a < b {
      EaseStrictlyIncreasing(a, b);
    }
  }

  /** The curve is point-symmetric about (0.5, 0.5): easing out mirrors easing in. */
  lemma EaseSymmetric(t: real)
    requires 0.0 <= t <= 1.0
    ensures Ease(1.0 - t) == 1.0 - Ease(t)
  {
    if t < 0.5 {
      PowNCube(2.0 * t);
      assert (2.0 * t) * (2.0 * t) * (2.0 * t) == 8.0 * (t * t * t);
    } else if t > 0.5 {
      var u := 1.0 - t;
      PowNCube(2.0 * u);
      assert -2.0 * t + 2.0 == 2.0 * u;
      assert (2.0 * u) * (2.0 * u) * (2.0 * u) == 8.0 * (u * u * u);
    } else {
      BranchesMeet();
    }
  }

  /**
   * The ornaments' blend factor: progress is first raised to the population's
   * weight factor, pow(t, weightFactor), and then eased.
   */
  function WeightedEase(m: MathLib, progress: real, weight: real): (r: real)
    ensures PowLaws(m) && 0.0 <= progress <= 1.0 && 0.0 < weight ==> 0.0 <= r <= 1.0
    ensures PowLaws(m) && 0.0 < weight && progress == 0.0 ==> r == 0.0
    ensures PowLaws(m) && 0.0 < weight && progress == 1.0 ==> r == 1.0
  {
    Ease(Pow(m, progress, weight))
  }

  /** A weight of 1 leaves progress as it is: such a population moves exactly like the star. */
  lemma WeightOneIsPlainEase(m: MathLib, progress: real)
    requires PowLaws(m)
    ensures WeightedEase(m, progress, 1.0) == Ease(progress)
  {
  }

  /** With the weight fixed, the blend factor never decreases as progress grows. */
  lemma WeightedEaseMonotone(m: MathLib, p1: real, p2: real, weight: real)
    requires PowLaws(m)
    requires 0.0 <= p1 <= p2 <= 1.0 && 0.0 < weight
    ensures WeightedEase(m, p1, weight) <= WeightedEase(m, p2, weight)
  {
    EaseMonotone(Pow(m, p1, weight), Pow(m, p2, weight));
  }

  /** Heavier lags: strictly inside the transition, a larger weight gives a strictly smaller blend factor. */
  lemma HeavierLags(m: MathLib, progress: real, lighter: real, heavier: real)
    requires PowLaws(m)
    requires 0.0 < progress < 1.0
    requires 0.0 < lighter < heavier
    ensures WeightedEase(m, progress, heavier) < WeightedEase(m, progress, lighter)
  {
    EaseStrictlyIncreasing(Pow(m, progress, heavier), Pow(m, progress, lighter));
  }
}
