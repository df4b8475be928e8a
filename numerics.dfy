/**
 * Real-number stand-ins for the numeric library the scene calls
 * (JavaScript's Math, GLSL built-ins).
 *
 * Values are `real`: floating-point rounding is not modelled.  The
 * transcendental functions are not computable over the reals in Dafny, so
 * they are carried as a record of tables, `MathLib`, and every fact the
 * proofs rely on is stated by one of four groups of laws (`TrigLaws`,
 * `RootLaws`, `PowLaws`, `ExpLaws`) that a lemma requires when it needs
 * them.  Powers with a whole exponent (pow(x, 3.0), pow(x, 6.0),
 * pow(x, 8.0), pow(x, 2.0)) are computed exactly by `PowN`.
 */
module Numerics {

  /** One result of Math.random(): a real number in [0, 1). */
  type Unit = u: real | 0.0 <= u < 1.0

  /** Math.PI. */
  const PI: real := 3.141592653589793

  /** A real function of one argument, as a table defined at every real. */
  type Table = f: imap<real, real> | forall x :: x in f
    ghost witness imap x: real :: 0.0

  /** A real function of two arguments, as a table defined at every pair. */
  type Table2 = f: imap<(real, real), real> | forall p :: p in f
    ghost witness imap p: (real, real) :: 0.0

  /**
   * The transcendental functions used by the scene, each as a table from
   * arguments to results, read through the accessors below; the law groups
   * are what the proofs assume of the values read.
   */
  datatype MathLib = MathLib(
    sin: Table,
    cos: Table,
    acos: Table,
    sqrt: Table,
    cbrt: Table,
    pow: Table2,
    exp: Table)

  /** Math.sin. */
  function Sin(m: MathLib, x: real): real { m.sin[x] }
  /** Math.cos. */
  function Cos(m: MathLib, x: real): real { m.cos[x] }
  /** Math.acos. */
  function Acos(m: MathLib, x: real): real { m.acos[x] }
  /** Math.sqrt. */
  function Sqrt(m: MathLib, x: real): real { m.sqrt[x] }
  /** Math.cbrt. */
  function Cbrt(m: MathLib, x: real): real { m.cbrt[x] }
  /** Math.pow(t, w) for a fractional exponent w. */
  function Pow(m: MathLib, t: real, w: real): real { m.pow[(t, w)] }
  /** Math.exp. */
  function Exp(m: MathLib, x: real): real { m.exp[x] }

  /** sin and cos lie in [-1, 1] and sin^2 + cos^2 = 1. */
  ghost predicate TrigLaws(m: MathLib) {
    && (forall x :: -1.0 <= Sin(m, x) <= 1.0)
    && (forall x :: -1.0 <= Cos(m, x) <= 1.0)
    && (forall x :: Sin(m, x) * Sin(m, x) + Cos(m, x) * Cos(m, x) == 1.0)
  }

  /**
   * The square root of a non-negative number is non-negative and squares back
   * to it (so the root of 0 is 0); square and cube roots of numbers in [0, 1)
   * are in [0, 1).
   */
  ghost predicate RootLaws(m: MathLib) {
    && (forall x :: 0.0 <= x ==> 0.0 <= Sqrt(m, x))
    && (forall x :: 0.0 <= x ==> Sqrt(m, x) * Sqrt(m, x) == x)
    && Sqrt(m, 0.0) == 0.0
    && (forall x :: 0.0 <= x < 1.0 ==> Sqrt(m, x) < 1.0)
    && (forall x :: 0.0 <= x < 1.0 ==> 0.0 <= Cbrt(m, x) < 1.0)
  }

  /**
   * pow(t, w) for a base in [0, 1] and a positive exponent: it stays in
   * [0, 1], fixes 0 and 1, is the identity for w = 1, decreases strictly in w
   * inside (0, 1), and never decreases in t.
   */
  ghost predicate PowLaws(m: MathLib) {
    && (forall t, w :: 0.0 <= t <= 1.0 && 0.0 < w ==> 0.0 <= Pow(m, t, w) <= 1.0)
    && (forall w :: 0.0 < w ==> Pow(m, 0.0, w) == 0.0 && Pow(m, 1.0, w) == 1.0)
    && (forall t :: Pow(m, t, 1.0) == t)
    && (forall t, w1, w2 :: 0.0 < t < 1.0 && 0.0 < w1 < w2 ==> Pow(m, t, w2) < Pow(m, t, w1))
    && (forall t1, t2, w :: 0.0 <= t1 <= t2 <= 1.0 && 0.0 < w ==> Pow(m, t1, w) <= Pow(m, t2, w))
  }

  /** exp maps the non-positive reals into (0, 1], the negative ones below 1, and 0 to 1. */
  ghost predicate ExpLaws(m: MathLib) {
    && (forall x :: x <= 0.0 ==> 0.0 < Exp(m, x) <= 1.0)
    && (forall x :: x < 0.0 ==> Exp(m, x) < 1.0)
    && Exp(m, 0.0) == 1.0
  }

  /** Math.max on two reals (NaN is not modelled). */
  function Max(a: real, b: real): (r: real)
    ensures r >= a && r >= b
    ensures r == a || r == b
  {
    if a >= b then a else b
  }

  /** Absolute value, used to state distances on one axis. */
  function Abs(a: real): (r: real)
    ensures r >= 0.0
    ensures r == a || r == -a
  {
    if a >= 0.0 then a else -a
  }

  /** x raised to a whole power, as Math.pow(x, n) and GLSL pow(x, n) give it for x >= 0. */
  function PowN(x: real, n: nat): real
  {
    if n == 0 then 1.0 else x * PowN(x, n - 1)
  }

  lemma PowNCube(x: real)
    ensures PowN(x, 3) == x * x * x
  {
    assert PowN(x, 1) == x;
    assert PowN(x, 2) == x * x;
  }

  lemma {:induction false} PowNNonNegative(x: real, n: nat)
    requires 0.0 <= x
    ensures 0.0 <= PowN(x, n)
    ensures 0.0 < x ==> 0.0 < PowN(x, n)
  {
    if n > 0 {
      PowNNonNegative(x, n - 1);
    }
  }

  /** Every power of 1 is 1, and every positive power of 0 is 0. */
  lemma {:induction false} PowNOneZero(n: nat)
    ensures PowN(1.0, n) == 1.0
    ensures 1 <= n ==> PowN(0.0, n) == 0.0
  {
    if n > 0 {
      PowNOneZero(n - 1);
    }
  }

  /** A power of a number in [0, 1] stays in [0, 1]. */
  lemma {:induction false} PowNUnit(x: real, n: nat)
    ensures 0.0 <= x <= 1.0 ==> 0.0 <= PowN(x, n) <= 1.0
  {
    if n > 0 && 0.0 <= x <= 1.0 {
      PowNUnit(x, n - 1);
      var p := PowN(x, n - 1);
      assert PowN(x, n) == x * p;
      MulMonotone(x, 1.0, p);
      MulNonNegative(x, p);
    }
  }

  /** A positive whole power is strictly increasing on the non-negative reals. */
  lemma {:induction false} PowNStrictlyIncreasing(x: real, y: real, n: nat)
    requires 0.0 <= x < y
    requires 1 <= n
    ensures PowN(x, n) < PowN(y, n)
  {
    if n == 1 {
      assert PowN(x, 1) == x && PowN(y, 1) == y;
    } else {
      PowNStrictlyIncreasing(x, y, n - 1);
      PowNNonNegative(x, n - 1);
      PowNNonNegative(y, n - 1);
      var px, py := PowN(x, n - 1), PowN(y, n - 1);
      assert PowN(x, n) == x * px && PowN(y, n) == y * py;
      assert x * px <= x * py by {
        assert x * (py - px) >= 0.0;
      }
      assert x * py < y * py by {
        assert (y - x) * py > 0.0;
      }
    }
  }

  lemma MulNonNegative(x: real, y: real)
    requires 0.0 <= x && 0.0 <= y
    ensures 0.0 <= x * y
  {
  }

  lemma MulMonotone(a: real, b: real, c: real)
    requires a <= b && 0.0 <= c
    ensures a * c <= b * c
  {
    assert (b - a) * c >= 0.0;
  }

  lemma MulStrictlyMonotone(a: real, b: real, c: real)
    requires a < b && 0.0 < c
    ensures a * c < b * c
  {
    assert (b - a) * c > 0.0;
  }

  /** Multiplying by a positive number keeps the sign. */
  lemma SignOfProduct(x: real, n: real)
    requires 0.0 < n
    ensures x <= 0.0 <==> x * n <= 0.0
    ensures x < 0.0 <==> x * n < 0.0
  {
    if x > 0.0 {
      MulStrictlyMonotone(0.0, x, n);
    }
    if x < 0.0 {
      MulStrictlyMonotone(x, 0.0, n);
    }
  }

  /** Dividing by a positive number n is undone by multiplying by it, on both sides of a comparison. */
  lemma DivIff(a: real, b: real, n: real)
    requires 0.0 < n
    ensures a / n <= b <==> a <= b * n
    ensures b < a / n <==> b * n < a
  {
    var q := a / n;
    assert (q - b) * n == a - b * n;
    SignOfProduct(q - b, n);
  }

  /** Squaring is monotone on the non-negative reals. */
  lemma SquareMonotone(a: real, b: real)
    requires 0.0 <= a <= b
    ensures a * a <= b * b
  {
    assert a * a <= a * b <= b * b;
  }

  /** Squaring is strictly monotone on the non-negative reals. */
  lemma SquareStrictlyMonotone(a: real, b: real)
    requires 0.0 <= a < b
    ensures a * a < b * b
  {
    var ab := a * b;
    assert a * a <= ab;
    assert ab < b * b;
  }
}
