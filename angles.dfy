/**
 * Degree arithmetic as the wheel code performs it, over exact reals.
 *
 * The sources reduce angles with JavaScript's `%`, whose remainder takes the
 * sign of the dividend, and then correct negative remainders. `Wrap` is the
 * mathematical floor-mod into [0, 360) that those expressions are meant to
 * compute; the lemmas here connect the two.
 */
module Angles {

  /** Truncation toward zero, the rounding JavaScript's `%` is defined by. */
  function Trunc(x: real): (n: int)
    ensures 0.0 <= x ==> n as real <= x < n as real + 1.0
    ensures x < 0.0 ==> n as real - 1.0 < x <= n as real
  {
    if x >= 0.0 then x.Floor else -((-x).Floor)
  }

  /** The representative of `a` in [0, 360): floor-mod by a full turn. */
  function Wrap(a: real): (r: real)
    ensures 0.0 <= r < 360.0
  {
    a - 360.0 * (a / 360.0).Floor as real
  }

  /** Any value in [0, 360) that differs from `a` by whole turns is `Wrap(a)`. */
  lemma WrapUnique(a: real, r: real, k: int)
    requires 0.0 <= r < 360.0
    requires a == r + 360.0 * k as real
    ensures Wrap(a) == r
  {
    var f := (a / 360.0).Floor;
    assert Wrap(a) - r == 360.0 * (k - f) as real;
  }

  /** Adding whole turns does not move the wheel. */
  lemma WrapShift(a: real, k: int)
    ensures Wrap(a + 360.0 * k as real) == Wrap(a)
  {
    var f := (a / 360.0).Floor;
    WrapUnique(a + 360.0 * k as real, Wrap(a), f + k);
  }

  /** An angle already in [0, 360) is its own representative. */
  lemma WrapInRange(a: real)
    requires 0.0 <= a < 360.0
    ensures Wrap(a) == a
  {
    WrapUnique(a, a, 0);
  }

  /** Reducing one summand first does not change the reduced sum. */
  lemma WrapAdd(a: real, b: real)
    ensures Wrap(Wrap(a) + b) == Wrap(a + b)
  {
    var f := (a / 360.0).Floor;
    WrapShift(Wrap(a) + b, f);
    assert Wrap(a) + b + 360.0 * f as real == a + b;
  }

  /** Turning the wheel backwards: the residue of `-a` depends only on the residue of `a`. */
  lemma WrapNeg(a: real)
    ensures Wrap(-Wrap(a)) == Wrap(-a)
  {
    var f := (a / 360.0).Floor;
    WrapShift(-Wrap(a), -f);
    assert -Wrap(a) + 360.0 * (-f) as real == -a;
  }

  /**
   * JavaScript `a % 360` on numbers: the remainder after truncating division.
   * It lies strictly between -360 and 360, has the sign of `a`, and is the
   * floor-mod whenever `a` is not negative.
   */
  function JsRem360(a: real): (r: real)
    ensures -360.0 < r < 360.0
    ensures 0.0 <= a ==> r == Wrap(a)
    ensures a < 0.0 ==> r <= 0.0
    ensures Wrap(r) == Wrap(a)
  {
    var t := Trunc(a / 360.0);
    var r := a - 360.0 * t as real;
    var f := (a / 360.0).Floor;
    assert a == Wrap(a) + 360.0 * f as real;
    WrapUnique(r, Wrap(a), f - t);
    r
  }

  /**
   * The normalisation `((a % 360) + 360) % 360` both core utilities apply
   * before decoding an angle: it is the floor-mod, for negative angles too.
   */
  function Normalize(a: real): (r: real)
    ensures r == Wrap(a)
  {
    var t := JsRem360(a);
    WrapShift(t, 1);
    JsRem360(t + 360.0)
  }
}
