/**
 * Exact model of `Number.prototype.toFixed(2)` on reals: the magnitude is
 * rounded to the nearest hundredth with ties going up, then the sign is put
 * back, so ties round away from zero.  The binary floating-point error of the
 * real operation is not modelled.
 */
module Rounding {

  /** x is a whole number of hundredths, i.e. has at most two decimals. */
  predicate IsCents(x: real) {
    (x * 100.0).Floor as real == x * 100.0
  }

  /** Nearest hundredth of a non-negative x, ties upward. */
  function RoundHalfUp2(x: real): (r: real)
    requires x >= 0.0
    ensures r >= 0.0
    ensures IsCents(r)
    ensures x - 0.005 < r <= x + 0.005
  {
    ((x * 100.0 + 0.5).Floor as real) / 100.0
  }

  /** The number denoted by the string `x.toFixed(2)`. */
  function Round2(x: real): (r: real)
    ensures IsCents(r)
    ensures x >= 0.0 ==> x - 0.005 < r <= x + 0.005
    ensures x < 0.0 ==> x - 0.005 <= r < x + 0.005
    ensures x >= 0.0 ==> r >= 0.0
    ensures x <= 0.0 ==> r <= 0.0
  {
    if x < 0.0 then
      var m := RoundHalfUp2(-x);
      CentsNegate(m);
      -m
    else
      RoundHalfUp2(x)
  }

  lemma CentsNegate(x: real)
    requires IsCents(x)
    ensures IsCents(-x)
  {
    var n := (x * 100.0).Floor;
    assert -x * 100.0 == (-n) as real;
  }

  /** An exact tie goes away from zero, as `(0.125).toFixed(2)` gives "0.13". */
  lemma Round2TiesAwayFromZero()
    ensures Round2(0.125) == 0.13 && Round2(-0.125) == -0.13
  {
    assert (0.125 * 100.0 + 0.5).Floor == 13;
  }

  /** A value that already has two decimals is printed as itself. */
  lemma Round2Exact(x: real)
    requires IsCents(x)
    ensures Round2(x) == x
  {
    var n := (x * 100.0).Floor;
    if x < 0.0 {
      assert (-x * 100.0 + 0.5).Floor == -n;
    } else {
      assert (x * 100.0 + 0.5).Floor == n;
    }
  }

  /** Rounding twice is rounding once. */
  lemma Round2Idempotent(x: real)
    ensures Round2(Round2(x)) == Round2(x)
  {
    Round2Exact(Round2(x));
  }

  lemma RoundHalfUp2Monotone(x: real, y: real)
    requires 0.0 <= x <= y
    ensures RoundHalfUp2(x) <= RoundHalfUp2(y)
  {
    assert (x * 100.0 + 0.5).Floor <= (y * 100.0 + 0.5).Floor;
  }

  /** Rounding never reverses the order of two values. */
  lemma Round2Monotone(x: real, y: real)
    requires x <= y
    ensures Round2(x) <= Round2(y)
  {
    if 0.0 <= x {
      RoundHalfUp2Monotone(x, y);
    } else if y < 0.0 {
      RoundHalfUp2Monotone(-y, -x);
    }
  }
}
