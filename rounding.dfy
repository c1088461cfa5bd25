/**
 * Python's `round(x, n)` on a number held exactly: the nearest multiple of 10^-n, a tie going
 * to the even multiple.
 */
module Rounding {

  /** 10^n, the number of units of 10^-n in one. */
  function Scale(n: nat): (p: real)
    ensures p >= 1.0
  {
    if n == 0 then 1.0 else 10.0 * Scale(n - 1)
  }

  /** `x` counted in units of 10^-n. */
  function Scaled(x: real, n: nat): real {
    x * Scale(n)
  }

  function Abs(y: real): real {
    if y < 0.0 then -y else y
  }

  /** The integer nearest to `y`, the even one of two equally near. */
  function Nearest(y: real): int {
    var k := y.Floor;
    var frac := y - k as real;
    if frac > 0.5 then k + 1
    else if frac < 0.5 then k
    else if k % 2 == 0 then k
    else k + 1
  }

  /** No integer is nearer to `y` than `Nearest(y)`, which is at most one half away. */
  lemma NearestMeaning(y: real, m: int)
    ensures Abs(Nearest(y) as real - y) <= 0.5
    ensures Abs(Nearest(y) as real - y) <= Abs(m as real - y)
  {
    var k := y.Floor;
    assert k as real <= y < k as real + 1.0;
    if m <= k {
      assert Abs(m as real - y) >= y - k as real;
    } else {
      assert Abs(m as real - y) >= k as real + 1.0 - y;
    }
  }

  /** Of two equally near integers, `Nearest` picks the even one. */
  lemma NearestTieEven(y: real)
    requires y - y.Floor as real == 0.5
    ensures Nearest(y) % 2 == 0
  {
    var k := y.Floor;
    if k % 2 != 0 {
      assert (k + 1) % 2 == 0;
    }
  }

  /** An integer is its own nearest integer. */
  lemma NearestWhole(k: int)
    ensures Nearest(k as real) == k
  {
    assert (k as real).Floor == k;
  }

  /** `round(x, digits)`: the multiple of 10^-digits nearest to `x`. */
  function Round(x: real, digits: nat): real {
    Nearest(Scaled(x, digits)) as real / Scale(digits)
  }

  lemma DivMul(a: real, p: real)
    requires p > 0.0
    ensures a / p * p == a
  {
  }

  /**
   * The rounded value is a whole number of units of 10^-digits, and no whole number of units is
   * nearer to `x`.
   */
  lemma RoundMeaning(x: real, digits: nat, m: int)
    ensures Scaled(Round(x, digits), digits) == Nearest(Scaled(x, digits)) as real
    ensures Abs(Scaled(Round(x, digits), digits) - Scaled(x, digits)) <= 0.5
    ensures Abs(Scaled(Round(x, digits), digits) - Scaled(x, digits))
      <= Abs(m as real - Scaled(x, digits))
  {
    var p := Scale(digits);
    var y := Scaled(x, digits);
    var n := Nearest(y);
    assert Round(x, digits) == n as real / p;
    DivMul(n as real, p);
    NearestMeaning(y, m);
  }

  /** Rounding twice is rounding once. */
  lemma RoundIdempotent(x: real, digits: nat)
    ensures Round(Round(x, digits), digits) == Round(x, digits)
  {
    var p := Scale(digits);
    var n := Nearest(Scaled(x, digits));
    assert Round(x, digits) == n as real / p;
    DivMul(n as real, p);
    assert Scaled(Round(x, digits), digits) == n as real;
    NearestWhole(n);
    assert Round(Round(x, digits), digits) == n as real / p;
  }
}
