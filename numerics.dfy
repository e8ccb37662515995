/** Java's numeric operators, written out over Dafny's unbounded `int` and `real`.
    Dafny's `/` and `%` are Euclidean; Java's integer `/` truncates toward zero and
    its `%` takes the sign of the dividend, and a `(int)` cast of a float truncates. */
module Numerics {

  /** The double value of `Math.PI`, as a decimal. */
  const Pi: real := 3.141592653589793

  function Abs(a: int): (r: int)
    ensures 0 <= r && (r == a || r == -a)
  {
    if a < 0 then -a else a
  }

  function RealAbs(r: real): (a: real)
    ensures 0.0 <= a && (a == r || a == -r)
  {
    if r < 0.0 then -r else r
  }

  /** `(int) r` for a float `r` in range: truncation toward zero. */
  function Trunc(r: real): (t: int)
    ensures 0.0 <= r ==> 0 <= t && t as real <= r < t as real + 1.0
    ensures r < 0.0 ==> t <= 0 && t as real - 1.0 < r <= t as real
  {
    if r >= 0.0 then r.Floor else -((-r).Floor)
  }

  /** Java's integer `a / b` for a positive divisor: the quotient rounded toward
      zero. (The loading bar's travel is the only divisor that can be zero or
      negative in the views; this model keeps it positive.) */
  function JavaDiv(a: int, b: int): (q: int)
    requires 0 < b
    ensures 0 <= a ==> 0 <= a - b * q < b
    ensures a < 0 ==> -b < a - b * q <= 0
  {
    if a < 0 then
      var k := (-a) / b;
      assert a - b * -k == -((-a) - b * k);
      -k
    else
      a / b
  }

  /** Java's integer `a % b`: the remainder takes the sign of the dividend. */
  function JavaRem(a: int, b: int): (r: int)
    requires 0 < b
    ensures a == b * JavaDiv(a, b) + r
    ensures 0 <= a ==> 0 <= r < b
    ensures a < 0 ==> -b < r <= 0
  {
    a - b * JavaDiv(a, b)
  }

  /** On a non-negative dividend Java's operators agree with Dafny's. */
  lemma JavaDivMatchesEuclid(a: int, b: int)
    requires 0 <= a && 0 < b
    ensures JavaDiv(a, b) == a / b && JavaRem(a, b) == a % b
  {
  }

  /** Java's truncating division is symmetric under negating the dividend,
      which Dafny's Euclidean division is not. */
  lemma JavaDivNegate(a: int, b: int)
    requires 0 < b
    ensures JavaDiv(-a, b) == -JavaDiv(a, b)
  {
    if a < 0 {
      assert JavaDiv(a, b) == -((-a) / b);
      assert JavaDiv(-a, b) == (-a) / b;
    } else if a > 0 {
      assert JavaDiv(-a, b) == -(a / b);
      assert JavaDiv(a, b) == a / b;
    }
  }

  /** Java's float `x % 2` (the only float remainder the views take):
      `x - 2 * (int)(x / 2)`, which keeps the sign of `x`. */
  function FloatRemTwo(x: real): (r: real)
    ensures 0.0 <= x ==> 0.0 <= r < 2.0
    ensures x < 0.0 ==> -2.0 < r <= 0.0
    ensures ((x - r) / 2.0).Floor as real == (x - r) / 2.0
  {
    var k := Trunc(x / 2.0);
    RemTwoBounds(x, k);
    x - 2.0 * k as real
  }

  lemma RemTwoBounds(x: real, k: int)
    requires 0.0 <= x ==> k as real <= x / 2.0 < k as real + 1.0
    requires x < 0.0 ==> k as real - 1.0 < x / 2.0 <= k as real
    ensures 0.0 <= x ==> 0.0 <= x - 2.0 * k as real < 2.0
    ensures x < 0.0 ==> -2.0 < x - 2.0 * k as real <= 0.0
    ensures (x - (x - 2.0 * k as real)) / 2.0 == k as real
  {
  }

  lemma MulRight(a: real, b: real, s: real)
    requires a <= b && 0.0 < s
    ensures a * s <= b * s
  {
  }

  lemma MulRightStrict(a: real, b: real, s: real)
    requires a < b && 0.0 < s
    ensures a * s < b * s
  {
  }

  lemma DivRightStrict(a: real, b: real, s: real)
    requires a < b && 0.0 < s
    ensures a / s < b / s
  {
  }

  /** The cast truncates rather than floors: it differs from `Floor` below zero. */
  lemma TruncIsNotFloor()
    ensures Trunc(-0.5) == 0 && (-0.5).Floor == -1
  {
  }
}
