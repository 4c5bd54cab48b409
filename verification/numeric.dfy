/** Exact arithmetic helpers standing in for the break_infinity `Decimal`
    operations the game uses: integer powers, integrality and decimal keys. */
module Numeric {

  /** `b` raised to the natural power `n` (`Decimal.pow` with an integer exponent). */
  function Pow(b: real, n: nat): real
    decreases n
  {
    if n == 0 then 1.0 else b * Pow(b, n - 1)
  }

  /** A real with no fractional part. */
  predicate IsIntegral(x: real) {
    x.Floor as real == x
  }

  lemma {:induction false} PowPositive(b: real, n: nat)
    requires b > 0.0
    ensures Pow(b, n) > 0.0
    decreases n
  {
    if n > 0 {
      PowPositive(b, n - 1);
    }
  }

  lemma {:induction false} PowAtLeastOne(b: real, n: nat)
    requires b >= 1.0
    ensures Pow(b, n) >= 1.0
    decreases n
  {
    if n > 0 {
      PowAtLeastOne(b, n - 1);
    }
  }

  /** For a base of at least one, raising to a larger power never gives less. */
  lemma {:induction false} PowMonotone(b: real, m: nat, n: nat)
    requires b >= 1.0
    requires m <= n
    ensures Pow(b, m) <= Pow(b, n)
    decreases n - m
  {
    if m < n {
      PowMonotone(b, m, n - 1);
      PowAtLeastOne(b, n - 1);
      assert Pow(b, n) == b * Pow(b, n - 1);
    }
  }

  /** For a base above one, a larger power is strictly larger. */
  lemma {:induction false} PowStrictlyIncreasing(b: real, m: nat, n: nat)
    requires b > 1.0
    requires m < n
    ensures Pow(b, m) < Pow(b, n)
    decreases n - m
  {
    PowMonotone(b, m, n - 1);
    PowAtLeastOne(b, n - 1);
    assert Pow(b, n) == b * Pow(b, n - 1);
  }

  /** The sum of two integral reals is integral. */
  lemma SumIntegral(x: real, y: real)
    requires IsIntegral(x) && IsIntegral(y)
    ensures IsIntegral(x + y)
  {
    var k := x.Floor + y.Floor;
    assert x + y == k as real;
    assert (k as real).Floor == k;
  }

  /** The number of whole tranches of size `t` in `x`, or 0 below one
      tranche: `x.lt(t) ? 0 : x.div(t).floor()`. */
  function Tranches(x: real, t: real): (g: real)
    requires t > 0.0
    ensures IsIntegral(g) && g >= 0.0
    ensures x < t ==> g == 0.0
    ensures x >= t ==> 1.0 <= g && g * t <= x < (g + 1.0) * t
  {
    if x < t then 0.0
    else
      var q := x / t;
      var g := q.Floor as real;
      assert g <= q < g + 1.0;
      DivTimes(x, t);
      ScaleStrict(q, 1.0, t);
      ScaleWeak(g, q, t);
      ScaleStrict(q, g + 1.0, t);
      assert (g.Floor as real) == g;
      assert q * t == x;
      assert q * t < (g + 1.0) * t;
      assert x < (g + 1.0) * t;
      g
  }

  lemma DivTimes(x: real, t: real)
    requires t > 0.0
    ensures (x / t) * t == x
  {
  }

  /** Scaling by a positive factor keeps a strict order... */
  lemma ScaleStrict(a: real, b: real, t: real)
    requires t > 0.0
    ensures a < b <==> a * t < b * t
  {
    assert b * t - a * t == (b - a) * t;
  }

  /** ... and a weak one. */
  lemma ScaleWeak(a: real, b: real, t: real)
    requires t > 0.0
    ensures a <= b <==> a * t <= b * t
  {
    assert b * t - a * t == (b - a) * t;
  }

  /** Taking a fraction r in (0, 1] off a non-negative amount leaves it
      between zero and itself. */
  lemma Discount(x: real, r: real)
    requires x >= 0.0 && 0.0 < r <= 1.0
    ensures 0.0 <= x * (1.0 - r) <= x
  {
    assert x * (1.0 - r) == x - x * r;
    assert x * r >= 0.0;
    assert x * (1.0 - r) >= 0.0;
  }

  /** The character for a decimal digit. */
  function DigitChar(d: nat): (c: char)
    requires d < 10
    ensures '0' <= c <= '9'
    ensures c as int - '0' as int == d
  {
    ('0' as int + d) as char
  }

  /** The canonical decimal spelling of `n`, which is how a JavaScript
      `for ... in` loop names the index keys of an array. */
  function DecimalKey(n: nat): (s: string)
    ensures |s| >= 1
    ensures forall i :: 0 <= i < |s| ==> '0' <= s[i] <= '9'
    decreases n
  {
    if n < 10 then [DigitChar(n)] else DecimalKey(n / 10) + [DigitChar(n % 10)]
  }

  /** Distinct numbers have distinct keys, so the index keys of an array
      never collide. */
  lemma {:induction false} DecimalKeyInjective(a: nat, b: nat)
    requires DecimalKey(a) == DecimalKey(b)
    ensures a == b
    decreases a
  {
    var ka, kb := DecimalKey(a), DecimalKey(b);
    if a < 10 && b < 10 {
      assert ka[0] == kb[0];
    } else if a >= 10 && b >= 10 {
      var pa, pb := DecimalKey(a / 10), DecimalKey(b / 10);
      assert ka == pa + [DigitChar(a % 10)] && kb == pb + [DigitChar(b % 10)];
      assert ka[|ka| - 1] == kb[|kb| - 1];
      assert a % 10 == b % 10;
      assert pa == ka[..|ka| - 1] == kb[..|kb| - 1] == pb;
      DecimalKeyInjective(a / 10, b / 10);
    }
  }
}
