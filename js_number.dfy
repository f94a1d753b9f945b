/**
 * The JavaScript number operations the Thai-unit formatter relies on, over
 * exact reals: `Math.floor`, the remainder operator `%`, string interpolation
 * of an integer-valued number, and `Number.prototype.toFixed(2)`.
 */
module JsNumber {

  /** `Math.floor`: the greatest integer not above `x`. */
  function Floor(x: real): (n: int)
    ensures n as real <= x < n as real + 1.0
  {
    x.Floor
  }

  /** Rounding toward zero, the quotient JavaScript's `%` is built on. */
  function Trunc(x: real): (n: int)
    ensures x >= 0.0 ==> n as real <= x < n as real + 1.0
    ensures x < 0.0 ==> n as real - 1.0 < x <= n as real
  {
    if x >= 0.0 then x.Floor else -((-x).Floor)
  }

  /**
   * JavaScript's `x % m` for a positive divisor: the result takes the sign of
   * the dividend, so it lies in [0, m) for x >= 0 and in (-m, 0] for x < 0.
   */
  function Rem(x: real, m: real): (r: real)
    requires m > 0.0
    ensures x >= 0.0 ==> 0.0 <= r < m
    ensures x < 0.0 ==> -m < r <= 0.0
    ensures x >= 0.0 ==> r == x - m * Floor(x / m) as real
  {
    var q := Trunc(x / m);
    QuotientBounds(x, m, q);
    x - m * q as real
  }

  /** Multiplying the bounds on `q` around `x / m` by `m`. */
  lemma QuotientBounds(x: real, m: real, q: int)
    requires m > 0.0
    ensures q as real <= x / m ==> m * q as real <= x
    ensures x / m < q as real + 1.0 ==> x < m * q as real + m
    ensures q as real - 1.0 < x / m ==> m * q as real - m < x
    ensures x / m <= q as real ==> x <= m * q as real
  {
    var d := x / m - q as real;
    assert x - m * q as real == m * d;
    ScaledBounds(x, m, q as real, d);
  }

  lemma ScaledBounds(x: real, m: real, q: real, d: real)
    requires m > 0.0
    requires x - m * q == m * d
    ensures d >= 0.0 ==> m * q <= x
    ensures d < 1.0 ==> x < m * q + m
    ensures d > -1.0 ==> m * q - m < x
    ensures d <= 0.0 ==> x <= m * q
  {
    if d < 1.0 {
      assert m * d - m == m * (d - 1.0) < 0.0;
    }
    if d > -1.0 {
      assert m * d + m == m * (d + 1.0) > 0.0;
    }
  }

  // ---------------------------------------------------------------------------
  // Decimal digits
  // ---------------------------------------------------------------------------

  predicate IsDigit(c: char) {
    '0' <= c <= '9'
  }

  function DigitChar(d: int): (c: char)
    requires 0 <= d < 10
    ensures IsDigit(c) && c as int - '0' as int == d
  {
    (d + '0' as int) as char
  }

  function DigitValue(c: char): (d: nat)
    requires IsDigit(c)
    ensures d < 10
  {
    c as int - '0' as int
  }

  /** The decimal numeral of a natural number, without leading zeros. */
  function NatToString(n: nat): (s: string)
    ensures |s| >= 1
    ensures forall i :: 0 <= i < |s| ==> IsDigit(s[i])
    ensures s[0] == '0' ==> n == 0
  {
    if n < 10 then [DigitChar(n)] else NatToString(n / 10) + [DigitChar(n % 10)]
  }

  /** The value a string of decimal digits denotes. */
  function ParseNat(s: string): nat
    requires forall i :: 0 <= i < |s| ==> IsDigit(s[i])
  {
    if s == [] then 0 else 10 * ParseNat(s[..|s| - 1]) + DigitValue(s[|s| - 1])
  }

  /** Reading a numeral back gives the number it was rendered from. */
  lemma {:induction false} ParseNatToString(n: nat)
    ensures ParseNat(NatToString(n)) == n
  {
    if n >= 10 {
      var s := NatToString(n);
      assert s[..|s| - 1] == NatToString(n / 10);
      ParseNatToString(n / 10);
    }
  }

  /** String interpolation `${i}` of an integer-valued number. */
  function IntToString(i: int): string {
    if i < 0 then "-" + NatToString(-i) else NatToString(i)
  }

  // ---------------------------------------------------------------------------
  // toFixed(2)
  // ---------------------------------------------------------------------------

  /**
   * The integer `n` for which `n / 100 - x` is closest to zero, the larger one
   * on a tie: the digits `toFixed(2)` writes for a non-negative `x`.
   */
  function Hundredths(x: real): (n: int)
    ensures -0.5 < n as real - 100.0 * x <= 0.5
    ensures x >= 0.0 ==> n >= 0
  {
    Floor(100.0 * x + 0.5)
  }

  /**
   * `x.toFixed(2)`: a minus sign for negative `x`, then the integer part of
   * the rounded magnitude, a point and exactly two decimals.
   */
  function ToFixed2(x: real): (s: string)
    ensures x >= 0.0 ==> |s| >= 4 && s[|s| - 3] == '.'
  {
    var n: nat := if x < 0.0 then Hundredths(-x) else Hundredths(x);
    var body := NatToString(n / 100) + "." + [DigitChar(n % 100 / 10), DigitChar(n % 10)];
    if x < 0.0 then "-" + body else body
  }

  /** The value of a string `<digits>.<two digits>`. */
  function Fixed2Value(s: string): real
    requires |s| >= 4 && s[|s| - 3] == '.'
    requires forall i :: 0 <= i < |s| && i != |s| - 3 ==> IsDigit(s[i])
  {
    ParseNat(s[..|s| - 3]) as real + ParseNat(s[|s| - 2..]) as real / 100.0
  }

  /** For non-negative `x`, `toFixed(2)` writes `x` rounded to the nearest hundredth. */
  lemma ToFixed2Value(x: real)
    requires x >= 0.0
    ensures var s := ToFixed2(x);
            && |s| >= 4 && s[|s| - 3] == '.'
            && (forall i :: 0 <= i < |s| && i != |s| - 3 ==> IsDigit(s[i]))
            && Fixed2Value(s) == Hundredths(x) as real / 100.0
  {
    var n := Hundredths(x);
    var s := ToFixed2(x);
    var head := NatToString(n / 100);
    assert s == head + "." + [DigitChar(n % 100 / 10), DigitChar(n % 10)];
    assert s[..|s| - 3] == head;
    ParseNatToString(n / 100);
    var tail := s[|s| - 2..];
    assert tail == [DigitChar(n % 100 / 10), DigitChar(n % 10)];
    var d1, d0 := n % 100 / 10, n % 10;
    assert tail[..1] == [DigitChar(d1)];
    assert [DigitChar(d1)][..0] == [];
    assert ParseNat([DigitChar(d1)]) == d1;
    assert ParseNat(tail) == 10 * d1 + d0;
    assert 10 * d1 + d0 == n % 100;
  }

  /** When `100 * x` is a whole number, `toFixed(2)` writes `x` exactly. */
  lemma ToFixed2Exact(x: real, k: nat)
    requires x == k as real / 100.0
    ensures x >= 0.0 && Hundredths(x) == k
    ensures Fixed2Value(ToFixed2(x)) == x
  {
    ToFixed2Value(x);
  }
}
