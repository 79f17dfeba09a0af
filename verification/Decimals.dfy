/** Numbers as text: naturals in base ten, and reals with four digits after the point. */
module Decimals {
  import opened Wrappers

  function Digit(d: nat): (c: char)
    requires d < 10
    ensures IsDigit(c) && DigitValue(c) == d
  {
    '0' + d as char
  }

  predicate IsDigit(c: char) {
    '0' <= c <= '9'
  }

  function DigitValue(c: char): (d: nat)
    requires IsDigit(c)
    ensures d < 10
  {
    c as int - '0' as int
  }

  predicate AllDigits(s: string) {
    forall c <- s :: IsDigit(c)
  }

  function Print(n: nat): (s: string)
    ensures s != [] && AllDigits(s)
  {
    if n < 10 then [Digit(n)] else Print(n / 10) + [Digit(n % 10)]
  }

  function Parse(s: string): nat
    requires AllDigits(s)
  {
    if s == [] then 0 else Parse(s[..|s| - 1]) * 10 + DigitValue(s[|s| - 1])
  }

  lemma {:induction false} ParsePrint(n: nat)
    ensures Parse(Print(n)) == n
  {
    if n < 10 {
      assert Print(n)[..0] == [];
    } else {
      ParsePrint(n / 10);
      var s := Print(n / 10);
      assert (s + [Digit(n % 10)])[..|s|] == s;
    }
  }

  /** Exactly `k` digits, with leading zeros; larger numbers lose their high digits. */
  function Padded(n: nat, k: nat): (s: string)
    ensures |s| == k && AllDigits(s)
  {
    if k == 0 then [] else Padded(n / 10, k - 1) + [Digit(n % 10)]
  }

  function Pow10(k: nat): (p: nat)
    ensures p > 0
  {
    if k == 0 then 1 else 10 * Pow10(k - 1)
  }

  lemma {:induction false} ParsePadded(n: nat, k: nat)
    requires n < Pow10(k)
    ensures Parse(Padded(n, k)) == n
  {
    if k > 0 {
      ParsePadded(n / 10, k - 1);
      var s := Padded(n / 10, k - 1);
      assert (s + [Digit(n % 10)])[..|s|] == s;
    }
  }

  // ---------------------------------------------------------------------------------------------
  // Four digits after the point
  // ---------------------------------------------------------------------------------------------

  const SCALE := 10000

  /** The number of ten-thousandths nearest to `x`, the even one when two are equally near. */
  function Round4(x: real): int {
    var y := x * 10000.0;
    var n := y.Floor;
    var f := y - n as real;
    if f < 0.5 || (f == 0.5 && n % 2 == 0) then n else n + 1
  }

  /** A whole number of ten-thousandths is not rounded. */
  lemma RoundExact(n: int)
    ensures Round4(n as real / 10000.0) == n
  {
    assert n as real / 10000.0 * 10000.0 == n as real;
  }

  lemma RoundMonotone(x: real, y: real)
    requires x <= y
    ensures Round4(x) <= Round4(y)
  {
    assert x * 10000.0 <= y * 10000.0;
  }

  function PrintUnsigned(m: nat): (s: string)
    ensures s != []
  {
    Print(m / SCALE) + "." + Padded(m % SCALE, 4)
  }

  /** `n` ten-thousandths. */
  function Print4(n: int): string {
    if n < 0 then ['-'] + PrintUnsigned(-n) else PrintUnsigned(n)
  }

  /** The position of the first point, or the length. */
  function PointAt(s: string): (k: nat)
    ensures k <= |s| && (k < |s| ==> s[k] == '.') && '.' !in s[..k]
  {
    if s == [] || s[0] == '.' then 0
    else
      var k := PointAt(s[1..]);
      assert s[..k + 1] == [s[0]] + s[1..][..k];
      k + 1
  }

  /** The number with the given whole part and `k` digits after the point. */
  function Decimal(whole: nat, digits: nat, k: nat): real {
    whole as real + digits as real / Pow10(k) as real
  }

  /** An unsigned decimal with a point, read as the number it denotes. */
  function ParseUnsigned(s: string): Option<real> {
    var k := PointAt(s);
    if k == |s| || !AllDigits(s[..k]) || !AllDigits(s[k + 1..]) || |s| == 1 then None
    else
      var frac := s[k + 1..];
      Some(Decimal(Parse(s[..k]), Parse(frac), |frac|))
  }

  /** A decimal with a point and an optional sign; anything else is read as zero. */
  function ParseReal(s: string): real {
    if s != [] && s[0] == '-' then -ParseUnsigned(s[1..]).UnwrapOr(0.0)
    else ParseUnsigned(s).UnwrapOr(0.0)
  }

  lemma PointAfterDigits(a: string, b: string)
    requires AllDigits(a)
    ensures PointAt(a + "." + b) == |a|
  {
    var s := a + "." + b;
    assert forall i :: 0 <= i < |a| ==> s[i] == a[i] && a[i] in a;
    assert s[|a|] == '.';
    assert forall k :: |a| < k <= |s| ==> s[..k][|a|] == '.';
  }

  lemma PowFour()
    ensures Pow10(4) == 10000
  {
    assert Pow10(4) == 10 * (10 * (10 * (10 * Pow10(0))));
  }

  lemma Fraction(m: nat)
    ensures m as real / 10000.0 == (m / SCALE) as real + (m % SCALE) as real / 10000.0
  {
    assert m == (m / SCALE) * 10000 + m % SCALE;
  }

  /** Digits, a point, digits. */
  lemma ParseAround(a: string, b: string)
    requires a != [] && AllDigits(a) && AllDigits(b)
    ensures ParseUnsigned(a + "." + b) == Some(Decimal(Parse(a), Parse(b), |b|))
    ensures (a + "." + b)[0] != '-'
  {
    var s := a + "." + b;
    assert s[0] == a[0] && IsDigit(a[0]);
    PointAfterDigits(a, b);
    assert s[..|a|] == a && s[|a| + 1..] == b;
  }

  lemma ParseUnsignedPrint(m: nat)
    ensures ParseUnsigned(PrintUnsigned(m)) == Some(m as real / 10000.0)
    ensures PrintUnsigned(m)[0] != '-'
  {
    ParseAround(Print(m / SCALE), Padded(m % SCALE, 4));
    PowFour();
    ParsePrint(m / SCALE);
    ParsePadded(m % SCALE, 4);
    Fraction(m);
  }

  lemma Negated(m: int)
    ensures -(m as real / 10000.0) == (-m) as real / 10000.0
  {
  }

  /** What is printed is read back as the same number. */
  lemma ParseRealPrint4(n: int)
    ensures ParseReal(Print4(n)) == n as real / 10000.0
  {
    if n < 0 {
      var m: nat := -n;
      ParseUnsignedPrint(m);
      Negated(m);
      assert Print4(n) == "-" + PrintUnsigned(m);
      assert Print4(n)[1..] == PrintUnsigned(m);
    } else {
      ParseUnsignedPrint(n);
    }
  }
}
