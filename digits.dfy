/** Decimal digit strings: what `parseInt(s, 10)` reads from a string of
    ASCII digits, and what JavaScript's number-to-string writes for a
    non-negative integer. */
module Digits {

  predicate IsDigit(c: char) {
    '0' <= c <= '9'
  }

  /** Every character is matched by the regular-expression class `\d`. */
  predicate IsDigits(s: string) {
    forall i :: 0 <= i < |s| ==> IsDigit(s[i])
  }

  function DigitValue(c: char): (d: nat)
    requires IsDigit(c)
    ensures d < 10
  {
    c as int - '0' as int
  }

  function DigitChar(d: nat): (c: char)
    requires d < 10
    ensures IsDigit(c) && DigitValue(c) == d
  {
    ('0' as int + d) as char
  }

  /** The number a digit string denotes (leading zeros allowed, as for
      parseInt): zero exactly when every digit is '0'. */
  function Value(s: string): (v: nat)
    requires IsDigits(s)
    ensures v == 0 <==> forall i :: 0 <= i < |s| ==> s[i] == '0'
  {
    if s == [] then 0 else Value(s[..|s| - 1]) * 10 + DigitValue(s[|s| - 1])
  }

  /** The canonical decimal rendering of n: non-empty, digits only, and no
      leading zero unless n is zero. */
  function Decimal(n: nat): (s: string)
    ensures IsDigits(s) && |s| > 0
    ensures s[0] == '0' ==> n == 0
  {
    if n < 10 then [DigitChar(n)] else Decimal(n / 10) + [DigitChar(n % 10)]
  }

  /** Reading back a rendered number gives the number. */
  lemma {:induction false} ValueOfDecimal(n: nat)
    ensures Value(Decimal(n)) == n
  {
    if n >= 10 {
      var p := Decimal(n / 10);
      var s := p + [DigitChar(n % 10)];
      assert s[..|s| - 1] == p;
      ValueOfDecimal(n / 10);
    }
  }

  /** Rendering is injective: distinct numbers have distinct decimal strings. */
  lemma DecimalInjective(m: nat, n: nat)
    requires Decimal(m) == Decimal(n)
    ensures m == n
  {
    ValueOfDecimal(m);
    ValueOfDecimal(n);
  }
}
