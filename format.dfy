/**
 * Decimal text for the numbers that appear in the order message: whole
 * numbers (quantities) and amounts in cents written with two decimals, as
 * "d.dd". Each printer has a parser beside it and a lemma that parsing
 * the printed text gives the number back.
 */
module Format {

  predicate IsDigit(c: char) {
    '0' <= c <= '9'
  }

  predicate AllDigits(s: string) {
    forall k :: 0 <= k < |s| ==> IsDigit(s[k])
  }

  function Digit(d: nat): (c: char)
    requires d < 10
    ensures IsDigit(c) && c as int - '0' as int == d
  {
    ('0' as int + d) as char
  }

  function DigitValue(c: char): (d: nat)
    requires IsDigit(c)
    ensures d < 10
  {
    c as int - '0' as int
  }

  /** The decimal text of a whole number, without leading zeros. */
  function NatText(n: nat): (r: string)
    ensures |r| >= 1 && AllDigits(r)
    ensures |r| > 1 ==> r[0] != '0'
  {
    if n < 10 then [Digit(n)] else NatText(n / 10) + [Digit(n % 10)]
  }

  /** The number a string of digits denotes (the empty string denotes 0). */
  function ParseNat(s: string): nat
    requires AllDigits(s)
  {
    if s == [] then 0 else ParseNat(s[..|s| - 1]) * 10 + DigitValue(s[|s| - 1])
  }

  lemma {:induction false} NatTextRoundTrip(n: nat)
    ensures ParseNat(NatText(n)) == n
  {
    if n >= 10 {
      var r := NatText(n);
      assert r[..|r| - 1] == NatText(n / 10);
      NatTextRoundTrip(n / 10);
    }
  }

  /** An amount of cents as "d.dd": whole units, a point, and exactly two decimals. */
  function CentsText(c: nat): (r: string)
    ensures |r| >= 4 && r[|r| - 3] == '.'
    ensures AllDigits(r[..|r| - 3]) && IsDigit(r[|r| - 2]) && IsDigit(r[|r| - 1])
  {
    NatText(c / 100) + "." + [Digit(c % 100 / 10), Digit(c % 10)]
  }

  /** Reads back an amount printed as "d.dd". */
  function ParseCents(s: string): nat
    requires |s| >= 4 && AllDigits(s[..|s| - 3]) && IsDigit(s[|s| - 2]) && IsDigit(s[|s| - 1])
  {
    ParseNat(s[..|s| - 3]) * 100 + DigitValue(s[|s| - 2]) * 10 + DigitValue(s[|s| - 1])
  }

  lemma CentsTextRoundTrip(c: nat)
    ensures ParseCents(CentsText(c)) == c
  {
    var r := CentsText(c);
    assert r[..|r| - 3] == NatText(c / 100);
    NatTextRoundTrip(c / 100);
  }
}
