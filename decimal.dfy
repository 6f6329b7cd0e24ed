/** Decimal numerals for primary keys: `parseInt(key)` on a string of digits
    and `(n).toString()` on a natural number. */
module Decimal {

  predicate IsDigit(c: char)
  {
    '0' <= c <= '9'
  }

  /** A non-empty string of decimal digits (leading zeros allowed). */
  predicate IsDigits(s: string)
  {
    |s| > 0 && forall i :: 0 <= i < |s| ==> IsDigit(s[i])
  }

  /** The form `toString` gives a natural number: digits, no leading zero
      unless the numeral is "0" itself. */
  predicate IsCanonical(s: string)
  {
    IsDigits(s) && (s[0] == '0' ==> |s| == 1)
  }

  function DigitValue(c: char): (d: nat)
    requires IsDigit(c)
    ensures d < 10
  {
    (c as int) - ('0' as int)
  }

  function DigitChar(d: nat): (c: char)
    requires d < 10
    ensures IsDigit(c) && DigitValue(c) == d
  {
    (('0' as int) + d) as char
  }

  /** `parseInt` restricted to a string of digits, read most significant
      digit first; leading zeros contribute nothing. */
  function DigitsToNat(s: string): nat
    requires forall i :: 0 <= i < |s| ==> IsDigit(s[i])
  {
    if s == [] then 0 else 10 * DigitsToNat(s[..|s| - 1]) + DigitValue(s[|s| - 1])
  }

  /** `toString` of a natural number. */
  function NatToDecimal(n: nat): (s: string)
    ensures IsCanonical(s)
    ensures s[0] == '0' <==> n == 0
  {
    if n < 10 then [DigitChar(n)] else NatToDecimal(n / 10) + [DigitChar(n % 10)]
  }

  /** Parsing what was formatted gives the number back. */
  lemma {:induction false} ParseFormat(n: nat)
    ensures DigitsToNat(NatToDecimal(n)) == n
  {
    var s := NatToDecimal(n);
    if n >= 10 {
      ParseFormat(n / 10);
      assert s[..|s| - 1] == NatToDecimal(n / 10);
    }
  }

  /** A numeral without a leading zero is positive, and at least 10 when it
      has more than one digit. */
  lemma {:induction false} LeadingDigitBound(s: string)
    requires IsDigits(s) && s[0] != '0'
    ensures DigitsToNat(s) >= 1
    ensures |s| > 1 ==> DigitsToNat(s) >= 10
  {
    if |s| > 1 {
      var p := s[..|s| - 1];
      assert p[0] == s[0];
      LeadingDigitBound(p);
    }
  }

  /** Formatting what was parsed gives the canonical numeral back. */
  lemma {:induction false} FormatParse(s: string)
    requires IsCanonical(s)
    ensures NatToDecimal(DigitsToNat(s)) == s
  {
    var n := DigitsToNat(s);
    var p := s[..|s| - 1];
    if |s| == 1 {
      assert p == [] && DigitsToNat(p) == 0;
      assert n == DigitValue(s[0]);
      assert NatToDecimal(n) == [DigitChar(n)];
    } else {
      assert p[0] == s[0];
      LeadingDigitBound(s);
      LeadingDigitBound(p);
      FormatParse(p);
      assert n / 10 == DigitsToNat(p);
      assert n % 10 == DigitValue(s[|s| - 1]);
      assert s == p + [s[|s| - 1]];
    }
  }

  /** Two distinct numbers never share a numeral. */
  lemma NatToDecimalInjective(m: nat, n: nat)
    requires NatToDecimal(m) == NatToDecimal(n)
    ensures m == n
  {
    ParseFormat(m);
    ParseFormat(n);
  }
}
