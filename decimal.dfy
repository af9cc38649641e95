/** Decimal digit strings: the characters the OTP field keeps, and the
    text `Number.prototype.toString` produces for a non-negative integer
    below 10^21. */
module Decimal {

  /** A decimal digit: what the pattern `\d` matches (ASCII `0`-`9` only). */
  predicate IsDigit(c: char) {
    '0' <= c <= '9'
  }

  predicate AllDigits(s: string) {
    forall i :: 0 <= i < |s| ==> IsDigit(s[i])
  }

  function DigitChar(d: nat): (c: char)
    requires d < 10
    ensures IsDigit(c)
  {
    ('0' as int + d) as char
  }

  function DigitValue(c: char): (d: nat)
    requires IsDigit(c)
    ensures d < 10 && DigitChar(d) == c
  {
    c as int - '0' as int
  }

  /** The shortest decimal text of `n` (no sign, no leading zero). */
  function ToString(n: nat): (s: string)
    ensures 1 <= |s| && AllDigits(s)
    decreases n
  {
    if n < 10 then [DigitChar(n)] else ToString(n / 10) + [DigitChar(n % 10)]
  }

  /** The number a digit string denotes; leading zeros are allowed. */
  function Value(s: string): nat
    requires AllDigits(s)
    decreases |s|
  {
    if s == [] then 0 else Value(s[..|s| - 1]) * 10 + DigitValue(s[|s| - 1])
  }

  /** Reading back the text of `n` gives `n`. */
  lemma {:induction false} ValueOfToString(n: nat)
    ensures Value(ToString(n)) == n
    decreases n
  {
    if n >= 10 {
      var s := ToString(n);
      assert s[..|s| - 1] == ToString(n / 10);
      ValueOfToString(n / 10);
    }
  }

  /** The text of `n` has one character exactly for a single digit, two up to 99,
      and never starts with `0` unless it is `0` itself. */
  lemma {:induction false} ToStringLength(n: nat)
    ensures |ToString(n)| == 1 <==> n < 10
    ensures n < 100 ==> |ToString(n)| <= 2
    ensures 100 <= n ==> |ToString(n)| >= 3
    ensures n != 0 ==> ToString(n)[0] != '0'
    decreases n
  {
    if n >= 10 {
      ToStringLength(n / 10);
      assert ToString(n)[0] == ToString(n / 10)[0];
    }
  }

  /** A leading zero does not change the value. */
  lemma {:induction false} ValueLeadingZero(s: string)
    requires AllDigits(s)
    ensures AllDigits(['0'] + s) && Value(['0'] + s) == Value(s)
    decreases |s|
  {
    var z := ['0'] + s;
    assert AllDigits(z) by {
      forall i | 0 <= i < |z| ensures IsDigit(z[i]) {
        if i > 0 { assert z[i] == s[i - 1]; }
      }
    }
    if s != [] {
      var init := s[..|s| - 1];
      assert z[..|z| - 1] == ['0'] + init;
      ValueLeadingZero(init);
    }
  }
}
