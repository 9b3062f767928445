/**
 * Decimal text of integers, as JavaScript's `String(n)` writes it and as
 * `Number(s)` reads it back. `Number` is modelled on the strings the console
 * round-trips through its URLs: the empty string (which `Number` reads as 0),
 * and decimal digits with an optional leading `+` or `-` sign. `None` stands for NaN.
 */
module Decimal {
  import opened Wrappers

  predicate IsDigit(c: char) {
    '0' <= c <= '9'
  }

  predicate AllDigits(s: string) {
    forall i :: 0 <= i < |s| ==> IsDigit(s[i])
  }

  function DigitValue(c: char): (d: nat)
    requires IsDigit(c)
    ensures d < 10
  {
    (c as int) - ('0' as int)
  }

  function DigitChar(d: nat): (c: char)
    requires d < 10
    ensures IsDigit(c) && DigitValue(c) == d
  {
    (('0' as int) + d) as char
  }

  /** The value of a non-empty or empty digit string, most significant digit first. */
  function DigitsValue(s: string): nat
    requires AllDigits(s)
  {
    if s == [] then 0 else DigitsValue(s[..|s| - 1]) * 10 + DigitValue(s[|s| - 1])
  }

  /** `String(n)` for a non-negative integer: decimal digits without leading zeros. */
  function NatToString(n: nat): (s: string)
    ensures |s| >= 1 && AllDigits(s)
    ensures s[0] == '0' ==> n == 0 && s == "0"
  {
    if n < 10 then [DigitChar(n)] else NatToString(n / 10) + [DigitChar(n % 10)]
  }

  /** A sign followed by at least one digit. */
  predicate SignedDigits(s: string, sign: char) {
    |s| > 1 && s[0] == sign && AllDigits(s[1..])
  }

  /**
   * `Number(s)`: "" reads as 0, a digit string (after an optional `+` or `-`)
   * as its value, anything else as NaN.
   */
  function JsNumber(s: string): (r: Option<int>)
    ensures AllDigits(s) ==> r == Some(DigitsValue(s))
    ensures SignedDigits(s, '+') ==> r == Some(DigitsValue(s[1..]))
    ensures SignedDigits(s, '-') ==> r == Some(-(DigitsValue(s[1..]) as int))
    ensures r.None? <==> !AllDigits(s) && !SignedDigits(s, '+') && !SignedDigits(s, '-')
    ensures r.Some? && r.value < 0 ==> s[0] == '-'
  {
    if AllDigits(s) then Some(DigitsValue(s))
    else if SignedDigits(s, '+') then Some(DigitsValue(s[1..]))
    else if SignedDigits(s, '-') then Some(-(DigitsValue(s[1..]) as int))
    else None
  }

  /** Reading back what `String(n)` wrote gives `n`. */
  lemma {:induction false} DigitsValueOfNatToString(n: nat)
    ensures DigitsValue(NatToString(n)) == n
  {
    if n >= 10 {
      var s := NatToString(n);
      assert s[..|s| - 1] == NatToString(n / 10);
      DigitsValueOfNatToString(n / 10);
    }
  }

  lemma NumberOfString(n: nat)
    ensures JsNumber(NatToString(n)) == Some(n)
  {
    DigitsValueOfNatToString(n);
  }

  /** Different numbers are written differently. */
  lemma NatToStringInjective(m: nat, n: nat)
    requires NatToString(m) == NatToString(n)
    ensures m == n
  {
    DigitsValueOfNatToString(m);
    DigitsValueOfNatToString(n);
  }
}
