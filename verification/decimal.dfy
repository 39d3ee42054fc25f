/**
 Decimal text of natural numbers, as Python's `str()` writes a non-negative
 `int`: the digits most significant first, no sign, no leading zero.
 The reader `DecimalValue` is the partner of the writer `NatToDecimal`.
 */
module Decimal {

  predicate IsDigit(c: char) {
    '0' <= c <= '9'
  }

  predicate AllDigits(s: string) {
    forall i :: 0 <= i < |s| ==> IsDigit(s[i])
  }

  function DigitChar(d: nat): (c: char)
    requires d < 10
    ensures IsDigit(c)
    ensures c as int - '0' as int == d
  {
    ('0' as int + d) as char
  }

  function DigitValue(c: char): (d: nat)
    requires IsDigit(c)
    ensures d < 10
    ensures DigitChar(d) == c
  {
    c as int - '0' as int
  }

  /** The decimal text of `n`. */
  function NatToDecimal(n: nat): (s: string)
    ensures 0 < |s|
    ensures AllDigits(s)
    ensures s[0] == '0' ==> n == 0
    decreases n
  {
    if n < 10 then [DigitChar(n)] else NatToDecimal(n / 10) + [DigitChar(n % 10)]
  }

  /** The number a string of digits denotes; the empty string denotes 0. */
  function DecimalValue(s: string): (n: nat)
    requires AllDigits(s)
    decreases |s|
  {
    if s == [] then 0 else 10 * DecimalValue(s[..|s| - 1]) + DigitValue(s[|s| - 1])
  }

  /** Reading back the text written for `n` yields `n`. */
  lemma {:induction false} DecimalRoundTrip(n: nat)
    ensures DecimalValue(NatToDecimal(n)) == n
    decreases n
  {
    var s := NatToDecimal(n);
    if n < 10 {
      assert s[..|s| - 1] == [];
    } else {
      DecimalRoundTrip(n / 10);
      assert s[..|s| - 1] == NatToDecimal(n / 10);
    }
  }

  /** The length of the longest prefix of `s` made only of digits. */
  function DigitSpan(s: string): (k: nat)
    ensures k <= |s|
    ensures AllDigits(s[..k])
    ensures k < |s| ==> !IsDigit(s[k])
    decreases |s|
  {
    if s == [] || !IsDigit(s[0]) then 0 else 1 + DigitSpan(s[1..])
  }

  /** A run of digits followed by a non-digit (or by nothing) is exactly the digit span. */
  lemma {:induction false} DigitSpanOfDigitsThen(d: string, t: string)
    requires AllDigits(d)
    requires t == [] || !IsDigit(t[0])
    ensures DigitSpan(d + t) == |d|
    decreases |d|
  {
    if d != [] {
      assert (d + t)[1..] == d[1..] + t;
      DigitSpanOfDigitsThen(d[1..], t);
    }
  }

  /** Text with no leading zero (other than "0" itself). */
  predicate Canonical(s: string) {
    0 < |s| && AllDigits(s) && (|s| > 1 ==> s[0] != '0')
  }

  /** A digit string that does not start with '0' denotes a positive number. */
  lemma {:induction false} DecimalValuePositive(s: string)
    requires 0 < |s| && AllDigits(s) && s[0] != '0'
    ensures DecimalValue(s) > 0
    decreases |s|
  {
    if |s| > 1 {
      DecimalValuePositive(s[..|s| - 1]);
    }
  }

  /** Canonical text is exactly the text written for the number it denotes. */
  lemma {:induction false} DecimalCanonical(s: string)
    requires Canonical(s)
    ensures NatToDecimal(DecimalValue(s)) == s
    decreases |s|
  {
    var n := DecimalValue(s);
    if |s| > 1 {
      var s' := s[..|s| - 1];
      DecimalValuePositive(s');
      DecimalCanonical(s');
      assert n / 10 == DecimalValue(s') && n % 10 == DigitValue(s[|s| - 1]);
      assert s == s' + [s[|s| - 1]];
    } else {
      assert s[..0] == [];
    }
  }
}
