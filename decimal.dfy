/**
 * Decimal text of integers, the way the bot's Python code treats it:
 * `str(n)`, `s.isdigit()` and `int(s)` on a token without surrounding
 * whitespace.
 */
module Decimal {
  import opened Wrappers

  predicate IsDigit(c: char) { '0' <= c <= '9' }

  predicate AllDigits(s: string) { forall i :: 0 <= i < |s| ==> IsDigit(s[i]) }

  /** `s.isdigit()` on ASCII text: non-empty, and every character a digit. */
  predicate IsDigits(s: string) { |s| > 0 && AllDigits(s) }

  function DigitValue(c: char): nat
    requires IsDigit(c)
  {
    c as int - '0' as int
  }

  function DigitChar(d: nat): (c: char)
    requires d < 10
    ensures IsDigit(c) && DigitValue(c) == d
  {
    ('0' as int + d) as char
  }

  /** The value of a string of digits, leading zeros allowed (`int("007") == 7`). */
  function DigitsValue(s: string): nat
    requires AllDigits(s)
  {
    if |s| == 0 then 0 else 10 * DigitsValue(s[..|s| - 1]) + DigitValue(s[|s| - 1])
  }

  /** `str(n)` for a natural number. */
  function NatToString(n: nat): (r: string)
    ensures IsDigits(r)
  {
    if n < 10 then [DigitChar(n)] else NatToString(n / 10) + [DigitChar(n % 10)]
  }

  /** `str(n)`: a minus sign for negative numbers, then the digits. */
  function IntToString(n: int): (r: string)
    ensures |r| > 0
    ensures forall i :: 0 <= i < |r| ==> IsDigit(r[i]) || (i == 0 && r[i] == '-')
    ensures n >= 0 <==> IsDigits(r)
  {
    if n < 0 then
      var r := "-" + NatToString(-n);
      assert !IsDigit(r[0]);
      r
    else NatToString(n)
  }

  /**
   * `int(s)` for a token: an optional sign followed by ASCII digits.
   * `None` is the `ValueError` Python raises on anything else.
   */
  function ParseInt(s: string): Option<int>
  {
    if |s| > 0 && (s[0] == '-' || s[0] == '+') then
      if IsDigits(s[1..]) then
        Some(if s[0] == '-' then -(DigitsValue(s[1..]) as int) else DigitsValue(s[1..]))
      else None
    else if IsDigits(s) then Some(DigitsValue(s))
    else None
  }

  /** A cell is in canonical form when, read as an integer, it is that integer's `str`. */
  predicate Canonical(s: string)
  {
    ParseInt(s).Some? ==> IntToString(ParseInt(s).value) == s
  }

  lemma {:induction false} NatToStringValue(n: nat)
    ensures DigitsValue(NatToString(n)) == n
  {
    if n >= 10 {
      NatToStringValue(n / 10);
      var r := NatToString(n);
      assert r[..|r| - 1] == NatToString(n / 10);
    }
  }

  /** Reading back what `str` wrote gives the same integer. */
  lemma ParseIntToString(n: int)
    ensures ParseInt(IntToString(n)) == Some(n)
    ensures Canonical(IntToString(n))
  {
    var s := IntToString(n);
    if n < 0 {
      NatToStringValue(-n);
      assert s[1..] == NatToString(-n);
    } else {
      NatToStringValue(n);
    }
  }

  /** A digit string that is canonical is the `str` of its value. */
  lemma CanonicalDigits(s: string)
    requires IsDigits(s) && Canonical(s)
    ensures ParseInt(s) == Some(DigitsValue(s))
    ensures s == NatToString(DigitsValue(s))
  {
  }

  /** A text that contains a comma is never an integer. */
  lemma CommaIsNotInt(s: string, i: nat)
    requires i < |s| && s[i] == ','
    ensures ParseInt(s) == None
  {
    assert !IsDigit(s[i]);
    if i > 0 {
      assert s[1..][i - 1] == ',';
      assert !IsDigits(s[1..]);
    }
  }
}
