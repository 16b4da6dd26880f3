/**
 * Python's decimal rendering of an `int` (`str(n)`, `f"{n}"`), which the client uses
 * to build "Unknown error code: N", together with its parser, so that the rendering
 * can be shown to lose nothing.
 */
module Decimal {

  function DigitChar(d: nat): (c: char)
    requires d < 10
    ensures '0' <= c <= '9'
  {
    (48 + d) as char
  }

  function DigitValue(c: char): nat
    requires '0' <= c <= '9'
  {
    c as int - 48
  }

  predicate IsDigits(s: string) {
    |s| > 0 && forall k :: 0 <= k < |s| ==> '0' <= s[k] <= '9'
  }

  /** Digits with no leading zero, except for the single digit "0". */
  predicate IsCanonicalDigits(s: string) {
    IsDigits(s) && (s[0] != '0' || |s| == 1)
  }

  /** The shortest decimal digits of `n`: a leading '0' only for zero itself. */
  function NatToString(n: nat): (s: string)
    ensures IsCanonicalDigits(s)
    ensures s[0] == '0' <==> n == 0
    decreases n
  {
    if n < 10 then [DigitChar(n)] else NatToString(n / 10) + [DigitChar(n % 10)]
  }

  /** Digits, optionally after one leading '-'. */
  predicate IsIntText(s: string) {
    |s| > 0 && (if s[0] == '-' then IsDigits(s[1..]) else IsDigits(s))
  }

  /** What `str` produces: canonical digits, after a '-' only when they are not "0". */
  predicate IsCanonicalText(s: string) {
    |s| > 0 && if s[0] == '-' then IsCanonicalDigits(s[1..]) && s[1] != '0' else IsCanonicalDigits(s)
  }

  /** `str(i)`: a leading '-' for negative numbers, then the digits of the magnitude. */
  function IntToString(i: int): (s: string)
    ensures IsIntText(s) && IsCanonicalText(s)
    ensures s[0] == '-' <==> i < 0
  {
    if i < 0 then
      assert ("-" + NatToString(-i))[1..] == NatToString(-i);
      "-" + NatToString(-i)
    else NatToString(i)
  }

  function ParseDigits(s: string): nat
    requires IsDigits(s)
  {
    if |s| == 1 then DigitValue(s[0])
    else 10 * ParseDigits(s[..|s| - 1]) + DigitValue(s[|s| - 1])
  }

  /** `int(s)` for the strings `IntToString` produces. */
  function ParseInt(s: string): int
    requires IsIntText(s)
  {
    if s[0] == '-' then 0 - ParseDigits(s[1..]) else ParseDigits(s)
  }

  lemma {:induction false} NatRoundTrip(n: nat)
    ensures ParseDigits(NatToString(n)) == n
    decreases n
  {
    if n >= 10 {
      var s := NatToString(n);
      assert s[..|s| - 1] == NatToString(n / 10);
      NatRoundTrip(n / 10);
    }
  }

  /** Parsing the rendering of any integer gives it back. */
  lemma {:induction false} IntRoundTrip(i: int)
    ensures ParseInt(IntToString(i)) == i
  {
    var s := IntToString(i);
    if i < 0 {
      var m: nat := -i;
      assert s == "-" + NatToString(m);
      assert s[1..] == NatToString(m);
      NatRoundTrip(m);
      assert ParseInt(s) == 0 - ParseDigits(NatToString(m));
    } else {
      NatRoundTrip(i);
      assert s == NatToString(i);
    }
  }

  /** Two integers with the same rendering are equal. */
  lemma IntToStringInjective(a: int, b: int)
    requires IntToString(a) == IntToString(b)
    ensures a == b
  {
    IntRoundTrip(a);
    IntRoundTrip(b);
  }

  /** Digits that do not start with '0' denote a positive number. */
  lemma {:induction false} LeadingDigitPositive(s: string)
    requires IsDigits(s) && s[0] != '0'
    ensures ParseDigits(s) > 0
    decreases |s|
  {
    if |s| > 1 {
      LeadingDigitPositive(s[..|s| - 1]);
    }
  }

  /** Canonical digits are the rendering of the number they denote: no other text renders it. */
  lemma {:induction false} CanonicalDigitsAreRendering(s: string)
    requires IsCanonicalDigits(s)
    ensures NatToString(ParseDigits(s)) == s
    decreases |s|
  {
    if |s| > 1 {
      var init := s[..|s| - 1];
      assert init[0] == s[0];
      CanonicalDigitsAreRendering(init);
      LeadingDigitPositive(init);
      var n := ParseDigits(s);
      assert n / 10 == ParseDigits(init) && n % 10 == DigitValue(s[|s| - 1]);
      assert s == init + [s[|s| - 1]];
    }
  }

  /** A canonical text is the rendering of the integer it parses to, so `str` is pinned by these two facts. */
  lemma CanonicalIsRendering(s: string)
    requires IsCanonicalText(s)
    ensures IsIntText(s) && IntToString(ParseInt(s)) == s
  {
    if s[0] == '-' {
      CanonicalDigitsAreRendering(s[1..]);
      LeadingDigitPositive(s[1..]);
      assert s == "-" + s[1..];
    } else {
      CanonicalDigitsAreRendering(s);
    }
  }
}
