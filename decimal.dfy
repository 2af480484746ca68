/**
  Decimal text in both directions: the `%d` formatting that names the
  indexed query parameters, and the string case of Python's `int()` that
  coerces a timeout given as text.
 */
module Decimal {
  import opened Wrappers

  predicate IsDigit(c: char) {
    '0' <= c <= '9'
  }

  predicate AllDigits(s: string) {
    forall i :: 0 <= i < |s| ==> IsDigit(s[i])
  }

  function DigitChar(d: nat): (c: char)
    requires d < 10
    ensures IsDigit(c) && c as int - '0' as int == d
  {
    ('0' as int + d) as char
  }

  function DigitValue(c: char): nat
    requires IsDigit(c)
  {
    c as int - '0' as int
  }

  /** The text `'%d' % n` for a non-negative n: ASCII digits without a leading zero. */
  function DecimalString(n: nat): (s: string)
    ensures s != [] && AllDigits(s)
    ensures s[0] == '0' ==> n == 0
    decreases n
  {
    if n < 10 then [DigitChar(n)] else DecimalString(n / 10) + [DigitChar(n % 10)]
  }

  /** The number that a run of decimal digits denotes (most significant first). */
  function DigitsValue(s: string): nat
    requires AllDigits(s)
    decreases |s|
  {
    if s == [] then 0 else 10 * DigitsValue(s[..|s| - 1]) + DigitValue(s[|s| - 1])
  }

  /** Reading back the digits of `%d` gives the number that was formatted. */
  lemma {:induction false} DecimalStringRoundTrip(n: nat)
    ensures DigitsValue(DecimalString(n)) == n
    decreases n
  {
    if n >= 10 {
      var s := DecimalString(n);
      assert s[..|s| - 1] == DecimalString(n / 10);
      DecimalStringRoundTrip(n / 10);
    }
  }

  /** Distinct numbers are formatted as distinct texts. */
  lemma DecimalStringInjective(m: nat, n: nat)
    requires DecimalString(m) == DecimalString(n)
    ensures m == n
  {
    DecimalStringRoundTrip(m);
    DecimalStringRoundTrip(n);
  }

  /**
    The ASCII whitespace that `int()` skips around a number: tab, line feed,
    vertical tab, form feed, carriage return and space (codes 9 to 13 and 32).
   */
  predicate IsSpace(c: char) {
    c == ' ' || c == '\t' || c == '\n' || c == '\r' || c as int == 0x0B || c as int == 0x0C
  }

  /** Every character of p is whitespace. */
  predicate AllSpace(p: string) {
    forall i :: 0 <= i < |p| ==> IsSpace(p[i])
  }

  /**
    `s` without its leading whitespace. `StripLeadingCut` shows it is a
    suffix of `s` and that every character cut off is whitespace.
   */
  function StripLeading(s: string): (t: string)
    ensures |t| <= |s|
    ensures t == [] || !IsSpace(t[0])
    decreases |s|
  {
    if s != [] && IsSpace(s[0]) then StripLeading(s[1..]) else s
  }

  /**
    `s` without its trailing whitespace. `StripTrailingCut` shows it is a
    prefix of `s` and that every character cut off is whitespace.
   */
  function StripTrailing(s: string): (t: string)
    ensures |t| <= |s|
    ensures t == [] || !IsSpace(t[|t| - 1])
    decreases |s|
  {
    if s != [] && IsSpace(s[|s| - 1]) then StripTrailing(s[..|s| - 1]) else s
  }

  /** Stripping leading whitespace keeps a suffix and cuts off only whitespace. */
  lemma {:induction false} StripLeadingCut(s: string)
    ensures var t := StripLeading(s);
      t == s[|s| - |t|..] && forall i :: 0 <= i < |s| - |t| ==> IsSpace(s[i])
    decreases |s|
  {
    if s != [] && IsSpace(s[0]) {
      StripLeadingCut(s[1..]);
    }
  }

  /** Stripping trailing whitespace keeps a prefix and cuts off only whitespace. */
  lemma {:induction false} StripTrailingCut(s: string)
    ensures var t := StripTrailing(s);
      t == s[..|t|] && forall i :: |t| <= i < |s| ==> IsSpace(s[i])
    decreases |s|
  {
    if s != [] && IsSpace(s[|s| - 1]) {
      StripTrailingCut(s[..|s| - 1]);
    }
  }

  /** One or more ASCII digits, optionally after a single `+` or `-` sign. */
  predicate IntegerText(t: string) {
    t != [] && (AllDigits(t) || ((t[0] == '+' || t[0] == '-') && |t| > 1 && AllDigits(t[1..])))
  }

  /** An optional sign and one or more digits, with nothing around them; anything else is None. */
  function ParseNumber(t: string): (r: Option<int>)
    ensures r.Some? <==> IntegerText(t)
    ensures t != [] && AllDigits(t) ==> r == Some(DigitsValue(t))
    ensures t != [] && t[0] == '+' && |t| > 1 && AllDigits(t[1..]) ==> r == Some(DigitsValue(t[1..]))
    ensures t != [] && t[0] == '-' && |t| > 1 && AllDigits(t[1..]) ==> r == Some(0 - DigitsValue(t[1..]))
  {
    if t != [] && (t[0] == '+' || t[0] == '-') then
      if |t| > 1 && AllDigits(t[1..]) then
        var magnitude: int := DigitsValue(t[1..]);
        Some(if t[0] == '-' then -magnitude else magnitude)
      else
        assert !AllDigits(t) by {
          assert !IsDigit(t[0]);
        }
        None
    else if t != [] && AllDigits(t) then
      Some(DigitsValue(t))
    else
      None
  }

  /**
    Python's `int(s)` for a str `s`: surrounding whitespace is ignored, then an
    optional sign and one or more digits; anything else is a ValueError (None).
   */
  function ParseInt(s: string): (r: Option<int>)
    ensures r.Some? <==> IntegerText(StripTrailing(StripLeading(s)))
    ensures IntegerText(s) ==> r == ParseNumber(s)
  {
    NumberUnpadded(s);
    ParseNumber(StripTrailing(StripLeading(s)))
  }

  /** Python's `str(n)` for an int. */
  function IntString(n: int): (s: string)
    ensures s != [] && !IsSpace(s[0]) && IsDigit(s[|s| - 1])
  {
    if n < 0 then "-" + DecimalString(-n) else DecimalString(n)
  }

  /** Stripping leaves a text alone that neither starts nor ends with whitespace. */
  lemma StripUnpadded(s: string)
    requires s != [] && !IsSpace(s[0]) && !IsSpace(s[|s| - 1])
    ensures StripTrailing(StripLeading(s)) == s
  {
  }

  /** A signed run of digits has no whitespace to strip. */
  lemma NumberUnpadded(s: string)
    ensures IntegerText(s) ==> StripTrailing(StripLeading(s)) == s
  {
    if IntegerText(s) {
      assert IsDigit(s[|s| - 1]);
      StripUnpadded(s);
    }
  }

  /** `int()` reads `-` followed by the digits of m back as -m. */
  lemma NegativeRoundTrip(m: nat)
    requires m > 0
    ensures ParseInt("-" + DecimalString(m)) == Some(0 - m)
  {
    var d := DecimalString(m);
    var s := "-" + d;
    assert s[1..] == d && s[|s| - 1] == d[|d| - 1];
    ParseUnpadded(s);
    DecimalStringRoundTrip(m);
    assert ParseNumber(s) == Some(0 - DigitsValue(d));
  }

  /** `int(str(n)) == n` for every integer n. */
  lemma ParseIntRoundTrip(n: int)
    ensures ParseInt(IntString(n)) == Some(n)
  {
    if n < 0 {
      NegativeRoundTrip(-n);
    } else {
      DecimalStringRoundTrip(n);
    }
  }

  /** Text with no whitespace at either end is accepted exactly when it is a signed run of digits. */
  lemma ParseUnpadded(s: string)
    requires s != [] && !IsSpace(s[0]) && !IsSpace(s[|s| - 1])
    ensures ParseInt(s) == ParseNumber(s)
  {
    StripUnpadded(s);
  }


  /** Stripping leading whitespace removes exactly a run of whitespace in front of a non-space. */
  lemma {:induction false} StripLeadingSpaces(p: string, u: string)
    requires AllSpace(p)
    requires u == [] || !IsSpace(u[0])
    ensures StripLeading(p + u) == u
    decreases |p|
  {
    if p == [] {
      assert p + u == u;
    } else {
      assert (p + u)[0] == p[0];
      assert (p + u)[1..] == p[1..] + u;
      StripLeadingSpaces(p[1..], u);
    }
  }

  /** Stripping trailing whitespace removes exactly a run of whitespace after a non-space. */
  lemma {:induction false} StripTrailingSpaces(u: string, q: string)
    requires AllSpace(q)
    requires u == [] || !IsSpace(u[|u| - 1])
    ensures StripTrailing(u + q) == u
    decreases |q|
  {
    if q == [] {
      assert u + q == u;
    } else {
      var s := u + q;
      assert s[|s| - 1] == q[|q| - 1];
      assert s[..|s| - 1] == u + q[..|q| - 1];
      StripTrailingSpaces(u, q[..|q| - 1]);
    }
  }

  /**
    Any runs of ASCII whitespace before and after a text with no whitespace
    at its ends leave what `int()` reads unchanged.
   */
  lemma ParseIgnoresSpace(p: string, t: string, q: string)
    requires AllSpace(p) && AllSpace(q)
    requires t != [] && !IsSpace(t[0]) && !IsSpace(t[|t| - 1])
    ensures ParseInt(p + t + q) == ParseNumber(t)
  {
    assert p + t + q == p + (t + q);
    assert (t + q)[0] == t[0];
    StripLeadingSpaces(p, t + q);
    StripTrailingSpaces(t, q);
  }

  /** `+` followed by the digits of n reads as n. */
  lemma PlusRoundTrip(n: nat)
    ensures ParseNumber("+" + DecimalString(n)) == Some(n)
  {
    var d := DecimalString(n);
    assert ("+" + d)[1..] == d;
    DecimalStringRoundTrip(n);
  }

  /** Whitespace around the text and a `+` sign before the digits are accepted: `int(" +n\t") == n`. */
  lemma ParseIntPaddedPlus(p: string, n: nat, q: string)
    requires AllSpace(p) && AllSpace(q)
    ensures ParseInt(p + "+" + DecimalString(n) + q) == Some(n)
  {
    var d := DecimalString(n);
    var t := "+" + d;
    assert t[0] == '+' && t[|t| - 1] == d[|d| - 1];
    ParseIgnoresSpace(p, t, q);
    PlusRoundTrip(n);
    assert p + "+" + d + q == p + t + q;
  }

  /** A letter among the digits makes the text a ValueError. */
  lemma ParseIntRejectsLetter()
    ensures ParseInt("1a2") == None
  {
    var s := "1a2";
    ParseUnpadded(s);
    assert !IsDigit(s[1]) && IsDigit(s[0]);
  }

  /** Empty text, a bare sign and whitespace alone are ValueErrors. */
  lemma ParseIntRejectsNoDigits()
    ensures ParseInt("") == None && ParseInt("-") == None && ParseInt(" ") == None
  {
    ParseUnpadded("-");
    assert StripLeading(" ") == [];
  }
}
