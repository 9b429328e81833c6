/**
 * Decimal text for integers: Python's `str(n)` / `'%s' % n` and C#'s
 * `int.ToString()` (both "-" followed by the digits for a negative number),
 * and C#'s `int.Parse` under the default `NumberStyles.Integer`.
 */
module Decimal {
  import opened Wrappers
  import CSharp

  predicate IsDigit(c: char) {
    '0' <= c <= '9'
  }

  function DigitChar(d: nat): (c: char)
    requires d < 10
    ensures IsDigit(c) && (c as int) - ('0' as int) == d
  {
    (('0' as int) + d) as char
  }

  function DigitValue(c: char): nat
    requires IsDigit(c)
  {
    (c as int) - ('0' as int)
  }

  predicate AllDigits(s: string) {
    forall i :: 0 <= i < |s| ==> IsDigit(s[i])
  }

  /** The decimal digits of `n`, most significant first, without leading zeros. */
  function NatToString(n: nat): (s: string)
    ensures |s| > 0 && AllDigits(s)
    ensures |s| > 1 ==> s[0] != '0'
  {
    if n < 10 then [DigitChar(n)] else NatToString(n / 10) + [DigitChar(n % 10)]
  }

  /** `str(n)` / `n.ToString()`. */
  function IntToString(n: int): (s: string)
    ensures |s| > 0 && IsDigit(s[|s| - 1])
    ensures IsDigit(s[0]) || s[0] == '-'
  {
    if n >= 0 then NatToString(n) else "-" + NatToString(-n)
  }

  /** The value of a string of digits, read most significant first. */
  function DigitsValue(s: string): nat
    requires AllDigits(s)
  {
    if s == [] then 0 else DigitsValue(s[..|s| - 1]) * 10 + DigitValue(s[|s| - 1])
  }

  lemma {:induction false} DigitsOfNat(n: nat)
    ensures DigitsValue(NatToString(n)) == n
  {
    var s := NatToString(n);
    if n >= 10 {
      DigitsOfNat(n / 10);
      assert s[..|s| - 1] == NatToString(n / 10);
    }
  }

  /** The white space `NumberStyles.AllowLeadingWhite`/`AllowTrailingWhite` accept. */
  predicate IsParseWhite(c: char) {
    c == ' ' || (9 <= c as int <= 13)
  }

  function SkipLeading(s: string): (r: string)
    ensures |r| <= |s|
  {
    if s != [] && IsParseWhite(s[0]) then SkipLeading(s[1..]) else s
  }

  function SkipTrailing(s: string): (r: string)
    ensures |r| <= |s|
  {
    if s != [] && IsParseWhite(s[|s| - 1]) then SkipTrailing(s[..|s| - 1]) else s
  }

  /**
   * The number `int.Parse`/`long.Parse` read: optional white space around an
   * optional sign and at least one digit; `None` on a bad format.
   */
  function ParseInteger(s: string): (r: Option<int>)
  {
    var t := SkipTrailing(SkipLeading(s));
    if t == [] then None
    else
      var negative := t[0] == '-';
      var body := if t[0] == '-' || t[0] == '+' then t[1..] else t;
      if body == [] || !AllDigits(body) then None
      else
        var magnitude: int := DigitsValue(body);
        Some(if negative then -magnitude else magnitude)
  }

  /** `int.Parse(s)`: `None` where the source throws (bad format or outside the 32-bit range). */
  function ParseInt32(s: string): (r: Option<int>)
    ensures r.Some? <==> ParseInteger(s).Some? && CSharp.IsInt32(ParseInteger(s).value)
    ensures r.Some? ==> r.value == ParseInteger(s).value
  {
    match ParseInteger(s)
    case Some(v) => if CSharp.IsInt32(v) then Some(v) else None
    case None => None
  }

  /** `long.Parse(s)`: `None` where the source throws (bad format or outside the 64-bit range). */
  function ParseInt64(s: string): (r: Option<int>)
    ensures r.Some? <==> ParseInteger(s).Some? && CSharp.IsInt64(ParseInteger(s).value)
    ensures r.Some? ==> r.value == ParseInteger(s).value
  {
    match ParseInteger(s)
    case Some(v) => if CSharp.IsInt64(v) then Some(v) else None
    case None => None
  }

  /** Printing an integer and reading it back gives the integer. */
  lemma ParseIntegerToString(n: int)
    ensures ParseInteger(IntToString(n)) == Some(n)
  {
    var s := IntToString(n);
    assert SkipLeading(s) == s;
    assert SkipTrailing(s) == s;
    if n >= 0 {
      DigitsOfNat(n);
    } else {
      DigitsOfNat(-n);
      assert s[1..] == NatToString(-n);
    }
  }

  /** Printing a 32-bit integer and parsing it back gives the integer. */
  lemma ParseIntToString(n: int)
    requires CSharp.IsInt32(n)
    ensures ParseInt32(IntToString(n)) == Some(n)
  {
    ParseIntegerToString(n);
  }

  /** Distinct integers print differently. */
  lemma IntToStringInjective(a: int, b: int)
    requires a != b
    ensures IntToString(a) != IntToString(b)
  {
    ParseIntegerToString(a);
    ParseIntegerToString(b);
  }

  lemma {:induction false} NatToStringInjective(a: nat, b: nat)
    requires NatToString(a) == NatToString(b)
    ensures a == b
  {
    DigitsOfNat(a);
    DigitsOfNat(b);
  }
}
