/**
 * String helpers shared by the model: prefixes, decimal rendering as JavaScript's
 * `String(n)` does it, `padStart(2, "0")`, and `parseInt` with its NaN result.
 */
module Strings {

  /** `s.startsWith(p)` */
  predicate StartsWith(s: string, p: string) {
    |p| <= |s| && s[..|p|] == p
  }

  predicate IsDigit(c: char) { '0' <= c <= '9' }

  function DigitChar(d: nat): (c: char)
    requires d < 10
    ensures IsDigit(c)
  {
    ('0' as int + d) as char
  }

  function DigitValue(c: char): (d: nat)
    requires IsDigit(c)
    ensures d < 10
  {
    (c as int - '0' as int)
  }

  lemma DigitRoundTrip(d: nat)
    requires d < 10
    ensures DigitValue(DigitChar(d)) == d
  {
  }

  /** Decimal rendering of a natural number, no leading zeros (`String(n)`). */
  function NatToString(n: nat): (s: string)
    ensures |s| >= 1
    ensures forall i :: 0 <= i < |s| ==> IsDigit(s[i])
    decreases n
  {
    if n < 10 then [DigitChar(n)] else NatToString(n / 10) + [DigitChar(n % 10)]
  }

  /** `String(n)` for an integer: a minus sign in front of negative values. */
  function IntToString(n: int): string {
    if n < 0 then "-" + NatToString(-n) else NatToString(n)
  }

  /** The value of a string of decimal digits (empty string is 0). */
  function DigitsValue(s: string): nat
    requires forall i :: 0 <= i < |s| ==> IsDigit(s[i])
  {
    if s == [] then 0 else DigitsValue(s[..|s| - 1]) * 10 + DigitValue(s[|s| - 1])
  }

  lemma {:induction false} NatToStringRoundTrip(n: nat)
    ensures DigitsValue(NatToString(n)) == n
    decreases n
  {
    if n >= 10 {
      NatToStringRoundTrip(n / 10);
      var s := NatToString(n);
      assert s[..|s| - 1] == NatToString(n / 10);
      DigitRoundTrip(n % 10);
    } else {
      DigitRoundTrip(n);
    }
  }

  /** The number of digits `String(n)` prints for `n`. */
  lemma {:induction false} NatToStringLength(n: nat, k: nat)
    requires k >= 1
    ensures Pow10(k - 1) <= n < Pow10(k) ==> |NatToString(n)| == k
    decreases n
  {
    if Pow10(k - 1) <= n < Pow10(k) && n >= 10 && k >= 2 {
      NatToStringLength(n / 10, k - 1);
    }
  }

  function Pow10(k: nat): (p: nat)
    ensures p >= 1
  {
    if k == 0 then 1 else 10 * Pow10(k - 1)
  }

  /** `String(n).padStart(2, "0")`: a leading zero only when the rendering is shorter than two. */
  function PadStart2(n: nat): string {
    var d := NatToString(n);
    if |d| < 2 then "0" + d else d
  }

  /** Below 100 the padded rendering is exactly two digits and reads back as `n`. */
  lemma PadStart2Digits(n: nat)
    requires n < 100
    ensures |PadStart2(n)| == 2
    ensures forall i :: 0 <= i < 2 ==> IsDigit(PadStart2(n)[i])
    ensures DigitsValue(PadStart2(n)) == n
  {
    NatToStringRoundTrip(n);
    var d := NatToString(n);
    if n < 10 {
      assert d == [DigitChar(n)];
      var s := "0" + d;
      assert s[..1] == "0";
      assert DigitsValue(s[..1]) == 0 by { assert s[..1][..0] == []; }
    } else {
      assert NatToString(n / 10) == [DigitChar(n / 10)];
    }
  }

  /** The number `parseInt` yields: an integer or NaN. */
  datatype JsInt = Int(value: int) | NaN

  /**
   * ECMAScript's StrWhiteSpaceChar, which `parseInt` skips: tab, vertical tab, form feed,
   * the byte-order mark, the space separators (category Zs) and the line terminators.
   */
  predicate IsWhite(c: char) {
    c == '\t' || c == '\U{000B}' || c == '\U{000C}' || c == '\U{FEFF}'
    || c == ' ' || c == '\U{00A0}' || c == '\U{1680}' || '\U{2000}' <= c <= '\U{200A}'
    || c == '\U{202F}' || c == '\U{205F}' || c == '\U{3000}'
    || c == '\n' || c == '\r' || c == '\U{2028}' || c == '\U{2029}'
  }

  predicate IsHexDigit(c: char) {
    IsDigit(c) || 'a' <= c <= 'f' || 'A' <= c <= 'F'
  }

  function HexDigitValue(c: char): (d: nat)
    requires IsHexDigit(c)
    ensures d < 16
  {
    if IsDigit(c) then DigitValue(c)
    else if 'a' <= c <= 'f' then c as int - 'a' as int + 10
    else c as int - 'A' as int + 10
  }

  predicate IsRadixDigit(c: char, radix: nat) {
    if radix == 16 then IsHexDigit(c) else IsDigit(c)
  }

  /** Length of the longest prefix of `s` made of digits of `radix`. */
  function DigitRun(s: string, radix: nat): (k: nat)
    ensures k <= |s|
    ensures forall i :: 0 <= i < k ==> IsRadixDigit(s[i], radix)
    ensures k < |s| ==> !IsRadixDigit(s[k], radix)
  {
    if s == [] || !IsRadixDigit(s[0], radix) then 0 else 1 + DigitRun(s[1..], radix)
  }

  /** Value of a run of digits in `radix` (10 or 16). */
  function RadixValue(s: string, radix: nat): nat
    requires radix == 10 || radix == 16
    requires forall i :: 0 <= i < |s| ==> IsRadixDigit(s[i], radix)
  {
    if s == [] then 0
    else
      var c := s[|s| - 1];
      assert IsRadixDigit(c, radix);
      RadixValue(s[..|s| - 1], radix) * radix
      + (if radix == 16 then HexDigitValue(c) else DigitValue(c))
  }

  function TrimStart(s: string): (t: string)
    ensures |t| <= |s| && t == s[|s| - |t|..]
    ensures t != [] ==> !IsWhite(t[0])
  {
    if s != [] && IsWhite(s[0]) then TrimStart(s[1..]) else s
  }

  /**
   * `parseInt(s)` with no radix: leading white space is skipped, one sign is read,
   * a `0x`/`0X` prefix selects base 16, then the longest run of digits is read;
   * no digit at all gives NaN.
   */
  function ParseInt(s: string): JsInt {
    var t := TrimStart(s);
    if t != [] && t[0] == '-' then Negate(ParseUnsigned(t[1..]))
    else if t != [] && t[0] == '+' then ParseUnsigned(t[1..])
    else ParseUnsigned(t)
  }

  function Negate(r: JsInt): JsInt {
    match r
    case Int(v) => Int(-v)
    case NaN => NaN
  }

  function ParseUnsigned(u: string): JsInt {
    if |u| >= 2 && u[0] == '0' && (u[1] == 'x' || u[1] == 'X') then ParseRadix(u[2..], 16)
    else ParseRadix(u, 10)
  }

  function ParseRadix(body: string, radix: nat): JsInt
    requires radix == 10 || radix == 16
  {
    var k := DigitRun(body, radix);
    if k == 0 then NaN else Int(RadixValue(body[..k], radix))
  }

  lemma DigitsAgree(s: string)
    requires forall i :: 0 <= i < |s| ==> IsDigit(s[i])
    ensures RadixValue(s, 10) == DigitsValue(s)
  {
    if s != [] { DigitsAgree(s[..|s| - 1]); }
  }

  lemma {:induction false} DigitRunAll(s: string)
    requires forall i :: 0 <= i < |s| ==> IsDigit(s[i])
    ensures DigitRun(s, 10) == |s|
  {
    if s != [] { DigitRunAll(s[1..]); }
  }

  /** A run of decimal digits that does not start with `0x` parses to its value. */
  lemma ParseDigits(d: string)
    requires |d| >= 1 && forall i :: 0 <= i < |d| ==> IsDigit(d[i])
    ensures ParseUnsigned(d) == Int(DigitsValue(d))
  {
    assert !(|d| >= 2 && d[0] == '0' && (d[1] == 'x' || d[1] == 'X'));
    DigitRunAll(d);
    assert d[..|d|] == d;
    DigitsAgree(d);
  }

  lemma ParseNegative(d: string)
    requires |d| >= 1 && forall i :: 0 <= i < |d| ==> IsDigit(d[i])
    ensures ParseInt("-" + d) == Negate(ParseUnsigned(d))
  {
    var s := "-" + d;
    assert TrimStart(s) == s;
    assert s[1..] == d;
  }

  lemma ParseNonNegative(d: string)
    requires |d| >= 1 && forall i :: 0 <= i < |d| ==> IsDigit(d[i])
    ensures ParseInt(d) == ParseUnsigned(d)
  {
    assert IsDigit(d[0]);
    assert TrimStart(d) == d;
  }

  /** `parseInt(String(n)) === n` for every integer. */
  lemma ParseIntOfIntToString(n: int)
    ensures ParseInt(IntToString(n)) == Int(n)
  {
    var m: nat := if n < 0 then -n else n;
    var d := NatToString(m);
    NatToStringRoundTrip(m);
    ParseDigits(d);
    if n < 0 {
      ParseNegative(d);
    } else {
      ParseNonNegative(d);
    }
  }

  /** Leading white space is dropped up to the first other character. */
  lemma {:induction false} TrimWhitePrefix(w: string, rest: string)
    requires forall i :: 0 <= i < |w| ==> IsWhite(w[i])
    requires rest == [] || !IsWhite(rest[0])
    ensures TrimStart(w + rest) == rest
  {
    if w == [] {
      assert w + rest == rest;
    } else {
      assert (w + rest)[0] == w[0];
      assert (w + rest)[1..] == w[1..] + rest;
      TrimWhitePrefix(w[1..], rest);
    }
  }

  /** Any white space, non-ASCII included (`parseInt("\u00A05")` is 5), is skipped before the digits. */
  lemma ParseAfterWhiteSpace(w: string, d: string)
    requires forall i :: 0 <= i < |w| ==> IsWhite(w[i])
    requires |d| >= 1 && forall i :: 0 <= i < |d| ==> IsDigit(d[i])
    ensures ParseInt(w + d) == Int(DigitsValue(d))
  {
    assert IsDigit(d[0]);
    TrimWhitePrefix(w, d);
    ParseDigits(d);
  }

  /** A string that opens with no white space, sign or digit is NaN (`parseInt("abc")`). */
  lemma NoDigitIsNaN(s: string)
    requires s != [] && !IsWhite(s[0]) && s[0] != '-' && s[0] != '+' && !IsDigit(s[0])
    ensures ParseInt(s) == NaN
  {
    assert TrimStart(s) == s;
    assert DigitRun(s, 10) == 0;
  }
}
