/**
 * JavaScript's `Number.parseInt` (called without a radix) and the decimal
 * `toString` of an integer-valued number, as the filter converter uses them.
 *
 * Numbers are modelled as mathematical integers plus NaN; the rounding of
 * very large values to the nearest double is not modelled.
 */
module NumberParsing {

  /** A JavaScript number as far as this model needs one: an integer, or NaN. */
  datatype JsNumber = Int(value: int) | NaN

  /**
   * The ECMAScript WhiteSpace and LineTerminator code points (StrWhiteSpaceChar),
   * which parseInt skips before the number.
   */
  predicate IsStrWhiteSpace(c: char) {
    || c == '\t' || c == '\n' || c == '\U{000B}' || c == '\U{000C}' || c == '\r'
    || c == ' ' || c == '\U{00A0}' || c == '\U{1680}'
    || ('\U{2000}' <= c <= '\U{200A}')
    || c == '\U{2028}' || c == '\U{2029}' || c == '\U{202F}' || c == '\U{205F}'
    || c == '\U{3000}' || c == '\U{FEFF}'
  }

  /** The value of `c` as a radix-36 digit (0-9, then a-z or A-Z); 36 when `c` is no digit at all. */
  function DigitValue(c: char): (d: nat)
    ensures d <= 36
    ensures d < 10 <==> '0' <= c <= '9'
  {
    if '0' <= c <= '9' then (c as int) - ('0' as int)
    else if 'a' <= c <= 'z' then (c as int) - ('a' as int) + 10
    else if 'A' <= c <= 'Z' then (c as int) - ('A' as int) + 10
    else 36
  }

  predicate IsDigitIn(c: char, radix: nat) {
    DigitValue(c) < radix
  }

  predicate AllDigitsIn(s: string, radix: nat) {
    forall i :: 0 <= i < |s| ==> IsDigitIn(s[i], radix)
  }

  /** Drops the leading white space of `s`. */
  function TrimStart(s: string): (t: string)
    ensures |t| <= |s| && t == s[|s| - |t|..]
    ensures forall i :: 0 <= i < |s| - |t| ==> IsStrWhiteSpace(s[i])
    ensures |t| > 0 ==> !IsStrWhiteSpace(t[0])
  {
    if |s| > 0 && IsStrWhiteSpace(s[0]) then TrimStart(s[1..]) else s
  }

  /** The length of the longest prefix of `s` made of radix-`radix` digits. */
  function LeadingDigitCount(s: string, radix: nat): (n: nat)
    ensures n <= |s|
    ensures forall i :: 0 <= i < n ==> IsDigitIn(s[i], radix)
    ensures n < |s| ==> !IsDigitIn(s[n], radix)
  {
    if |s| == 0 || !IsDigitIn(s[0], radix) then 0 else 1 + LeadingDigitCount(s[1..], radix)
  }

  /** The value of a digit string in the given radix, most significant digit first. */
  function DigitsValue(s: string, radix: nat): nat
    requires AllDigitsIn(s, radix)
  {
    if |s| == 0 then 0 else DigitsValue(s[..|s| - 1], radix) * radix + DigitValue(s[|s| - 1])
  }

  /**
   * `Number.parseInt(s)` with no radix, following the parseInt algorithm of
   * ECMA-262 (section 19.2.5): skip leading white space, read an optional sign,
   * then read the magnitude; NaN when no digit follows.
   */
  function ParseInt(s: string): JsNumber {
    var t := TrimStart(s);
    if |t| > 0 && t[0] == '-' then Negate(ParseMagnitude(t[1..]))
    else if |t| > 0 && t[0] == '+' then ParseMagnitude(t[1..])
    else ParseMagnitude(t)
  }

  /** An unsigned magnitude: hexadecimal after a `0x`/`0X` prefix, decimal otherwise. */
  function ParseMagnitude(u: string): JsNumber {
    if |u| >= 2 && u[0] == '0' && (u[1] == 'x' || u[1] == 'X') then ReadDigits(u[2..], 16)
    else ReadDigits(u, 10)
  }

  /** The value of the longest run of digits at the front of `s`; NaN when there is none. */
  function ReadDigits(s: string, radix: nat): JsNumber {
    var n := LeadingDigitCount(s, radix);
    assert AllDigitsIn(s[..n], radix);
    if n == 0 then NaN else Int(DigitsValue(s[..n], radix))
  }

  function Negate(x: JsNumber): JsNumber {
    match x
    case Int(v) => Int(-v)
    case NaN => NaN
  }

  // ---------------------------------------------------------------------------
  // Decimal strings: an independent reference for what parseInt should read

  /** An optionally signed, non-empty run of decimal digits. */
  predicate IsSignedDecimal(s: string) {
    if |s| > 0 && (s[0] == '-' || s[0] == '+') then |s| > 1 && AllDigitsIn(s[1..], 10)
    else |s| > 0 && AllDigitsIn(s, 10)
  }

  /** The integer a signed decimal string denotes. */
  function SignedDecimalValue(s: string): int
    requires IsSignedDecimal(s)
  {
    if s[0] == '-' then -(DigitsValue(s[1..], 10) as int)
    else if s[0] == '+' then DigitsValue(s[1..], 10)
    else DigitsValue(s, 10)
  }

  /** A digit string that is all digits is read whole when what follows is no digit. */
  lemma {:induction false} LeadingDigitCountOfDigits(d: string, rest: string, radix: nat)
    requires AllDigitsIn(d, radix)
    requires |rest| > 0 ==> !IsDigitIn(rest[0], radix)
    ensures LeadingDigitCount(d + rest, radix) == |d|
    ensures (d + rest)[..|d|] == d
  {
    if |d| == 0 {
      assert d + rest == rest;
    } else {
      assert (d + rest)[0] == d[0];
      assert (d + rest)[1..] == d[1..] + rest;
      LeadingDigitCountOfDigits(d[1..], rest, radix);
    }
  }

  /**
   * parseInt reads an optionally signed decimal number off the front of a
   * string and ignores what follows it (`"12abc"` reads as 12), provided the
   * rest does not start with a digit or with the `x` of a hexadecimal prefix.
   */
  lemma ParseIntReadsLeadingDecimal(s: string, rest: string)
    requires IsSignedDecimal(s)
    requires |rest| > 0 ==> !IsDigitIn(rest[0], 10) && rest[0] != 'x' && rest[0] != 'X'
    ensures ParseInt(s + rest) == Int(SignedDecimalValue(s))
  {
    var x := s + rest;
    assert x[0] == s[0];
    assert !IsStrWhiteSpace(x[0]) by {
      if s[0] != '-' && s[0] != '+' {
        assert IsDigitIn(s[0], 10);
      }
    }
    assert TrimStart(x) == x;
    var signed := s[0] == '-' || s[0] == '+';
    var d := if signed then s[1..] else s;
    var u := if signed then x[1..] else x;
    assert u == d + rest;
    ParseMagnitudeOfDecimal(d, rest);
  }

  lemma ParseMagnitudeOfDecimal(d: string, rest: string)
    requires |d| > 0 && AllDigitsIn(d, 10)
    requires |rest| > 0 ==> !IsDigitIn(rest[0], 10) && rest[0] != 'x' && rest[0] != 'X'
    ensures ParseMagnitude(d + rest) == Int(DigitsValue(d, 10))
  {
    var u := d + rest;
    assert !(|u| >= 2 && u[0] == '0' && (u[1] == 'x' || u[1] == 'X')) by {
      if |d| >= 2 {
        assert u[1] == d[1];
        assert IsDigitIn(d[1], 10);
      } else if |u| >= 2 {
        assert u[1] == rest[0];
      }
    }
    LeadingDigitCountOfDigits(d, rest, 10);
  }

  /** parseInt reads every optionally signed decimal string as the integer it denotes. */
  lemma ParseIntSignedDecimal(s: string)
    requires IsSignedDecimal(s)
    ensures ParseInt(s) == Int(SignedDecimalValue(s))
  {
    ParseIntReadsLeadingDecimal(s, "");
    assert s + "" == s;
  }

  /** Leading white space never changes what parseInt reads. */
  lemma {:induction false} ParseIntSkipsWhiteSpace(ws: string, s: string)
    requires forall i :: 0 <= i < |ws| ==> IsStrWhiteSpace(ws[i])
    ensures ParseInt(ws + s) == ParseInt(s)
  {
    TrimStartSkipsWhiteSpace(ws, s);
  }

  lemma {:induction false} TrimStartSkipsWhiteSpace(ws: string, s: string)
    requires forall i :: 0 <= i < |ws| ==> IsStrWhiteSpace(ws[i])
    ensures TrimStart(ws + s) == TrimStart(s)
  {
    if |ws| > 0 {
      assert (ws + s)[0] == ws[0];
      assert (ws + s)[1..] == ws[1..] + s;
      TrimStartSkipsWhiteSpace(ws[1..], s);
    } else {
      assert ws + s == s;
    }
  }

  /** A string whose first character can start no number reads as NaN. */
  lemma ParseIntWithoutDigits(s: string)
    requires |s| > 0 ==> !IsStrWhiteSpace(s[0]) && s[0] != '-' && s[0] != '+' && !IsDigitIn(s[0], 10)
    ensures ParseInt(s) == NaN
  {
    assert TrimStart(s) == s;
    assert LeadingDigitCount(s, 10) == 0;
  }

  // ---------------------------------------------------------------------------
  // Integer to decimal string (`Number.prototype.toString` of an integer)

  function DigitChar(d: nat): (c: char)
    requires d < 10
    ensures '0' <= c <= '9' && DigitValue(c) == d
  {
    (('0' as int) + d) as char
  }

  /** A decimal digit string with no superfluous leading zero. */
  predicate IsCanonicalDecimal(s: string) {
    |s| > 0 && AllDigitsIn(s, 10) && (s[0] == '0' ==> |s| == 1)
  }

  /** The decimal digits of `n`, most significant first, without leading zeros. */
  function NatToDecimal(n: nat): (s: string)
    ensures IsCanonicalDecimal(s)
    ensures s[0] == '0' ==> n == 0
  {
    if n < 10 then [DigitChar(n)] else NatToDecimal(n / 10) + [DigitChar(n % 10)]
  }

  /** Reading back the digits of `n` gives `n`. */
  lemma {:induction false} DecimalRoundTrip(n: nat)
    ensures DigitsValue(NatToDecimal(n), 10) == n
  {
    var s := NatToDecimal(n);
    if n >= 10 {
      assert s[..|s| - 1] == NatToDecimal(n / 10);
      DecimalRoundTrip(n / 10);
    }
  }

  lemma {:induction false} LeadingNonZeroDigitIsPositive(s: string)
    requires |s| > 0 && AllDigitsIn(s, 10) && s[0] != '0'
    ensures DigitsValue(s, 10) >= 1
  {
    if |s| > 1 {
      LeadingNonZeroDigitIsPositive(s[..|s| - 1]);
    }
  }

  /** Writing out the value of a canonical digit string gives the string back. */
  lemma {:induction false} CanonicalDecimalRoundTrip(s: string)
    requires IsCanonicalDecimal(s)
    ensures NatToDecimal(DigitsValue(s, 10)) == s
  {
    var c := s[|s| - 1];
    assert DigitChar(DigitValue(c)) == c;
    if |s| > 1 {
      var p := s[..|s| - 1];
      assert p[0] == s[0];
      LeadingNonZeroDigitIsPositive(p);
      CanonicalDecimalRoundTrip(p);
      var v := DigitsValue(p, 10);
      var n := v * 10 + DigitValue(c);
      assert n / 10 == v && n % 10 == DigitValue(c);
      assert s == p + [c];
    }
  }

  /** The decimal `toString` of an integer-valued JavaScript number. */
  function IntToString(n: int): (s: string)
    ensures IsSignedDecimal(s) && SignedDecimalValue(s) == n
    ensures s[0] == '-' <==> n < 0
    ensures s[0] != '+'
    ensures IsCanonicalDecimal(if n < 0 then s[1..] else s)
  {
    if n < 0 then
      DecimalRoundTrip(-n);
      var d := NatToDecimal(-n);
      assert ("-" + d)[1..] == d;
      "-" + d
    else
      DecimalRoundTrip(n);
      NatToDecimal(n)
  }

  /**
   * The contract of `IntToString` pins its result down: the only string that
   * denotes `n`, carries a `-` exactly when `n` is negative and has no leading
   * zero is `IntToString(n)`.
   */
  lemma IntToStringIsUnique(n: int, s: string)
    requires IsSignedDecimal(s) && SignedDecimalValue(s) == n
    requires s[0] == '-' <==> n < 0
    requires IsCanonicalDecimal(if n < 0 then s[1..] else s)
    ensures s == IntToString(n)
  {
    if n < 0 {
      CanonicalDecimalRoundTrip(s[1..]);
      assert s == "-" + s[1..];
    } else {
      CanonicalDecimalRoundTrip(s);
    }
  }

  /** parseInt reads back every integer's decimal string as that integer. */
  lemma ParseIntOfIntToString(n: int)
    ensures ParseInt(IntToString(n)) == Int(n)
  {
    ParseIntSignedDecimal(IntToString(n));
  }
}
