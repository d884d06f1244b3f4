/** Decimal numerals: how Python's `str(n)` and JavaScript's `String(n)` print
    an integer, and how JavaScript's `parseInt` and Python's `int()` read one
    back. The printers are the inverses of the parsers on integers. */
module Numerals {
  import opened Common
  import opened Text

  function DigitValue(c: char): nat
    requires IsAsciiDigit(c)
  {
    c as int - '0' as int
  }

  function DigitChar(d: nat): (c: char)
    requires d < 10
    ensures IsAsciiDigit(c) && DigitValue(c) == d
  {
    ('0' as int + d) as char
  }

  /** The value of a string of ASCII digits, most significant first. */
  function DecimalValue(s: string): nat
    requires AllDigits(s)
  {
    if s == [] then 0 else DecimalValue(s[..|s| - 1]) * 10 + DigitValue(s[|s| - 1])
  }

  /** The shortest decimal numeral of `n`. */
  function NatToDecimal(n: nat): (r: string)
    ensures r != [] && AllDigits(r)
    ensures |r| > 1 ==> r[0] != '0'
  {
    if n < 10 then [DigitChar(n)] else NatToDecimal(n / 10) + [DigitChar(n % 10)]
  }

  /** `str(n)` in Python, `String(n)` in JavaScript, for an integer `n`. */
  function IntToDecimal(n: int): (r: string)
    ensures r != []
    ensures n >= 0 ==> AllDigits(r)
    ensures n < 0 ==> r[0] == '-' && AllDigits(r[1..])
  {
    if n < 0 then "-" + NatToDecimal(-n) else NatToDecimal(n)
  }

  lemma {:induction false} DecimalRoundTrip(n: nat)
    ensures DecimalValue(NatToDecimal(n)) == n
  {
    if n >= 10 {
      var s := NatToDecimal(n);
      assert s[..|s| - 1] == NatToDecimal(n / 10);
      DecimalRoundTrip(n / 10);
    }
  }

  /** `n` written with two digits, zero-padded: `strftime('%y')` and `'%m'`. */
  function TwoDigits(n: nat): (r: string)
    requires n < 100
    ensures |r| == 2 && AllDigits(r) && DecimalValue(r) == n
  {
    var r := [DigitChar(n / 10), DigitChar(n % 10)];
    assert r[..1] == [DigitChar(n / 10)] && r[..1][..0] == [];
    assert DecimalValue(r[..1]) == n / 10;
    assert n / 10 * 10 + n % 10 == n;
    r
  }

  // ---------------------------------------------------------------------------
  // JavaScript parseInt(string) with no radix (ECMA-262, section 19.2.5)
  // ---------------------------------------------------------------------------

  predicate IsRadixDigit(c: char, radix: nat) {
    if radix == 16 then IsAsciiDigit(c) || 'a' <= c <= 'f' || 'A' <= c <= 'F'
    else IsAsciiDigit(c)
  }

  function RadixDigitValue(c: char, radix: nat): nat
    requires IsRadixDigit(c, radix)
  {
    if IsAsciiDigit(c) then DigitValue(c)
    else if 'a' <= c <= 'f' then c as int - 'a' as int + 10
    else c as int - 'A' as int + 10
  }

  /** The longest prefix of `s` made of digits of `radix`. */
  function LeadingDigits(s: string, radix: nat): (r: string)
    ensures |r| <= |s| && r == s[..|r|]
    ensures forall k :: 0 <= k < |r| ==> IsRadixDigit(r[k], radix)
    ensures |r| < |s| ==> !IsRadixDigit(s[|r|], radix)
  {
    if s != [] && IsRadixDigit(s[0], radix) then [s[0]] + LeadingDigits(s[1..], radix) else []
  }

  function RadixValue(s: string, radix: nat): nat
    requires forall k :: 0 <= k < |s| ==> IsRadixDigit(s[k], radix)
  {
    if s == [] then 0
    else RadixValue(s[..|s| - 1], radix) * radix + RadixDigitValue(s[|s| - 1], radix)
  }

  /** `parseInt(s)`: `None` stands for `NaN`. Leading white space is skipped,
      then an optional sign, then an optional `0x`/`0X` that switches to base
      16; the longest run of digits that follows is read and the rest ignored. */
  function ParseJsInt(s: string): Option<int> {
    var t := TrimStart(s, JsSpace);
    var negative := t != [] && t[0] == '-';
    var u := if t != [] && (t[0] == '-' || t[0] == '+') then t[1..] else t;
    var hex := |u| >= 2 && u[0] == '0' && (u[1] == 'x' || u[1] == 'X');
    var radix := if hex then 16 else 10;
    var z := LeadingDigits(if hex then u[2..] else u, radix);
    if z == [] then None
    else Some(if negative then -(RadixValue(z, radix) as int) else RadixValue(z, radix))
  }

  /** `parseInt(s) || d`: NaN and zero (including -0) are falsy. */
  function JsIntOr(s: string, d: int): (r: int)
    ensures ParseJsInt(s).None? ==> r == d
    ensures ParseJsInt(s).Some? && ParseJsInt(s).value != 0 ==> r == ParseJsInt(s).value
  {
    match ParseJsInt(s)
    case None => d
    case Some(v) => if v == 0 then d else v
  }

  lemma {:induction false} LeadingDigitsOfDigits(s: string)
    requires AllDigits(s)
    ensures LeadingDigits(s, 10) == s
  {
    if s != [] {
      LeadingDigitsOfDigits(s[1..]);
    }
  }

  lemma {:induction false} RadixValueIsDecimalValue(s: string)
    requires AllDigits(s)
    ensures RadixValue(s, 10) == DecimalValue(s)
  {
    if s != [] {
      RadixValueIsDecimalValue(s[..|s| - 1]);
    }
  }

  /** Reading back what `String(n)` printed gives `n`; the dashboard counters
      rely on this when they parse the numbers they wrote. */
  lemma {:induction false} JsIntRoundTrip(n: int)
    ensures ParseJsInt(IntToDecimal(n)) == Some(n)
  {
    var m: nat := if n < 0 then -n else n;
    var d := NatToDecimal(m);
    DecimalRoundTrip(m);
    if n < 0 {
      assert IntToDecimal(n) == "-" + d;
      JsIntOfSignedDigits("-", d);
    } else {
      assert IntToDecimal(n) == "" + d;
      JsIntOfSignedDigits("", d);
    }
  }

  lemma {:induction false} JsIntOfSignedDigits(sign: string, d: string)
    requires sign == "" || sign == "-"
    requires AllDigits(d) && d != [] && (|d| > 1 ==> d[0] != '0')
    ensures ParseJsInt(sign + d) ==
      Some(if sign == "-" then -(DecimalValue(d) as int) else DecimalValue(d))
  {
    var s := sign + d;
    DigitsAndSignsAreNotSpace(JsSpace, s[0]);
    var t := TrimStart(s, JsSpace);
    assert t == s;
    var u := if t != [] && (t[0] == '-' || t[0] == '+') then t[1..] else t;
    assert u == d;
    assert !(|u| >= 2 && u[0] == '0');
    LeadingDigitsOfDigits(d);
    RadixValueIsDecimalValue(d);
  }

  // ---------------------------------------------------------------------------
  // Python int(s) for a str argument, base 10
  // ---------------------------------------------------------------------------

  /** Digits, possibly with single underscores between them (PEP 515). */
  predicate IsUnderscoredDigits(s: string) {
    && s != []
    && IsAsciiDigit(s[0]) && IsAsciiDigit(s[|s| - 1])
    && (forall k :: 0 <= k < |s| ==> IsAsciiDigit(s[k]) || s[k] == '_')
    && NoDoubleUnderscore(s)
  }

  /** No two neighbouring underscores. */
  predicate NoDoubleUnderscore(s: string) {
    |s| < 2 || (!(s[0] == '_' && s[1] == '_') && NoDoubleUnderscore(s[1..]))
  }

  function RemoveUnderscores(s: string): (r: string)
    requires forall k :: 0 <= k < |s| ==> IsAsciiDigit(s[k]) || s[k] == '_'
    ensures AllDigits(r)
    ensures AllDigits(s) ==> r == s
  {
    if s == [] then []
    else if s[0] == '_' then RemoveUnderscores(s[1..])
    else [s[0]] + RemoveUnderscores(s[1..])
  }

  /** `int(s)`: `None` stands for the `ValueError` it raises. Surrounding
      white space is ignored, an optional sign is read, and the rest must be
      decimal digits with optional single underscores between them. */
  function ParsePyInt(s: string): Option<int> {
    ParseSignedDigits(Strip(s, PySpace))
  }

  /** The trimmed text: an optional sign, then the digits. */
  function ParseSignedDigits(t: string): Option<int> {
    var negative := t != [] && t[0] == '-';
    var u := if t != [] && (t[0] == '-' || t[0] == '+') then t[1..] else t;
    match ParseUnderscoredDigits(u)
    case Some(v) => Some(if negative then -(v as int) else v)
    case None => None
  }

  /** The unsigned part: digits with optional single underscores. */
  function ParseUnderscoredDigits(u: string): Option<nat> {
    if IsUnderscoredDigits(u) then Some(DecimalValue(RemoveUnderscores(u))) else None
  }

  lemma {:induction false} PyIntRoundTrip(n: int)
    ensures ParsePyInt(IntToDecimal(n)) == Some(n)
  {
    var m: nat := if n < 0 then -n else n;
    var d := NatToDecimal(m);
    DecimalRoundTrip(m);
    if n < 0 {
      assert IntToDecimal(n) == "-" + d;
      PyIntOfSignedDigits("-", d);
    } else {
      assert IntToDecimal(n) == "" + d;
      PyIntOfSignedDigits("", d);
    }
  }

  lemma {:induction false} PyIntOfSignedDigits(sign: string, d: string)
    requires sign == "" || sign == "-"
    requires AllDigits(d) && d != []
    ensures ParsePyInt(sign + d) ==
      Some(if sign == "-" then -(DecimalValue(d) as int) else DecimalValue(d))
  {
    SignedDigitsStripToThemselves(sign, d);
    SignedDigitsParse(sign, d);
  }

  lemma SignedDigitsParse(sign: string, d: string)
    requires sign == "" || sign == "-"
    requires AllDigits(d) && d != []
    ensures ParseSignedDigits(sign + d) ==
      Some(if sign == "-" then -(DecimalValue(d) as int) else DecimalValue(d))
  {
    if sign == "-" {
      NegativeDigitsParse(d);
    } else {
      PlainDigitsParse(d);
      assert sign + d == d;
    }
  }

  lemma PlainDigitsParse(d: string)
    requires AllDigits(d) && d != []
    ensures ParseSignedDigits(d) == Some(DecimalValue(d) as int)
  {
    DigitsParseUnsigned(d);
    assert d[0] != '-' && d[0] != '+';
  }

  lemma NegativeDigitsParse(d: string)
    requires AllDigits(d) && d != []
    ensures ParseSignedDigits("-" + d) == Some(-(DecimalValue(d) as int))
  {
    DigitsParseUnsigned(d);
    var t := "-" + d;
    assert t[0] == '-' && t[1..] == d;
  }

  lemma DigitsParseUnsigned(d: string)
    requires AllDigits(d) && d != []
    ensures ParseUnderscoredDigits(d) == Some(DecimalValue(d))
  {
    DigitsAreUnderscoredDigits(d);
  }

  lemma SignedDigitsStripToThemselves(sign: string, d: string)
    requires sign == "" || sign == "-"
    requires AllDigits(d)
    ensures Strip(sign + d, PySpace) == sign + d
  {
    SignedDigitsHaveNoSpace(sign, d, PySpace);
    StripNoWhitespace(sign + d, PySpace);
  }

  lemma DigitsAreUnderscoredDigits(d: string)
    requires AllDigits(d) && d != []
    ensures IsUnderscoredDigits(d) && RemoveUnderscores(d) == d
  {
    DigitsHaveNoDoubleUnderscore(d);
  }

  lemma {:induction false} DigitsHaveNoDoubleUnderscore(d: string)
    requires AllDigits(d)
    ensures NoDoubleUnderscore(d)
  {
    if |d| >= 2 {
      assert AllDigits(d[1..]) by {
        forall k | 0 <= k < |d[1..]| ensures IsAsciiDigit(d[1..][k]) { assert d[1..][k] == d[k + 1]; }
      }
      DigitsHaveNoDoubleUnderscore(d[1..]);
    }
  }

  lemma SignedDigitsHaveNoSpace(sign: string, d: string, ws: Space)
    requires sign == "" || sign == "-"
    requires AllDigits(d)
    ensures NoneIn(sign + d, ws)
  {
    var s := sign + d;
    forall k | 0 <= k < |s| ensures !IsSpace(ws, s[k]) {
      if k < |sign| {
        assert s[k] == '-';
      } else {
        assert s[k] == d[k - |sign|];
      }
      DigitsAndSignsAreNotSpace(ws, s[k]);
    }
  }

  // ---------------------------------------------------------------------------
  // Python format(Decimal, ',') for an amount with two decimal places
  // ---------------------------------------------------------------------------

  /** `n` in decimal with a comma between each group of three digits. */
  function GroupThousands(n: nat): (r: string)
    ensures r != []
  {
    if n < 1000 then NatToDecimal(n)
    else GroupThousands(n / 1000) + "," + ThreeDigits(n % 1000)
  }

  function ThreeDigits(n: nat): (r: string)
    requires n < 1000
    ensures |r| == 3 && AllDigits(r)
  {
    [DigitChar(n / 100), DigitChar(n / 10 % 10), DigitChar(n % 10)]
  }

  /** `f"{amount:,}"` for a non-negative `Decimal` stored with two decimal
      places, given as a number of hundredths: `500000` prints `5,000.00`. */
  function FormatAmount(hundredths: nat): (r: string)
    ensures |r| >= 4 && r[|r| - 3] == '.'
  {
    GroupThousands(hundredths / 100) + "." + TwoDigits(hundredths % 100)
  }
}
