/** String operations the source takes from its language runtimes: Python's
    `str.strip()`, JavaScript's `trim()`, `replace(/\s/g, '')`, `toLowerCase()`,
    `includes()` and `join`, each stated over `seq<char>`. */
module Text {
  import opened Common

  /** Which runtime's notion of white space a trim or removal uses. */
  datatype Space =
    | PySpace   // Python's `str.isspace()`, used by `str.strip()` and `int()`
    | JsSpace   // JavaScript's `\s` and `trim()`: WhiteSpace and LineTerminator of ECMA-262

  predicate IsSpace(ws: Space, c: char) {
    match ws
    case PySpace =>
      '\t' <= c <= '\r' || '\U{1C}' <= c <= ' ' || c == '\U{85}' || c == '\U{A0}'
      || c == '\U{1680}' || '\U{2000}' <= c <= '\U{200A}' || c == '\U{2028}'
      || c == '\U{2029}' || c == '\U{202F}' || c == '\U{205F}' || c == '\U{3000}'
    case JsSpace =>
      '\t' <= c <= '\r' || c == ' ' || c == '\U{A0}' || c == '\U{1680}'
      || '\U{2000}' <= c <= '\U{200A}' || c == '\U{2028}' || c == '\U{2029}'
      || c == '\U{202F}' || c == '\U{205F}' || c == '\U{3000}' || c == '\U{FEFF}'
  }

  lemma DigitsAndSignsAreNotSpace(ws: Space, c: char)
    requires IsAsciiDigit(c) || c == '-' || c == '+' || c == '@' || c == '.'
    ensures !IsSpace(ws, c)
  {
  }

  predicate NoneIn(s: string, ws: Space) { forall k :: 0 <= k < |s| ==> !IsSpace(ws, s[k]) }

  /** Drops the leading characters that belong to `ws`. */
  function TrimStart(s: string, ws: Space): (r: string)
    ensures |r| <= |s| && r == s[|s| - |r|..]
    ensures forall k :: 0 <= k < |s| - |r| ==> IsSpace(ws, s[k])
    ensures r == [] || !IsSpace(ws, r[0])
  {
    if s != [] && IsSpace(ws, s[0]) then TrimStart(s[1..], ws) else s
  }

  /** Drops the trailing characters that belong to `ws`. */
  function TrimEnd(s: string, ws: Space): (r: string)
    ensures |r| <= |s| && r == s[..|r|]
    ensures forall k :: |r| <= k < |s| ==> IsSpace(ws, s[k])
    ensures r == [] || !IsSpace(ws, r[|r| - 1])
  {
    if s != [] && IsSpace(ws, s[|s| - 1]) then TrimEnd(s[..|s| - 1], ws) else s
  }

  /** Both ends trimmed: Python's `strip()` with `PySpace`, JavaScript's
      `trim()` with `JsSpace`. The result is the slice of `s` between the
      outermost characters that are not white space. */
  function Strip(s: string, ws: Space): (r: string)
    ensures exists i, j :: 0 <= i <= j <= |s| && r == s[i..j]
                           && (forall k :: 0 <= k < i ==> IsSpace(ws, s[k]))
                           && (forall k :: j <= k < |s| ==> IsSpace(ws, s[k]))
    ensures r == [] || (!IsSpace(ws, r[0]) && !IsSpace(ws, r[|r| - 1]))
    ensures r == [] <==> (forall k :: 0 <= k < |s| ==> IsSpace(ws, s[k]))
  {
    var t := TrimStart(s, ws);
    var r := TrimEnd(t, ws);
    ghost var i := |s| - |t|;
    assert r == s[i..i + |r|];
    r
  }

  lemma {:induction false} StripNoWhitespace(s: string, ws: Space)
    requires NoneIn(s, ws)
    ensures Strip(s, ws) == s
  {
  }

  /** A string whose first and last characters are not white space is its
      own strip, whatever it holds in between. */
  lemma StripKeepsInnerSpace(s: string, ws: Space)
    requires s != [] && !IsSpace(ws, s[0]) && !IsSpace(ws, s[|s| - 1])
    ensures Strip(s, ws) == s
  {
    assert TrimStart(s, ws) == s;
  }

  /** Every character of `ws` removed: `s.replace(/\s/g, '')` with `JsSpace`. */
  function RemoveAll(s: string, ws: Space): (r: string)
    ensures NoneIn(r, ws)
    ensures |r| <= |s|
    ensures NoneIn(s, ws) ==> r == s
  {
    if s == [] then []
    else if IsSpace(ws, s[0]) then RemoveAll(s[1..], ws)
    else [s[0]] + RemoveAll(s[1..], ws)
  }

  lemma {:induction false} RemoveAllKeepsOthers(s: string, ws: Space, c: char)
    requires !IsSpace(ws, c)
    ensures multiset(RemoveAll(s, ws))[c] == multiset(s)[c]
  {
    if s != [] {
      RemoveAllKeepsOthers(s[1..], ws, c);
      assert s == [s[0]] + s[1..];
      if !IsSpace(ws, s[0]) {
        assert RemoveAll(s, ws) == [s[0]] + RemoveAll(s[1..], ws);
      }
    }
  }

  /** Removal works piece by piece. */
  lemma {:induction false} RemoveAllConcat(a: string, b: string, ws: Space)
    ensures RemoveAll(a + b, ws) == RemoveAll(a, ws) + RemoveAll(b, ws)
  {
    if a == [] {
      assert a + b == b;
    } else {
      assert (a + b)[0] == a[0] && (a + b)[1..] == a[1..] + b;
      RemoveAllConcat(a[1..], b, ws);
      if !IsSpace(ws, a[0]) {
        assert [a[0]] + RemoveAll(a[1..], ws) + RemoveAll(b, ws) == [a[0]] + (RemoveAll(a[1..], ws) + RemoveAll(b, ws));
      }
    }
  }

  function LowerAscii(c: char): char {
    if 'A' <= c <= 'Z' then (c as int + 32) as char else c
  }

  /** `toLowerCase()` on ASCII letters. */
  function ToLower(s: string): (r: string)
    ensures |r| == |s| && forall k :: 0 <= k < |s| ==> r[k] == LowerAscii(s[k])
  {
    seq(|s|, k requires 0 <= k < |s| => LowerAscii(s[k]))
  }

  function UpperAscii(c: char): char {
    if 'a' <= c <= 'z' then (c as int - 32) as char else c
  }

  /** Python's `upper()` on ASCII letters. */
  function ToUpper(s: string): (r: string)
    ensures |r| == |s| && forall k :: 0 <= k < |s| ==> r[k] == UpperAscii(s[k])
  {
    seq(|s|, k requires 0 <= k < |s| => UpperAscii(s[k]))
  }

  /** Python's `s.replace(c, '')` for a one-character `c`. */
  function RemoveChar(s: string, c: char): (r: string)
    ensures |r| <= |s|
    ensures forall k :: 0 <= k < |r| ==> r[k] != c
  {
    if s == [] then []
    else if s[0] == c then RemoveChar(s[1..], c)
    else [s[0]] + RemoveChar(s[1..], c)
  }

  lemma {:induction false} RemoveCharConcat(a: string, b: string, c: char)
    ensures RemoveChar(a + b, c) == RemoveChar(a, c) + RemoveChar(b, c)
  {
    if a != [] {
      assert (a + b)[1..] == a[1..] + b;
      RemoveCharConcat(a[1..], b, c);
    } else {
      assert a + b == b;
    }
  }

  lemma {:induction false} RemoveCharAbsent(s: string, c: char)
    requires forall k :: 0 <= k < |s| ==> s[k] != c
    ensures RemoveChar(s, c) == s
  {
    if s != [] {
      RemoveCharAbsent(s[1..], c);
    }
  }

  /** `s.includes(sub)`: `sub` occurs in `s` as a contiguous slice. */
  predicate Includes(s: string, sub: string) {
    exists i | 0 <= i <= |s| - |sub| :: OccursAt(s, sub, i)
  }

  predicate OccursAt(s: string, sub: string, i: int) {
    0 <= i <= |s| - |sub| && s[i..i + |sub|] == sub
  }

  /** Python's `sep.join(parts)`. */
  function Join(parts: seq<string>, sep: string): (r: string)
    ensures parts == [] ==> r == []
    ensures |parts| == 1 ==> r == parts[0]
  {
    if parts == [] then []
    else if |parts| == 1 then parts[0]
    else parts[0] + sep + Join(parts[1..], sep)
  }

  lemma {:induction false} JoinLength(parts: seq<string>, sep: string)
    requires parts != []
    ensures |Join(parts, sep)| == SumLengths(parts) + (|parts| - 1) * |sep|
  {
    if |parts| > 1 {
      JoinLength(parts[1..], sep);
    }
  }

  function SumLengths(parts: seq<string>): nat {
    if parts == [] then 0 else |parts[0]| + SumLengths(parts[1..])
  }

  /** The order a database applies to a text column under a binary
      collation: character by character, a prefix first. */
  predicate LexLe(a: string, b: string) {
    a == [] || (b != [] && (a[0] < b[0] || (a[0] == b[0] && LexLe(a[1..], b[1..]))))
  }

  /** Any two strings are ordered one way or the other. */
  lemma {:induction false} LexLeTotal(a: string, b: string)
    ensures LexLe(a, b) || LexLe(b, a)
  {
    if a != [] && b != [] && a[0] == b[0] {
      LexLeTotal(a[1..], b[1..]);
    }
  }

  lemma {:induction false} LexLeTransitive(a: string, b: string, c: string)
    requires LexLe(a, b) && LexLe(b, c)
    ensures LexLe(a, c)
  {
    if a != [] && b != [] && c != [] && a[0] == b[0] && b[0] == c[0] {
      LexLeTransitive(a[1..], b[1..], c[1..]);
    }
  }
}
