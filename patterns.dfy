/** The regular expressions the source validates phone numbers and e-mail
    addresses with, each transcribed as a predicate that follows the
    expression's structure (an alternation becomes a disjunction, a
    concatenation a split point), together with a direct description of the
    strings each one accepts. `\d` and `[0-9]` are ASCII digits throughout. */
module Patterns {
  import opened Common
  import opened Text

  // ---------------------------------------------------------------------------
  // Nigerian phone numbers
  // ---------------------------------------------------------------------------

  /** `[789][01]\d{8}`: the ten characters after the prefix. */
  predicate PhoneBody(t: string) {
    |t| == 10 && t[0] in "789" && t[1] in "01" && AllDigits(t[2..])
  }

  /** The group `(\+?234|0)`. */
  predicate OptionalPlusPrefix(p: string) {
    || (|p| == 4 && p[0] == '+' && p[1..] == "234")
    || p == "234"
    || p == "0"
  }

  /** The group `(\+234|234|0)`. */
  predicate AlternationPrefix(p: string) {
    p == "+234" || p == "234" || p == "0"
  }

  /** `^(\+?234|0)[789][01]\d{8}$` matching all of `s` (applications/serializers.py
      and static/js/application-form.js). */
  predicate MatchesOptionalPlusPhone(s: string) {
    exists i | 0 <= i <= |s| :: OptionalPlusPrefix(s[..i]) && PhoneBody(s[i..])
  }

  /** `^(\+234|234|0)[789][01][0-9]{8}$` matching all of `s` (static/js/main.js). */
  predicate MatchesAlternationPhone(s: string) {
    exists i | 0 <= i <= |s| :: AlternationPrefix(s[..i]) && PhoneBody(s[i..])
  }

  /** The accepted numbers described directly: a trunk `0` and eleven
      characters, `234` and thirteen, or `+234` and fourteen. */
  predicate IsNigerianPhone(s: string) {
    || (|s| == 11 && s[0] == '0' && PhoneBody(s[1..]))
    || (|s| == 13 && s[..3] == "234" && PhoneBody(s[3..]))
    || (|s| == 14 && s[..4] == "+234" && PhoneBody(s[4..]))
  }

  lemma {:induction false} OptionalPlusPhoneIsNigerianPhone(s: string)
    ensures MatchesOptionalPlusPhone(s) <==> IsNigerianPhone(s)
  {
    if MatchesOptionalPlusPhone(s) {
      var i :| 0 <= i <= |s| && OptionalPlusPrefix(s[..i]) && PhoneBody(s[i..]);
      assert s[..i] == "0" || s[..i] == "234" || s[..i] == "+234" by {
        if |s[..i]| == 4 && s[..i][0] == '+' && s[..i][1..] == "234" {
          assert s[..i] == [s[..i][0]] + s[..i][1..];
        }
      }
    }
    if IsNigerianPhone(s) {
      if |s| == 11 && s[0] == '0' && PhoneBody(s[1..]) {
        assert s[..1] == "0";
        assert OptionalPlusPrefix(s[..1]) && PhoneBody(s[1..]);
      } else if |s| == 13 && s[..3] == "234" && PhoneBody(s[3..]) {
        assert OptionalPlusPrefix(s[..3]) && PhoneBody(s[3..]);
      } else {
        assert s[..4][1..] == "234";
        assert OptionalPlusPrefix(s[..4]) && PhoneBody(s[4..]);
      }
    }
  }

  lemma {:induction false} AlternationPhoneIsNigerianPhone(s: string)
    ensures MatchesAlternationPhone(s) <==> IsNigerianPhone(s)
  {
    if IsNigerianPhone(s) {
      if |s| == 11 && s[0] == '0' && PhoneBody(s[1..]) {
        assert s[..1] == "0";
        assert AlternationPrefix(s[..1]) && PhoneBody(s[1..]);
      } else if |s| == 13 && s[..3] == "234" && PhoneBody(s[3..]) {
        assert AlternationPrefix(s[..3]) && PhoneBody(s[3..]);
      } else {
        assert AlternationPrefix(s[..4]) && PhoneBody(s[4..]);
      }
    }
  }

  /** The two spellings of the pattern accept the same strings: the client in
      static/js/main.js and the server agree on every whitespace-free input. */
  lemma SamePhoneLanguage(s: string)
    ensures MatchesAlternationPhone(s) <==> MatchesOptionalPlusPhone(s)
  {
    AlternationPhoneIsNigerianPhone(s);
    OptionalPlusPhoneIsNigerianPhone(s);
  }

  /** Every accepted number has 11, 13 or 14 characters. */
  lemma PhoneLengths(s: string)
    requires MatchesOptionalPlusPhone(s)
    ensures |s| == 11 || |s| == 13 || |s| == 14
  {
    OptionalPlusPhoneIsNigerianPhone(s);
  }

  /** An accepted number holds no space character. */
  lemma {:induction false} PhoneHasNoSpace(s: string, k: nat)
    requires MatchesOptionalPlusPhone(s) && k < |s|
    ensures s[k] != ' '
  {
    OptionalPlusPhoneIsNigerianPhone(s);
    var i := if s[0] == '0' then 1 else if s[0] == '2' then 3 else 4;
    if k >= i {
      assert s[k] == s[i..][k - i];
      if k - i >= 2 {
        assert s[i..][k - i] == s[i..][2..][k - i - 2];
      }
    } else if s[0] == '2' {
      assert s[k] == s[..3][k];
    } else if s[0] == '+' {
      assert s[k] == s[..4][k];
    }
  }

  /** Python's `re.match(pattern, s)` with a pattern ending in `$`: `$` also
      matches just before a newline that ends the string. */
  predicate PyMatchesOptionalPlusPhone(s: string) {
    || MatchesOptionalPlusPhone(s)
    || (s != [] && s[|s| - 1] == '\n' && MatchesOptionalPlusPhone(s[..|s| - 1]))
  }

  // ---------------------------------------------------------------------------
  // E-mail addresses
  // ---------------------------------------------------------------------------

  /** `[^\s@]+`. */
  predicate EmailPart(t: string) {
    t != [] && forall k :: 0 <= k < |t| ==> !IsSpace(JsSpace, t[k]) && t[k] != '@'
  }

  /** `^[^\s@]+@[^\s@]+\.[^\s@]+$` matching all of `s`: `i` is where the `@`
      is matched and `j` where the `\.` is. */
  predicate MatchesEmail(s: string) {
    exists i, j | 0 <= i < j < |s| ::
      AtDotSplit(s, i, j) && EmailPart(s[..i]) && EmailPart(s[i + 1..j]) && EmailPart(s[j + 1..])
  }

  predicate AtDotSplit(s: string, i: int, j: int) {
    0 <= i < j < |s| && s[i] == '@' && s[j] == '.'
  }

  /** The accepted addresses described directly: no white space, exactly one
      `@` and it is not first, and a `.` in the domain with text on both sides. */
  predicate IsEmailShape(s: string) {
    && NoneIn(s, JsSpace)
    && exists i | 0 < i < |s| :: OnlyAt(s, i) && exists j | i + 1 < j < |s| - 1 :: s[j] == '.'
  }

  /** `s[i]` is an `@` and no other character of `s` is. */
  predicate OnlyAt(s: string, i: int) {
    0 <= i < |s| && s[i] == '@' && forall k :: 0 <= k < |s| && k != i ==> s[k] != '@'
  }

  lemma {:induction false} EmailMatchIsShape(s: string)
    ensures MatchesEmail(s) <==> IsEmailShape(s)
  {
    if MatchesEmail(s) {
      var i, j :| 0 <= i < j < |s| && AtDotSplit(s, i, j) && EmailPart(s[..i])
                  && EmailPart(s[i + 1..j]) && EmailPart(s[j + 1..]);
      forall k | 0 <= k < |s| ensures !IsSpace(JsSpace, s[k]) && (k != i ==> s[k] != '@') {
        if k < i {
          assert s[k] == s[..i][k];
        } else if k == i {
          DigitsAndSignsAreNotSpace(JsSpace, s[k]);
        } else if k < j {
          assert s[k] == s[i + 1..j][k - i - 1];
        } else if k == j {
          DigitsAndSignsAreNotSpace(JsSpace, s[k]);
        } else {
          assert s[k] == s[j + 1..][k - j - 1];
        }
      }
      assert OnlyAt(s, i);
      assert i + 1 < j < |s| - 1;
    }
    if IsEmailShape(s) {
      var i :| 0 < i < |s| && OnlyAt(s, i) && exists j | i + 1 < j < |s| - 1 :: s[j] == '.';
      var j :| i + 1 < j < |s| - 1 && s[j] == '.';
      forall t | t == s[..i] || t == s[i + 1..j] || t == s[j + 1..] ensures EmailPart(t) {
        var off := if t == s[..i] then 0 else if t == s[i + 1..j] then i + 1 else j + 1;
        forall k | 0 <= k < |t| ensures !IsSpace(JsSpace, t[k]) && t[k] != '@' {
          assert t[k] == s[off + k];
        }
      }
      assert AtDotSplit(s, i, j);
    }
  }
}
