/**
 * The string operations the recorder relies on, written out with the meaning
 * Python gives them: `str(n)` for integers, `sub in s`, `s.split(sep)`,
 * `s.split()` and `s.replace('\\n', '\n')`.
 */
module Text {
  import opened Wrappers

  // ---------------------------------------------------------------------
  // Decimal text of integers (Python's str() on int) and its reader
  // ---------------------------------------------------------------------

  predicate IsDigit(c: char) { '0' <= c <= '9' }

  predicate AllDigits(s: string) { forall i :: 0 <= i < |s| ==> IsDigit(s[i]) }

  function DigitChar(d: nat): (c: char)
    requires d < 10
    ensures IsDigit(c)
  {
    (('0' as int) + d) as char
  }

  function DigitValue(c: char): (d: nat)
    requires IsDigit(c)
    ensures d < 10 && DigitChar(d) == c
  {
    (c as int) - ('0' as int)
  }

  /** The decimal digits of n, most significant first, with no leading zero. */
  function NatToString(n: nat): (s: string)
    ensures |s| > 0 && AllDigits(s)
    ensures |s| > 1 ==> s[0] != '0'
    ensures |s| == 1 <==> n < 10
    decreases n
  {
    if n < 10 then [DigitChar(n)] else NatToString(n / 10) + [DigitChar(n % 10)]
  }

  /** Python's str() on an int: a '-' before the digits of a negative number. */
  function IntToString(i: int): (s: string)
    ensures |s| > 0
    ensures IsDigit(s[0]) || (s[0] == '-' && |s| > 1 && AllDigits(s[1..]))
    ensures AllDigits(s) <==> i >= 0
    ensures forall k :: 0 <= k < |s| ==> IsDigit(s[k]) || (k == 0 && s[k] == '-')
  {
    if i < 0 then "-" + NatToString(-i) else NatToString(i)
  }

  /** The value of a non-empty run of decimal digits (leading zeros allowed). */
  function ParseNat(s: string): nat
    requires |s| > 0 && AllDigits(s)
    decreases |s|
  {
    if |s| == 1 then DigitValue(s[0])
    else 10 * ParseNat(s[..|s| - 1]) + DigitValue(s[|s| - 1])
  }

  /** Reads an optionally signed decimal integer, the way an argument parser reads `-offset_x`. */
  function ParseInt(s: string): Option<int>
  {
    if |s| > 1 && s[0] == '-' && AllDigits(s[1..]) then Some(0 - ParseNat(s[1..]))
    else if |s| > 0 && AllDigits(s) then Some(ParseNat(s))
    else None
  }

  lemma {:induction false} NatRoundTrip(n: nat)
    ensures ParseNat(NatToString(n)) == n
    decreases n
  {
    if n >= 10 {
      var s := NatToString(n / 10);
      var t := s + [DigitChar(n % 10)];
      assert NatToString(n) == t;
      assert t[..|t| - 1] == s;
      NatRoundTrip(n / 10);
    }
  }

  /** Whatever integer is written with str(), reading it back gives the same integer. */
  lemma IntRoundTrip(i: int)
    ensures ParseInt(IntToString(i)) == Some(i)
  {
    if i < 0 {
      var t := NatToString(-i);
      assert IntToString(i)[1..] == t;
      NatRoundTrip(-i);
    } else {
      NatRoundTrip(i);
    }
  }

  /** A leading "0" does not change the value read, as on the stopwatch display. */
  lemma {:induction false} LeadingZeroRead(s: string)
    requires |s| > 0 && AllDigits(s)
    ensures AllDigits("0" + s) && ParseNat("0" + s) == ParseNat(s)
    decreases |s|
  {
    var z := "0" + s;
    assert z[..|z| - 1] == "0" + s[..|s| - 1];
    if |s| > 1 {
      LeadingZeroRead(s[..|s| - 1]);
    }
  }

  /** A count shown with at least two digits: a leading "0" below 10. */
  function TwoDigits(n: nat): (s: string)
    ensures |s| > 0 && AllDigits(s)
    ensures n < 100 ==> |s| == 2
  {
    if n < 10 then "0" + NatToString(n) else NatToString(n)
  }

  /** The padded text still reads as the number it pads. */
  lemma TwoDigitsRead(n: nat)
    ensures ParseNat(TwoDigits(n)) == n
  {
    NatRoundTrip(n);
    if n < 10 {
      LeadingZeroRead(NatToString(n));
    }
  }

  // ---------------------------------------------------------------------
  // Substrings and characters
  // ---------------------------------------------------------------------

  /** sub occurs in s starting at position i. */
  predicate OccursAt(s: string, sub: string, i: nat)
  {
    i + |sub| <= |s| && s[i..i + |sub|] == sub
  }

  /** Python's `sub in s`. */
  predicate Contains(s: string, sub: string)
  {
    exists i: nat :: i <= |s| && OccursAt(s, sub, i)
  }

  /** The position of the first c in s. */
  function IndexOf(s: string, c: char): (r: nat)
    requires c in s
    ensures r < |s| && s[r] == c && c !in s[..r]
  {
    if s[0] == c then 0 else 1 + IndexOf(s[1..], c)
  }

  // ---------------------------------------------------------------------
  // s.split(sep) with a one-character separator, and its inverse
  // ---------------------------------------------------------------------

  /** Python's `s.split(sep)`: the pieces between separators, in order; never empty. */
  function Split(s: string, sep: char): (parts: seq<string>)
    ensures |parts| >= 1
    ensures |parts| > 1 <==> sep in s
    ensures forall k :: 0 <= k < |parts| ==> sep !in parts[k]
    decreases |s|
  {
    if sep !in s then [s]
    else
      var i := IndexOf(s, sep);
      [s[..i]] + Split(s[i + 1..], sep)
  }

  /** Python's `sep.join(parts)`. */
  function Join(parts: seq<string>, sep: char): string
    requires |parts| >= 1
    decreases |parts|
  {
    if |parts| == 1 then parts[0] else parts[0] + [sep] + Join(parts[1..], sep)
  }

  /** Splitting and joining again on the same separator gives the text back. */
  lemma {:induction false} JoinSplit(s: string, sep: char)
    ensures Join(Split(s, sep), sep) == s
    decreases |s|
  {
    if sep in s {
      var i := IndexOf(s, sep);
      var rest := s[i + 1..];
      JoinSplit(rest, sep);
      var ps := Split(s, sep);
      assert ps[1..] == Split(rest, sep);
      assert s == s[..i] + [sep] + rest;
    }
  }

  /**
   * The text after the first `sep`, up to the next `sep` or to the end of s:
   * the second field of `s.split(sep)`.
   */
  function AfterFirst(s: string, sep: char): string
    requires sep in s
  {
    var rest := s[IndexOf(s, sep) + 1..];
    if sep in rest then rest[..IndexOf(rest, sep)] else rest
  }

  lemma SecondField(s: string, sep: char)
    requires sep in s
    ensures Split(s, sep)[1] == AfterFirst(s, sep)
  {
    var rest := s[IndexOf(s, sep) + 1..];
    assert Split(s, sep)[1] == Split(rest, sep)[0];
  }

  /** The first separator is the one at k when none comes before it. */
  lemma IndexOfAt(s: string, c: char, k: nat)
    requires k < |s| && s[k] == c && c !in s[..k]
    ensures c in s && IndexOf(s, c) == k
  {
  }

  /** A first piece free of the separator splits off on its own. */
  lemma SplitCons(a: string, rest: string, sep: char)
    requires sep !in a
    ensures Split(a + [sep] + rest, sep) == [a] + Split(rest, sep)
  {
    var s := a + [sep] + rest;
    assert s[..|a|] == a;
    IndexOfAt(s, sep, |a|);
    assert s[|a| + 1..] == rest;
  }

  /** Splitting "a<sep>b" where neither piece holds the separator gives exactly [a, b]. */
  lemma SplitPair(a: string, b: string, sep: char)
    requires sep !in a && sep !in b
    ensures Split(a + [sep] + b, sep) == [a, b]
  {
    var s := a + [sep] + b;
    assert s[|a|] == sep;
    assert s[..|a|] == a;
    assert IndexOf(s, sep) == |a|;
    assert s[|a| + 1..] == b;
  }

  // ---------------------------------------------------------------------
  // s.split() with no separator: whitespace-separated tokens
  // ---------------------------------------------------------------------

  /** The characters Python's str.split() treats as whitespace. */
  predicate IsSpace(c: char)
  {
    var k := c as int;
    (9 <= k <= 13) || (28 <= k <= 32) || k == 0x85 || k == 0xA0 || k == 0x1680
    || (0x2000 <= k <= 0x200A) || k == 0x2028 || k == 0x2029 || k == 0x202F
    || k == 0x205F || k == 0x3000
  }

  predicate NoSpace(s: string) { forall i :: 0 <= i < |s| ==> !IsSpace(s[i]) }

  /** The length of the run of non-space characters that s starts with. */
  function WordLength(s: string): (n: nat)
    ensures n <= |s| && NoSpace(s[..n])
    ensures n < |s| ==> IsSpace(s[n])
    decreases |s|
  {
    if |s| == 0 || IsSpace(s[0]) then 0
    else
      var m := WordLength(s[1..]);
      assert s[..1 + m] == [s[0]] + s[1..][..m];
      1 + m
  }

  /** Python's `s.split()`: the maximal runs of non-space characters, in order. */
  function Tokens(s: string): (ts: seq<string>)
    ensures forall k :: 0 <= k < |ts| ==> |ts[k]| > 0 && NoSpace(ts[k])
    decreases |s|
  {
    if |s| == 0 then []
    else if IsSpace(s[0]) then Tokens(s[1..])
    else
      var n := WordLength(s);
      [s[..n]] + Tokens(s[n..])
  }

  /** s with its whitespace characters removed. */
  function WithoutSpaces(s: string): string
    decreases |s|
  {
    if |s| == 0 then "" else (if IsSpace(s[0]) then "" else [s[0]]) + WithoutSpaces(s[1..])
  }

  function Concat(ts: seq<string>): string
    decreases |ts|
  {
    if |ts| == 0 then "" else ts[0] + Concat(ts[1..])
  }

  lemma {:induction false} WithoutSpacesOfWord(w: string, rest: string)
    requires NoSpace(w)
    ensures WithoutSpaces(w + rest) == w + WithoutSpaces(rest)
    decreases |w|
  {
    if |w| > 0 {
      var s := w + rest;
      assert s[0] == w[0] && !IsSpace(w[0]);
      assert s[1..] == w[1..] + rest;
      assert WithoutSpaces(s) == [w[0]] + WithoutSpaces(s[1..]);
      WithoutSpacesOfWord(w[1..], rest);
      calc {
        WithoutSpaces(s);
        [w[0]] + (w[1..] + WithoutSpaces(rest));
        { assert w == [w[0]] + w[1..]; }
        w + WithoutSpaces(rest);
      }
    } else {
      assert w + rest == rest && w + WithoutSpaces(rest) == WithoutSpaces(rest);
    }
  }

  /** The tokens lose nothing but whitespace: together they spell s without its spaces. */
  lemma {:induction false} TokensCoverText(s: string)
    ensures Concat(Tokens(s)) == WithoutSpaces(s)
    decreases |s|
  {
    if |s| > 0 {
      if IsSpace(s[0]) {
        TokensCoverText(s[1..]);
      } else {
        var n := WordLength(s);
        TokensCoverText(s[n..]);
        assert s == s[..n] + s[n..];
        WithoutSpacesOfWord(s[..n], s[n..]);
        assert Tokens(s)[1..] == Tokens(s[n..]);
      }
    }
  }

  /** A word ends at the first whitespace after it. */
  lemma {:induction false} WordLengthOfWord(w: string, rest: string)
    requires NoSpace(w) && (|rest| == 0 || IsSpace(rest[0]))
    ensures WordLength(w + rest) == |w|
    decreases |w|
  {
    if |w| > 0 {
      assert (w + rest)[1..] == w[1..] + rest;
      WordLengthOfWord(w[1..], rest);
    } else {
      assert w + rest == rest;
    }
  }

  /** A text that starts with a word starts its tokens with that word. */
  lemma TokensOfWord(w: string, rest: string)
    requires |w| > 0 && NoSpace(w) && (|rest| == 0 || IsSpace(rest[0]))
    ensures Tokens(w + rest) == [w] + Tokens(rest)
  {
    var s := w + rest;
    WordLengthOfWord(w, rest);
    assert s[..|w|] == w && s[|w|..] == rest;
  }

  /** Leading whitespace yields no token. */
  lemma TokensAfterSpace(c: char, rest: string)
    requires IsSpace(c)
    ensures Tokens([c] + rest) == Tokens(rest)
  {
    assert ([c] + rest)[1..] == rest;
  }

  // ---------------------------------------------------------------------
  // s.replace('\\n', '\n'): the two characters backslash, n become a newline
  // ---------------------------------------------------------------------

  /** True when s holds a backslash immediately followed by 'n'. */
  predicate HasEscapedNewline(s: string)
  {
    exists i :: 0 <= i < |s| - 1 && s[i] == '\\' && s[i + 1] == 'n'
  }

  /** Left-to-right replacement of every backslash-n pair by a newline, as str.replace does. */
  function Unescape(s: string): (r: string)
    ensures |r| == 0 <==> |s| == 0
    ensures |s| > 0 ==> (r[0] == 'n' <==> s[0] == 'n')
    decreases |s|
  {
    if |s| == 0 then ""
    else if |s| >= 2 && s[0] == '\\' && s[1] == 'n' then "\n" + Unescape(s[2..])
    else [s[0]] + Unescape(s[1..])
  }

  /** After the replacement no backslash-n pair is left anywhere. */
  lemma {:induction false} UnescapeLeavesNoEscape(s: string)
    ensures !HasEscapedNewline(Unescape(s))
    decreases |s|
  {
    if |s| == 0 {
    } else if |s| >= 2 && s[0] == '\\' && s[1] == 'n' {
      var t := Unescape(s[2..]);
      UnescapeLeavesNoEscape(s[2..]);
      var r := "\n" + t;
      forall i | 0 <= i < |r| - 1 && r[i] == '\\'
        ensures r[i + 1] != 'n'
      {
        assert i > 0 && r[i] == t[i - 1] && r[i + 1] == t[i];
      }
    } else {
      var t := Unescape(s[1..]);
      UnescapeLeavesNoEscape(s[1..]);
      var r := [s[0]] + t;
      forall i | 0 <= i < |r| - 1 && r[i] == '\\'
        ensures r[i + 1] != 'n'
      {
        if i == 0 {
          assert r[1] == t[0];
        } else {
          assert r[i] == t[i - 1] && r[i + 1] == t[i];
        }
      }
    }
  }

  /** Writes every newline as backslash-n: the form a one-line INI value takes. */
  function Escape(s: string): string
    decreases |s|
  {
    if |s| == 0 then "" else (if s[0] == '\n' then "\\n" else [s[0]]) + Escape(s[1..])
  }

  /** Unescaping undoes escaping for text that holds no backslash of its own. */
  lemma {:induction false} UnescapeEscape(s: string)
    requires '\\' !in s
    ensures Unescape(Escape(s)) == s
    decreases |s|
  {
    if |s| > 0 {
      assert '\\' !in s[1..];
      UnescapeEscape(s[1..]);
      var e := Escape(s[1..]);
      if s[0] == '\n' {
        assert Escape(s) == "\\n" + e;
        assert ("\\n" + e)[2..] == e;
      } else {
        assert Escape(s) == [s[0]] + e;
        assert ([s[0]] + e)[1..] == e;
      }
    }
  }

  // ---------------------------------------------------------------
  // Case
  // ---------------------------------------------------------------

  /** `str.lower()` on ASCII letters. */
  function Lower(s: string): (r: string)
    ensures |r| == |s|
    ensures forall k :: 0 <= k < |s| ==> r[k] == if 'A' <= s[k] <= 'Z' then (s[k] as int + 32) as char else s[k]
    decreases |s|
  {
    if |s| == 0 then ""
    else [if 'A' <= s[0] <= 'Z' then (s[0] as int + 32) as char else s[0]] + Lower(s[1..])
  }

  /** Lower-casing twice is lower-casing once: a lower-cased name is its own lower-case form. */
  lemma LowerIdempotent(s: string)
    ensures Lower(Lower(s)) == Lower(s)
  {
    var r := Lower(s);
    assert forall k :: 0 <= k < |r| ==> !('A' <= r[k] <= 'Z');
  }
}
