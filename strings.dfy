/** The Python `str` operations the core relies on, as functions on
    `seq<char>`: `strip`, `split`, `join`, `find`, `in`, `startswith`,
    `replace`, `upper` and `str(int)`. */
module Strings {

  /** Python's `str.isspace()` on one character. */
  predicate IsSpace(c: char)
  {
    || '\t' <= c <= '\r' || '\U{1C}' <= c <= ' '
    || c == '\U{85}' || c == '\U{A0}' || c == '\U{1680}'
    || '\U{2000}' <= c <= '\U{200A}' || c == '\U{2028}' || c == '\U{2029}'
    || c == '\U{202F}' || c == '\U{205F}' || c == '\U{3000}'
  }

  /** The characters that `str.strip()` without an argument removes from
      both ends. */
  const Whitespace: set<char> := set c: char | '\t' <= c <= '\U{3000}' && IsSpace(c)

  /** The number of leading characters of `s` that belong to `cs`. */
  function LeadingIn(s: string, cs: set<char>): (n: nat)
    ensures n <= |s| && (n == |s| || s[n] !in cs)
    ensures forall i :: 0 <= i < n ==> s[i] in cs
  {
    if |s| > 0 && s[0] in cs then 1 + LeadingIn(s[1..], cs) else 0
  }

  /** The number of trailing characters of `s` that belong to `cs`. */
  function TrailingIn(s: string, cs: set<char>): (n: nat)
    ensures n <= |s| && (n == |s| || s[|s| - 1 - n] !in cs)
    ensures forall i :: |s| - n <= i < |s| ==> s[i] in cs
  {
    if |s| > 0 && s[|s| - 1] in cs then 1 + TrailingIn(s[..|s| - 1], cs) else 0
  }

  /** Drops the leading characters that belong to `cs`. */
  function TrimStart(s: string, cs: set<char>): string
  {
    s[LeadingIn(s, cs)..]
  }

  /** Drops the trailing characters that belong to `cs`. */
  function TrimEnd(s: string, cs: set<char>): string
  {
    s[..|s| - TrailingIn(s, cs)]
  }

  /** Python's `s.strip(cs)`: neither end of the result is in `cs`. */
  function Strip(s: string, cs: set<char>): (r: string)
    ensures |r| <= |s|
    ensures r == [] || (r[0] !in cs && r[|r| - 1] !in cs)
  {
    TrimEnd(TrimStart(s, cs), cs)
  }

  /** The strip is a middle slice of `s`, everything around it being in
      `cs`. */
  lemma StripIsSlice(s: string, cs: set<char>)
    ensures StrippedAt(s, cs, LeadingIn(s, cs), Strip(s, cs))
  {
  }

  /** `r` is the slice of `s` at offset `a`, and every character of `s`
      outside that slice is in `cs`. */
  predicate StrippedAt(s: string, cs: set<char>, a: int, r: string)
  {
    && 0 <= a <= |s| - |r| && r == s[a..a + |r|]
    && (forall i :: 0 <= i < a ==> s[i] in cs)
    && (forall i :: a + |r| <= i < |s| ==> s[i] in cs)
  }

  /** A string is its own strip exactly when it is empty or neither of its
      ends is in `cs`. */
  lemma StripUnchanged(s: string, cs: set<char>)
    ensures Strip(s, cs) == s <==> (s == [] || (s[0] !in cs && s[|s| - 1] !in cs))
  {
  }

  /** Stripping twice is stripping once. */
  lemma StripIdempotent(s: string, cs: set<char>)
    ensures Strip(Strip(s, cs), cs) == Strip(s, cs)
  {
    StripUnchanged(Strip(s, cs), cs);
  }

  /** Stripping a string whose first character alone is in `cs` removes
      just that character. */
  lemma StripOneLeading(c: char, s: string, cs: set<char>)
    requires c in cs && |s| > 0 && s[0] !in cs && s[|s| - 1] !in cs
    ensures Strip([c] + s, cs) == s
  {
    assert ([c] + s)[1..] == s;
    assert LeadingIn([c] + s, cs) == 1;
    StripUnchanged(s, cs);
  }

  /** Python's `s.split(sep)` for a one-character separator: never empty,
      and no piece contains the separator. */
  function Split(s: string, sep: char): (pieces: seq<string>)
    ensures |pieces| >= 1
    ensures forall i :: 0 <= i < |pieces| ==> sep !in pieces[i]
  {
    if |s| == 0 then [""]
    else
      var rest := Split(s[1..], sep);
      if s[0] == sep then [""] + rest
      else [[s[0]] + rest[0]] + rest[1..]
  }

  /** Python's `sep.join(pieces)`. */
  function Join(pieces: seq<string>, sep: char): string
  {
    if |pieces| == 0 then ""
    else if |pieces| == 1 then pieces[0]
    else pieces[0] + [sep] + Join(pieces[1..], sep)
  }

  /** Joining the pieces of a split gives back the string. */
  lemma {:induction false} JoinSplit(s: string, sep: char)
    ensures Join(Split(s, sep), sep) == s
  {
    if |s| > 0 {
      var rest := Split(s[1..], sep);
      JoinSplit(s[1..], sep);
      if s[0] == sep {
        assert ([""] + rest)[1..] == rest;
      } else if |rest| > 1 {
        var pieces := [[s[0]] + rest[0]] + rest[1..];
        assert pieces[1..] == rest[1..];
      }
    }
  }

  lemma {:induction false} SplitWithoutSeparator(a: string, sep: char)
    requires sep !in a
    ensures Split(a, sep) == [a]
  {
    if |a| > 0 {
      SplitWithoutSeparator(a[1..], sep);
      assert [a[0]] + a[1..] == a;
    }
  }

  lemma {:induction false} SplitAfterFirstPiece(a: string, b: string, sep: char)
    requires sep !in a
    ensures Split(a + [sep] + b, sep) == [a] + Split(b, sep)
  {
    var s := a + [sep] + b;
    if |a| == 0 {
      assert s[0] == sep && s[1..] == b;
    } else {
      assert s[0] == a[0] && s[1..] == a[1..] + [sep] + b;
      SplitAfterFirstPiece(a[1..], b, sep);
      assert [a[0]] + a[1..] == a;
    }
  }

  /** Splitting a join of separator-free pieces gives back the pieces. */
  lemma {:induction false} SplitJoin(pieces: seq<string>, sep: char)
    requires |pieces| >= 1
    requires forall i :: 0 <= i < |pieces| ==> sep !in pieces[i]
    ensures Split(Join(pieces, sep), sep) == pieces
  {
    if |pieces| == 1 {
      SplitWithoutSeparator(pieces[0], sep);
    } else {
      SplitJoin(pieces[1..], sep);
      SplitAfterFirstPiece(pieces[0], Join(pieces[1..], sep), sep);
      assert [pieces[0]] + pieces[1..] == pieces;
    }
  }

  /** Python's `s.find(c)` when `c` occurs: the first position of `c`. */
  function IndexOf(s: string, c: char): (i: nat)
    requires c in s
    ensures i < |s| && s[i] == c && c !in s[..i]
  {
    if s[0] == c then 0
    else
      var j := IndexOf(s[1..], c);
      assert s[1..][..j] == s[1..j + 1];
      1 + j
  }

  predicate StartsWith(s: string, prefix: string)
  {
    |prefix| <= |s| && s[..|prefix|] == prefix
  }

  predicate EndsWith(s: string, suffix: string)
  {
    |suffix| <= |s| && s[|s| - |suffix|..] == suffix
  }

  /** Python's `sub in s`. */
  predicate Contains(s: string, sub: string)
  {
    exists i | 0 <= i <= |s| :: OccursAt(s, sub, i)
  }

  predicate OccursAt(s: string, sub: string, i: int)
  {
    0 <= i <= |s| - |sub| && s[i..i + |sub|] == sub
  }

  lemma ContainsMiddle(a: string, sub: string, b: string)
    ensures Contains(a + sub + b, sub)
  {
    var s := a + sub + b;
    assert OccursAt(s, sub, |a|);
  }

  /** A string without the first character of `sub` does not contain it. */
  lemma AbsentFirstChar(s: string, sub: string)
    requires |sub| > 0 && sub[0] !in s
    ensures !Contains(s, sub)
  {
  }

  lemma ContainsTail(s: string, sub: string)
    requires |s| > 0
    ensures Contains(s[1..], sub) ==> Contains(s, sub)
  {
    if Contains(s[1..], sub) {
      var i :| 0 <= i <= |s[1..]| && OccursAt(s[1..], sub, i);
      assert s[1..][i..i + |sub|] == s[i + 1..i + 1 + |sub|];
      assert OccursAt(s, sub, i + 1);
    }
  }

  /** Python's `s.replace(pattern, replacement)`: every non-overlapping
      occurrence, scanning from the left, is replaced. */
  function ReplaceAll(s: string, pattern: string, replacement: string): string
    requires |pattern| > 0
    decreases |s|
  {
    if |s| == 0 then ""
    else if StartsWith(s, pattern) then replacement + ReplaceAll(s[|pattern|..], pattern, replacement)
    else [s[0]] + ReplaceAll(s[1..], pattern, replacement)
  }

  /** A string without the pattern is left as it is. */
  lemma {:induction false} ReplaceAbsent(s: string, pattern: string, replacement: string)
    requires |pattern| > 0 && !Contains(s, pattern)
    ensures ReplaceAll(s, pattern, replacement) == s
  {
    if |s| > 0 {
      assert !OccursAt(s, pattern, 0);
      ContainsTail(s, pattern);
      ReplaceAbsent(s[1..], pattern, replacement);
      assert [s[0]] + s[1..] == s;
    }
  }

  /** When the pattern's first character occurs nowhere else in it and the
      stem does not contain the pattern, the first occurrence is the one
      right after the stem. */
  lemma {:induction false} ReplaceAfterStem(stem: string, pattern: string, rest: string, replacement: string)
    decreases |stem|
    requires |pattern| > 0
    requires forall k :: 0 < k < |pattern| ==> pattern[k] != pattern[0]
    requires !Contains(stem, pattern)
    ensures ReplaceAll(stem + pattern + rest, pattern, replacement)
            == stem + replacement + ReplaceAll(rest, pattern, replacement)
  {
    if |stem| == 0 {
      ReplaceAtStart(pattern, rest, replacement);
      assert stem + pattern + rest == pattern + rest;
    } else {
      NotAtStemStart(stem, pattern, rest);
      ContainsTail(stem, pattern);
      ReplaceAfterStem(stem[1..], pattern, rest, replacement);
      ReplaceStemStep(stem, pattern, rest, replacement);
    }
  }

  /** A pattern at the start is replaced. */
  lemma ReplaceAtStart(pattern: string, rest: string, replacement: string)
    requires |pattern| > 0
    ensures ReplaceAll(pattern + rest, pattern, replacement) == replacement + ReplaceAll(rest, pattern, replacement)
  {
    var s := pattern + rest;
    assert s[..|pattern|] == pattern && s[|pattern|..] == rest;
  }

  /** The inductive step: when the pattern does not start at the stem, its
      first character is kept and the rest of the stem is handled alike. */
  lemma ReplaceStemStep(stem: string, pattern: string, rest: string, replacement: string)
    requires |stem| > 0 && |pattern| > 0 && !StartsWith(stem + pattern + rest, pattern)
    requires ReplaceAll(stem[1..] + pattern + rest, pattern, replacement)
             == stem[1..] + replacement + ReplaceAll(rest, pattern, replacement)
    ensures ReplaceAll(stem + pattern + rest, pattern, replacement)
            == stem + replacement + ReplaceAll(rest, pattern, replacement)
  {
    var s := stem + pattern + rest;
    ReplaceSkipsFirst(s, pattern, replacement);
    assert s[0] == stem[0] && s[1..] == stem[1..] + pattern + rest;
    assert [stem[0]] + stem[1..] == stem;
  }

  /** A string that does not start with the pattern keeps its first
      character. */
  lemma ReplaceSkipsFirst(s: string, pattern: string, replacement: string)
    requires |pattern| > 0 && |s| > 0 && !StartsWith(s, pattern)
    ensures ReplaceAll(s, pattern, replacement) == [s[0]] + ReplaceAll(s[1..], pattern, replacement)
  {
  }

  /** Under the same conditions the pattern does not start at a non-empty
      stem: it would either lie inside the stem or put its first character
      at a later position of itself. */
  lemma NotAtStemStart(stem: string, pattern: string, rest: string)
    requires |stem| > 0 && |pattern| > 0
    requires forall k :: 0 < k < |pattern| ==> pattern[k] != pattern[0]
    requires !Contains(stem, pattern)
    ensures !StartsWith(stem + pattern + rest, pattern)
  {
    var s := stem + pattern + rest;
    if |stem| >= |pattern| {
      assert !OccursAt(stem, pattern, 0);
      assert s[..|pattern|] == stem[..|pattern|];
    } else {
      assert s[|stem|] == pattern[0] != pattern[|stem|];
    }
  }

  /** In particular a pattern appended to such a stem is the only one
      replaced. */
  lemma ReplaceAtEnd(stem: string, pattern: string, replacement: string)
    requires |pattern| > 0
    requires forall k :: 0 < k < |pattern| ==> pattern[k] != pattern[0]
    requires !Contains(stem, pattern)
    ensures ReplaceAll(stem + pattern, pattern, replacement) == stem + replacement
  {
    ReplaceAfterStem(stem, pattern, "", replacement);
    assert stem + pattern + "" == stem + pattern;
  }

  function DigitChar(d: nat): (c: char)
    requires d < 10
    ensures '0' <= c <= '9' && c as int - '0' as int == d
  {
    ('0' as int + d) as char
  }

  /** Python's `str(n)` for a natural number: decimal digits, no sign. */
  function NatToString(n: nat): (r: string)
    ensures |r| >= 1 && forall i :: 0 <= i < |r| ==> '0' <= r[i] <= '9'
  {
    if n < 10 then [DigitChar(n)] else NatToString(n / 10) + [DigitChar(n % 10)]
  }

  /** Python's `str(i)` for an integer. */
  function IntToString(i: int): string
  {
    if i < 0 then "-" + NatToString(-i) else NatToString(i)
  }

  /** The number a string of decimal digits denotes (a reference reading,
      the inverse of `NatToString`). */
  function DigitsValue(s: string): nat
    requires forall i :: 0 <= i < |s| ==> '0' <= s[i] <= '9'
  {
    if |s| == 0 then 0 else DigitsValue(s[..|s| - 1]) * 10 + (s[|s| - 1] as int - '0' as int)
  }

  /** Reading back the decimal rendering of `n` gives `n`. */
  lemma {:induction false} NatToStringRoundTrip(n: nat)
    ensures DigitsValue(NatToString(n)) == n
  {
    if n >= 10 {
      NatToStringRoundTrip(n / 10);
      var r := NatToString(n);
      assert r[..|r| - 1] == NatToString(n / 10);
    }
  }

  /** The upper-case form of one character, as Python's `str.upper()` gives
      it for ASCII letters and for the non-ASCII characters whose upper-case
      form is ASCII (dotless i, long s, sharp s and the Latin ligatures);
      every other character is kept. */
  function UpperChar(c: char): string
  {
    if 'a' <= c <= 'z' then [(c as int - 32) as char]
    else if c == '\U{131}' then "I"
    else if c == '\U{17F}' then "S"
    else if c == '\U{DF}' then "SS"
    else if c == '\U{FB00}' then "FF"
    else if c == '\U{FB01}' then "FI"
    else if c == '\U{FB02}' then "FL"
    else if c == '\U{FB03}' then "FFI"
    else if c == '\U{FB04}' then "FFL"
    else if c == '\U{FB05}' || c == '\U{FB06}' then "ST"
    else [c]
  }

  /** Python's `s.upper()`, with the character mapping of `UpperChar`. */
  function Upper(s: string): string
  {
    if |s| == 0 then "" else UpperChar(s[0]) + Upper(s[1..])
  }

  lemma {:induction false} UpperAppend(a: string, b: string)
    ensures Upper(a + b) == Upper(a) + Upper(b)
  {
    if |a| > 0 {
      assert (a + b)[0] == a[0] && (a + b)[1..] == a[1..] + b;
      UpperAppend(a[1..], b);
      calc {
        Upper(a + b);
        UpperChar(a[0]) + Upper(a[1..] + b);
        UpperChar(a[0]) + (Upper(a[1..]) + Upper(b));
        (UpperChar(a[0]) + Upper(a[1..])) + Upper(b);
      }
    } else {
      assert a + b == b;
    }
  }

  lemma UpperCharFixed(c: char)
    ensures Upper(UpperChar(c)) == UpperChar(c)
  {
    var u := UpperChar(c);
    if |u| == 1 {
      assert Upper(u) == UpperChar(u[0]) + Upper(u[1..]);
    } else if |u| == 2 {
      assert Upper(u) == UpperChar(u[0]) + (UpperChar(u[1]) + Upper(u[2..]));
    } else {
      assert Upper(u) == UpperChar(u[0]) + (UpperChar(u[1]) + (UpperChar(u[2]) + Upper(u[3..])));
    }
  }

  /** Upper-casing an upper-cased string changes nothing. */
  lemma {:induction false} UpperIdempotent(s: string)
    ensures Upper(Upper(s)) == Upper(s)
  {
    if |s| > 0 {
      UpperAppend(UpperChar(s[0]), Upper(s[1..]));
      UpperCharFixed(s[0]);
      UpperIdempotent(s[1..]);
    }
  }
}
