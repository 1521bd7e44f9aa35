/**
 * Text helpers shared by the front end (JavaScript) and the back end (Python):
 * the two languages' notions of white space, trimming, searching, joining and
 * splitting on a separator character.
 */
module Text {

  /** Whose white-space table applies: JavaScript's `trim()` and regex `\s`, or Python's `str.strip()`. */
  datatype Lang = Js | Py

  /** JavaScript's WhiteSpace and LineTerminator code points (ECMA-262), matched by `trim()` and by `\s`. */
  const JsSpaces: set<char> := {
    '\t', '\n', '\U{B}', '\U{C}', '\r', ' ', '\U{A0}', '\U{1680}',
    '\U{2000}', '\U{2001}', '\U{2002}', '\U{2003}', '\U{2004}', '\U{2005}',
    '\U{2006}', '\U{2007}', '\U{2008}', '\U{2009}', '\U{200A}',
    '\U{2028}', '\U{2029}', '\U{202F}', '\U{205F}', '\U{3000}', '\U{FEFF}'
  }

  /** The characters for which Python's `str.isspace()` holds, stripped by `str.strip()`. */
  const PySpaces: set<char> := {
    '\t', '\n', '\U{B}', '\U{C}', '\r', '\U{1C}', '\U{1D}', '\U{1E}', '\U{1F}', ' ',
    '\U{85}', '\U{A0}', '\U{1680}',
    '\U{2000}', '\U{2001}', '\U{2002}', '\U{2003}', '\U{2004}', '\U{2005}',
    '\U{2006}', '\U{2007}', '\U{2008}', '\U{2009}', '\U{200A}',
    '\U{2028}', '\U{2029}', '\U{202F}', '\U{205F}', '\U{3000}'
  }

  predicate IsSpace(lang: Lang, c: char) {
    c in (if lang == Js then JsSpaces else PySpaces)
  }

  predicate AllSpace(lang: Lang, s: string) {
    forall k :: 0 <= k < |s| ==> IsSpace(lang, s[k])
  }

  /** Number of white-space characters at the front of `s`. */
  function LeadingSpaces(lang: Lang, s: string): (n: nat)
    ensures n <= |s|
  {
    if s == [] || !IsSpace(lang, s[0]) then 0 else 1 + LeadingSpaces(lang, s[1..])
  }

  /** The leading run is all white space and is maximal. */
  lemma {:induction false} LeadingSpacesSpec(lang: Lang, s: string)
    ensures var n := LeadingSpaces(lang, s);
      AllSpace(lang, s[..n]) && (n < |s| ==> !IsSpace(lang, s[n]))
  {
    if s != [] && IsSpace(lang, s[0]) {
      LeadingSpacesSpec(lang, s[1..]);
      var n := LeadingSpaces(lang, s);
      forall k | 0 <= k < n ensures IsSpace(lang, s[..n][k]) {
        if k > 0 {
          assert s[..n][k] == s[1..][..n - 1][k - 1];
        }
      }
    }
  }

  /** Number of white-space characters at the end of `s`. */
  function TrailingSpaces(lang: Lang, s: string): (n: nat)
    ensures n <= |s|
  {
    if s == [] || !IsSpace(lang, s[|s| - 1]) then 0 else 1 + TrailingSpaces(lang, s[..|s| - 1])
  }

  /** The trailing run is all white space and is maximal. */
  lemma {:induction false} TrailingSpacesSpec(lang: Lang, s: string)
    ensures var n := TrailingSpaces(lang, s);
      AllSpace(lang, s[|s| - n..]) && (n < |s| ==> !IsSpace(lang, s[|s| - n - 1]))
  {
    if s != [] && IsSpace(lang, s[|s| - 1]) {
      var init := s[..|s| - 1];
      TrailingSpacesSpec(lang, init);
      var n := TrailingSpaces(lang, s);
      forall k | |s| - n <= k < |s| ensures IsSpace(lang, s[k]) {
        if k < |s| - 1 {
          assert s[k] == init[|init| - (n - 1)..][k - (|s| - n)];
        }
      }
    }
  }

  /**
   * `s.trim()` in JavaScript, `s.strip()` in Python: the infix of `s` left
   * after removing white space from both ends.
   */
  function Trim(lang: Lang, s: string): (r: string)
    ensures |r| <= |s|
  {
    var lead := LeadingSpaces(lang, s);
    s[lead..|s| - TrailingSpaces(lang, s[lead..])]
  }

  /**
   * What trimming keeps: the infix starting after the leading white space,
   * followed only by white space, and neither starting nor ending with white space.
   */
  lemma TrimSpec(lang: Lang, s: string)
    ensures var lead := LeadingSpaces(lang, s); var r := Trim(lang, s);
      && lead + |r| <= |s|
      && r == s[lead..lead + |r|]
      && AllSpace(lang, s[..lead])
      && AllSpace(lang, s[lead + |r|..])
      && (r != [] ==> !IsSpace(lang, r[0]) && !IsSpace(lang, r[|r| - 1]))
  {
    LeadingSpacesSpec(lang, s);
    TrimTail(lang, s);
    var lead := LeadingSpaces(lang, s);
    var r := Trim(lang, s);
    if r != [] {
      assert r[0] == s[lead];
    }
  }

  /** The white space trimming drops at the end, and the last character it keeps. */
  lemma TrimTail(lang: Lang, s: string)
    ensures var lead := LeadingSpaces(lang, s); var r := Trim(lang, s);
      && AllSpace(lang, s[lead + |r|..])
      && (r != [] ==> !IsSpace(lang, r[|r| - 1]))
  {
    var lead := LeadingSpaces(lang, s);
    var body := s[lead..];
    var trail := TrailingSpaces(lang, body);
    TrailingSpacesSpec(lang, body);
    var r := Trim(lang, s);
    assert |r| == |body| - trail;
    assert s[lead + |r|..] == body[|body| - trail..];
    if r != [] {
      assert r[|r| - 1] == body[|body| - trail - 1];
    }
  }

  /** The trimmed text is empty exactly when the whole text is white space. */
  lemma TrimEmpty(lang: Lang, s: string)
    ensures Trim(lang, s) == [] <==> AllSpace(lang, s)
  {
    TrimSpec(lang, s);
    var lead := LeadingSpaces(lang, s);
    LeadingSpacesSpec(lang, s);
    if lead < |s| {
      assert !AllSpace(lang, s) by { assert !IsSpace(lang, s[lead]); }
      assert Trim(lang, s) != [] by {
        assert s[lead..][0] == s[lead];
      }
    } else {
      assert s[..lead] == s;
    }
  }

  /** Trimming twice is trimming once. */
  lemma TrimIdempotent(lang: Lang, s: string)
    ensures Trim(lang, Trim(lang, s)) == Trim(lang, s)
  {
    var r := Trim(lang, s);
    TrimSpec(lang, s);
    assert LeadingSpaces(lang, r) == 0;
    assert TrailingSpaces(lang, r[0..]) == 0 by { assert r[0..] == r; }
  }

  /** JavaScript `s.indexOf(c)`: the first position of `c`, or -1. */
  function IndexOf(s: string, c: char): (r: int)
    ensures -1 <= r < |s|
  {
    if s == [] then -1
    else if s[0] == c then 0
    else
      var r := IndexOf(s[1..], c);
      if r == -1 then -1 else r + 1
  }

  /** The position found holds `c` and nothing before it does; -1 means `c` is absent. */
  lemma {:induction false} IndexOfSpec(s: string, c: char)
    ensures var r := IndexOf(s, c);
      && (r >= 0 ==> s[r] == c && c !in s[..r])
      && (r == -1 <==> c !in s)
  {
    if s != [] && s[0] != c {
      IndexOfSpec(s[1..], c);
      var r := IndexOf(s[1..], c);
      if r >= 0 {
        assert s[..r + 1] == [s[0]] + s[1..][..r];
      }
      assert s == [s[0]] + s[1..];
    }
  }

  /** A position holding `c` with no `c` before it is what `IndexOf` finds. */
  lemma IndexOfAt(s: string, c: char, k: int)
    requires 0 <= k < |s| && s[k] == c && c !in s[..k]
    ensures IndexOf(s, c) == k
  {
    IndexOfSpec(s, c);
    assert s[k] in s;
  }

  /** Python `sep.join(parts)` for a one-character separator. */
  function Join(parts: seq<string>, sep: char): string {
    if parts == [] then ""
    else if |parts| == 1 then parts[0]
    else parts[0] + [sep] + Join(parts[1..], sep)
  }

  /** Python `s.split(sep)` for a one-character separator: the pieces between separators. */
  function Split(s: string, sep: char): (parts: seq<string>)
    ensures |parts| >= 1
    decreases |s|
  {
    var i := IndexOf(s, sep);
    if i < 0 then [s] else [s[..i]] + Split(s[i + 1..], sep)
  }

  /** Splitting a join gives back the parts when no part holds the separator. */
  lemma {:induction false} SplitJoin(parts: seq<string>, sep: char)
    requires |parts| >= 1
    requires forall k :: 0 <= k < |parts| ==> sep !in parts[k]
    ensures Split(Join(parts, sep), sep) == parts
  {
    if |parts| == 1 {
      IndexOfSpec(parts[0], sep);
    } else {
      var s := Join(parts, sep);
      var rest := Join(parts[1..], sep);
      assert s == parts[0] + [sep] + rest;
      assert s[..|parts[0]|] == parts[0];
      assert s[|parts[0]|] == sep;
      IndexOfAt(s, sep, |parts[0]|);
      assert s[|parts[0]| + 1..] == rest;
      SplitJoin(parts[1..], sep);
    }
  }

  /** The concatenation of all parts, in order. */
  function Concat(parts: seq<string>): string {
    if parts == [] then "" else parts[0] + Concat(parts[1..])
  }

  lemma {:induction false} ConcatAppend(a: seq<string>, b: seq<string>)
    ensures Concat(a + b) == Concat(a) + Concat(b)
  {
    if a != [] {
      assert (a + b)[1..] == a[1..] + b;
      ConcatAppend(a[1..], b);
    } else {
      assert a + b == b;
    }
  }

  /** Python `sub in s`: `sub` occurs somewhere in `s`. */
  predicate Contains(s: string, sub: string) {
    exists i :: 0 <= i <= |s| && sub <= s[i..]
  }
}
