/**
 * The client's sentence boundary splitter (`splitSentences`) and the split of
 * completed text into single sentences for speech, both over JavaScript's
 * regular-expression semantics written out as functions on positions.
 *
 * The pattern `[^.!?]+[.!?]["')\]]?(?:\s+|$)` matches at a position `p` when
 * `p` starts a run of non-terminators that ends at a terminator `.`, `!` or `?`,
 * optionally followed by one closer `"`, `'`, `)` or `]`, and then by white
 * space (all of it is consumed) or the end of the text. Backtracking never
 * finds another match: the run cannot include a terminator, and a closer is
 * never white space.
 */
module Sentences {
  import opened Wrappers
  import opened Text

  const Terminators: set<char> := {'.', '!', '?'}
  const Closers: set<char> := {'"', '\'', ')', ']'}

  /** First position at or after `p` holding a terminator, or `|s|`. */
  function NextTerminator(s: string, p: nat): (q: nat)
    requires p <= |s|
    ensures p <= q <= |s|
    decreases |s| - p
  {
    if p == |s| || s[p] in Terminators then p else NextTerminator(s, p + 1)
  }

  /** Length of the run of white space starting at `p`. */
  function SpaceRun(s: string, p: nat): (n: nat)
    requires p <= |s|
    ensures p + n <= |s|
    decreases |s| - p
  {
    if p == |s| || !IsSpace(Js, s[p]) then 0 else 1 + SpaceRun(s, p + 1)
  }

  /** Where a match of the sentence pattern that starts at `p` ends, if one does. */
  function MatchAt(s: string, p: nat): (e: Option<nat>)
    requires p <= |s|
    ensures e.Some? ==> p + 2 <= e.value <= |s|
  {
    if p == |s| || s[p] in Terminators then None
    else
      var q := NextTerminator(s, p);
      if q == |s| then None
      else
        var after := if q + 1 < |s| && s[q + 1] in Closers then q + 2 else q + 1;
        if after == |s| then Some(after)
        else if IsSpace(Js, s[after]) then Some(after + SpaceRun(s, after))
        else None
  }

  /** A global `exec` from `lastIndex = from`: the leftmost match at or after `from`, as (start, end). */
  function Search(s: string, from: nat): (m: Option<(nat, nat)>)
    requires from <= |s|
    ensures m.Some? ==> from <= m.value.0 <= |s| && MatchAt(s, m.value.0) == Some(m.value.1)
    decreases |s| - from
  {
    if MatchAt(s, from).Some? then Some((from, MatchAt(s, from).value))
    else if from == |s| then None
    else Search(s, from + 1)
  }

  /** Where the last match found by repeated `exec` from `from` ends (`from` when none is found). */
  function LastEnd(s: string, from: nat): (last: nat)
    requires from <= |s|
    ensures from <= last <= |s|
    decreases |s| - from
  {
    match Search(s, from)
    case None => from
    case Some(m) => LastEnd(s, m.1)
  }

  /**
   * No match starts at or after the last end, and the last end is the end of a
   * match starting at or after `from` (or `from` itself when there is none).
   */
  lemma {:induction false} LastEndSpec(s: string, from: nat)
    requires from <= |s|
    ensures var last := LastEnd(s, from);
      && Search(s, last).None?
      && (last > from ==> exists p :: from <= p < last && MatchAt(s, p) == Some(last))
    decreases |s| - from
  {
    match Search(s, from)
    case None =>
    case Some(m) =>
      LastEndSpec(s, m.1);
      var last := LastEnd(s, m.1);
      if last == m.1 {
        assert MatchAt(s, m.0) == Some(last);
      }
  }

  /** A search finding nothing means no position from there on starts a match. */
  lemma {:induction false} SearchNoneSpec(s: string, from: nat, p: nat)
    requires from <= p <= |s|
    requires Search(s, from).None?
    ensures MatchAt(s, p).None?
    decreases p - from
  {
    if p > from {
      SearchNoneSpec(s, from + 1, p);
    }
  }

  /**
   * `splitSentences(chunk, final)`: run the global pattern over `chunk`
   * remembering where the last match ended; the text up to there is ready
   * to speak, the rest waits for more. With `final`, everything is ready.
   */
  method SplitSentences(chunk: string, final: bool) returns (ready: string, pending: string)
    ensures chunk == "" ==> ready == "" && pending == ""
    ensures final ==> ready == chunk && pending == ""
    ensures ready + pending == chunk
    ensures !final ==> ready == chunk[..LastEnd(chunk, 0)]
  {
    if chunk == "" {
      return "", "";
    }
    var last: nat := 0;
    var m := Search(chunk, last);
    while m.Some?
      invariant last <= |chunk|
      invariant m == Search(chunk, last)
      invariant LastEnd(chunk, 0) == LastEnd(chunk, last)
      decreases |chunk| - last
    {
      last := m.value.1;
      m := Search(chunk, last);
    }
    if final {
      return chunk, "";
    }
    assert chunk[..last] + chunk[last..] == chunk;
    return chunk[..last], chunk[last..];
  }

  /** What `SplitSentences` leaves pending holds no complete sentence. */
  lemma PendingHasNoSentence(chunk: string, p: nat)
    requires LastEnd(chunk, 0) <= p <= |chunk|
    ensures MatchAt(chunk, p).None?
  {
    LastEndSpec(chunk, 0);
    SearchNoneSpec(chunk, LastEnd(chunk, 0), p);
  }

  /**
   * The lookbehind `(?<=[.!?]["')\]]?)` at `q`: a terminator just before `q`,
   * or a closer just before `q` that follows a terminator.
   */
  predicate AfterSentenceEnd(s: string, q: nat)
    requires q <= |s|
  {
    (q >= 1 && s[q - 1] in Terminators)
    || (q >= 2 && s[q - 1] in Closers && s[q - 2] in Terminators)
  }

  /** `/(?<=[.!?]["')\]]?)\s+/` matches at `q`. */
  predicate BreakAt(s: string, q: nat)
    requires q <= |s|
  {
    q < |s| && IsSpace(Js, s[q]) && AfterSentenceEnd(s, q)
  }

  /**
   * `s.split(/(?<=[.!?]["')\]]?)\s+/)` from position `p` (the start of the
   * current piece), scanning at `q`: each piece is paired with the white space
   * that followed it, the last piece with "".
   */
  function SplitFrom(s: string, p: nat, q: nat): (parts: seq<(string, string)>)
    requires p <= q <= |s|
    ensures |parts| >= 1
    decreases |s| - q
  {
    if q == |s| then [(s[p..], "")]
    else if BreakAt(s, q) then
      var e := q + SpaceRun(s, q);
      [(s[p..q], s[q..e])] + SplitFrom(s, e, e)
    else SplitFrom(s, p, q + 1)
  }

  /** The sentences the per-sentence split produces, without the white space between them. */
  function Pieces(parts: seq<(string, string)>): (r: seq<string>)
    ensures |r| == |parts|
  {
    if parts == [] then [] else [parts[0].0] + Pieces(parts[1..])
  }

  /** Pieces and separators, put back together in order. */
  function Rejoin(parts: seq<(string, string)>): string {
    if parts == [] then "" else parts[0].0 + parts[0].1 + Rejoin(parts[1..])
  }

  function SentenceParts(s: string): seq<(string, string)> {
    SplitFrom(s, 0, 0)
  }

  /** Splitting loses nothing: the pieces and the white space cut out rebuild the text. */
  lemma {:induction false} SplitFromRejoin(s: string, p: nat, q: nat)
    requires p <= q <= |s|
    ensures Rejoin(SplitFrom(s, p, q)) == s[p..]
    decreases |s| - q
  {
    if q == |s| {
    } else if BreakAt(s, q) {
      var e := q + SpaceRun(s, q);
      SplitFromRejoin(s, e, e);
      assert s[p..] == s[p..q] + s[q..e] + s[e..];
    } else {
      SplitFromRejoin(s, p, q + 1);
    }
  }

  /**
   * Every cut is a non-empty run of white space right after a sentence end,
   * and it takes all the white space there; the last part has no separator.
   */
  lemma {:induction false} SplitFromSeparators(s: string, p: nat, q: nat)
    requires p <= q <= |s|
    ensures var parts := SplitFrom(s, p, q);
      && parts[|parts| - 1].1 == ""
      && forall k :: 0 <= k < |parts| - 1 ==>
           parts[k].1 != "" && AllSpace(Js, parts[k].1)
    decreases |s| - q
  {
    if q == |s| {
    } else if BreakAt(s, q) {
      var e := q + SpaceRun(s, q);
      SplitFromSeparators(s, e, e);
      SpaceRunSpec(s, q);
      var rest := SplitFrom(s, e, e);
      var parts := [(s[p..q], s[q..e])] + rest;
      assert SplitFrom(s, p, q) == parts;
      assert s[q..e] != "" by {
        assert s[q..e][0] == s[q];
      }
      forall k | 1 <= k < |parts| - 1
        ensures parts[k].1 != "" && AllSpace(Js, parts[k].1)
      {
        assert parts[k] == rest[k - 1];
      }
    } else {
      SplitFromSeparators(s, p, q + 1);
    }
  }

  lemma {:induction false} SpaceRunSpec(s: string, p: nat)
    requires p <= |s|
    ensures AllSpace(Js, s[p..p + SpaceRun(s, p)])
    decreases |s| - p
  {
    if p < |s| && IsSpace(Js, s[p]) {
      SpaceRunSpec(s, p + 1);
      var n := SpaceRun(s, p);
      forall k | p <= k < p + n ensures IsSpace(Js, s[k]) {
        if k > p {
          assert s[k] == s[p + 1..p + n][k - p - 1];
        }
      }
    }
  }

  /** The full rebuild: completed text is its sentences joined by the white space cut out. */
  lemma SentencePartsRejoin(s: string)
    ensures Rejoin(SentenceParts(s)) == s
  {
    SplitFromRejoin(s, 0, 0);
    assert s[0..] == s;
  }

  /** "Hi. How": the first sentence and its space are ready, "How" waits. */
  lemma ExampleReady()
    ensures LastEnd("Hi. How", 0) == 4
  {
    assert MatchAt("Hi. How", 0) == Some(4);
    assert Search("Hi. How", 0) == Some((0, 4));
    assert MatchAt("Hi. How", 4).None?;
    assert MatchAt("Hi. How", 5).None?;
    assert MatchAt("Hi. How", 6).None?;
    assert MatchAt("Hi. How", 7).None?;
    assert Search("Hi. How", 4).None?;
  }

  /** A decimal point followed by a digit ends no sentence: nothing of "v3.5 ok" is ready. */
  lemma ExampleDecimal()
    ensures LastEnd("v3.5 ok", 0) == 0
  {
    assert MatchAt("v3.5 ok", 0).None?;
    assert MatchAt("v3.5 ok", 1).None?;
    assert MatchAt("v3.5 ok", 2).None?;
    assert MatchAt("v3.5 ok", 3).None?;
    assert MatchAt("v3.5 ok", 4).None?;
    assert MatchAt("v3.5 ok", 5).None?;
    assert MatchAt("v3.5 ok", 6).None?;
    assert MatchAt("v3.5 ok", 7).None?;
    assert Search("v3.5 ok", 0).None?;
  }
}
