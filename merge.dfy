/**
 * The client's overlap-safe merge (`mergeOverlap`): a streamed token that
 * repeats the end of the text received so far is appended without the
 * repeated part. The overlap taken is the longest one.
 */
module Merge {

  /** The last `n` characters of `prev` are the first `n` of `next`. */
  predicate Overlaps(prev: string, next: string, n: nat) {
    n <= |prev| && n <= |next| && prev[|prev| - n..] == next[..n]
  }

  function Min(a: nat, b: nat): nat {
    if a <= b then a else b
  }

  /** The longest overlap of at most `n` characters (0 when there is none). */
  function LongestOverlapUpTo(prev: string, next: string, n: nat): (k: nat)
    requires n <= Min(|prev|, |next|)
    ensures k <= n
  {
    if n == 0 || Overlaps(prev, next, n) then n else LongestOverlapUpTo(prev, next, n - 1)
  }

  function LongestOverlap(prev: string, next: string): nat {
    LongestOverlapUpTo(prev, next, Min(|prev|, |next|))
  }

  /** What merging `next` onto `prev` yields: `prev`, then what of `next` the longest overlap leaves over. */
  function Merged(prev: string, next: string): string {
    var k := LongestOverlap(prev, next);
    prev + next[k..]
  }

  /**
   * The overlap found is one, and no longer one within the bound exists;
   * 0 counts as an overlap (the empty suffix is the empty prefix).
   */
  lemma {:induction false} LongestOverlapUpToSpec(prev: string, next: string, n: nat)
    requires n <= Min(|prev|, |next|)
    ensures var k := LongestOverlapUpTo(prev, next, n);
      && Overlaps(prev, next, k)
      && forall m :: k < m <= n ==> !Overlaps(prev, next, m)
  {
    if n == 0 {
      assert prev[|prev|..] == [] == next[..0];
    } else if !Overlaps(prev, next, n) {
      LongestOverlapUpToSpec(prev, next, n - 1);
    }
  }

  /** The longest overlap: an overlap, and every longer length is not one. */
  lemma LongestOverlapSpec(prev: string, next: string)
    ensures var k := LongestOverlap(prev, next);
      && Overlaps(prev, next, k)
      && forall m: nat :: k < m ==> !Overlaps(prev, next, m)
  {
    LongestOverlapUpToSpec(prev, next, Min(|prev|, |next|));
  }

  /**
   * The merge keeps all of `prev`, ends with all of `next`, and is never longer
   * than the plain concatenation.
   */
  lemma MergedSpec(prev: string, next: string)
    ensures var r := Merged(prev, next);
      && prev <= r
      && |r| <= |prev| + |next|
      && |next| <= |r| && r[|r| - |next|..] == next
  {
    var k := LongestOverlap(prev, next);
    LongestOverlapSpec(prev, next);
    var r := Merged(prev, next);
    assert r == prev[..|prev| - k] + next[..k] + next[k..] by {
      assert prev == prev[..|prev| - k] + prev[|prev| - k..];
    }
    assert next[..k] + next[k..] == next;
  }

  /** With no overlap at all, merging is concatenation. */
  lemma MergedNoOverlap(prev: string, next: string)
    requires forall m: nat :: 0 < m ==> !Overlaps(prev, next, m)
    ensures Merged(prev, next) == prev + next
  {
    LongestOverlapSpec(prev, next);
    assert next[0..] == next;
  }

  /** Merging a repeat of the end of `prev` (any suffix, the empty one too) changes nothing. */
  lemma MergedSuffix(prev: string, next: string)
    requires |next| <= |prev| && prev[|prev| - |next|..] == next
    ensures Merged(prev, next) == prev
  {
    LongestOverlapSpec(prev, next);
    assert Overlaps(prev, next, |next|) by { assert next[..|next|] == next; }
    var k := LongestOverlap(prev, next);
    assert k == |next|;
    assert next[k..] == [];
  }

  /** Merging the same token twice in a row is merging it once. */
  lemma MergedTwice(prev: string, next: string)
    ensures Merged(Merged(prev, next), next) == Merged(prev, next)
  {
    MergedSpec(prev, next);
    MergedSuffix(Merged(prev, next), next);
  }

  /**
   * `mergeOverlap(prev, next)`: try overlap lengths from the longest possible
   * down to 1 and append what the first match leaves of `next`; with no match,
   * concatenate.
   */
  method MergeOverlap(prev: string, next: string) returns (r: string)
    ensures r == Merged(prev, next)
  {
    var max := Min(|prev|, |next|);
    var n: nat := max;
    while n > 0
      invariant n <= max
      invariant LongestOverlap(prev, next) == LongestOverlapUpTo(prev, next, n)
    {
      if prev[|prev| - n..] == next[..n] {
        return prev + next[n..];
      }
      n := n - 1;
    }
    assert next[0..] == next;
    return prev + next;
  }
}
