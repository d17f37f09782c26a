/** Substring search as done by Rust's `str::find`: the index of the first
    occurrence of a pattern, if any. Indices here count chars, where Rust
    counts bytes, so on non-ASCII text the two differ. The channel code
    only slices at matches of ASCII patterns, which start and end on char
    boundaries, so slicing at either index gives the same text. */
module StrSearch {
  import opened Wrappers

  /** `pat` occurs in `s` starting at index `i`. */
  predicate OccursAt(s: string, pat: string, i: nat) {
    i + |pat| <= |s| && s[i..i + |pat|] == pat
  }

  /** `pat` occurs somewhere in `s`. */
  ghost predicate Contains(s: string, pat: string) {
    exists i: nat :: OccursAt(s, pat, i)
  }

  /** `i` is the index of the first occurrence of `pat` in `s`. */
  ghost predicate IsFirstOccurrence(s: string, pat: string, i: nat) {
    OccursAt(s, pat, i) && forall j: nat :: j < i ==> !OccursAt(s, pat, j)
  }

  /** The first occurrence of `pat` in `s` at or after index `k`. */
  function FindFrom(s: string, pat: string, k: nat): (r: Option<nat>)
    requires k <= |s|
    decreases |s| - k
    ensures r.Some? ==> k <= r.value && OccursAt(s, pat, r.value)
    ensures r.Some? ==> forall j: nat :: k <= j < r.value ==> !OccursAt(s, pat, j)
    ensures r.None? ==> forall j: nat :: k <= j ==> !OccursAt(s, pat, j)
  {
    if OccursAt(s, pat, k) then Some(k)
    else if k == |s| then None
    else FindFrom(s, pat, k + 1)
  }

  /** `s.find(pat)`: the first occurrence of `pat` in `s`, or None when there is none. */
  function Find(s: string, pat: string): (r: Option<nat>)
    ensures r.None? <==> !Contains(s, pat)
    ensures r.Some? ==> IsFirstOccurrence(s, pat, r.value)
  {
    FindFrom(s, pat, 0)
  }

  /** A one-character pattern occurs exactly where that character stands,
      so `s.find(c)` for a char `c` is `Find(s, [c])`. */
  lemma OccursAtChar(s: string, c: char, i: nat)
    ensures OccursAt(s, [c], i) <==> i < |s| && s[i] == c
  {
    if i < |s| && s[i] == c {
      assert s[i..i + 1] == [c];
    }
  }

  /** An occurrence that ends inside a prefix of `s` is an occurrence in
      every extension of that prefix. */
  lemma OccursAtExtend(s: string, t: string, pat: string, i: nat)
    requires i + |pat| <= |s|
    ensures OccursAt(s + t, pat, i) <==> OccursAt(s, pat, i)
  {
    assert (s + t)[i..i + |pat|] == s[i..i + |pat|];
  }
}
