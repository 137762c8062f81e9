/** Python's substring test `sub in s`, and the facts needed to decide it on
    the fixed label strings of the reason generator. */
module Text {

  /** s[k..k + |sub|] == sub: `sub` occurs in `s` starting at index k. */
  predicate OccursAt(s: string, sub: string, k: nat) {
    k + |sub| <= |s| && s[k..k + |sub|] == sub
  }

  /** `sub` occurs in `s` at some index k >= i. */
  predicate OccursFrom(s: string, sub: string, i: nat) {
    exists k: nat :: i <= k <= |s| && OccursAt(s, sub, k)
  }

  /** Python's `sub in s` for strings. */
  predicate Contains(s: string, sub: string) {
    OccursFrom(s, sub, 0)
  }

  /** Character-by-character comparison of `sub` against `s` at index i,
      from offset j on; the form the verifier can evaluate on literals. */
  predicate MatchAt(s: string, sub: string, i: nat, j: nat)
    decreases |sub| - j
  {
    i + |sub| <= |s| && (j >= |sub| || (s[i + j] == sub[j] && MatchAt(s, sub, i, j + 1)))
  }

  lemma {:induction false} MatchAtIsSlice(s: string, sub: string, i: nat, j: nat)
    requires j <= |sub|
    ensures MatchAt(s, sub, i, j) <==> i + |sub| <= |s| && s[i + j..i + |sub|] == sub[j..]
    decreases |sub| - j
  {
    if j < |sub| && i + |sub| <= |s| {
      MatchAtIsSlice(s, sub, i, j + 1);
      assert s[i + j..i + |sub|] == [s[i + j]] + s[i + j + 1..i + |sub|];
      assert sub[j..] == [sub[j]] + sub[j + 1..];
    }
  }

  /** A match found character by character is an occurrence. */
  lemma Found(s: string, sub: string, k: nat)
    requires MatchAt(s, sub, k, 0)
    ensures Contains(s, sub)
  {
    MatchAtIsSlice(s, sub, k, 0);
    assert OccursAt(s, sub, k);
  }

  /** An occurrence at or after i starts at or after k when the first
      character of `sub` does not appear in s[i..k]. */
  lemma Skip(s: string, sub: string, i: nat, k: nat)
    requires |sub| > 0 && i <= k <= |s|
    requires sub[0] !in s[i..k]
    ensures OccursFrom(s, sub, i) ==> OccursFrom(s, sub, k)
  {
    if OccursFrom(s, sub, i) {
      var m: nat :| i <= m <= |s| && OccursAt(s, sub, m);
      assert s[m] == sub[0];
      assert m >= k;
    }
  }

  /** Skip, for a string given as two parts, over a stretch of the second part. */
  lemma SkipIn(a: string, b: string, sub: string, i: nat, k: nat)
    requires |sub| > 0 && i <= k <= |b|
    requires sub[0] !in b[i..k]
    ensures OccursFrom(a + b, sub, |a| + i) ==> OccursFrom(a + b, sub, |a| + k)
  {
    var s := a + b;
    assert s[|a| + i..|a| + k] == b[i..k];
    Skip(s, sub, |a| + i, |a| + k);
  }

  /** An occurrence at or after k starts after k when there is no match at k. */
  lemma Step(s: string, sub: string, k: nat)
    requires !MatchAt(s, sub, k, 0)
    ensures OccursFrom(s, sub, k) ==> OccursFrom(s, sub, k + 1)
  {
    MatchAtIsSlice(s, sub, k, 0);
    if OccursFrom(s, sub, k) {
      var m: nat :| k <= m <= |s| && OccursAt(s, sub, m);
      assert m != k;
    }
  }

  /** No occurrence can start where too few characters are left. */
  lemma PastEnd(s: string, sub: string, k: nat)
    requires |s| < k + |sub|
    ensures !OccursFrom(s, sub, k)
  {
  }

  /** `b` occurs in a + b + c. */
  lemma ContainsMiddle(a: string, b: string, c: string)
    ensures Contains(a + b + c, b)
  {
    var s := a + b + c;
    assert s[|a|..|a| + |b|] == b;
    assert OccursAt(s, b, |a|);
  }
}
