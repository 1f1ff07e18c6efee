/** Substring search on strings, as Python's `str.find` does it. */
module Text {

  /** `sub` occurs in `s` starting at index `i`. */
  predicate OccursAt(s: string, sub: string, i: nat) {
    i + |sub| <= |s| && s[i..i + |sub|] == sub
  }

  /** `sub` occurs somewhere in `s` (the empty string occurs in every string). */
  ghost predicate Contains(s: string, sub: string) {
    exists i: nat :: OccursAt(s, sub, i)
  }

  /** The lowest index at or after `k` where `sub` occurs in `s`, or -1 if there is none. */
  function FindFrom(s: string, sub: string, k: nat): (r: int)
    requires k <= |s|
    ensures r == -1 || (k <= r && OccursAt(s, sub, r))
    ensures r == -1 ==> forall j: nat :: k <= j ==> !OccursAt(s, sub, j)
    ensures r != -1 ==> forall j: nat :: k <= j < r ==> !OccursAt(s, sub, j)
    decreases |s| - k
  {
    if OccursAt(s, sub, k) then k
    else if |s| <= k + |sub| then -1
    else FindFrom(s, sub, k + 1)
  }

  /** `s.find(sub)`: the lowest index of `sub` in `s`, or -1 when `sub` does not occur. */
  function Find(s: string, sub: string): (r: int)
    ensures r == -1 <==> !Contains(s, sub)
    ensures r != -1 ==> 0 <= r && OccursAt(s, sub, r)
    ensures r != -1 ==> forall j: nat :: j < r ==> !OccursAt(s, sub, j)
  {
    FindFrom(s, sub, 0)
  }

  /** A string shorter than `sub` cannot contain it. */
  lemma ShorterLacks(s: string, sub: string)
    requires |s| < |sub|
    ensures !Contains(s, sub)
    ensures Find(s, sub) == -1
  {
  }

  /** Text a string contains stays contained when more text is put around it. */
  lemma ContainsInContext(pre: string, s: string, post: string, sub: string)
    requires Contains(s, sub)
    ensures Contains(pre + s + post, sub)
  {
    var i: nat :| OccursAt(s, sub, i);
    var t := pre + s + post;
    assert t[|pre| + i..|pre| + i + |sub|] == s[i..i + |sub|];
    assert OccursAt(t, sub, |pre| + i);
  }

  /** Every string contains itself. */
  lemma ContainsSelf(s: string)
    ensures Contains(s, s)
  {
    assert s[0..|s|] == s;
    assert OccursAt(s, s, 0);
  }
}
