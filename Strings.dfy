/** Substring search as Python's `pat in s` performs it on `str` values. */
module Strings {

  /** `pat` occurs in `s` starting at index `i`. */
  ghost predicate OccursAt(s: string, pat: string, i: int)
  {
    0 <= i && i + |pat| <= |s| && s[i..i + |pat|] == pat
  }

  /** `pat in s`: tries every start position from the left. */
  function Contains(s: string, pat: string): bool
    decreases |s|
  {
    if |s| < |pat| then false
    else if s[..|pat|] == pat then true
    else Contains(s[1..], pat)
  }

  /** The left-to-right scan finds `pat` exactly when it occurs somewhere in `s`. */
  lemma {:induction false} ContainsIffOccurs(s: string, pat: string)
    ensures Contains(s, pat) <==> exists i :: OccursAt(s, pat, i)
    decreases |s|
  {
    if |s| < |pat| {
    } else if s[..|pat|] == pat {
      assert OccursAt(s, pat, 0);
    } else {
      ContainsIffOccurs(s[1..], pat);
      if i :| OccursAt(s, pat, i) {
        assert s[1..][i - 1..i - 1 + |pat|] == s[i..i + |pat|];
        assert OccursAt(s[1..], pat, i - 1);
      }
      if j :| OccursAt(s[1..], pat, j) {
        assert s[1..][j..j + |pat|] == s[j + 1..j + 1 + |pat|];
        assert OccursAt(s, pat, j + 1);
      }
    }
  }

  /** Every character of a contained pattern is a character of the text. */
  lemma ContainsOnlyItsCharacters(s: string, pat: string, k: int)
    requires Contains(s, pat) && 0 <= k < |pat|
    ensures pat[k] in s
  {
    ContainsIffOccurs(s, pat);
    var i :| OccursAt(s, pat, i);
    assert s[i..i + |pat|][k] == s[i + k];
  }

  /** A text in which `pat` occurs at a known position contains it. */
  lemma ContainsWitness(s: string, pat: string, i: int)
    requires OccursAt(s, pat, i)
    ensures Contains(s, pat)
  {
    ContainsIffOccurs(s, pat);
  }
}
