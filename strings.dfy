/** The two string operations of Rust's standard library that the program relies on. */
module Strings {

  /** `pat` occurs in `s` at index `i`. */
  ghost predicate OccursAt(s: string, pat: string, i: int) {
    0 <= i && i + |pat| <= |s| && s[i..i + |pat|] == pat
  }

  /**
   * `str::contains` with a string pattern: scans `s` from the left for an
   * occurrence of `pat`. An empty pattern is contained in every string.
   */
  function Contains(s: string, pat: string): (r: bool)
    ensures r ==> |pat| <= |s|
    ensures |pat| == 0 ==> r
    ensures |s| == |pat| ==> (r <==> s == pat)
    decreases |s|
  {
    if |s| < |pat| then false
    else if s[..|pat|] == pat then true
    else Contains(s[1..], pat)
  }

  /** The scan finds `pat` exactly when `pat` occurs somewhere in `s`. */
  lemma {:induction false} ContainsIffOccurs(s: string, pat: string)
    ensures Contains(s, pat) <==> exists i :: OccursAt(s, pat, i)
    decreases |s|
  {
    if |s| >= |pat| && s[..|pat|] == pat {
      assert OccursAt(s, pat, 0);
    } else if |s| >= |pat| {
      ContainsIffOccurs(s[1..], pat);
      if exists i :: OccursAt(s[1..], pat, i) {
        var i :| OccursAt(s[1..], pat, i);
        assert s[1..][i..i + |pat|] == s[i + 1..i + 1 + |pat|];
        assert OccursAt(s, pat, i + 1);
      }
      if exists i :: OccursAt(s, pat, i) {
        var i :| OccursAt(s, pat, i);
        assert i != 0;
        assert s[1..][i - 1..i - 1 + |pat|] == s[i..i + |pat|];
        assert OccursAt(s[1..], pat, i - 1);
      }
    }
  }

  /** Whatever surrounds an occurrence, the scan still finds it. */
  lemma {:induction false} ContainsInContext(pre: string, pat: string, post: string)
    ensures Contains(pre + pat + post, pat)
  {
    var s := pre + pat + post;
    assert s[|pre|..|pre| + |pat|] == pat;
    assert OccursAt(s, pat, |pre|);
    ContainsIffOccurs(s, pat);
  }

  /** A pattern holding a character that `s` lacks is not contained in `s`. */
  lemma {:induction false} NotContainsForeignChar(s: string, pat: string, j: int)
    requires 0 <= j < |pat| && pat[j] !in s
    ensures !Contains(s, pat)
  {
    ContainsIffOccurs(s, pat);
  }

  /** `s.chars().take(n).collect::<String>()`: the first `n` characters, or all of `s` when it is shorter. */
  function Take(s: string, n: nat): (r: string)
    ensures |r| == (if |s| <= n then |s| else n)
    ensures r <= s
    ensures |s| <= n ==> r == s
    ensures |s| > n ==> r == s[..n]
  {
    if |s| <= n then s else s[..n]
  }
}
