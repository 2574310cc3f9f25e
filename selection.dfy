/**
 * The selection rule shared by both scans in `main`: walk a listing in its
 * iteration order and overwrite the remembered id whenever an entry matches,
 * so the id that survives is that of the last matching entry.
 */
module Selection {
  import opened Wrappers

  /**
   * A hub listing as `main` iterates it: the entries of a `HashMap<String, T>`
   * in whatever order the map yields them.
   */
  type Listing<T> = seq<(string, T)>

  /** The id the scan ends with: that of the last entry satisfying `p`, or None. */
  function LastMatch<T>(entries: Listing<T>, p: T -> bool): Option<string>
    decreases |entries|
  {
    if entries == [] then None
    else if p(entries[|entries| - 1].1) then Some(entries[|entries| - 1].0)
    else LastMatch(entries[..|entries| - 1], p)
  }

  /** Entry `i` satisfies `p` and no later entry does. */
  ghost predicate IsLastMatchAt<T>(entries: Listing<T>, p: T -> bool, i: int) {
    0 <= i < |entries| && p(entries[i].1) &&
    forall j :: i < j < |entries| ==> !p(entries[j].1)
  }

  /** Completeness: the scan ends with None exactly when no entry satisfies `p`. */
  lemma {:induction false} LastMatchNone<T>(entries: Listing<T>, p: T -> bool)
    ensures LastMatch(entries, p).None? <==> forall i :: 0 <= i < |entries| ==> !p(entries[i].1)
    decreases |entries|
  {
    if entries != [] && !p(entries[|entries| - 1].1) {
      var front := entries[..|entries| - 1];
      LastMatchNone(front, p);
      assert forall i :: 0 <= i < |front| ==> front[i] == entries[i];
    }
  }

  /**
   * Last write wins: the scan ends with `Some(id)` exactly when `id` is the id
   * of an entry that satisfies `p` and that no later matching entry follows.
   */
  lemma {:induction false} LastMatchSome<T>(entries: Listing<T>, p: T -> bool, id: string)
    ensures LastMatch(entries, p) == Some(id) <==>
      exists i :: IsLastMatchAt(entries, p, i) && entries[i].0 == id
    decreases |entries|
  {
    if entries == [] {
    } else if p(entries[|entries| - 1].1) {
      var n := |entries| - 1;
      assert IsLastMatchAt(entries, p, n);
      forall i | IsLastMatchAt(entries, p, i) ensures i == n { }
    } else {
      var n := |entries| - 1;
      var front := entries[..n];
      LastMatchSome(front, p, id);
      if LastMatch(entries, p) == Some(id) {
        var i :| IsLastMatchAt(front, p, i) && front[i].0 == id;
        assert IsLastMatchAt(entries, p, i);
      }
      if exists i :: IsLastMatchAt(entries, p, i) && entries[i].0 == id {
        var i :| IsLastMatchAt(entries, p, i) && entries[i].0 == id;
        assert i < n;
        assert IsLastMatchAt(front, p, i);
      }
    }
  }

  /** Soundness: the id the scan ends with is a key of the listing whose entry satisfies `p`. */
  lemma {:induction false} SelectedIsMatchingKey<T>(entries: Listing<T>, p: T -> bool)
    requires LastMatch(entries, p).Some?
    ensures exists i :: 0 <= i < |entries| && entries[i].0 == LastMatch(entries, p).value && p(entries[i].1)
  {
    LastMatchSome(entries, p, LastMatch(entries, p).value);
  }

  /** One step of the scan: an appended entry overwrites the result only when it matches. */
  lemma LastMatchSnoc<T>(entries: Listing<T>, e: (string, T), p: T -> bool)
    ensures LastMatch(entries + [e], p) == if p(e.1) then Some(e.0) else LastMatch(entries, p)
  {
  }
}
