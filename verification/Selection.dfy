/** SELECT ... ORDER BY ... LIMIT ... FOR UPDATE SKIP LOCKED, over rows given in the order of the query. */
module Selection {
  /** The rows of `scan` that are free, in its order. */
  function Free<T>(scan: seq<T>, free: T -> bool): seq<T> {
    if scan == [] then []
    else
      var n := |scan| - 1;
      if free(scan[n]) then Free(scan[..n], free) + [scan[n]] else Free(scan[..n], free)
  }

  predicate Distinct<T(==)>(rows: seq<T>) { forall i, j :: 0 <= i < j < |rows| ==> rows[i] != rows[j] }

  lemma StaysDistinct<T>(rows: seq<T>, x: T)
    requires Distinct(rows) && x !in rows
    ensures Distinct(rows + [x])
  {
  }

  lemma {:induction false} FreeMeans<T>(scan: seq<T>, free: T -> bool)
    ensures forall x :: x in Free(scan, free) <==> x in scan && free(x)
    ensures |Free(scan, free)| <= |scan|
    ensures Distinct(scan) ==> Distinct(Free(scan, free))
  {
    if scan != [] {
      var n := |scan| - 1;
      FreeMeans(scan[..n], free);
      assert scan == scan[..n] + [scan[n]];
      if Distinct(scan) {
        assert forall i | 0 <= i < n :: scan[..n][i] == scan[i] != scan[n];
        if free(scan[n]) { StaysDistinct(Free(scan[..n], free), scan[n]); }
      }
    }
  }

  /** The first `limit` free rows, or all of them. */
  ghost predicate FirstFree<T>(picks: seq<T>, scan: seq<T>, free: T -> bool, limit: nat) {
    picks <= Free(scan, free) && |picks| == if |Free(scan, free)| < limit then |Free(scan, free)| else limit
  }

  /** A LIMIT, kept between 1 and `most`. */
  function Limit(asked: int, most: nat): (n: nat)
    requires most >= 1
    ensures 1 <= n <= most && (1 <= asked <= most ==> n == asked) && (asked < 1 ==> n == 1) && (asked > most ==> n == most)
  {
    if asked < 1 then 1 else if asked > most then most else asked
  }

  /** Of the rows picked, how many are such. */
  function Count<T>(picks: seq<T>, such: T -> bool): nat {
    if picks == [] then 0
    else var n := |picks| - 1; Count(picks[..n], such) + (if such(picks[n]) then 1 else 0)
  }

  /** Members of the scan that are free are picked while the limit is not reached, and nothing else ever is. */
  lemma PicksAreFree<T>(picks: seq<T>, scan: seq<T>, free: T -> bool, limit: nat)
    requires FirstFree(picks, scan, free, limit)
    ensures |picks| <= limit && (Distinct(scan) ==> Distinct(picks))
    ensures forall x <- picks :: x in scan && free(x)
    ensures |picks| < limit ==> forall x <- scan :: free(x) ==> x in picks
  {
    FreeMeans(scan, free);
    assert picks == Free(scan, free)[..|picks|];
  }

  method Select<T>(scan: seq<T>, free: T -> bool, limit: nat) returns (picks: seq<T>)
    ensures FirstFree(picks, scan, free, limit)
  {
    picks := [];
    assert scan[..0] == [];
    for i := 0 to |scan|
      invariant picks <= Free(scan[..i], free)
      invariant |picks| <= limit && (|picks| < limit ==> picks == Free(scan[..i], free))
    {
      assert scan[..i + 1][..i] == scan[..i];
      if |picks| < limit && free(scan[i]) { picks := picks + [scan[i]]; }
    }
    assert scan[..|scan|] == scan;
  }
}
