/** Composite string keys whose first part holds no colon. */
module Keys {
  predicate ColonFree(s: string) { ':' !in s }

  /** A colon-free prefix is recovered by cutting at the first colon. */
  lemma {:induction false} CutAtColon(a: string, x: string, b: string, y: string)
    requires ColonFree(a) && ColonFree(b) && a + ":" + x == b + ":" + y
    ensures a == b && x == y
  {
    var l, r := a + ":" + x, b + ":" + y;
    assert l[0] == r[0];
    if a == "" || b == "" {
      assert a == "" && b == "";
      assert x == l[1..] && y == r[1..];
    } else {
      assert l[1..] == a[1..] + ":" + x && r[1..] == b[1..] + ":" + y;
      CutAtColon(a[1..], x, b[1..], y);
      assert a == [a[0]] + a[1..] && b == [b[0]] + b[1..];
    }
  }
}
