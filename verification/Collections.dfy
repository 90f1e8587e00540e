/** Small facts about finite sets and maps. */
module Collections {

  /** A set that is not empty has a member. */
  lemma Pick<T>(s: set<T>) returns (x: T)
    requires s != {}
    ensures x in s
  {
    assert (forall x :: x !in s) ==> s == {};
    x :| x in s;
  }

  lemma SmallerSet<T>(a: set<T>, b: set<T>)
    requires a < b
    ensures |a| < |b|
  {
    assert b == a + (b - a);
    assert |b| == |a| + |b - a|;
  }

  lemma {:induction false} SubsetSize<T>(a: set<T>, b: set<T>)
    requires a <= b
    ensures |a| <= |b|
  {
    if a != b {
      SmallerSet(a, b);
    }
  }

  lemma {:induction false} LeastInSet(keys: set<int>)
    requires keys != {}
    ensures exists q :: q in keys && forall k :: k in keys ==> q <= k
    decreases |keys|
  {
    var a := Pick(keys);
    var rest := keys - {a};
    if rest == {} {
      assert forall k :: k in keys ==> k == a || k in rest;
      assert a in keys && forall k :: k in keys ==> a <= k;
    } else {
      LeastInSet(rest);
      var b :| b in rest && forall k :: k in rest ==> b <= k;
      var q := if a < b then a else b;
      assert forall k :: k in keys ==> k == a || k in rest;
      assert q in keys && forall k :: k in keys ==> q <= k;
    }
  }

  /** Removing one key shrinks the domain by one. */
  lemma RemoveKey<V>(m: map<int, V>, k: int)
    requires k in m
    ensures (m - {k}).Keys == m.Keys - {k}
    ensures |(m - {k}).Keys| == |m.Keys| - 1
    ensures |m - {k}| == |m| - 1
  {
    assert (m - {k}).Keys == m.Keys - {k};
    assert |(m - {k}).Keys| == |m - {k}| && |m.Keys| == |m|;
  }
}
