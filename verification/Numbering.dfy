/**
 Round-robin message numbers.  The message with index `index` of the sender with
 rank `sender` has the number index * n + sender in the global order of a group of
 `n` members.  A vector `v` of length n says, per sender, the highest index received.
 */
module Numbering {

  function SeqNo(n: nat, sender: int, index: int): int {
    index * n + sender
  }

  function SenderOf(n: nat, q: int): int
    requires n > 0
  {
    q % n
  }

  function IndexOf(n: nat, q: int): int
    requires n > 0
  {
    q / n
  }

  /** Splitting a number into sender and index loses nothing. */
  lemma SplitSeqNo(n: nat, q: int)
    requires n > 0
    ensures 0 <= SenderOf(n, q) < n
    ensures SeqNo(n, SenderOf(n, q), IndexOf(n, q)) == q
    ensures q >= 0 <==> IndexOf(n, q) >= 0
  {
  }

  /** A nonzero multiple of n is at least n away from zero. */
  lemma Multiple(n: nat, d: int)
    ensures d >= 1 ==> d * n >= n
    ensures d <= -1 ==> d * n + n <= 0
  {
    if d >= 1 {
      assert (d - 1) * n >= 0;
    } else if d <= -1 {
      assert (-d - 1) * n >= 0;
    }
  }

  /** Distinct (sender, index) pairs have distinct numbers. */
  lemma JoinSeqNo(n: nat, sender: int, index: int)
    requires 0 <= sender < n
    ensures SenderOf(n, SeqNo(n, sender, index)) == sender
    ensures IndexOf(n, SeqNo(n, sender, index)) == index
    ensures SeqNo(n, sender, index) >= 0 <==> index >= 0
  {
    var q := SeqNo(n, sender, index);
    Multiple(n, q / n - index);
    assert (q / n - index) * n == sender - q % n;
  }

  lemma SeqNoMonotone(n: nat, sender: int, i: int, j: int)
    requires n > 0
    ensures i <= j <==> SeqNo(n, sender, i) <= SeqNo(n, sender, j)
  {
    Multiple(n, j - i);
    assert (j - i) * n == SeqNo(n, sender, j) - SeqNo(n, sender, i);
  }

  /** The least element of a vector. */
  function Min(v: seq<int>): (m: int)
    requires |v| > 0
    ensures forall k :: 0 <= k < |v| ==> m <= v[k]
    ensures exists k :: 0 <= k < |v| && v[k] == m
  {
    if |v| == 1 then
      v[0]
    else
      var m := Min(v[1..]);
      assert forall k :: 1 <= k < |v| ==> v[k] == v[1..][k - 1];
      if v[0] <= m then v[0] else
        var k :| 0 <= k < |v[1..]| && v[1..][k] == m;
        assert v[k + 1] == m;
        m
  }

  /** The first position of the least element, as std::min_element finds it. */
  ghost function FirstMin(v: seq<int>): (a: nat)
    requires |v| > 0
    ensures a < |v| && v[a] == Min(v)
    ensures forall k :: 0 <= k < a ==> v[k] > Min(v)
  {
    FirstMinFrom(v, 0)
  }

  ghost function FirstMinFrom(v: seq<int>, from: nat): (a: nat)
    requires |v| > 0 && from < |v|
    requires forall k :: 0 <= k < from ==> v[k] > Min(v)
    ensures a < |v| && v[a] == Min(v)
    ensures forall k :: 0 <= k < a ==> v[k] > Min(v)
    decreases |v| - from
  {
    if v[from] == Min(v) then from else
      var k :| 0 <= k < |v| && v[k] == Min(v);
      assert from < k;
      FirstMinFrom(v, from + 1)
  }

  /** Number `q` has been received, going by the per-sender counts `v`. */
  predicate Received(v: seq<int>, q: int)
    requires |v| > 0
  {
    q >= 0 && IndexOf(|v|, q) <= v[SenderOf(|v|, q)]
  }

  /** Every number up to `q` has been received. */
  ghost predicate Covers(v: seq<int>, q: int)
    requires |v| > 0
  {
    forall p :: 0 <= p <= q ==> Received(v, p)
  }

  /** The formula the receive handler uses for its in-order prefix. */
  ghost function PrefixEnd(v: seq<int>): int
    requires |v| > 0
  {
    (Min(v) + 1) * |v| + FirstMin(v) - 1
  }

  /** The formula is exact: it is the largest number whose whole past was received. */
  lemma ExactPrefix(v: seq<int>, q: int)
    requires |v| > 0
    requires forall k :: 0 <= k < |v| ==> v[k] >= -1
    ensures Covers(v, q) <==> q <= PrefixEnd(v)
    ensures PrefixEnd(v) >= -1
  {
    var n, m, a := |v|, Min(v), FirstMin(v);
    assert PrefixEnd(v) >= -1 by {
      assert m >= -1;
      assert (m + 1) * n >= 0;
    }
    if q <= PrefixEnd(v) {
      forall p | 0 <= p <= q ensures Received(v, p) {
        PrefixReceived(v, p);
      }
    } else {
      var p := SeqNo(n, a, m + 1);
      assert p == PrefixEnd(v) + 1;
      JoinSeqNo(n, a, m + 1);
      assert 0 <= p <= q && !Received(v, p);
    }
  }

  lemma PrefixReceived(v: seq<int>, p: int)
    requires |v| > 0
    requires 0 <= p <= PrefixEnd(v)
    ensures Received(v, p)
  {
    var n, m, a := |v|, Min(v), FirstMin(v);
    var s, i := SenderOf(n, p), IndexOf(n, p);
    SplitSeqNo(n, p);
    RowBound(n, i, s, m + 1, a);
  }

  /** Lexicographic order of (index, sender) read off the numbers. */
  lemma RowBound(n: nat, i: int, s: int, j: int, a: int)
    requires 0 <= s < n && 0 <= a < n
    requires SeqNo(n, s, i) < SeqNo(n, a, j)
    ensures i < j || (i == j && s < a)
  {
    Multiple(n, i - j);
    assert (i - j) * n == i * n - j * n;
  }

  lemma CoversMonotone(v: seq<int>, w: seq<int>, q: int)
    requires |v| == |w| > 0
    requires forall k :: 0 <= k < |v| ==> v[k] <= w[k]
    requires Covers(v, q)
    ensures Covers(w, q)
  {
    forall p | 0 <= p <= q ensures Received(w, p) {
      assert Received(v, p);
      SplitSeqNo(|v|, p);
    }
  }

  /** The prefix formula never shrinks when counts grow. */
  lemma PrefixMonotone(v: seq<int>, w: seq<int>)
    requires |v| == |w| > 0
    requires forall k :: 0 <= k < |v| ==> -1 <= v[k] <= w[k]
    ensures PrefixEnd(v) <= PrefixEnd(w)
  {
    ExactPrefix(v, PrefixEnd(v));
    CoversMonotone(v, w, PrefixEnd(v));
    ExactPrefix(w, PrefixEnd(v));
  }
}
