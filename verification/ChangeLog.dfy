/** Facts about member lists, the change ring, and what the leader's own steps keep. */
module ChangeLog {
  import opened Collections
  import opened Messages
  import opened Numbering
  import opened MembershipSpec
  import opened Membership

  // ---------------------------------------------------------------- lists without one place

  lemma WithoutAt<T>(s: seq<T>, r: nat)
    requires r < |s|
    ensures |Without(s, r)| == |s| - 1
    ensures forall i :: 0 <= i < |s| - 1 ==> Without(s, r)[i] == if i < r then s[i] else s[i + 1]
  {
  }

  lemma {:induction false} CountAppend(a: seq<bool>, b: seq<bool>)
    ensures Count(a + b) == Count(a) + Count(b)
    decreases |b|
  {
    if b == [] {
      assert a + b == a;
    } else {
      assert (a + b)[..|a + b| - 1] == a + b[..|b| - 1];
      CountAppend(a, b[..|b| - 1]);
    }
  }

  lemma CountOne(x: bool)
    ensures Count([x]) == if x then 1 else 0
  {
    assert [x][..0] == [];
  }

  lemma CountWithout(f: seq<bool>, r: nat)
    requires r < |f|
    ensures Count(Without(f, r)) == Count(f) - if f[r] then 1 else 0
  {
    hide Count;
    CountAppend(f[..r], f[r + 1..]);
    CountAppend(f[..r], [f[r]] + f[r + 1..]);
    CountAppend([f[r]], f[r + 1..]);
    CountOne(f[r]);
    assert f == f[..r] + ([f[r]] + f[r + 1..]);
  }

  lemma CountSet(f: seq<bool>, r: nat)
    requires r < |f| && !f[r]
    ensures Count(f[r := true]) == Count(f) + 1
  {
    var g := f[r := true];
    CountWithout(f, r);
    CountWithout(g, r);
    assert g[..r] == f[..r] && g[r + 1..] == f[r + 1..];
  }

  // ---------------------------------------------------------------- member lists

  lemma ChangedDistinct(members: seq<nat>, id: nat)
    requires Distinct(members)
    ensures Distinct(Changed(members, id))
    ensures forall x :: x in Changed(members, id) <==> (x in members) != (x == id)
  {
    var after := Changed(members, id);
    if id in members {
      var r := RankOf(members, id);
      WithoutAt(members, r);
      forall x ensures x in after <==> x in members && x != id {
        if x in members && x != id {
          var i :| 0 <= i < |members| && members[i] == x;
          assert after[if i < r then i else i - 1] == x;
        }
      }
    }
  }

  /** In a list without repetition a member's rank is where it stands. */
  lemma RankIs(members: seq<nat>, r: nat)
    requires Distinct(members) && r < |members|
    ensures RankOf(members, members[r]) == r
  {
    var q := RankOf(members, members[r]);
    assert members[q] == members[r];
  }

  lemma {:induction false} MembersDistinct(first: seq<nat>, log: seq<nat>, v: nat)
    requires Distinct(first) && v <= |log|
    ensures Distinct(MembersAt(first, log, v))
    decreases v
  {
    if v > 0 {
      MembersDistinct(first, log, v - 1);
      ChangedDistinct(MembersAt(first, log, v - 1), log[v - 1]);
    }
  }

  lemma HeadKept(members: seq<nat>, id: nat)
    requires members != [] && id != members[0]
    ensures Changed(members, id) != [] && Changed(members, id)[0] == members[0]
  {
  }

  // ---------------------------------------------------------------- the ring

  /** The ring holds the last `max` entries of the log before nChanges. */
  ghost predicate Window(max: nat, log: seq<nat>, r: GmsRow)
    requires RingShape(max, r)
  {
    r.nChanges <= |log|
    && forall k :: 0 <= k < r.nChanges <= k + max ==> r.changes[k % max] == log[k]
  }

  lemma WindowGrows(max: nat, log: seq<nat>, log': seq<nat>, r: GmsRow)
    requires RingShape(max, r) && Window(max, log, r) && log <= log'
    ensures Window(max, log', r)
  {
  }

  lemma SlotsApart(max: nat, a: nat, b: nat)
    requires max > 0 && a < b < a + max
    ensures a % max != b % max
  {
    var qa, qb := a / max, b / max;
    Multiple(max, qb - qa);
    assert (qb - qa) * max == qb * max - qa * max;
  }

  lemma ProposeWindow(max: nat, log: seq<nat>, r: GmsRow, id: nat)
    requires RingShape(max, r) && Window(max, log, r) && r.nChanges == |log|
    ensures Window(max, log + [id], Propose(max, r, id))
  {
    var r' := Propose(max, r, id);
    forall k | 0 <= k < r'.nChanges <= k + max ensures r'.changes[k % max] == (log + [id])[k] {
      if k < |log| {
        SlotsApart(max, k, |log|);
      }
    }
  }

  /** Reading the ring back gives the log it was written from. */
  lemma ExtendedIs(max: nat, log: seq<nat>, log': seq<nat>, r: GmsRow)
    requires RingShape(max, r) && Window(max, log', r) && r.nChanges == |log'|
    requires log <= log' && |log'| <= |log| + max
    ensures Extended(max, log, r) == log'
  {
  }

  // ---------------------------------------------------------------- what is pending

  ghost predicate NoRepeat(log: seq<nat>, from: nat) {
    forall i, j :: from <= i < j < |log| ==> log[i] != log[j]
  }

  /** A pending proposal about a member is about one marked failed. */
  ghost predicate RemovalsFailed(log: seq<nat>, v: View)
    requires v.vid <= |log| && |v.members| == |v.failed|
  {
    forall i :: v.vid <= i < |log| && log[i] in v.members ==> v.failed[RankOf(v.members, log[i])]
  }

  /** A removal is pending for every member marked failed. */
  ghost predicate FailedListed(log: seq<nat>, v: View)
    requires v.vid <= |log| && |v.members| == |v.failed|
  {
    forall r :: 0 <= r < |v.failed| && v.failed[r] ==> v.members[r] in log[v.vid..]
  }

  /** A join is pending exactly while a joiner is being served. */
  ghost predicate JoinerServed(log: seq<nat>, v: View, joining: bool)
    requires v.vid <= |log|
  {
    joining <==> exists i :: v.vid <= i < |log| && log[i] !in v.members
  }

  ghost predicate OneJoin(log: seq<nat>, v: View)
    requires v.vid <= |log|
  {
    forall i, j :: v.vid <= i < |log| && v.vid <= j < |log| && log[i] !in v.members && log[j] !in v.members ==> i == j
  }

  /** The proposals not yet installed match the failed members one to one, but for one joiner. */
  ghost predicate Matched(log: seq<nat>, v: View, joining: bool)
    requires v.vid <= |log| && |v.members| == |v.failed|
  {
    && NoRepeat(log, v.vid) && RemovalsFailed(log, v) && FailedListed(log, v)
    && JoinerServed(log, v, joining) && OneJoin(log, v)
  }

  ghost predicate Majority(v: View) {
    v.nFailed == Count(v.failed) && 2 * v.nFailed < |v.members|
  }

  /** The leader's counters are in order, and its ring is the end of the log. */
  ghost predicate LeadBase(max: nat, log: seq<nat>, m: Member) {
    && MemberShape(max, m) && m.view.myRank == 0 && !m.view.failed[0]
    && Distinct(m.view.members) && m.view.members[0] !in log
    && var row := OwnRow(m);
    && row.nChanges == |log| && Window(max, log, row)
    && m.view.vid <= row.nCommitted <= row.nAcked <= |log|
  }

  /** The leader's ring can hold all it has not installed. */
  predicate Fits(max: nat, log: seq<nat>, m: Member) {
    |log| <= m.view.vid + max
  }

  ghost predicate LeadOk(max: nat, log: seq<nat>, m: Member) {
    LeadBase(max, log, m) && Matched(log, m.view, m.joining.Some?) && Majority(m.view)
  }

  lemma RangeSize(s: seq<nat>, lo: nat) returns (ids: set<nat>)
    requires lo <= |s| && forall i, j :: lo <= i < j < |s| ==> s[i] != s[j]
    ensures |ids| == |s| - lo
    ensures forall x :: x in ids <==> exists i :: lo <= i < |s| && s[i] == x
    decreases |s|
  {
    if |s| == lo {
      ids := {};
    } else {
      var last := |s| - 1;
      var rest := RangeSize(s[..last], lo);
      ids := rest + {s[last]};
      assert s[last] !in rest;
      forall x ensures x in ids <==> exists i :: lo <= i < |s| && s[i] == x {
        if x in rest {
          var i :| lo <= i < last && s[..last][i] == x;
          assert s[i] == x;
        }
        if i :| lo <= i < |s| && s[i] == x {
          assert i < last ==> s[..last][i] == x;
        }
      }
    }
  }

  /** Pending proposals are fewer than the members who are not ruled out, plus one for a joiner. */
  lemma PendingBound(max: nat, log: seq<nat>, m: Member, spared: set<nat>)
    requires LeadOk(max, log, m) && m.view.members[0] in spared
    requires forall x :: x in spared ==> x in m.view.members && x !in log[m.view.vid..]
    ensures |log| - m.view.vid <= |m.view.members| - |spared| + (if m.joining.Some? then 1 else 0)
  {
    hide Window, RemovalsFailed, FailedListed, Majority, MemberShape;
    var v := m.view;
    var ids := RangeSize(log, v.vid);
    var members := RangeSize(v.members, 0);
    var joiner: set<nat> := {};
    if m.joining.Some? {
      var i :| v.vid <= i < |log| && log[i] !in v.members;
      joiner := {log[i]};
    }
    forall x | x in ids ensures x in (members - spared) + joiner {
      var i :| v.vid <= i < |log| && log[i] == x;
      assert log[i] == log[v.vid..][i - v.vid];
    }
    SubsetSize(ids, (members - spared) + joiner);
    assert forall x :: x in spared ==> x in members;
    SubsetSize(spared, members);
    assert |members - spared| == |members| - |spared|;
    assert |(members - spared) + joiner| <= |members - spared| + |joiner|;
  }

  /** Ring safety: what the leader has not installed is never more than its ring, nor its view, can hold. */
  lemma RingSafe(max: nat, log: seq<nat>, m: Member)
    requires LeadOk(max, log, m)
    ensures |log| - m.view.vid <= |m.view.members| <= max && Fits(max, log, m)
    ensures forall k :: m.view.vid <= k < |log| ==> OwnRow(m).changes[k % max] == log[k]
  {
    PendingBound(max, log, m, {m.view.members[0]});
    assert |{m.view.members[0]}| == 1;
  }

  /** Of the proposals before number n that share the ring slot of number v, the last. */
  function Top(max: nat, v: nat, n: nat): (k: nat)
    requires max > 0 && v < n
    ensures v <= k < n <= k + max && k % max == v % max
    ensures n <= v + max <==> k == v
    decreases n - v
  {
    SameSlot(max, v);
    if v + max < n then Top(max, v + max, n) else v
  }

  /** What a member reads for its next change is the last proposal it knows of in that slot. */
  lemma ReadsTop(max: nat, log: seq<nat>, m: Member)
    requires MemberShape(max, m) && Window(max, log, OwnRow(m)) && m.view.vid < OwnRow(m).nChanges
    ensures var k := Top(max, m.view.vid, OwnRow(m).nChanges);
            k < |log| && CurrentChange(max, m) == log[k]
  {
  }

  lemma SameSlot(max: nat, v: nat)
    requires max > 0
    ensures (v + max) % max == v % max
  {
    var q, p := v / max, (v + max) / max;
    Multiple(max, p - q - 1);
    assert (p - q - 1) * max == p * max - q * max - max;
  }
}
