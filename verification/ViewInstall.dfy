/** Moving to the next view: what carries over, and exactly when the accounts still balance. */
module ViewInstall {
  import opened Collections
  import opened Messages
  import opened MembershipSpec
  import opened Membership
  import opened ChangeLog
  import opened LeaderSteps

  lemma NextShape(v: View, id: nat)
    requires |v.members| == |v.failed| && 0 <= v.myRank < |v.members| && Distinct(v.members)
    ensures var w := NextView(v, id);
            |w.members| == |w.failed| && Distinct(w.members)
            && |w.members| == if id in v.members then |v.members| - 1 else |v.members| + 1
  {
    ChangedDistinct(v.members, id);
  }

  /** Leaving out place r moves what stood behind it one place forward. */
  lemma PlaceCarried(members: seq<nat>, failed: seq<bool>, r: nat, p: nat)
    requires |members| == |failed| && Distinct(members) && r < |members| && p < |members| && p != r
    ensures var q := if p < r then p else p - 1;
            q < |Without(members, r)| && Without(members, r)[q] == members[p] && Without(failed, r)[q] == failed[p]
  {
    WithoutAt(members, r);
    WithoutAt(failed, r);
  }

  /** Whoever stays keeps its mark, wherever it now stands. */
  lemma MarkCarried(v: View, id: nat, x: nat)
    requires |v.members| == |v.failed| && 0 <= v.myRank < |v.members| && Distinct(v.members)
    requires x in v.members && x != id
    ensures var w := NextView(v, id);
            x in w.members && |w.failed| == |w.members|
            && w.failed[RankOf(w.members, x)] == v.failed[RankOf(v.members, x)]
  {
    hide RankOf, Distinct, Without;
    var w, p := NextView(v, id), RankOf(v.members, x);
    NextShape(v, id);
    if id in v.members {
      var r := RankOf(v.members, id);
      PlaceCarried(v.members, v.failed, r, p);
      RankIs(w.members, if p < r then p else p - 1);
    } else {
      RankIs(w.members, p);
    }
  }

  /** In the new view nobody is failed who was not failed before. */
  lemma FailedCarried(v: View, id: nat, r: nat)
    requires |v.members| == |v.failed| && 0 <= v.myRank < |v.members| && Distinct(v.members)
    requires r < |NextView(v, id).failed| && NextView(v, id).failed[r]
    ensures var w := NextView(v, id);
            r < |w.members| && w.members[r] in v.members && w.members[r] != id && v.failed[RankOf(v.members, w.members[r])]
  {
    hide RankOf, Without;
    var w := NextView(v, id);
    NextShape(v, id);
    if id in v.members {
      var k := RankOf(v.members, id);
      var p := if r < k then r else r + 1;
      PlaceCarried(v.members, v.failed, k, p);
      RankIs(v.members, p);
    } else {
      RankIs(v.members, r);
    }
  }

  // ---------------------------------------------------------------- the pending proposals

  lemma PendingTail(log: seq<nat>, from: nat, x: nat)
    requires from < |log| && x in log[from..] && x != log[from]
    ensures x in log[from + 1..]
  {
    var i :| 0 <= i < |log[from..]| && log[from..][i] == x;
    assert log[from + 1..][i - 1] == x;
  }

  lemma InstalledRemovals(log: seq<nat>, v: View)
    requires |v.members| == |v.failed| && 0 <= v.myRank < |v.members| && Distinct(v.members)
    requires v.vid < |log| && NoRepeat(log, v.vid) && RemovalsFailed(log, v) && FailedListed(log, v)
    ensures var w := NextView(v, log[v.vid]);
            |w.members| == |w.failed| && RemovalsFailed(log, w) && FailedListed(log, w)
  {
    hide RankOf;
    var id := log[v.vid];
    var w := NextView(v, id);
    NextShape(v, id);
    ChangedDistinct(v.members, id);
    hide NextView, Distinct;
    NextVid(v, id);
    forall i | w.vid <= i < |log| && log[i] in w.members ensures w.failed[RankOf(w.members, log[i])] {
      MarkCarried(v, id, log[i]);
    }
    forall r | 0 <= r < |w.failed| && w.failed[r] ensures w.members[r] in log[w.vid..] {
      FailedCarried(v, id, r);
      ListedAt(log, v, w.members[r]);
      PendingTail(log, v.vid, w.members[r]);
    }
  }

  lemma NextVid(v: View, id: nat)
    requires |v.members| == |v.failed| && 0 <= v.myRank < |v.members|
    ensures NextView(v, id).vid == v.vid + 1 && NextView(v, id).members == Changed(v.members, id)
  {
  }

  lemma ListedAt(log: seq<nat>, v: View, x: nat)
    requires v.vid <= |log| && |v.members| == |v.failed| && FailedListed(log, v)
    requires x in v.members && v.failed[RankOf(v.members, x)]
    ensures x in log[v.vid..]
  {
  }

  lemma InstalledJoins(log: seq<nat>, v: View, joining: bool)
    requires v.vid < |log| && Distinct(v.members) && NoRepeat(log, v.vid)
    requires JoinerServed(log, v, joining) && OneJoin(log, v)
    ensures var w := v.(vid := v.vid + 1, members := Changed(v.members, log[v.vid]));
            JoinerServed(log, w, joining && log[v.vid] in v.members) && OneJoin(log, w)
  {
    var id := log[v.vid];
    var w := v.(vid := v.vid + 1, members := Changed(v.members, id));
    ChangedDistinct(v.members, id);
    hide Changed;
    assert forall i :: w.vid <= i < |log| ==> (log[i] in w.members <==> log[i] in v.members);
    if joining && id in v.members {
      var i :| v.vid <= i < |log| && log[i] !in v.members;
      assert w.vid <= i && log[i] !in w.members;
    }
  }

  /** If nobody was marked failed since the change began, the proposals match the new view. */
  lemma InstalledMatched(log: seq<nat>, v: View, joining: bool)
    requires |v.members| == |v.failed| && 0 <= v.myRank < |v.members| && Distinct(v.members)
    requires v.vid < |log| && Matched(log, v, joining)
    ensures var w := NextView(v, log[v.vid]);
            |w.members| == |w.failed| && Matched(log, w, joining && log[v.vid] in v.members)
  {
    hide NextView, RemovalsFailed, FailedListed, JoinerServed, OneJoin;
    InstalledRemovals(log, v);
    InstalledJoins(log, v, joining);
    NextVid(v, log[v.vid]);
    SameMembersJoins(log, v.(vid := v.vid + 1, members := Changed(v.members, log[v.vid])), NextView(v, log[v.vid]),
                     joining && log[v.vid] in v.members);
  }

  /** The view being changed to still shows everyone who has been marked failed. */
  predicate NoLateMarks(v: View, w: View, id: nat)
    requires |v.members| == |v.failed| && 0 <= v.myRank < |v.members|
  {
    w.failed == NextView(v, id).failed
  }

  /**
   The next view is fixed when the change begins, and the leader may still mark members
   failed before it is installed.  The pending removals match the marks of the new view
   exactly if it did not.
   */
  lemma MatchedIffNoLateMarks(log: seq<nat>, v: View, w: View, joining: bool)
    requires |v.members| == |v.failed| && 0 <= v.myRank < |v.members| && Distinct(v.members)
    requires v.vid < |log| && Matched(log, v, joining)
    requires w.vid == v.vid + 1 && w.members == Changed(v.members, log[v.vid]) && |w.failed| == |w.members|
    requires forall r :: 0 <= r < |w.failed| && w.failed[r] && r < |NextView(v, log[v.vid]).failed| ==> NextView(v, log[v.vid]).failed[r]
    ensures Matched(log, w, joining && log[v.vid] in v.members) <==> NoLateMarks(v, w, log[v.vid])
  {
    hide NextView, NoRepeat, RankOf;
    var id := log[v.vid];
    var now := NextView(v, id);
    InstalledMatched(log, v, joining);
    NextVid(v, id);
    NextShape(v, id);
    SameMembersJoins(log, now, w, joining && id in v.members);
    hide JoinerServed, OneJoin;
    if w.failed == now.failed {
      SameMarks(log, w, now);
    } else {
      var r :| 0 <= r < |w.failed| && w.failed[r] != now.failed[r];
      LateMark(log, now, w, r);
    }
  }

  lemma SameMarks(log: seq<nat>, v: View, w: View)
    requires v.vid == w.vid <= |log| && v.members == w.members && v.failed == w.failed && |v.members| == |v.failed|
    ensures RemovalsFailed(log, v) == RemovalsFailed(log, w) && FailedListed(log, v) == FailedListed(log, w)
  {
  }

  /** A mark that is missing from the new view leaves a pending removal of an unmarked member. */
  lemma LateMark(log: seq<nat>, now: View, w: View, r: nat)
    requires now.vid == w.vid <= |log| && now.members == w.members && |now.failed| == |w.failed| == |w.members|
    requires Distinct(w.members) && FailedListed(log, now)
    requires r < |w.failed| && now.failed[r] && !w.failed[r]
    ensures !RemovalsFailed(log, w)
  {
    RankIs(w.members, r);
    var i :| 0 <= i < |log[w.vid..]| && log[w.vid..][i] == w.members[r];
    assert log[w.vid + i] == w.members[r];
  }

  // ---------------------------------------------------------------- the accounts of a member

  /** A join keeps the majority accounts in balance. */
  lemma JoinKeepsMajority(v: View, id: nat)
    requires ViewsAgreeInSize(v) && Majority(v) && id !in v.members
    ensures Majority(NextView(v, id))
  {
    CountAppend(v.failed, [false]);
    CountOne(false);
  }

  predicate ViewsAgreeInSize(v: View) {
    |v.members| == |v.failed| && 0 <= v.myRank < |v.members|
  }

  /** A removal keeps them exactly if the member removed had been marked failed here. */
  lemma RemovalKeepsMajorityIff(v: View, id: nat)
    requires ViewsAgreeInSize(v) && Majority(v) && id in v.members
    ensures Majority(NextView(v, id)) <==> v.failed[RankOf(v.members, id)]
  {
    CountWithout(v.failed, RankOf(v.members, id));
  }

  // ---------------------------------------------------------------- the leader

  /** Installing without late marks keeps all the leader's accounts. */
  lemma InstallKeeps(max: nat, log: seq<nat>, m: Member)
    requires LeadOk(max, log, m) && m.view.vid < OwnRow(m).nCommitted
    requires m.next == Some(NextView(m.view, log[m.view.vid])) && ViewShape(max, m.next.value)
    ensures LeadOk(max, log, Install(max, m))
  {
    hide Window, Matched, Distinct, RankOf, NextView;
    var v, id := m.view, log[m.view.vid];
    NextVid(v, id);
    NextShape(v, id);
    InstalledMatched(log, v, m.joining.Some?);
    HeadKept(v.members, id);
    FirstRank(Changed(v.members, id));
    NextRank(v, id);
    HeadUnmarked(v, id);
    InstallMajority(log, v, m.joining.Some?);
    SameWindow(max, log, OwnRow(m), InitFromExisting(max, OwnRow(m)));
    LeadsItself(v);
  }

  lemma NextRank(v: View, id: nat)
    requires ViewsAgreeInSize(v)
    ensures NextView(v, id).myRank == RankOf(Changed(v.members, id), v.members[v.myRank])
  {
  }

  lemma LeadsItself(v: View)
    requires ViewsAgreeInSize(v) && v.myRank == 0 && !v.failed[0]
    ensures IsLeader(v)
  {
  }

  lemma HeadUnmarked(v: View, id: nat)
    requires ViewsAgreeInSize(v) && !v.failed[0] && id != v.members[0]
    ensures |NextView(v, id).failed| > 0 && !NextView(v, id).failed[0]
  {
  }

  lemma InstallMajority(log: seq<nat>, v: View, joining: bool)
    requires ViewsAgreeInSize(v) && Majority(v) && v.vid < |log| && Matched(log, v, joining)
    ensures Majority(NextView(v, log[v.vid]))
  {
    var id := log[v.vid];
    if id in v.members {
      RemovalKeepsMajorityIff(v, id);
    } else {
      JoinKeepsMajority(v, id);
    }
  }
}
