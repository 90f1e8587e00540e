/** What the leader's own steps keep, and that its ring never runs out of room. */
module LeaderSteps {
  import opened Collections
  import opened Messages
  import opened MembershipSpec
  import opened Membership
  import opened ChangeLog

  // ---------------------------------------------------------------- counters and ring

  /** The same view, with perhaps more members marked failed. */
  ghost predicate MoreMarks(v: View, v': View) {
    && v'.vid == v.vid && v'.members == v.members && v'.myRank == v.myRank
    && |v'.failed| == |v.failed|
    && forall r :: 0 <= r < |v.failed| && v.failed[r] ==> v'.failed[r]
  }

  /** What the leader's triggers leave alone, in a view that may have more marks. */
  ghost predicate LeadKept(m: Member, m': Member) {
    && MoreMarks(m.view, m'.view)
    && |m'.sst| == |m.sst| > 0 && m.view.myRank == 0
    && (forall r :: 0 < r < |m.sst| ==> m'.sst[r] == m.sst[r])
    && OwnRow(m').globalMinReady == OwnRow(m).globalMinReady
    && |OwnRow(m').suspected| == |OwnRow(m).suspected| > 0 && OwnRow(m').suspected[0] == OwnRow(m).suspected[0]
  }

  lemma SameWindow(max: nat, log: seq<nat>, r: GmsRow, r': GmsRow)
    requires RingShape(max, r) && RingShape(max, r') && Window(max, log, r)
    requires r'.changes == r.changes && r'.nChanges == r.nChanges
    ensures Window(max, log, r')
  {
  }

  lemma HeadDiffers(members: seq<nat>, q: nat)
    requires Distinct(members) && 0 < q < |members|
    ensures members[0] != members[q]
  {
  }

  /** Marking a member failed extends the log by its removal, or not at all. */
  lemma MarkBase(max: nat, log: seq<nat>, m: Member, q: nat)
    requires LeadBase(max, log, m) && 0 < q < |m.view.members|
    ensures match MarkFailed(max, m, q)
            case Going(m') =>
              && (LeadBase(max, log, m') || LeadBase(max, log + [m.view.members[q]], m'))
              && LeadKept(m, m') && m'.next == m.next && m'.joining == m.joining
              && OwnRow(m').nCommitted == OwnRow(m).nCommitted && OwnRow(m').suspected == OwnRow(m).suspected
            case Halted(_) => true
  {
    hide ChangesContains, Window, Distinct;
    var v, row := m.view, OwnRow(m).(wedged := true);
    SameWindow(max, log, OwnRow(m), row);
    ProposeWindow(max, log, row, v.members[q]);
    HeadDiffers(v.members, q);
    assert RankOfLeader(v.failed[q := true]) == 0;
  }

  lemma BaseShape(max: nat, log: seq<nat>, m: Member)
    requires LeadBase(max, log, m)
    ensures MemberShape(max, m) && m.view.myRank == 0 && |m.sst| > 0 && OwnRow(m) == m.sst[0] && |OwnRow(m).suspected| > 0
    ensures |m.view.members| <= max
  {
  }

  lemma {:induction false} MarkFromBase(max: nat, log: seq<nat>, m: Member, q: nat) returns (log': seq<nat>)
    requires LeadBase(max, log, m) && q <= |m.view.members| && !OwnRow(m).suspected[0]
    ensures log <= log' && |log'| <= |log| + |m.view.members| - q
    ensures match MarkFrom(max, m, q)
            case Going(m') =>
              && LeadBase(max, log', m') && LeadKept(m, m') && m'.next == m.next && m'.joining == m.joining
              && OwnRow(m').nCommitted == OwnRow(m).nCommitted && OwnRow(m').suspected == OwnRow(m).suspected
            case Halted(_) => true
    decreases |m.view.members| - q
  {
    hide LeadBase, MarkFailed;
    BaseShape(max, log, m);
    log' := log;
    if q < |m.view.members| {
      if OwnRow(m).suspected[q] && !m.view.failed[q] {
        MarkBase(max, log, m, q);
        if MarkFailed(max, m, q).Going? {
          var m' := MarkFailed(max, m, q).value;
          var next := if LeadBase(max, log, m') then log else log + [m.view.members[q]];
          log' := MarkFromBase(max, next, m', q + 1);
        }
      } else {
        log' := MarkFromBase(max, log, m, q + 1);
      }
    }
  }

  lemma MergedBase(max: nat, log: seq<nat>, m: Member)
    requires LeadBase(max, log, m) && forall r :: 0 <= r < |m.sst| ==> !m.sst[r].suspected[0]
    ensures LeadBase(max, log, Merged(max, m)) && LeadKept(m, Merged(max, m))
    ensures OwnRow(Merged(max, m)).nCommitted == OwnRow(m).nCommitted && !OwnRow(Merged(max, m)).suspected[0]
    ensures Merged(max, m).view == m.view && Merged(max, m).next == m.next && Merged(max, m).joining == m.joining
  {
    hide Window, Distinct;
    SameWindow(max, log, OwnRow(m), OwnRow(Merged(max, m)));
  }

  /** What is remembered of suspicions says nothing of counters and ring. */
  lemma RememberBase(max: nat, log: seq<nat>, m: Member)
    requires LeadBase(max, log, m)
    ensures LeadBase(max, log, m.(last := Remembered(max, m)))
  {
    hide Window, Distinct, Remembered;
  }

  /** The suspicion trigger keeps counters and ring, and only adds to the log. */
  lemma SuspectBase(max: nat, log: seq<nat>, m: Member) returns (log': seq<nat>)
    requires LeadBase(max, log, m) && forall r :: 0 <= r < |m.sst| ==> !m.sst[r].suspected[0]
    ensures log <= log' && |log'| <= |log| + max
    ensures match Suspect(max, m)
            case Going(m') =>
              && LeadBase(max, log', m') && LeadKept(m, m') && m'.next == m.next && m'.joining == m.joining
              && OwnRow(m').nCommitted == OwnRow(m).nCommitted
            case Halted(_) => true
  {
    hide LeadBase, MarkFrom, Merged;
    BaseShape(max, log, m);
    MergedBase(max, log, m);
    log' := MarkFromBase(max, log, Merged(max, m), 0);
    if MarkFrom(max, Merged(max, m), 0).Going? {
      RememberBase(max, log', MarkFrom(max, Merged(max, m), 0).value);
    }
  }

  lemma ReportBase(max: nat, log: seq<nat>, m: Member, rank: nat)
    requires LeadBase(max, log, m) && 0 < rank < |m.view.members| && ReportFailure(max, m, rank).Going?
    ensures var m' := ReportFailure(max, m, rank).value;
            && LeadBase(max, log, m') && LeadKept(m, m') && m'.next == m.next && m'.joining == m.joining
            && m'.view == m.view && OwnRow(m').nCommitted == OwnRow(m).nCommitted
  {
    hide Window, Distinct;
    SameWindow(max, log, OwnRow(m), OwnRow(ReportFailure(max, m, rank).value));
  }

  lemma JoinBase(max: nat, log: seq<nat>, m: Member, id: nat)
    requires LeadBase(max, log, m) && id != m.view.members[0] && ReceiveJoin(max, m, id).Going?
    ensures var m' := ReceiveJoin(max, m, id).value;
            && LeadBase(max, log + [id], m') && LeadKept(m, m') && m'.next == m.next && m'.joining == Some(id)
            && m'.view == m.view && OwnRow(m').nCommitted == OwnRow(m).nCommitted
  {
    hide Window, Distinct;
    ProposeWindow(max, log, OwnRow(m), id);
    SameWindow(max, log + [id], Propose(max, OwnRow(m), id), OwnRow(ReceiveJoin(max, m, id).value));
  }

  lemma CommitBase(max: nat, log: seq<nat>, m: Member)
    requires LeadBase(max, log, m) && CanCommit(max, m)
    ensures var m' := Commit(max, m);
            && LeadBase(max, log, m') && LeadKept(m, m') && m'.next == m.next && m'.joining == m.joining
            && m'.view == m.view && OwnRow(m').nCommitted > OwnRow(m).nCommitted
  {
    hide Window, Distinct;
    SameWindow(max, log, OwnRow(m), OwnRow(Commit(max, m)));
  }

  lemma AckBase(max: nat, log: seq<nat>, m: Member)
    requires LeadBase(max, log, m) && HasLeader(m)
    ensures var m' := Ack(max, m);
            && LeadBase(max, log, m') && LeadKept(m, m') && m'.next == m.next && m'.joining == m.joining
            && m'.view == m.view && OwnRow(m').nCommitted == OwnRow(m).nCommitted
  {
    hide Window, Distinct;
    assert RankOfLeader(m.view.failed) == 0;
    SameWindow(max, log, OwnRow(m), OwnRow(Ack(max, m)));
  }

  lemma FirstRank(members: seq<nat>)
    requires members != []
    ensures RankOf(members, members[0]) == 0
  {
  }

  lemma StartBase(max: nat, log: seq<nat>, m: Member)
    requires LeadBase(max, log, m) && m.view.vid < |log|
    ensures Start(max, m).Going?
    ensures var m' := Start(max, m).value;
            && LeadBase(max, log, m') && LeadKept(m, m') && m'.joining == m.joining && m'.view == m.view
            && m'.next == Some(NextView(m.view, log[Top(max, m.view.vid, |log|)])) && m'.next.value.myRank == 0
            && OwnRow(m').nCommitted == OwnRow(m).nCommitted
  {
    hide Window, Distinct, RankOf;
    ReadsTop(max, log, m);
    var id := CurrentChange(max, m);
    HeadKept(m.view.members, id);
    FirstRank(Changed(m.view.members, id));
    SameWindow(max, log, OwnRow(m), OwnRow(m).(wedged := true));
  }

  // ---------------------------------------------------------------- suspicion

  /** A member not marked failed has no pending removal. */
  lemma UnfailedNotPending(max: nat, log: seq<nat>, m: Member, q: nat)
    requires LeadOk(max, log, m) && q < |m.view.members| && !m.view.failed[q]
    ensures m.view.members[q] !in log[m.view.vid..]
  {
    var v := m.view;
    RankIs(v.members, q);
    forall i | v.vid <= i < |log| ensures log[i] != v.members[q] {
    }
  }

  lemma NotListed(max: nat, log: seq<nat>, m: Member, q: nat)
    requires LeadOk(max, log, m) && m.view.members[0] !in log && q !in log[m.view.vid..]
    ensures !ChangesContains(max, OwnRow(m), q)
  {
    var row := OwnRow(m);
    RingSafe(max, log, m);
    forall k | row.nCommitted <= k < row.nChanges ensures row.changes[k % max] != q {
      assert log[k] == log[m.view.vid..][k - m.view.vid];
    }
  }

  lemma RoomLeft(max: nat, log: seq<nat>, m: Member, q: nat)
    requires LeadOk(max, log, m) && 0 < q < |m.view.members| && !m.view.failed[q]
    ensures |log| - m.view.vid < |m.view.members|
  {
    UnfailedNotPending(max, log, m, q);
    var spared := {m.view.members[0], m.view.members[q]};
    assert |spared| == 2 by {
      assert m.view.members[0] != m.view.members[q];
    }
    PendingBound(max, log, m, spared);
  }

  lemma PendingAppend(log: seq<nat>, from: nat, id: nat)
    requires from <= |log| && id !in log[from..]
    ensures (log + [id])[from..] == log[from..] + [id]
    ensures NoRepeat(log, from) ==> NoRepeat(log + [id], from)
  {
    forall i | from <= i < |log| ensures log[i] != id {
      assert log[i] == log[from..][i - from];
    }
  }

  /** Another removal leaves the pending joins as they were. */
  lemma RemovalJoins(log: seq<nat>, v: View, joining: bool, id: nat)
    requires v.vid <= |log| && id in v.members && JoinerServed(log, v, joining) && OneJoin(log, v)
    ensures JoinerServed(log + [id], v, joining) && OneJoin(log + [id], v)
  {
    var log' := log + [id];
    if joining {
      var i :| v.vid <= i < |log| && log[i] !in v.members;
      assert log'[i] !in v.members;
    }
  }

  lemma MarkedMatched(log: seq<nat>, v: View, joining: bool, q: nat)
    requires v.vid <= |log| && |v.members| == |v.failed| && Distinct(v.members) && Matched(log, v, joining)
    requires q < |v.members| && !v.failed[q] && v.members[q] !in log[v.vid..]
    ensures Matched(log + [v.members[q]], v.(failed := v.failed[q := true], nFailed := v.nFailed + 1), joining)
  {
    hide NoRepeat, JoinerServed, OneJoin;
    var id, v' := v.members[q], v.(failed := v.failed[q := true], nFailed := v.nFailed + 1);
    RankIs(v.members, q);
    PendingAppend(log, v.vid, id);
    RemovalJoins(log, v, joining, id);
    SameMembersJoins(log + [id], v, v', joining);
  }

  lemma SameMembersJoins(log: seq<nat>, v: View, v': View, joining: bool)
    requires v.vid == v'.vid <= |log| && v.members == v'.members
    ensures JoinerServed(log, v', joining) == JoinerServed(log, v, joining) && OneJoin(log, v') == OneJoin(log, v)
  {
  }

  /** Marking one member failed appends exactly its removal; room never runs out. */
  lemma MarkKeeps(max: nat, log: seq<nat>, m: Member, q: nat)
    requires LeadOk(max, log, m) && 0 < q < |m.view.members| && !m.view.failed[q]
    ensures MarkFailed(max, m, q) != Halted(NoRoom)
    ensures match MarkFailed(max, m, q)
            case Going(m') => LeadOk(max, log + [m.view.members[q]], m') && m'.joining == m.joining
                              && OwnRow(m').suspected == OwnRow(m).suspected && m'.view.members == m.view.members
            case Halted(_) => true
  {
    hide ChangesContains, Window, Matched, Distinct;
    var v, row := m.view, OwnRow(m).(wedged := true);
    var v' := v.(failed := v.failed[q := true], nFailed := v.nFailed + 1);
    UnfailedNotPending(max, log, m, q);
    NotListed(max, log, m, v.members[q]);
    SameRing(max, OwnRow(m), row, v.members[q]);
    RoomLeft(max, log, m, q);
    SameWindow(max, log, OwnRow(m), row);
    ProposeWindow(max, log, row, v.members[q]);
    CountSet(v.failed, q);
    MarkedMatched(log, v, m.joining.Some?, q);
    HeadDiffers(v.members, q);
    assert RankOfLeader(v'.failed) == 0;
  }

  lemma SameRing(max: nat, r: GmsRow, r': GmsRow, q: nat)
    requires RingShape(max, r) && RingShape(max, r')
    requires r'.changes == r.changes && r'.nChanges == r.nChanges && r'.nCommitted == r.nCommitted
    ensures ChangesContains(max, r', q) == ChangesContains(max, r, q)
  {
  }

  /** All the marks of one run of the trigger, with the log they leave behind. */
  lemma {:induction false} MarkFromKeeps(max: nat, log: seq<nat>, m: Member, q: nat) returns (log': seq<nat>)
    requires LeadOk(max, log, m) && q <= |m.view.members| && !OwnRow(m).suspected[0]
    ensures MarkFrom(max, m, q) != Halted(NoRoom)
    ensures log <= log'
    ensures match MarkFrom(max, m, q)
            case Going(m') => LeadOk(max, log', m') && m'.joining == m.joining
            case Halted(_) => true
    decreases |m.view.members| - q
  {
    hide LeadOk, MarkFailed;
    LeadShape(max, log, m);
    log' := log;
    if q < |m.view.members| {
      if OwnRow(m).suspected[q] && !m.view.failed[q] {
        MarkKeeps(max, log, m, q);
        if MarkFailed(max, m, q).Going? {
          LeadShape(max, log + [m.view.members[q]], MarkFailed(max, m, q).value);
          log' := MarkFromKeeps(max, log + [m.view.members[q]], MarkFailed(max, m, q).value, q + 1);
        }
      } else {
        log' := MarkFromKeeps(max, log, m, q + 1);
      }
    }
  }

  lemma LeadShape(max: nat, log: seq<nat>, m: Member)
    requires LeadOk(max, log, m)
    ensures LeadBase(max, log, m) && MemberShape(max, m) && m.view.myRank == 0 && |m.sst| > 0 && OwnRow(m) == m.sst[0]
  {
  }

  /** The leader's suspicion trigger keeps its accounts, and never runs out of room. */
  lemma SuspectKeeps(max: nat, log: seq<nat>, m: Member) returns (log': seq<nat>)
    requires LeadOk(max, log, m) && forall r :: 0 <= r < |m.sst| ==> !m.sst[r].suspected[0]
    ensures Suspect(max, m) != Halted(NoRoom)
    ensures log <= log'
    ensures match Suspect(max, m)
            case Going(m') => LeadOk(max, log', m') && m'.joining == m.joining
            case Halted(_) => true
  {
    hide LeadBase, MarkFrom, Merged, Matched, Majority;
    LeadShape(max, log, m);
    MergedBase(max, log, m);
    log' := MarkFromKeeps(max, log, Merged(max, m), 0);
    if MarkFrom(max, Merged(max, m), 0).Going? {
      RememberBase(max, log', MarkFrom(max, Merged(max, m), 0).value);
    }
  }

  // ---------------------------------------------------------------- the other triggers

  lemma JoinedMatched(log: seq<nat>, v: View, id: nat)
    requires v.vid <= |log| && |v.members| == |v.failed| && Matched(log, v, false)
    requires id !in v.members && id !in log[v.vid..]
    ensures Matched(log + [id], v, true)
  {
    PendingAppend(log, v.vid, id);
    assert (log + [id])[|log|] !in v.members;
  }

  /** Proposing a joiner that is neither a member nor pending keeps the accounts. */
  lemma JoinKeeps(max: nat, log: seq<nat>, m: Member, id: nat)
    requires LeadOk(max, log, m) && m.joining.None?
    requires id !in m.view.members && id !in log[m.view.vid..]
    requires |log| - OwnRow(m).nCommitted != max / 2
    ensures ReceiveJoin(max, m, id).Going? && LeadOk(max, log + [id], ReceiveJoin(max, m, id).value)
  {
    hide Window, Matched, Distinct;
    JoinBase(max, log, m, id);
    JoinedMatched(log, m.view, id);
  }
}
