/** What a member other than the leader keeps by its own steps, and what any member keeps by hearing rows. */
module FollowerSteps {
  import opened Collections
  import opened Messages
  import opened MembershipSpec
  import opened Membership
  import opened ChangeLog
  import opened MembershipInv

  /** The own row may change in ways that leave its ring alone. */
  lemma OwnRowChanged(G: Group, log: seq<nat>, published: set<Put>, id: nat, p: Proc, m': Member)
    requires ProcInv(G, log, published, id, p)
    requires MemberShape(G.max, m') && m'.view == p.m.view && m'.sst == p.m.sst[p.m.view.myRank := OwnRow(m')]
    requires RowInv(G, log, OwnRow(m')) && !OwnRow(m').globalMinReady
    requires NextInv(G, id, m'.view, m'.next) && (m'.next.Some? ==> m'.view.vid < OwnRow(m').nChanges)
    ensures ProcInv(G, log, published, id, Proc(m', p.heard))
  {
    hide Window, Placed;
  }

  lemma ReportKeeps(G: Group, log: seq<nat>, published: set<Put>, id: nat, p: Proc, rank: nat)
    requires ProcInv(G, log, published, id, p) && 0 < rank < |p.m.view.members|
    ensures match ReportFailure(G.max, p.m, rank)
            case Going(m') => ProcInv(G, log, published, id, Proc(m', p.heard)) && m'.view == p.m.view
                              && OwnRow(m') == OwnRow(p.m).(suspected := OwnRow(m').suspected)
                              && m'.next == p.m.next && m'.joining == p.m.joining
                              && !OwnRow(m').suspected[0]
            case Halted(_) => true
  {
    hide Window, Distinct, NextInv, ViewInv, TableInv;
    var own := OwnRow(p.m).(suspected := OwnRow(p.m).suspected[rank := true]);
    SameRowInv(G, log, OwnRow(p.m), own);
    hide RowInv;
    if ReportFailure(G.max, p.m, rank).Going? {
      OwnRowChanged(G, log, published, id, p, SetOwn(p.m, own));
    }
  }

  lemma SameRowInv(G: Group, log: seq<nat>, r: GmsRow, r': GmsRow)
    requires RowInv(G, log, r)
    requires r'.changes == r.changes && r'.nChanges == r.nChanges && r'.nCommitted == r.nCommitted && r'.nAcked == r.nAcked
    requires |r'.suspected| == G.max && !r'.suspected[0]
    ensures RowInv(G, log, r')
  {
  }

  // ---------------------------------------------------------------- suspicion

  /** A member that does not lead only marks and wedges. */
  ghost predicate OnlyMarked(m: Member, m': Member)
    requires 0 <= m.view.myRank < |m.sst| && 0 <= m'.view.myRank < |m'.sst|
  {
    && m'.view == m.view.(failed := m'.view.failed, nFailed := m'.view.nFailed)
    && |m'.view.failed| == |m.view.failed| > 0 && m'.view.failed[0] == m.view.failed[0]
    && m'.next == m.next && m'.joining == m.joining
    && m'.sst == m.sst[m.view.myRank := OwnRow(m).(wedged := OwnRow(m').wedged)]
    && (OwnRow(m).wedged ==> OwnRow(m').wedged)
  }

  lemma FollowerMark(max: nat, m: Member, q: nat)
    requires MemberShape(max, m) && 0 < q < |m.view.members| && m.view.myRank != 0 && !m.view.failed[0]
    ensures match MarkFailed(max, m, q)
            case Going(m') => OnlyMarked(m, m')
            case Halted(_) => true
  {
    hide ProposeRemoval;
    assert RankOfLeader(m.view.failed[q := true]) == 0;
  }

  lemma {:induction false} FollowerMarks(max: nat, m: Member, q: nat)
    requires MemberShape(max, m) && q <= |m.view.members| && m.view.myRank != 0 && !m.view.failed[0]
    requires !OwnRow(m).suspected[0]
    ensures match MarkFrom(max, m, q)
            case Going(m') => OnlyMarked(m, m')
            case Halted(_) => true
    decreases |m.view.members| - q
  {
    hide MarkFailed, ProposeRemoval, RankOfLeader;
    if q < |m.view.members| {
      if OwnRow(m).suspected[q] && !m.view.failed[q] {
        FollowerMark(max, m, q);
        if MarkFailed(max, m, q).Going? {
          FollowerMarks(max, MarkFailed(max, m, q).value, q + 1);
        }
      } else {
        FollowerMarks(max, m, q + 1);
      }
    }
  }

  lemma MergedRow(max: nat, m: Member)
    requires MemberShape(max, m) && forall r :: 0 <= r < |m.sst| ==> !m.sst[r].suspected[0]
    ensures OwnRow(Merged(max, m)) == OwnRow(m).(suspected := OwnRow(Merged(max, m)).suspected)
    ensures Merged(max, m).view == m.view && Merged(max, m).next == m.next && Merged(max, m).joining == m.joining
    ensures Merged(max, m).sst == m.sst[m.view.myRank := OwnRow(Merged(max, m))]
    ensures !OwnRow(Merged(max, m)).suspected[0]
  {
  }

  lemma SuspicionKeeps(G: Group, log: seq<nat>, published: set<Put>, id: nat, p: Proc)
    requires ProcInv(G, log, published, id, p) && p.m.view.myRank != 0
    ensures match Suspect(G.max, p.m)
            case Going(m') => ProcInv(G, log, published, id, Proc(m', p.heard))
                              && m'.view.vid == p.m.view.vid && m'.view.myRank == p.m.view.myRank
                              && OwnRow(m').nAcked == OwnRow(p.m).nAcked && OwnRow(m').nChanges == OwnRow(p.m).nChanges
            case Halted(_) => true
  {
    hide Window, Distinct, MarkFrom, Merged;
    var m := Merged(G.max, p.m);
    MergedRow(G.max, p.m);
    FollowerMarks(G.max, m, 0);
    if MarkFrom(G.max, m, 0).Going? {
      var m' := MarkFrom(G.max, m, 0).value;
      SameRowInv(G, log, OwnRow(p.m), OwnRow(m'));
    }
  }

  // ---------------------------------------------------------------- acknowledging and changing views

  lemma SeenRowInv(G: Group, log: seq<nat>, published: set<Put>, id: nat, p: Proc, r: nat)
    requires ProcInv(G, log, published, id, p)
    requires r < |p.m.sst| && r in p.heard
    requires forall put :: put in published ==> RowInv(G, log, put.row)
    ensures RowInv(G, log, p.m.sst[r])
  {
    hide RowInv, ViewInv, NextInv;
    if r != p.m.view.myRank {
      assert Put(p.m.view.members[r], p.m.view.vid, p.m.sst[r]) in published;
    }
  }

  /** A follower's acknowledgement echoes the leader's ring. */
  lemma AckEchoes(G: Group, log: seq<nat>, published: set<Put>, id: nat, p: Proc)
    requires ProcInv(G, log, published, id, p) && p.m.view.myRank != 0 && Synced(p)
    requires forall put :: put in published ==> RowInv(G, log, put.row)
    requires p.m.next.None? && HasLeader(p.m) && CanAck(G.max, p.m)
    ensures var m' := Ack(G.max, p.m);
            ProcInv(G, log, published, id, Proc(m', p.heard)) && m'.view == p.m.view
            && OwnRow(m').nAcked >= OwnRow(p.m).nAcked
            && OwnRow(m').nAcked == OwnRow(m').nChanges == p.m.sst[0].nChanges
  {
    hide Window, Distinct;
    assert RankOfLeader(p.m.view.failed) == 0;
    SeenRowInv(G, log, published, id, p, 0);
    var m' := Ack(G.max, p.m);
    SameWindowFrom(G, log, p.m.sst[0], OwnRow(m'));
    OwnRowChanged(G, log, published, id, p, m');
  }

  lemma SameWindowFrom(G: Group, log: seq<nat>, l: GmsRow, r: GmsRow)
    requires RingShape(G.max, l) && RingShape(G.max, r) && Window(G.max, log, l)
    requires r.changes == l.changes && r.nChanges == l.nChanges
    ensures Window(G.max, log, r)
  {
  }

  lemma BeginKeeps(G: Group, log: seq<nat>, published: set<Put>, id: nat, p: Proc)
    requires ProcInv(G, log, published, id, p) && p.m.view.myRank != 0 && Synced(p)
    requires G.first != [] && LeadId(G) !in log
    requires forall put :: put in published ==> RowInv(G, log, put.row)
    requires HasLeader(p.m) && !CanAck(G.max, p.m) && CanStart(G.max, p.m)
    ensures match Start(G.max, p.m)
            case Going(m') => ProcInv(G, log, published, id, Proc(m', p.heard)) && m'.view == p.m.view
                              && OwnRow(m').nAcked == OwnRow(p.m).nAcked && OwnRow(m').nChanges == OwnRow(p.m).nChanges
            case Halted(_) => true
  {
    hide Window, Distinct;
    assert RankOfLeader(p.m.view.failed) == 0;
    SeenRowInv(G, log, published, id, p, 0);
    ReadsTop(G.max, log, p.m);
    if Start(G.max, p.m).Going? {
      var m' := Start(G.max, p.m).value;
      SameWindowFrom(G, log, OwnRow(p.m), OwnRow(m'));
      NextPlaced(G, id, p.m.view, CurrentChange(G.max, p.m));
      OwnRowChanged(G, log, published, id, p, m');
    }
  }

  // ---------------------------------------------------------------- hearing rows

  lemma HearKeeps(G: Group, log: seq<nat>, published: set<Put>, id: nat, p: Proc, put: Put)
    requires ProcInv(G, log, published, id, p) && put in published && CanHear(p, put)
    requires RowInv(G, log, put.row)
    ensures ProcInv(G, log, published, id, Heard(p, put))
  {
    hide Window, Distinct, RankOf;
  }

  // ---------------------------------------------------------------- installing

  lemma BlankUnsuspecting(max: nat)
    requires max > 0
    ensures RingShape(max, BlankRow(max)) && !BlankRow(max).suspected[0]
    ensures !BlankRow(max).wedged && !BlankRow(max).globalMinReady
  {
  }

  lemma FreshTableInv(max: nat, n: nat, me: nat, own: GmsRow, published: set<Put>, m: Member, heard: set<nat>)
    requires max > 0 && me < n && m.sst == FreshTable(max, n, me, own) && |m.view.members| == n && m.view.myRank == me
    requires |own.suspected| > 0 && !own.suspected[0] && heard == {me}
    ensures TableInv(published, Proc(m, heard))
  {
    BlankUnsuspecting(max);
  }

  lemma InstallKeepsProc(G: Group, log: seq<nat>, published: set<Put>, id: nat, p: Proc)
    requires ProcInv(G, log, published, id, p) && p.m.next.Some? && ViewShape(G.max, p.m.next.value)
    ensures ProcInv(G, log, published, id, Installed(G.max, p.m))
    ensures OwnRow(Installed(G.max, p.m).m).nAcked == OwnRow(p.m).nAcked
    ensures OwnRow(Installed(G.max, p.m).m).nCommitted == OwnRow(p.m).nCommitted
  {
    hide Window, Distinct;
    var w, own := p.m.next.value, InitFromExisting(G.max, OwnRow(p.m));
    BlankUnsuspecting(G.max);
    SameWindowFrom(G, log, OwnRow(p.m), own);
    FreshTableInv(G.max, |w.members|, w.myRank, own, published, Install(G.max, p.m), {w.myRank as nat});
  }

  lemma JoinerStartKeeps(G: Group, log: seq<nat>, published: set<Put>, id: nat, v: View, put: Put)
    requires G.first != [] && LeadId(G) !in log
    requires id in v.members && id != LeadId(G) && ViewInv(G, LeadId(G), v)
    requires put in published && put.owner == LeadId(G) && put.vid == v.vid && RowInv(G, log, put.row)
    ensures var p := StartedJoiner(G.max, id, v, put.row);
            ProcInv(G, log, published, id, p) && p.m.view.vid == v.vid && OwnRow(p.m).nAcked == put.row.nAcked
  {
    hide Window, Distinct, RankOf, TableInv;
    var own := InitFromExisting(G.max, put.row);
    var p := StartedJoiner(G.max, id, v, put.row);
    SameWindowFrom(G, log, put.row, own);
    HeadIsLead(G, id, p.m.view);
    JoinerTable(G, published, p, own, put);
  }

  lemma JoinerTable(G: Group, published: set<Put>, p: Proc, own: GmsRow, put: Put)
    requires G.max > 0 && ViewShape(G.max, p.m.view) && p.m.view.myRank != 0
    requires p.m.sst == FreshTable(G.max, |p.m.view.members|, p.m.view.myRank, own)[0 := put.row]
    requires p.heard == {0, p.m.view.myRank as nat}
    requires RingShape(G.max, own) && !own.suspected[0] && RingShape(G.max, put.row) && !put.row.suspected[0]
    requires put in published && put == Put(p.m.view.members[0], p.m.view.vid, put.row)
    ensures TableInv(published, p) && (forall r :: 0 <= r < |p.m.sst| ==> RingShape(G.max, p.m.sst[r]))
  {
    BlankUnsuspecting(G.max);
  }
}
