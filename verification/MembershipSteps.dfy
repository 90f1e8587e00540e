/** The leader's steps keep what every run keeps, even when its ring overflows. */
module MembershipSteps {
  import opened Collections
  import opened Messages
  import opened MembershipSpec
  import opened Membership
  import opened ChangeLog
  import opened LeaderSteps
  import opened ViewInstall
  import opened MembershipInv
  import opened FollowerSteps

  lemma LeadRow(G: Group, log: seq<nat>, m: Member)
    requires LeadBase(G.max, log, m) && !OwnRow(m).suspected[0]
    ensures RowInv(G, log, OwnRow(m))
  {
  }

  /** A trigger proposes no more than a ring holds, so what it proposed can be read back. */
  lemma LogIs(max: nat, log: seq<nat>, log': seq<nat>, m: Member)
    requires LeadBase(max, log', m) && log <= log' && |log'| <= |log| + max
    ensures Extended(max, log, OwnRow(m)) == log'
  {
    hide Extended;
    ExtendedIs(max, log, log', OwnRow(m));
  }

  lemma LeadFacts(G: Group, S: System)
    requires Base(G, S)
    ensures LeadBase(G.max, S.log, S.lead.m) && MemberShape(G.max, S.lead.m) && S.lead.m.view.myRank == 0
    ensures G.first != [] && !OwnRow(S.lead.m).suspected[0] && !OwnRow(S.lead.m).globalMinReady
    ensures forall r :: 0 <= r < |S.lead.m.sst| ==> |S.lead.m.sst[r].suspected| > 0 && !S.lead.m.sst[r].suspected[0]
    ensures RankOfLeader(S.lead.m.view.failed) == 0 && S.lead.m.view.members[0] == LeadId(G)
    ensures S.lead.m.view.vid <= |S.log| && LeadId(G) !in S.log && ViewInv(G, LeadId(G), S.lead.m.view)
  {
    hide FollowersInv, WaitingInv, PublishedInv, Window, Distinct;
  }

  /** The leader's own part after one of its triggers. */
  lemma LeadProc(G: Group, S: System, m': Member, log': seq<nat>)
    requires Base(G, S) && S.log <= log' && LeadBase(G.max, log', m') && LeadKept(S.lead.m, m')
    requires NextInv(G, LeadId(G), m'.view, m'.next)
    requires m'.next.Some? ==> m'.view.vid < OwnRow(m').nCommitted
    ensures ProcInv(G, log', S.published, LeadId(G), Proc(m', S.lead.heard))
  {
    hide FollowersInv, WaitingInv, PublishedInv, Window, Distinct, NextInv;
    LeadFacts(G, S);
    LeadRow(G, log', m');
  }

  lemma PutsAfterLead(G: Group, S: System, S': System, own: GmsRow)
    requires Base(G, S) && S.log <= S'.log && S'.followers == S.followers && S'.waiting == S.waiting
    requires S'.lead.m.view.vid == S.lead.m.view.vid
    requires S'.published == S.published + {Put(LeadId(G), S.lead.m.view.vid, own)}
    requires RowInv(G, S'.log, own) && !own.globalMinReady
    ensures PublishedInv(G, S') && FollowersInv(G, S') && WaitingInv(G, S')
  {
    hide ProcInv, RowInv, Distinct, LeadBase, ViewShape;
    forall put | put in S'.published ensures PutInv(G, S', put) {
      if put in S.published {
        assert PutInv(G, S, put);
        RowStable(G, S.log, S'.log, put.row);
      }
    }
    forall id | id in S'.followers ensures ProcInv(G, S'.log, S'.published, id, S'.followers[id]) {
      ProcStable(G, S.log, S'.log, S.published, S'.published, id, S.followers[id]);
    }
  }

  /** A move of the leader within its view. */
  lemma LeadMoves(G: Group, S: System, m': Member, log': seq<nat>)
    requires Base(G, S) && S.log <= log' && LeadBase(G.max, log', m') && LeadKept(S.lead.m, m')
    requires |log'| <= |S.log| + G.max
    requires NextInv(G, LeadId(G), m'.view, m'.next)
    requires m'.next.Some? ==> m'.view.vid < OwnRow(m').nCommitted
    requires OwnRow(S.lead.m).nCommitted <= OwnRow(m').nCommitted
    ensures Base(G, WithLead(G, S, m'))
  {
    hide Window, Distinct, NextInv, ProcInv, FollowersInv, WaitingInv, PublishedInv, Extended;
    LeadFacts(G, S);
    LogIs(G.max, S.log, log', m');
    LeadProc(G, S, m', log');
    LeadRow(G, log', m');
    PutsAfterLead(G, S, WithLead(G, S, m'), OwnRow(m'));
    ProcStable(G, log', log', S.published, WithLead(G, S, m').published, LeadId(G), Proc(m', S.lead.heard));
  }

  /** A trigger that leaves the next view alone. */
  lemma LeadSteady(G: Group, S: System, m': Member, log': seq<nat>)
    requires Base(G, S) && S.log <= log' && LeadBase(G.max, log', m') && LeadKept(S.lead.m, m')
    requires |log'| <= |S.log| + G.max
    requires m'.next == S.lead.m.next && OwnRow(S.lead.m).nCommitted <= OwnRow(m').nCommitted
    ensures Base(G, WithLead(G, S, m'))
  {
    hide Window, Distinct, FollowersInv, WaitingInv, PublishedInv, RowInv, TableInv, LeadBase, Extended;
    LeadMoves(G, S, m', log');
  }

  lemma LeadBegins(G: Group, S: System, m': Member)
    requires Base(G, S) && G.max > 0 && S.lead.m.view.vid < |S.log| && S.lead.m.view.vid < OwnRow(S.lead.m).nCommitted
    requires LeadBase(G.max, S.log, m') && LeadKept(S.lead.m, m') && m'.view == S.lead.m.view
    requires m'.next == Some(NextView(m'.view, S.log[Top(G.max, m'.view.vid, |S.log|)])) && m'.next.value.myRank == 0
    requires OwnRow(m').nCommitted == OwnRow(S.lead.m).nCommitted
    ensures Base(G, WithLead(G, S, m'))
  {
    hide Window, Distinct, FollowersInv, WaitingInv, PublishedInv, RowInv, TableInv, NextView, Extended, NextInv;
    LeadFacts(G, S);
    NextPlaced(G, LeadId(G), m'.view, S.log[Top(G.max, m'.view.vid, |S.log|)]);
    LeadMoves(G, S, m', S.log);
  }

  /** One more row may be put, if it says nothing new. */
  lemma PutAlso(G: Group, S: System, put: Put)
    requires Base(G, S) && G.first != [] && PutInv(G, S, put)
    ensures Base(G, S.(published := S.published + {put}))
  {
    hide LeadBase, ProcInv, RowInv, ViewInv;
    var S' := S.(published := S.published + {put});
    forall q | q in S'.published ensures PutInv(G, S', q) {
      assert q in S.published ==> PutInv(G, S, q);
    }
    ProcStable(G, S.log, S.log, S.published, S'.published, LeadId(G), S.lead);
    forall f | f in S'.followers ensures ProcInv(G, S.log, S'.published, f, S'.followers[f]) {
      ProcStable(G, S.log, S.log, S.published, S'.published, f, S.followers[f]);
    }
  }

  /** The row put half-way through an acknowledgement has the counters of the one put at its end. */
  lemma HalfwayBase(G: Group, S: System, id: nat, m: Member, m': Member, act: Act)
    requires Base(G, S) && G.first != [] && 0 <= m.view.myRank < |m.sst| && 0 <= m'.view.myRank < |m'.sst|
    requires (id == LeadId(G) && S.lead.m == m') || (id in S.followers && S.followers[id].m == m')
    ensures Base(G, Halfway(S, id, m, m', act))
  {
    hide LeadBase, ViewInv, NextInv, TableInv, Window;
    if act.Acknowledge? {
      var put := Put(id, m'.view.vid, Unwedged(m, m'));
      SameRowInv(G, S.log, OwnRow(m'), Unwedged(m, m'));
      hide RowInv;
      assert PutInv(G, S, put);
      PutAlso(G, S, put);
    }
  }

  lemma LeadHalfway(G: Group, S: System, m': Member, act: Act)
    requires G.first != [] && MemberShape(G.max, m') && MemberShape(G.max, S.lead.m) && Base(G, WithLead(G, S, m'))
    ensures Base(G, Halfway(WithLead(G, S, m'), LeadId(G), S.lead.m, m', act))
  {
    hide Base, Halfway, RingShape, Extended;
    HalfwayBase(G, WithLead(G, S, m'), LeadId(G), S.lead.m, m', act);
  }

  lemma LeadActsBase(G: Group, S: System, act: Act)
    requires Base(G, S) && WellShaped(G, S) && Enabled(G, S, LeadActs(act))
    ensures Base(G, Next(G, S, LeadActs(act)))
  {
    hide Base, LeadBase, WithLead, Suspect, ReportFailure, Ack, Commit, Start, CanAck, CanCommit, Synced, NextView,
         LeadKept;
    LeadFacts(G, S);
    LeadHalts(G, S);
    var m := S.lead.m;
    if Acted(G.max, m, act).Going? {
      var m' := Acted(G.max, m, act).value;
      match act
      case Report(rank) =>
        ReportBase(G.max, S.log, m, rank);
        LeadSteady(G, S, m', S.log);
      case Suspicion =>
        var log' := SuspectBase(G.max, S.log, m);
        LeadSteady(G, S, m', log');
      case Acknowledge =>
        AckBase(G.max, S.log, m);
        LeadSteady(G, S, m', S.log);
        LeadHalfway(G, S, m', act);
      case CommitChange =>
        CommitBase(G.max, S.log, m);
        LeadSteady(G, S, m', S.log);
      case BeginChange =>
        BeginsInLog(G, S);
        StartBase(G.max, S.log, m);
        LeadBegins(G, S, m');
    }
  }

  lemma BeginsInLog(G: Group, S: System)
    requires Base(G, S) && MemberShape(G.max, S.lead.m) && HasLeader(S.lead.m) && CanStart(G.max, S.lead.m)
    ensures S.lead.m.view.vid < |S.log| && S.lead.m.view.vid < OwnRow(S.lead.m).nCommitted
  {
    hide Window, Distinct, FollowersInv, WaitingInv, PublishedInv;
    LeadFacts(G, S);
  }

  lemma LeadJoinsBase(G: Group, S: System, id: nat)
    requires Base(G, S) && WellShaped(G, S) && Enabled(G, S, LeadJoins(id))
    ensures Base(G, Next(G, S, LeadJoins(id)))
  {
    hide Base, LeadBase, WithLead, ReceiveJoin, Synced, LeadKept;
    LeadFacts(G, S);
    LeadHalts(G, S);
    if ReceiveJoin(G.max, S.lead.m, id).Going? {
      JoinBase(G.max, S.log, S.lead.m, id);
      LeadSteady(G, S, ReceiveJoin(G.max, S.lead.m, id).value, S.log + [id]);
    }
  }

  /** When the leader stops, nothing it has done is undone. */
  lemma LeadHalts(G: Group, S: System)
    requires Base(G, S)
    ensures Base(G, S.(running := false))
  {
    hide ProcInv, LeadBase, RowInv, Distinct, ViewShape;
    var S' := S.(running := false);
    forall put | put in S'.published ensures PutInv(G, S', put) {
      assert PutInv(G, S, put);
    }
  }
}
