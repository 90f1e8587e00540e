/** The other steps keep what every run keeps, and so do all steps together. */
module MembershipKeeps {
  import opened Collections
  import opened Messages
  import opened MembershipSpec
  import opened Membership
  import opened ChangeLog
  import opened LeaderSteps
  import opened ViewInstall
  import opened MembershipInv
  import opened FollowerSteps
  import opened MembershipSteps

  // ---------------------------------------------------------------- hearing rows

  lemma PutRowInv(G: Group, S: System, put: Put)
    requires Base(G, S) && put in S.published
    ensures RowInv(G, S.log, put.row)
  {
    hide LeadBase, ProcInv, FollowersInv, WaitingInv, RowInv;
    assert PutInv(G, S, put);
  }

  lemma AllPutsRowInv(G: Group, S: System)
    requires Base(G, S)
    ensures forall put :: put in S.published ==> RowInv(G, S.log, put.row)
  {
    hide Base, RowInv;
    forall put | put in S.published ensures RowInv(G, S.log, put.row) {
      PutRowInv(G, S, put);
    }
  }

  /** A step that changes only the leader's copies of other rows. */
  lemma LeadHearsBase(G: Group, S: System, put: Put)
    requires Base(G, S) && WellShaped(G, S) && Enabled(G, S, LeadHears(put))
    ensures Base(G, Next(G, S, LeadHears(put)))
  {
    hide Window, Distinct, ProcInv, RowInv, PublishedInv, RankOf;
    PutRowInv(G, S, put);
    HearKeeps(G, S.log, S.published, LeadId(G), S.lead, put);
    HeardOwn(G.max, S.lead, put);
    ProcShape(G, S.log, S.published, LeadId(G), Heard(S.lead, put));
    PutsWithLead(G, S, S.(lead := Heard(S.lead, put)));
  }

  /** Nothing said of published rows depends on the leader's copies. */
  lemma PutsWithLead(G: Group, S: System, S': System)
    requires G.first != [] && PublishedInv(G, S) && S' == S.(lead := S'.lead) && S'.lead.m.view == S.lead.m.view
    ensures PublishedInv(G, S')
  {
    hide RowInv;
    forall put | put in S'.published ensures PutInv(G, S', put) {
      assert PutInv(G, S, put);
    }
  }

  // ---------------------------------------------------------------- a follower moves

  lemma PutsAfterFollower(G: Group, S: System, id: nat, p: Proc)
    requires Base(G, S) && id in S.followers && id != LeadId(G)
    requires ProcInv(G, S.log, S.published, id, p) && p.m.view.vid <= S.lead.m.view.vid
    requires S.followers[id].m.view.vid <= p.m.view.vid
    requires ViewShape(G.max, S.followers[id].m.view) && |S.followers[id].m.sst| == |S.followers[id].m.view.members|
    requires p.m.view.vid == S.followers[id].m.view.vid ==> OwnRow(S.followers[id].m).nAcked <= OwnRow(p.m).nAcked
    ensures PublishedInv(G, WithFollower(S, id, p))
  {
    hide LeadBase, RowInv, ViewInv, NextInv, FollowersInv, TableInv;
    var S' := WithFollower(S, id, p);
    forall put | put in S'.published ensures PutInv(G, S', put) {
      if put in S.published {
        assert PutInv(G, S, put);
      } else {
        assert put == Put(id, p.m.view.vid, OwnRow(p.m));
      }
    }
  }

  lemma WithFollowerBase(G: Group, S: System, id: nat, p: Proc)
    requires Base(G, S) && id in S.followers && id != LeadId(G)
    requires ProcInv(G, S.log, S.published, id, p) && p.m.view.vid <= S.lead.m.view.vid
    requires S.followers[id].m.view.vid <= p.m.view.vid
    requires MemberShape(G.max, S.followers[id].m)
    requires OwnRow(S.followers[id].m).nAcked <= OwnRow(p.m).nAcked
    ensures Base(G, WithFollower(S, id, p))
  {
    hide LeadBase, RowInv, ViewInv, NextInv, TableInv, PublishedInv, Distinct;
    var S' := WithFollower(S, id, p);
    PutsAfterFollower(G, S, id, p);
    ProcStable(G, S.log, S.log, S.published, S'.published, LeadId(G), S.lead);
    forall f | f in S'.followers
      ensures ProcInv(G, S.log, S'.published, f, S'.followers[f])
    {
      ProcStable(G, S.log, S.log, S.published, S'.published, f, S'.followers[f]);
    }
  }

  /** A member that stops leaves everything else as it is. */
  lemma WithoutFollowerBase(G: Group, S: System, id: nat)
    requires Base(G, S)
    ensures Base(G, S.(followers := S.followers - {id}))
  {
    hide LeadBase, RowInv, ViewInv, NextInv, TableInv, Distinct;
    var S' := S.(followers := S.followers - {id});
    forall put | put in S'.published ensures PutInv(G, S', put) {
      assert PutInv(G, S, put);
    }
  }

  lemma FollowerFacts(G: Group, S: System, id: nat)
    requires Base(G, S) && id in S.followers
    ensures ProcInv(G, S.log, S.published, id, S.followers[id]) && S.followers[id].m.view.vid <= S.lead.m.view.vid
    ensures MemberShape(G.max, S.followers[id].m)
    ensures G.first != [] && LeadId(G) !in S.log && id != LeadId(G) && ViewInv(G, id, S.followers[id].m.view)
    ensures S.followers[id].m.view.myRank != 0 && RankOfLeader(S.followers[id].m.view.failed) == 0
    ensures S.followers[id].m.view.members[0] == LeadId(G)
  {
    hide LeadBase, RowInv, NextInv, TableInv, Distinct, PublishedInv, WaitingInv;
    LeadNotLogged(G, S);
    HeadIsLead(G, id, S.followers[id].m.view);
  }

  /** A follower's own step leaves everyone else where they are. */
  lemma ActsAlone(G: Group, S: System, id: nat, act: Act)
    requires WellShaped(G, S) && Enabled(G, S, Acts(id, act))
    ensures id in S.followers && MemberShape(G.max, S.followers[id].m) && MayAct(G.max, S.followers[id], act)
    ensures var S' := Next(G, S, Acts(id, act));
            && S'.lead == S.lead && S'.log == S.log && S'.waiting == S.waiting && S.published <= S'.published
            && S'.followers == match Acted(G.max, S.followers[id].m, act)
                               case Going(m') => S.followers[id := Proc(m', S.followers[id].heard)]
                               case Halted(_) => S.followers - {id}
  {
    hide Acted, Synced, NewlySuspected, CanAck, CanCommit, CanStart, RankOfLeader, RingShape, Halfway;
  }

  lemma FollowerActs(G: Group, S: System, id: nat, act: Act)
    requires Base(G, S) && id in S.followers && MemberShape(G.max, S.followers[id].m) && MayAct(G.max, S.followers[id], act)
    requires Acted(G.max, S.followers[id].m, act).Going?
    ensures var m' := Acted(G.max, S.followers[id].m, act).value;
            ProcInv(G, S.log, S.published, id, Proc(m', S.followers[id].heard))
            && m'.view.vid == S.followers[id].m.view.vid
            && OwnRow(S.followers[id].m).nAcked <= OwnRow(m').nAcked
            && OwnRow(m').nChanges == (if act.Acknowledge? then S.followers[id].m.sst[0] else OwnRow(S.followers[id].m)).nChanges
  {
    hide Base, ProcInv, Synced, Suspect, ReportFailure, Ack, Start, CanAck, CanStart, MinAcked, RowInv;
    FollowerFacts(G, S, id);
    AllPutsRowInv(G, S);
    var p := S.followers[id];
    match act
    case Report(rank) => ReportKeeps(G, S.log, S.published, id, p, rank);
    case Suspicion => SuspicionKeeps(G, S.log, S.published, id, p);
    case Acknowledge => AckEchoes(G, S.log, S.published, id, p);
    case CommitChange => assert false;
    case BeginChange => BeginKeeps(G, S.log, S.published, id, p);
  }

  lemma ActsBase(G: Group, S: System, id: nat, act: Act)
    requires Base(G, S) && WellShaped(G, S) && Enabled(G, S, Acts(id, act))
    ensures Base(G, Next(G, S, Acts(id, act)))
  {
    hide Base, ProcInv, Acted, WithFollower, MemberShape, Synced, CanAck, CanCommit, CanStart;
    FollowerFacts(G, S, id);
    if Acted(G.max, S.followers[id].m, act).Going? {
      FollowerActs(G, S, id, act);
      var m' := Acted(G.max, S.followers[id].m, act).value;
      WithFollowerBase(G, S, id, Proc(m', S.followers[id].heard));
      FollowerHalfway(G, S, id, Proc(m', S.followers[id].heard), act);
    } else {
      WithoutFollowerBase(G, S, id);
    }
  }

  lemma FollowerHalfway(G: Group, S: System, id: nat, p: Proc, act: Act)
    requires id in S.followers && MemberShape(G.max, S.followers[id].m) && MemberShape(G.max, p.m)
    requires G.first != [] && Base(G, WithFollower(S, id, p))
    ensures Base(G, Halfway(WithFollower(S, id, p), id, S.followers[id].m, p.m, act))
  {
    hide Base, Halfway, RingShape;
    HalfwayBase(G, WithFollower(S, id, p), id, S.followers[id].m, p.m, act);
  }

  lemma HearsBase(G: Group, S: System, id: nat, put: Put)
    requires Base(G, S) && WellShaped(G, S) && Enabled(G, S, Hears(id, put))
    ensures Base(G, Next(G, S, Hears(id, put)))
  {
    hide Base, ProcInv, RowInv, RankOf, RingShape;
    FollowerFacts(G, S, id);
    PutRowInv(G, S, put);
    HearKeeps(G, S.log, S.published, id, S.followers[id], put);
    HeardOwn(G.max, S.followers[id], put);
    SwapBase(G, S, id, Heard(S.followers[id], put));
  }

  lemma HeardOwn(max: nat, p: Proc, put: Put)
    requires MemberShape(max, p.m) && CanHear(p, put)
    ensures Heard(p, put).m.view == p.m.view && |Heard(p, put).m.sst| == |p.m.sst| && OwnRow(Heard(p, put).m) == OwnRow(p.m)
  {
    hide RankOf;
  }

  /** A follower whose view and own row stay as they are may change its copies. */
  lemma SwapBase(G: Group, S: System, id: nat, p: Proc)
    requires Base(G, S) && id in S.followers && ProcInv(G, S.log, S.published, id, p) && MemberShape(G.max, S.followers[id].m)
    requires p.m.view == S.followers[id].m.view && |p.m.sst| == |S.followers[id].m.sst|
    requires OwnRow(p.m) == OwnRow(S.followers[id].m)
    ensures Base(G, S.(followers := S.followers[id := p]))
  {
    hide LeadBase, ProcInv, RowInv, Distinct, PublishedInv;
    PutsSameFollower(G, S, S.(followers := S.followers[id := p]), id);
  }

  /** Published rows speak only of a follower's view and its own row. */
  lemma PutsSameFollower(G: Group, S: System, S': System, id: nat)
    requires G.first != [] && PublishedInv(G, S) && id in S.followers && id in S'.followers
    requires S' == S.(followers := S.followers[id := S'.followers[id]])
    requires S'.followers[id].m.view == S.followers[id].m.view
    requires 0 <= S.followers[id].m.view.myRank < |S.followers[id].m.sst| == |S'.followers[id].m.sst|
    requires OwnRow(S'.followers[id].m) == OwnRow(S.followers[id].m)
    ensures PublishedInv(G, S')
  {
    hide RowInv;
    forall q | q in S'.published ensures PutInv(G, S', q) {
      assert PutInv(G, S, q);
    }
  }

  // ---------------------------------------------------------------- followers install, joiners start

  /** Rows left behind in an old table by someone who is moving on. */
  lemma FarewellBase(G: Group, S: System, id: nat)
    requires Base(G, S) && id in S.followers && MemberShape(G.max, S.followers[id].m)
    ensures Base(G, S.(published := S.published + {Farewell(id, S.followers[id].m)}))
  {
    hide LeadBase, ViewInv, NextInv, TableInv, Window;
    FarewellRow(G, S.log, OwnRow(S.followers[id].m));
    hide RowInv;
    assert PutInv(G, S, Farewell(id, S.followers[id].m));
    PutAlso(G, S, Farewell(id, S.followers[id].m));
  }

  lemma FarewellRow(G: Group, log: seq<nat>, r: GmsRow)
    requires RowInv(G, log, r)
    ensures RowInv(G, log, r.(globalMinReady := true))
  {
  }

  /** A follower that sees the leader's trim knows the leader has moved on. */
  lemma LeaderAhead(G: Group, S: System, id: nat)
    requires Base(G, S) && id in S.followers && MemberShape(G.max, S.followers[id].m)
    requires HasLeader(S.followers[id].m) && LeaderRow(S.followers[id].m).globalMinReady
    ensures S.followers[id].m.view.vid < S.lead.m.view.vid
  {
    hide LeadBase, Distinct, WaitingInv, Window, RowInv;
    FollowerFacts(G, S, id);
    var put := Put(LeadId(G), S.followers[id].m.view.vid, S.followers[id].m.sst[0]);
    assert put in S.published;
    assert PutInv(G, S, put);
  }

  lemma InstallsBase(G: Group, S: System, id: nat)
    requires Base(G, S) && WellShaped(G, S) && Enabled(G, S, Installs(id))
    ensures Base(G, Next(G, S, Installs(id)))
  {
    hide Base, ProcInv, Installed, WithFollower, MetaWedged;
    FollowerFacts(G, S, id);
    LeaderAhead(G, S, id);
    var S1 := S.(published := S.published + {Farewell(id, S.followers[id].m)});
    FarewellBase(G, S, id);
    InstalledVid(G, S, id);
    var p := Installed(G.max, S.followers[id].m);
    InstallKeepsProc(G, S.log, S.published, id, S.followers[id]);
    ProcStable(G, S.log, S.log, S.published, S1.published, id, p);
    WithFollowerBase(G, S1, id, p);
  }

  lemma InstalledVid(G: Group, S: System, id: nat)
    requires Base(G, S) && id in S.followers && MemberShape(G.max, S.followers[id].m) && CanInstall(G.max, S.followers[id].m)
    ensures Installed(G.max, S.followers[id].m).m.view.vid == S.followers[id].m.view.vid + 1
  {
    hide LeadInv, Distinct, WaitingInv, PublishedInv, RowInv, TableInv;
  }

  lemma JoinerStartsBase(G: Group, S: System, id: nat, put: Put)
    requires Base(G, S) && WellShaped(G, S) && Enabled(G, S, JoinerStarts(id, put))
    ensures Base(G, Next(G, S, JoinerStarts(id, put)))
  {
    hide LeadBase, Distinct, ProcInv, RowInv, PublishedInv, StartedJoiner;
    var p := StartedJoiner(G.max, id, S.waiting[id], put.row);
    var S' := Next(G, S, JoinerStarts(id, put));
    JoinerProc(G, S, id, put);
    ProcStable(G, S.log, S.log, S.published, S'.published, LeadId(G), S.lead);
    forall f | f in S'.followers ensures ProcInv(G, S.log, S'.published, f, S'.followers[f]) {
      ProcStable(G, S.log, S.log, S.published, S'.published, f, S'.followers[f]);
    }
  }

  lemma JoinerProc(G: Group, S: System, id: nat, put: Put)
    requires Base(G, S) && WellShaped(G, S) && Enabled(G, S, JoinerStarts(id, put))
    ensures var p := StartedJoiner(G.max, id, S.waiting[id], put.row);
            && ProcInv(G, S.log, S.published, id, p) && MemberShape(G.max, p.m)
            && p.m.view.vid == S.waiting[id].vid && OwnRow(p.m).nAcked == put.row.nAcked && id != LeadId(G)
            && id !in S.followers && id in S.waiting
            && PublishedInv(G, WithFollower(Introduced(G, S, id), id, p))
  {
    hide LeadBase, Distinct, ProcInv, RowInv, PublishedInv, StartedJoiner, FollowersInv;
    LeadNotLogged(G, S);
    PutRowInv(G, S, put);
    var p := StartedJoiner(G.max, id, S.waiting[id], put.row);
    JoinerStartKeeps(G, S.log, S.published, id, S.waiting[id], put);
    ProcShape(G, S.log, S.published, id, p);
    PutsAfterJoiner(G, S, WithFollower(Introduced(G, S, id), id, p), id, p);
  }

  lemma ProcShape(G: Group, log: seq<nat>, published: set<Put>, id: nat, p: Proc)
    requires ProcInv(G, log, published, id, p)
    ensures MemberShape(G.max, p.m)
  {
  }

  lemma PutsAfterJoiner(G: Group, S: System, S': System, id: nat, p: Proc)
    requires Base(G, S) && id in S.waiting && id !in S.followers && id != LeadId(G)
    requires ProcInv(G, S.log, S.published, id, p) && p.m.view.vid == S.waiting[id].vid
    requires S' == WithFollower(Introduced(G, S, id), id, p)
    ensures PublishedInv(G, S')
  {
    hide LeadBase, RowInv, ViewInv, NextInv, TableInv, FollowersInv;
    AckedNat(G, S.log, OwnRow(p.m));
    forall put | put in S'.published ensures PutInv(G, S', put) {
      if put in S.published {
        assert PutInv(G, S, put);
      } else {
        BlankRowInv(G, S.log);
        assert put == Put(id, p.m.view.vid, OwnRow(p.m)) || put == Put(id, p.m.view.vid, BlankRow(G.max));
      }
    }
  }

  lemma AckedNat(G: Group, log: seq<nat>, r: GmsRow)
    requires RowInv(G, log, r)
    ensures 0 <= r.nAcked && G.max > 0
  {
  }

  lemma BlankRowInv(G: Group, log: seq<nat>)
    requires G.max > 0
    ensures RowInv(G, log, BlankRow(G.max)) && BlankRow(G.max).nAcked == 0 && !BlankRow(G.max).globalMinReady
  {
  }

  // ---------------------------------------------------------------- the leader installs

  lemma LeadInstalled(G: Group, S: System)
    requires Base(G, S) && CanInstall(G.max, S.lead.m) && MemberShape(G.max, S.lead.m)
    ensures var p := Installed(G.max, S.lead.m);
            && ProcInv(G, S.log, S.published, LeadId(G), p) && MemberShape(G.max, p.m)
            && p.m.view == S.lead.m.next.value && p.m.next.None?
            && OwnRow(p.m) == InitFromExisting(G.max, OwnRow(S.lead.m))
            && p.m.view.vid == S.lead.m.view.vid + 1
            && LeadBase(G.max, S.log, p.m)
  {
    hide FollowersInv, WaitingInv, PublishedInv, Window, Distinct, MetaWedged, RankOf;
    LeadNotLogged(G, S);
    InstallKeepsProc(G, S.log, S.published, LeadId(G), S.lead);
    var p := Installed(G.max, S.lead.m);
    HeadIsLead(G, LeadId(G), p.m.view);
    SameWindow(G.max, S.log, OwnRow(S.lead.m), OwnRow(p.m));
  }

  lemma PutsAfterLeadInstall(G: Group, S: System, S': System, own: GmsRow)
    requires Base(G, S) && MemberShape(G.max, S.lead.m) && S'.lead.m.view.vid == S.lead.m.view.vid + 1
    requires S'.log == S.log && S'.followers == S.followers
    requires forall id :: id in S'.waiting ==>
      (id in S.waiting && S'.waiting[id] == S.waiting[id]) || S'.waiting[id].vid == S'.lead.m.view.vid
    requires LeadId(G) !in S'.waiting
    requires RowInv(G, S.log, own) && !own.globalMinReady
    requires S'.published == S.published + {Farewell(LeadId(G), S.lead.m), Put(LeadId(G), S'.lead.m.view.vid, own)}
    ensures PublishedInv(G, S')
  {
    hide LeadBase, ViewInv, NextInv, TableInv, Window, WaitingInv;
    LeadFacts(G, S);
    FarewellRow(G, S.log, OwnRow(S.lead.m));
    hide RowInv;
    forall put | put in S'.published ensures PutInv(G, S', put) {
      if put in S.published {
        assert PutInv(G, S, put);
      }
    }
  }

  lemma WelcomedInv(G: Group, S: System, S': System)
    requires Base(G, S) && S'.log == S.log && S'.followers == S.followers
    requires S'.lead.m.view.vid == S.lead.m.view.vid + 1
    requires ViewInv(G, LeadId(G), S'.lead.m.view) && S'.waiting == Welcomed(S, S'.lead.m.view)
    requires |S.lead.m.view.members| > 0
    ensures WaitingInv(G, S') && LeadId(G) !in S'.waiting
  {
    hide LeadBase, RowInv, ProcInv, PublishedInv, FollowersInv;
  }

  lemma LeadInstallsBase(G: Group, S: System)
    requires Base(G, S) && WellShaped(G, S) && Enabled(G, S, LeadInstalls)
    ensures Base(G, AfterLeadInstall(G, S))
  {
    hide LeadBase, RowInv, NextInv, TableInv, PublishedInv, WaitingInv, Installed, MetaWedged, RankOf, Distinct, Welcomed;
    var S' := AfterLeadInstall(G, S);
    LeadInstalled(G, S);
    LeadNotLogged(G, S);
    HeadIsLead(G, LeadId(G), S'.lead.m.view);
    WelcomedInv(G, S, S');
    WelcomedWho(S, S'.lead.m.view);
    PutsAfterLeadInstall(G, S, S', OwnRow(S'.lead.m));
    ProcStable(G, S.log, S.log, S.published, S'.published, LeadId(G), S'.lead);
    forall f | f in S'.followers ensures ProcInv(G, S.log, S'.published, f, S'.followers[f]) {
      ProcStable(G, S.log, S.log, S.published, S'.published, f, S'.followers[f]);
    }
  }

  lemma WelcomedWho(S: System, v: View)
    requires v.members != []
    ensures forall id :: id in Welcomed(S, v) ==> (id in S.waiting && Welcomed(S, v)[id] == S.waiting[id]) || Welcomed(S, v)[id] == v
  {
  }

  // ---------------------------------------------------------------- all steps

  /** Every step keeps it, whatever the order of events. */
  lemma BaseStep(G: Group, S: System, step: Step)
    requires Base(G, S) && WellShaped(G, S) && Enabled(G, S, step)
    ensures Base(G, Next(G, S, step))
  {
    hide Base, WellShaped, Synced, MayAct, CanHear, CanInstall, Acted, Heard, AfterLeadInstall, StartedJoiner, WithLead,
         WithFollower, Installed;
    match step
    case LeadActs(act) => LeadActsBase(G, S, act);
    case LeadJoins(id) => LeadJoinsBase(G, S, id);
    case LeadHears(put) => LeadHearsBase(G, S, put);
    case LeadInstalls => LeadInstallsBase(G, S);
    case Acts(id, act) => ActsBase(G, S, id, act);
    case Hears(id, put) => HearsBase(G, S, id, put);
    case Installs(id) => InstallsBase(G, S, id);
    case JoinerStarts(id, put) => JoinerStartsBase(G, S, id, put);
    case Crash(id) => WithoutFollowerBase(G, S, id);
  }
}
