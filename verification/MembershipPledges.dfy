/** What a commit rests on: every live member's acknowledgement, in all runs in which views agree. */
module MembershipPledges {
  import opened Collections
  import opened Messages
  import opened MembershipSpec
  import opened Membership
  import opened ChangeLog
  import opened LeaderSteps
  import opened ViewInstall
  import opened MembershipInv
  import opened FollowerSteps
  import opened MembershipSteps
  import opened MembershipKeeps
  import opened MembershipAccounts
  import opened MembershipRuns
  import opened MembershipLists
  import opened RingFits

  /** A member of the view that is not marked failed. */
  predicate Alive(v: View, id: nat)
    requires |v.members| == |v.failed|
  {
    id in v.members && !v.failed[RankOf(v.members, id)]
  }

  /** Alive in the leader's view, or in the view it is changing to, which may hide a mark. */
  predicate AliveSoon(m: Member, id: nat) {
    || (|m.view.members| == |m.view.failed| && Alive(m.view, id))
    || (m.next.Some? && |m.next.value.members| == |m.next.value.failed| && Alive(m.next.value, id))
  }

  /** The node is in every view from one number to another. */
  ghost predicate Stays(G: Group, c: nat -> nat, id: nat, from: nat, to: nat) {
    forall u :: from <= u <= to ==> id in ListBy(G.first, c, u)
  }

  /** A running member's acknowledgements cover what the leader has committed. */
  ghost predicate Covered(S: System, id: nat)
    requires id in S.followers && 0 <= S.lead.m.view.myRank < |S.lead.m.sst|
  {
    var m := S.followers[id].m;
    0 <= m.view.myRank < |m.sst| && OwnRow(S.lead.m).nCommitted <= OwnRow(m).nAcked
  }

  /** So will a joiner's, whichever row of the leader's it starts from. */
  ghost predicate WillCover(G: Group, S: System, id: nat)
    requires G.first != [] && id in S.waiting && 0 <= S.lead.m.view.myRank < |S.lead.m.sst|
  {
    forall put :: put in S.published && put.owner == LeadId(G) && put.vid == S.waiting[id].vid
      ==> OwnRow(S.lead.m).nCommitted <= put.row.nAcked
  }

  ghost predicate Pledged(G: Group, c: nat -> nat, S: System) {
    && G.first != [] && 0 <= S.lead.m.view.myRank < |S.lead.m.sst|
    && (forall id ::
          (id in S.followers && AliveSoon(S.lead.m, id) && Stays(G, c, id, S.followers[id].m.view.vid, S.lead.m.view.vid))
            ==> Covered(S, id))
    && (forall id ::
          (id in S.waiting && AliveSoon(S.lead.m, id) && Stays(G, c, id, S.waiting[id].vid, S.lead.m.view.vid))
            ==> WillCover(G, S, id))
  }

  // ---------------------------------------------------------------- the leader's steps

  lemma AliveShrinks(v: View, v': View, id: nat)
    requires |v.members| == |v.failed| && MoreMarks(v, v') && Alive(v', id)
    ensures Alive(v, id)
  {
  }

  /** Whoever stays in the next view, alive, was alive before. */
  lemma AliveBefore(v: View, x: nat, id: nat)
    requires ViewsAgreeInSize(v) && Distinct(v.members) && id in v.members
    requires |NextView(v, x).members| == |NextView(v, x).failed| && Alive(NextView(v, x), id)
    ensures Alive(v, id)
  {
    hide NextView;
    NextVid(v, x);
    ChangedDistinct(v.members, x);
    MarkCarried(v, x, id);
  }

  /** While the commit point stands and no one comes to life, nothing more is owed. */
  lemma LeadKeepsPledge(G: Group, c: nat -> nat, S: System, S': System)
    requires Pledged(G, c, S) && S'.followers == S.followers && S'.waiting == S.waiting
    requires S'.lead.m.view.vid == S.lead.m.view.vid && 0 <= S'.lead.m.view.myRank < |S'.lead.m.sst|
    requires OwnRow(S'.lead.m).nCommitted == OwnRow(S.lead.m).nCommitted
    requires forall id :: AliveSoon(S'.lead.m, id) && id in ListBy(G.first, c, S.lead.m.view.vid) ==> AliveSoon(S.lead.m, id)
    requires forall put :: put in S'.published && put !in S.published ==> OwnRow(S.lead.m).nCommitted <= put.row.nAcked
    requires forall id :: id in S.followers ==> S.followers[id].m.view.vid <= S.lead.m.view.vid
    requires forall id :: id in S.waiting ==> S.waiting[id].vid <= S.lead.m.view.vid
    ensures Pledged(G, c, S')
  {
    hide AliveSoon, ListBy;
  }

  lemma Behind(G: Group, S: System)
    requires Base(G, S)
    ensures forall id :: id in S.followers ==> S.followers[id].m.view.vid <= S.lead.m.view.vid
    ensures forall id :: id in S.waiting ==> S.waiting[id].vid <= S.lead.m.view.vid
    ensures forall id :: id in S.waiting ==> id !in S.followers && id != LeadId(G)
  {
    hide ProcInv, LeadBase, ViewInv;
  }

  /** What the leader's triggers do to its marks, its next view and its commit point. */
  lemma LeadActed(G: Group, S: System, act: Act)
    requires Base(G, S) && WellShaped(G, S) && Enabled(G, S, LeadActs(act)) && Acted(G.max, S.lead.m, act).Going?
    requires !act.CommitChange?
    ensures var m' := Acted(G.max, S.lead.m, act).value;
            && MoreMarks(S.lead.m.view, m'.view) && 0 <= m'.view.myRank < |m'.sst|
            && OwnRow(m').nCommitted == OwnRow(S.lead.m).nCommitted <= OwnRow(m').nAcked
            && m'.next == (if act.BeginChange? then Some(NextView(S.lead.m.view, CurrentChange(G.max, S.lead.m))) else S.lead.m.next)
  {
    hide Base, LeadBase, Suspect, ReportFailure, Ack, Start, CanAck, CanCommit, Synced, NextView, CurrentChange, Acted, RankOf;
    LeadFacts(G, S);
    BaseOrder(G.max, S.log, S.lead.m);
    ActedLists(G.max, S.lead.m, act);
    var m, m' := S.lead.m, Acted(G.max, S.lead.m, act).value;
    ActedIs(G.max, m, act);
    match act
    case Report(rank) => ReportBase(G.max, S.log, m, rank); BaseOrder(G.max, S.log, m');
    case Suspicion => var log' := SuspectBase(G.max, S.log, m); BaseOrder(G.max, log', m');
    case Acknowledge => AckBase(G.max, S.log, m); BaseOrder(G.max, S.log, m');
    case BeginChange => BeginsInLog(G, S); StartBase(G.max, S.log, m); BaseOrder(G.max, S.log, m');
  }

  lemma ActedIs(max: nat, m: Member, act: Act)
    requires MemberShape(max, m) && (act.Report? ==> act.rank < |m.view.members|) && (act.Acknowledge? ==> HasLeader(m))
    ensures act.Report? ==> Acted(max, m, act) == ReportFailure(max, m, act.rank)
    ensures act.Suspicion? ==> Acted(max, m, act) == Suspect(max, m)
    ensures act.Acknowledge? ==> Acted(max, m, act) == Going(Ack(max, m))
    ensures act.BeginChange? ==> Acted(max, m, act) == Start(max, m)
  {
    hide Suspect, ReportFailure, Ack, Start;
  }

  lemma BaseOrder(max: nat, log: seq<nat>, m: Member)
    requires LeadBase(max, log, m)
    ensures 0 <= m.view.myRank < |m.sst| && OwnRow(m).nCommitted <= OwnRow(m).nAcked
  {
  }

  lemma SoonShrinks(G: Group, S: System, act: Act, id: nat)
    requires Base(G, S) && WellShaped(G, S) && Enabled(G, S, LeadActs(act)) && Acted(G.max, S.lead.m, act).Going?
    requires !act.CommitChange? && id in S.lead.m.view.members && AliveSoon(Acted(G.max, S.lead.m, act).value, id)
    ensures AliveSoon(S.lead.m, id)
  {
    hide Base, Acted, Alive, MoreMarks, NextView, CurrentChange, Synced, CanAck, CanCommit, CanStart;
    LeadFacts(G, S);
    LeadActed(G, S, act);
    var m, m' := S.lead.m, Acted(G.max, S.lead.m, act).value;
    if |m'.view.members| == |m'.view.failed| && Alive(m'.view, id) {
      AliveShrinks(m.view, m'.view, id);
    } else if act.BeginChange? {
      AliveBefore(m.view, CurrentChange(G.max, m), id);
    }
  }

  lemma LeadActsPledged(G: Group, c: nat -> nat, S: System, act: Act)
    requires Base(G, S) && WellShaped(G, S) && Enabled(G, S, LeadActs(act)) && Pledged(G, c, S)
    requires Follows(G, c, S.lead.m.view) && !act.CommitChange?
    ensures Pledged(G, c, Next(G, S, LeadActs(act)))
  {
    hide Base, Acted, AliveSoon, Extended, Pledged, MoreMarks, Synced, CanAck, CanCommit, CanStart;
    Behind(G, S);
    LeadFacts(G, S);
    var S' := Next(G, S, LeadActs(act));
    if Acted(G.max, S.lead.m, act).Going? {
      LeadActed(G, S, act);
      MarksSameView(S.lead.m.view, S'.lead.m.view);
      forall id | AliveSoon(S'.lead.m, id) && id in ListBy(G.first, c, S.lead.m.view.vid) ensures AliveSoon(S.lead.m, id) {
        SoonShrinks(G, S, act, id);
      }
    }
    PledgedSized(G, c, S);
    LeadKeepsPledge(G, c, S, S');
  }

  lemma MarksSameView(v: View, v': View)
    requires MoreMarks(v, v')
    ensures v'.vid == v.vid && v'.members == v.members
  {
  }

  lemma PledgedSized(G: Group, c: nat -> nat, S: System)
    requires Pledged(G, c, S)
    ensures 0 <= S.lead.m.view.myRank < |S.lead.m.sst|
  {
  }

  lemma AckedByAlive(G: Group, S: System, id: nat)
    requires Base(G, S) && Synced(S.lead) && id in S.followers && Alive(S.lead.m.view, id)
    ensures MemberShape(G.max, S.followers[id].m) && MemberShape(G.max, S.lead.m)
    ensures MinAcked(S.lead.m) <= OwnRow(S.followers[id].m).nAcked
  {
    hide WaitingInv, Window, Distinct, RowInv, NextInv, LeadBase;
    LeadFacts(G, S);
    FollowerFacts(G, S, id);
    var v, r := S.lead.m.view, RankOf(S.lead.m.view.members, id);
    var put := Put(id, v.vid, S.lead.m.sst[r]);
    assert put in S.published;
    assert PutInv(G, S, put);
  }

  /** A joiner that has not started has put no row in the leader's view. */
  lemma WaitingSilent(G: Group, S: System, id: nat)
    requires Base(G, S) && id in S.waiting
    ensures forall row :: Put(id, S.lead.m.view.vid, row) !in S.published
    ensures id != LeadId(G)
  {
    hide LeadBase, ProcInv, FollowersInv, RowInv, Distinct;
    forall row | Put(id, S.lead.m.view.vid, row) in S.published ensures false {
    }
  }

  lemma LiveHeard(G: Group, S: System, id: nat)
    requires Base(G, S) && Synced(S.lead) && G.first != [] && id != LeadId(G)
    requires |S.lead.m.view.members| == |S.lead.m.view.failed| && Alive(S.lead.m.view, id)
    ensures exists row :: Put(id, S.lead.m.view.vid, row) in S.published
  {
    hide FollowersInv, WaitingInv, PublishedInv, Window, RowInv, NextInv, LeadBase;
    LeadFacts(G, S);
    assert Put(id, S.lead.m.view.vid, S.lead.m.sst[RankOf(S.lead.m.view.members, id)]) in S.published;
  }

  /** Nobody alive can be still waiting to start once the leader has heard from all the living. */
  lemma WaitingUnheard(G: Group, S: System, id: nat)
    requires Base(G, S) && Synced(S.lead) && id in S.waiting && |S.lead.m.view.members| == |S.lead.m.view.failed|
    ensures !Alive(S.lead.m.view, id)
  {
    hide Base, Synced, Alive;
    LeadFacts(G, S);
    WaitingSilent(G, S, id);
    if Alive(S.lead.m.view, id) {
      LiveHeard(G, S, id);
    }
  }

  /** A commit rests on every live member's acknowledgement. */
  lemma CommitPledged(G: Group, c: nat -> nat, S: System)
    requires Base(G, S) && WellShaped(G, S) && Enabled(G, S, LeadActs(CommitChange))
    ensures Pledged(G, c, Next(G, S, LeadActs(CommitChange)))
  {
    hide Base, Alive, Extended, MinAcked, Synced, CanCommit, Stays, WillCover;
    LeadFacts(G, S);
    var m, S' := S.lead.m, Next(G, S, LeadActs(CommitChange));
    forall id | id in S.followers && Alive(m.view, id) ensures Covered(S', id) {
      FollowerFacts(G, S, id);
      AckedByAlive(G, S, id);
    }
    forall id | id in S.waiting ensures !Alive(m.view, id) {
      WaitingUnheard(G, S, id);
    }
  }

  lemma LeadInstallsPledged(G: Group, c: nat -> nat, S: System)
    requires Base(G, S) && WellShaped(G, S) && Enabled(G, S, LeadInstalls) && Pledged(G, c, S)
    ensures Pledged(G, c, Next(G, S, LeadInstalls))
  {
    hide Base, Alive, MetaWedged, ListBy, RankOf, Welcomed;
    LeadFacts(G, S);
    LeadInstalled(G, S);
    Behind(G, S);
    BaseOrder(G.max, S.log, S.lead.m);
    NoneAhead(G, S);
    var S' := Next(G, S, LeadInstalls);
    WelcomedWho(S, S'.lead.m.view);
    var past, now := S.lead.m.view.vid, S'.lead.m.view.vid;
    forall id | id in S'.followers && AliveSoon(S'.lead.m, id) && Stays(G, c, id, S'.followers[id].m.view.vid, now)
      ensures Covered(S', id)
    {
      StaysLess(G, c, id, S.followers[id].m.view.vid, past, now);
    }
    forall id | id in S'.waiting && AliveSoon(S'.lead.m, id) && Stays(G, c, id, S'.waiting[id].vid, now)
      ensures WillCover(G, S', id)
    {
      if S'.waiting[id] != S'.lead.m.view {
        StaysLess(G, c, id, S.waiting[id].vid, past, now);
        assert WillCover(G, S, id);
      }
    }
  }

  lemma StaysLess(G: Group, c: nat -> nat, id: nat, from: nat, to: nat, past: nat)
    requires Stays(G, c, id, from, past) && to <= past
    ensures Stays(G, c, id, from, to)
  {
    hide ListBy;
  }

  /** Nobody has put a row in a view the leader has not entered. */
  lemma NoneAhead(G: Group, S: System)
    requires Base(G, S)
    ensures forall put :: put in S.published ==> put.vid <= S.lead.m.view.vid
  {
    hide ProcInv, LeadBase, FollowersInv, WaitingInv, RowInv;
    forall put | put in S.published ensures put.vid <= S.lead.m.view.vid {
      assert PutInv(G, S, put);
    }
  }

  // ---------------------------------------------------------------- the others' steps

  /** A follower that acknowledges more, or whose view moves on while it stays a member. */
  lemma FollowerPledged(G: Group, c: nat -> nat, S: System, S': System, id: nat)
    requires Pledged(G, c, S) && id in S.followers && id in S'.followers && LeadId(G) != id
    requires S' == S.(followers := S.followers[id := S'.followers[id]], published := S'.published)
    requires 0 <= S.followers[id].m.view.myRank < |S.followers[id].m.sst|
    requires 0 <= S'.followers[id].m.view.myRank < |S'.followers[id].m.sst|
    requires OwnRow(S.followers[id].m).nAcked <= OwnRow(S'.followers[id].m).nAcked
    requires forall u :: S.followers[id].m.view.vid <= u < S'.followers[id].m.view.vid ==> id in ListBy(G.first, c, u)
    requires forall put :: put in S'.published && put !in S.published ==> put.owner == id
    ensures Pledged(G, c, S')
  {
    hide AliveSoon, ListBy;
  }

  lemma ActsPledged(G: Group, c: nat -> nat, S: System, id: nat, act: Act)
    requires Base(G, S) && WellShaped(G, S) && Enabled(G, S, Acts(id, act)) && Pledged(G, c, S)
    ensures Pledged(G, c, Next(G, S, Acts(id, act)))
  {
    hide Base, Pledged, ProcInv, Acted, ListBy, Synced, CanAck, CanCommit, CanStart;
    FollowerFacts(G, S, id);
    if Acted(G.max, S.followers[id].m, act).Going? {
      FollowerActs(G, S, id, act);
      FollowerPledged(G, c, S, Next(G, S, Acts(id, act)), id);
    } else {
      GonePledged(G, c, S, id);
    }
  }

  lemma GonePledged(G: Group, c: nat -> nat, S: System, id: nat)
    requires Pledged(G, c, S)
    ensures Pledged(G, c, S.(followers := S.followers - {id}))
  {
    hide AliveSoon, Stays;
    var S' := S.(followers := S.followers - {id});
    forall w | w in S'.waiting && AliveSoon(S'.lead.m, w) && Stays(G, c, w, S'.waiting[w].vid, S'.lead.m.view.vid)
      ensures WillCover(G, S', w)
    {
      assert WillCover(G, S, w);
    }
  }

  lemma HearsPledged(G: Group, c: nat -> nat, S: System, id: nat, put: Put)
    requires Base(G, S) && WellShaped(G, S) && Enabled(G, S, Hears(id, put)) && Pledged(G, c, S)
    ensures Pledged(G, c, Next(G, S, Hears(id, put)))
  {
    hide Base, Pledged, ProcInv, ListBy, RankOf;
    FollowerFacts(G, S, id);
    HeardOwn(G.max, S.followers[id], put);
    FollowerPledged(G, c, S, Next(G, S, Hears(id, put)), id);
  }

  lemma InstallsPledged(G: Group, c: nat -> nat, S: System, id: nat)
    requires Base(G, S) && WellShaped(G, S) && Enabled(G, S, Installs(id)) && Pledged(G, c, S)
    requires Follows(G, c, S.followers[id].m.view)
    ensures Pledged(G, c, Next(G, S, Installs(id)))
  {
    hide Base, Pledged, ProcInv, ListBy, MetaWedged, Distinct;
    FollowerFacts(G, S, id);
    InstalledVid(G, S, id);
    InstallKeepsProc(G, S.log, S.published, id, S.followers[id]);
    FollowerPledged(G, c, S, Next(G, S, Installs(id)), id);
  }

  lemma StartsPledged(G: Group, c: nat -> nat, S: System, id: nat, put: Put)
    requires Base(G, S) && WellShaped(G, S) && Enabled(G, S, JoinerStarts(id, put)) && Pledged(G, c, S)
    ensures Pledged(G, c, Next(G, S, JoinerStarts(id, put)))
  {
    hide Base, ProcInv, AliveSoon, StartedJoiner, Stays;
    Behind(G, S);
    JoinerProc(G, S, id, put);
    var S' := Next(G, S, JoinerStarts(id, put));
    forall w | w in S'.waiting && AliveSoon(S'.lead.m, w) && Stays(G, c, w, S'.waiting[w].vid, S'.lead.m.view.vid)
      ensures WillCover(G, S', w)
    {
      assert WillCover(G, S, w);
    }
    forall f | f in S'.followers && AliveSoon(S'.lead.m, f) && Stays(G, c, f, S'.followers[f].m.view.vid, S'.lead.m.view.vid)
      ensures Covered(S', f)
    {
      if f == id {
        assert WillCover(G, S, id);
      } else {
        assert Covered(S, f);
      }
    }
  }

  // ---------------------------------------------------------------- all steps, all runs

  lemma PledgedStep(G: Group, c: nat -> nat, S: System, step: Step)
    requires Base(G, S) && WellShaped(G, S) && Enabled(G, S, step) && Pledged(G, c, S) && AllFollow(G, c, S)
    ensures Pledged(G, c, Next(G, S, step))
  {
    hide Base, Pledged, WellShaped, Follows, MayAct, CanHear, CanInstall, Acted, Heard, AfterLeadInstall, StartedJoiner, WithFollower,
         Installed, Extended, AliveSoon;
    match step
    case LeadActs(act) =>
      if act.CommitChange? {
        CommitPledged(G, c, S);
      } else {
        LeadActsPledged(G, c, S, act);
      }
    case LeadJoins(id) => JoinPledged(G, c, S, id);
    case LeadHears(put) => LeadHearsPledged(G, c, S, put);
    case LeadInstalls => LeadInstallsPledged(G, c, S);
    case Acts(id, act) => ActsPledged(G, c, S, id, act);
    case Hears(id, put) => HearsPledged(G, c, S, id, put);
    case Installs(id) => InstallsPledged(G, c, S, id);
    case JoinerStarts(id, put) => StartsPledged(G, c, S, id, put);
    case Crash(id) => GonePledged(G, c, S, id);
  }

  lemma JoinPledged(G: Group, c: nat -> nat, S: System, id: nat)
    requires Base(G, S) && WellShaped(G, S) && Enabled(G, S, LeadJoins(id)) && Pledged(G, c, S)
    ensures Pledged(G, c, Next(G, S, LeadJoins(id)))
  {
    hide Base, Pledged, Extended, LeadBase, Synced, Alive, ListBy;
    LeadFacts(G, S);
    Behind(G, S);
    BaseOrder(G.max, S.log, S.lead.m);
    PledgedSized(G, c, S);
    LeadKeepsPledge(G, c, S, Next(G, S, LeadJoins(id)));
  }

  lemma LeadHearsPledged(G: Group, c: nat -> nat, S: System, put: Put)
    requires Base(G, S) && WellShaped(G, S) && Enabled(G, S, LeadHears(put)) && Pledged(G, c, S)
    ensures Pledged(G, c, Next(G, S, LeadHears(put)))
  {
    hide Base, Pledged, LeadBase, Alive, ListBy, RankOf;
    Behind(G, S);
    HeardOwn(G.max, S.lead, put);
    PledgedSized(G, c, S);
    LeadKeepsPledge(G, c, S, Next(G, S, LeadHears(put)));
  }

  lemma InitPledged(G: Group, c: nat -> nat, S: System)
    requires Init(G, S)
    ensures Pledged(G, c, S)
  {
    hide AliveSoon, ListBy;
  }

  lemma {:induction false} RunPledged(G: Group, c: nat -> nat, run: seq<System>, steps: seq<Step>, k: nat)
    requires IsRun(G, run, steps) && ChosenRun(G, c, run, steps) && k < |run|
    ensures Pledged(G, c, run[k])
    decreases k
  {
    hide Base, Init, WellShaped, Enabled, Next, Pledged, AllFollow, ChosenRun;
    if k == 0 {
      InitPledged(G, c, run[0]);
    } else {
      RunPledged(G, c, run, steps, k - 1);
      RunBase(G, run, steps, k - 1);
      ChosenFollows(G, c, run, steps, k - 1);
      PledgedStep(G, c, run[k - 1], steps[k - 1]);
    }
  }

  lemma ChosenIsAcked(G: Group, c: nat -> nat, run: seq<System>, steps: seq<Step>, a: nat, id: nat)
    requires IsRun(G, run, steps) && ChosenRun(G, c, run, steps) && a < |run|
    requires id in run[a].followers && |run[a].lead.m.view.members| == |run[a].lead.m.view.failed| && Alive(run[a].lead.m.view, id)
    requires Stays(G, c, id, run[a].followers[id].m.view.vid, run[a].lead.m.view.vid)
    ensures MemberShape(G.max, run[a].lead.m) && MemberShape(G.max, run[a].followers[id].m)
    ensures OwnRow(run[a].lead.m).nCommitted <= OwnRow(run[a].followers[id].m).nAcked
  {
    hide Base, IsRun, Alive, Stays, ChosenRun;
    RunBase(G, run, steps, a);
    LeadFacts(G, run[a]);
    FollowerFacts(G, run[a], id);
    RunPledged(G, c, run, steps, a);
    assert AliveSoon(run[a].lead.m, id) && Covered(run[a], id);
  }

  /** The leader's view number goes up one at a time. */
  lemma LeadVid(G: Group, S: System, step: Step)
    requires Base(G, S) && WellShaped(G, S) && Enabled(G, S, step)
    ensures S.lead.m.view.vid <= Next(G, S, step).lead.m.view.vid <= S.lead.m.view.vid + 1
  {
    hide Base, Acted, Extended, Synced, CanAck, CanCommit, CanStart, MetaWedged, RankOf, Welcomed, RingShape, StartedJoiner;
    match step
    case LeadActs(act) => ActedLists(G.max, S.lead.m, act);
    case LeadInstalls => LeadInstalled(G, S);
    case _ =>
  }

  /** So it has been in every view up to its own. */
  lemma {:induction false} LeadPassed(G: Group, run: seq<System>, steps: seq<Step>, a: nat, u: nat) returns (b: nat)
    requires IsRun(G, run, steps) && a < |run| && u <= run[a].lead.m.view.vid
    ensures b <= a && run[b].lead.m.view.vid == u
    decreases a
  {
    hide Base, WellShaped, Enabled, Next;
    b := a;
    if u < run[a].lead.m.view.vid {
      if a == 0 {
        assert false;
      } else {
        hide Init;
        RunBase(G, run, steps, a - 1);
        LeadVid(G, run[a - 1], steps[a - 1]);
        b := LeadPassed(G, run, steps, a - 1, u);
      }
    }
  }

  lemma LeadFollows(G: Group, c: nat -> nat, run: seq<System>, steps: seq<Step>, b: nat)
    requires IsRun(G, run, steps) && ChosenRun(G, c, run, steps) && b < |run|
    ensures run[b].lead.m.view.members == ListBy(G.first, c, run[b].lead.m.view.vid)
  {
    hide IsRun, ChosenRun, ListBy;
    ChosenFollows(G, c, run, steps, b);
  }

  /**
   What the leader has committed.  In every run in which views agree, late marks or not, the
   leader's commit point has been acknowledged by every running member that counts as live
   in its view and has been in all of the leader's views since its own.
   */
  lemma CommittedIsAcked(G: Group, run: seq<System>, steps: seq<Step>, a: nat, id: nat)
    requires IsRun(G, run, steps) && Agreeing(run) && a < |run|
    requires id in run[a].followers && |run[a].lead.m.view.members| == |run[a].lead.m.view.failed| && Alive(run[a].lead.m.view, id)
    requires forall b :: 0 <= b <= a && run[a].followers[id].m.view.vid <= run[b].lead.m.view.vid
               ==> id in run[b].lead.m.view.members
    ensures MemberShape(G.max, run[a].lead.m) && MemberShape(G.max, run[a].followers[id].m)
    ensures OwnRow(run[a].lead.m).nCommitted <= OwnRow(run[a].followers[id].m).nAcked
  {
    hide IsRun, Alive, ChosenRun, Held, Leaves, Agreeing, SameChanges, ListBy;
    AgreeingIffSameChanges(G, run, steps);
    var c: nat -> nat := (u: nat) => ChangeOf(G, run, steps, u);
    SameChangesChosen(G, run, steps, c);
    forall u: nat | run[a].followers[id].m.view.vid <= u <= run[a].lead.m.view.vid ensures id in ListBy(G.first, c, u) {
      var b := LeadPassed(G, run, steps, a, u);
      LeadFollows(G, c, run, steps, b);
    }
    ChosenIsAcked(G, c, run, steps, a, id);
  }

  // ---------------------------------------------------------------- runs without late marks

  /** Nobody about to join is running yet. */
  ghost predicate JoinersNew(S: System) {
    forall i :: S.lead.m.view.vid <= i < |S.log| && S.log[i] !in S.lead.m.view.members
      ==> S.log[i] !in S.followers && S.log[i] !in S.waiting
  }

  /** Whoever is running and in the leader's view has been in every view since its own. */
  ghost predicate NoReturns(G: Group, c: nat -> nat, S: System) {
    && (forall id :: id in S.followers && id in S.lead.m.view.members
          ==> Stays(G, c, id, S.followers[id].m.view.vid, S.lead.m.view.vid))
    && (forall id :: id in S.waiting && id in S.lead.m.view.members
          ==> Stays(G, c, id, S.waiting[id].vid, S.lead.m.view.vid))
  }

  /** With the accounts matched before and after, a trigger that serves the same joiner proposes no other. */
  lemma SameJoiners(G: Group, S: System, S': System)
    requires Settled(G, S) && Settled(G, S') && S.log <= S'.log && S'.followers == S.followers && S'.waiting == S.waiting
    requires S'.lead.m.view.vid == S.lead.m.view.vid && S'.lead.m.view.members == S.lead.m.view.members
    requires S'.lead.m.joining == S.lead.m.joining && JoinersNew(S) && S.lead.m.view.vid <= |S.log|
    ensures JoinersNew(S')
  {
    hide LeadBase, LeadNext, Majority, NoRepeat, RemovalsFailed, FailedListed;
  }

  lemma LeadActsJoiners(G: Group, c: nat -> nat, S: System, act: Act)
    requires Inv(G, S) && WellShaped(G, S) && Enabled(G, S, LeadActs(act)) && JoinersNew(S) && NoReturns(G, c, S)
    ensures JoinersNew(Next(G, S, LeadActs(act))) && NoReturns(G, c, Next(G, S, LeadActs(act)))
  {
    hide Inv, Settled, Acted, Extended, JoinersNew, Stays, Synced, CanAck, CanCommit, CanStart;
    InvFacts(G, S);
    LeadActsSettled(G, S, act);
    StepLog(G, S, LeadActs(act));
    ActedLists(G.max, S.lead.m, act);
    SameJoiners(G, S, Next(G, S, LeadActs(act)));
  }

  lemma LeadJoinsJoiners(G: Group, c: nat -> nat, S: System, id: nat)
    requires Inv(G, S) && WellShaped(G, S) && Enabled(G, S, LeadJoins(id)) && JoinersNew(S) && NoReturns(G, c, S)
    ensures JoinersNew(Next(G, S, LeadJoins(id))) && NoReturns(G, c, Next(G, S, LeadJoins(id)))
  {
    hide Base, LeadNext, LeadOk, Stays, Synced, Extended;
    InvFacts(G, S);
    if ReceiveJoin(G.max, S.lead.m, id).Going? {
      hide Settled;
      var m' := ReceiveJoin(G.max, S.lead.m, id).value;
      JoinedLog(G, S, id);
    }
  }

  lemma JoinedLog(G: Group, S: System, id: nat)
    requires Inv(G, S) && WellShaped(G, S) && Enabled(G, S, LeadJoins(id)) && ReceiveJoin(G.max, S.lead.m, id).Going?
    ensures Extended(G.max, S.log, OwnRow(ReceiveJoin(G.max, S.lead.m, id).value)) == S.log + [id]
  {
    hide Base, LeadNext, Matched, Majority, Window, Distinct, Synced, Extended;
    InvFacts(G, S);
    JoinKeeps(G.max, S.log, S.lead.m, id);
    BalancedLog(G.max, S.log, S.log + [id], ReceiveJoin(G.max, S.lead.m, id).value);
  }

  /** A node that joins with this view was not running, so nobody comes back while running. */
  lemma InstallJoiners(G: Group, c: nat -> nat, S: System)
    requires Inv(G, S) && WellShaped(G, S) && Enabled(G, S, LeadInstalls) && JoinersNew(S) && NoReturns(G, c, S)
    requires Follows(G, c, S.lead.m.next.value)
    ensures JoinersNew(Next(G, S, LeadInstalls)) && NoReturns(G, c, Next(G, S, LeadInstalls))
  {
    hide Base, LeadBase, RemovalsFailed, FailedListed, JoinerServed, OneJoin, Majority, MetaWedged, RankOf, ListBy, NextView,
         Changed, FreshTable;
    InvFacts(G, S);
    LeadFacts(G, S);
    var v, w, id := S.lead.m.view, S.lead.m.next.value, S.log[S.lead.m.view.vid];
    DistinctList(G, S);
    ChangedDistinct(v.members, id);
  }

  lemma DistinctList(G: Group, S: System)
    requires Base(G, S)
    ensures Distinct(S.lead.m.view.members)
  {
    hide FollowersInv, WaitingInv, PublishedInv, Window;
  }

  lemma JoinersStep(G: Group, c: nat -> nat, S: System, step: Step)
    requires Inv(G, S) && WellShaped(G, S) && Enabled(G, S, step) && JoinersNew(S) && NoReturns(G, c, S) && AllFollow(G, c, S)
    ensures JoinersNew(Next(G, S, step)) && NoReturns(G, c, Next(G, S, step))
  {
    hide Base, Settled, WellShaped, Follows, Acted, StartedJoiner, MayAct, ListBy;
    match step
    case LeadActs(act) => LeadActsJoiners(G, c, S, act);
    case LeadJoins(id) => LeadJoinsJoiners(G, c, S, id);
    case LeadInstalls => InstallJoiners(G, c, S);
    case _ => OthersJoiners(G, c, S, step);
  }

  lemma OthersJoiners(G: Group, c: nat -> nat, S: System, step: Step)
    requires Base(G, S) && WellShaped(G, S) && Enabled(G, S, step) && JoinersNew(S) && NoReturns(G, c, S)
    requires !step.LeadActs? && !step.LeadJoins? && !step.LeadInstalls?
    ensures JoinersNew(Next(G, S, step)) && NoReturns(G, c, Next(G, S, step))
  {
    hide Base, WellShaped, Enabled, Next, JoinersNew, NoReturns;
    match step
    case Acts(id, act) => ActsJoiners(G, c, S, id, act);
    case Installs(id) => InstallsJoiners(G, c, S, id);
    case _ => QuietJoiners(G, c, S, step);
  }

  lemma ActsJoiners(G: Group, c: nat -> nat, S: System, id: nat, act: Act)
    requires Base(G, S) && WellShaped(G, S) && Enabled(G, S, Acts(id, act)) && JoinersNew(S) && NoReturns(G, c, S)
    ensures JoinersNew(Next(G, S, Acts(id, act))) && NoReturns(G, c, Next(G, S, Acts(id, act)))
  {
    hide Base, Acted, Stays, Synced, CanAck, CanCommit, CanStart, RingShape, ProcInv;
    FollowerFacts(G, S, id);
    if Acted(G.max, S.followers[id].m, act).Going? {
      FollowerActs(G, S, id, act);
    }
  }

  lemma InstallsJoiners(G: Group, c: nat -> nat, S: System, id: nat)
    requires Base(G, S) && WellShaped(G, S) && Enabled(G, S, Installs(id)) && JoinersNew(S) && NoReturns(G, c, S)
    ensures JoinersNew(Next(G, S, Installs(id))) && NoReturns(G, c, Next(G, S, Installs(id)))
  {
    hide Base, ListBy, MetaWedged, RingShape, Installed;
    InstalledVid(G, S, id);
  }

  lemma QuietJoiners(G: Group, c: nat -> nat, S: System, step: Step)
    requires WellShaped(G, S) && Enabled(G, S, step) && JoinersNew(S) && NoReturns(G, c, S)
    requires step.LeadHears? || step.Hears? || step.JoinerStarts? || step.Crash?
    ensures JoinersNew(Next(G, S, step)) && NoReturns(G, c, Next(G, S, step))
  {
    hide Stays, RankOf, RingShape, FreshTable, InitFromExisting;
  }

  lemma {:induction false} RunJoiners(G: Group, c: nat -> nat, run: seq<System>, steps: seq<Step>, k: nat)
    requires IsRun(G, run, steps) && CleanRun(run, steps) && ChosenRun(G, c, run, steps) && k < |run|
    ensures JoinersNew(run[k]) && NoReturns(G, c, run[k])
    decreases k
  {
    hide Inv, WellShaped, Enabled, Next, AllFollow, ChosenRun, CleanStep, RankOf;
    if k == 0 {
      assert G.first == [G.first[0]] + G.first[1..];
    } else {
      hide Init, JoinersNew, NoReturns;
      RunJoiners(G, c, run, steps, k - 1);
      RunInv(G, run, steps, k - 1);
      ChosenFollows(G, c, run, steps, k - 1);
      JoinersStep(G, c, run[k - 1], steps[k - 1]);
    }
  }

  /** And in a run without late marks, by every live member that is running. */
  lemma CleanCommittedIsAcked(G: Group, run: seq<System>, steps: seq<Step>, a: nat, id: nat)
    requires IsRun(G, run, steps) && CleanRun(run, steps) && a < |run|
    requires id in run[a].followers && |run[a].lead.m.view.members| == |run[a].lead.m.view.failed| && Alive(run[a].lead.m.view, id)
    ensures MemberShape(G.max, run[a].lead.m) && MemberShape(G.max, run[a].followers[id].m)
    ensures OwnRow(run[a].lead.m).nCommitted <= OwnRow(run[a].followers[id].m).nAcked
  {
    hide IsRun, Stays, CleanRun, ChosenRun, SoundRun, RoomyRun, LogChoice, JoinersNew;
    RunSize(G, run, steps);
    var c := LogChoice(run[|steps|].log);
    CleanIsRoomy(G, run, steps);
    RoomyIsSound(G, run, steps);
    SoundIffChosen(G, run, steps);
    RunJoiners(G, c, run, steps, a);
    ChosenIsAcked(G, c, run, steps, a, id);
  }
}
