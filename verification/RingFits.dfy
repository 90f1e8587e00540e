/** When the leader's ring always has room for what it has not installed, and what follows. */
module RingFits {
  import opened Collections
  import opened Messages
  import opened MembershipSpec
  import opened Membership
  import opened ChangeLog
  import opened LeaderSteps
  import opened ViewInstall
  import opened MembershipInv
  import opened FollowerSteps
  import opened MembershipSteps
  import opened MembershipKeeps
  import opened MembershipAccounts
  import opened MembershipRuns
  import opened MembershipLists

  // ---------------------------------------------------------------- nothing is written over

  /**
   The leader has made no proposal while `max` others were not yet installed: its next
   proposal would be written over the change its view still needs.  (The program compares
   with the commit point, not with the view.)
   */
  predicate Roomy(G: Group, S: System) {
    Fits(G.max, S.log, S.lead.m)
  }

  ghost predicate RoomyRun(G: Group, run: seq<System>) {
    forall k :: 0 <= k < |run| ==> Roomy(G, run[k])
  }

  /** Then no row holds a proposal too late for the view it was put in. */
  ghost predicate Bounded(G: Group, S: System) {
    && (forall put :: put in S.published ==> put.row.nChanges <= put.vid + G.max)
    && (forall id :: id in S.followers ==>
          var m := S.followers[id].m;
          0 <= m.view.myRank < |m.sst| && OwnRow(m).nChanges <= m.view.vid + G.max)
  }

  lemma LeadBounded(G: Group, S: System, step: Step)
    requires Base(G, S) && Bounded(G, S) && Roomy(G, S) && WellShaped(G, S) && Enabled(G, S, step)
    requires step.LeadActs? || step.LeadJoins? || step.LeadHears? || step.LeadInstalls?
    requires Base(G, Next(G, S, step)) && Roomy(G, Next(G, S, step))
    ensures Bounded(G, Next(G, S, step))
  {
    hide Base, Acted, ReceiveJoin, Extended, Synced, MetaWedged, RankOf, Welcomed, CanHear;
    LeadFacts(G, S);
    LeadFacts(G, Next(G, S, step));
  }

  /** What a follower's own step puts has the counters the step leaves it with. */
  lemma ActsPuts(G: Group, S: System, id: nat, act: Act, put: Put)
    requires WellShaped(G, S) && Enabled(G, S, Acts(id, act)) && put in Next(G, S, Acts(id, act)).published - S.published
    ensures id in S.followers && Acted(G.max, S.followers[id].m, act).Going?
    ensures var m' := Acted(G.max, S.followers[id].m, act).value;
            0 <= m'.view.myRank < |m'.sst| && put.vid == m'.view.vid && put.row.nChanges == OwnRow(m').nChanges
  {
    hide Acted, Synced, NewlySuspected, CanAck, CanCommit, CanStart, RankOfLeader, RingShape;
  }

  lemma ActsBounded(G: Group, S: System, id: nat, act: Act)
    requires Base(G, S) && Bounded(G, S) && WellShaped(G, S) && Enabled(G, S, Acts(id, act))
    ensures Bounded(G, Next(G, S, Acts(id, act)))
  {
    hide Base, WellShaped, Enabled, Next, Acted, NewlySuspected, CanAck, CanCommit, CanStart, RowInv, ViewInv, NextInv;
    ActsAlone(G, S, id, act);
    FollowerFacts(G, S, id);
    var p := S.followers[id];
    if Acted(G.max, p.m, act).Going? {
      FollowerActs(G, S, id, act);
      if act.Acknowledge? {
        assert Put(p.m.view.members[0], p.m.view.vid, p.m.sst[0]) in S.published;
      }
    }
    forall put | put in Next(G, S, Acts(id, act)).published ensures put.row.nChanges <= put.vid + G.max {
      if put !in S.published {
        ActsPuts(G, S, id, act, put);
      }
    }
  }

  lemma InstallsBounded(G: Group, S: System, id: nat)
    requires Base(G, S) && Bounded(G, S) && WellShaped(G, S) && Enabled(G, S, Installs(id))
    ensures Bounded(G, Next(G, S, Installs(id)))
  {
    hide Base, RankOf, MetaWedged, RingShape;
    InstalledVid(G, S, id);
  }

  lemma HearsBounded(G: Group, S: System, id: nat, put: Put)
    requires Bounded(G, S) && WellShaped(G, S) && Enabled(G, S, Hears(id, put))
    ensures Bounded(G, Next(G, S, Hears(id, put)))
  {
    hide RankOf, RingShape, Heard;
    HeardOwn(G.max, S.followers[id], put);
  }

  lemma OthersBounded(G: Group, S: System, step: Step)
    requires Bounded(G, S) && WellShaped(G, S) && Enabled(G, S, step) && (step.JoinerStarts? || step.Crash?)
    ensures Bounded(G, Next(G, S, step))
  {
    hide RankOf, RingShape;
  }

  lemma BoundedStep(G: Group, S: System, step: Step)
    requires Base(G, S) && Bounded(G, S) && Roomy(G, S) && WellShaped(G, S) && Enabled(G, S, step) && Roomy(G, Next(G, S, step))
    ensures Bounded(G, Next(G, S, step))
  {
    hide Base, Bounded, WellShaped, Enabled, Next, Roomy;
    match step
    case LeadActs(_) => BaseStep(G, S, step); LeadBounded(G, S, step);
    case LeadJoins(_) => BaseStep(G, S, step); LeadBounded(G, S, step);
    case LeadHears(_) => BaseStep(G, S, step); LeadBounded(G, S, step);
    case LeadInstalls => BaseStep(G, S, step); LeadBounded(G, S, step);
    case Acts(id, act) => ActsBounded(G, S, id, act);
    case Installs(id) => InstallsBounded(G, S, id);
    case Hears(id, put) => HearsBounded(G, S, id, put);
    case _ => OthersBounded(G, S, step);
  }

  lemma {:induction false} RunBounded(G: Group, run: seq<System>, steps: seq<Step>, k: nat)
    requires IsRun(G, run, steps) && RoomyRun(G, run) && k < |run|
    ensures Bounded(G, run[k])
    decreases k
  {
    hide Base, WellShaped, Enabled, Next, Roomy;
    if k > 0 {
      RunBounded(G, run, steps, k - 1);
      RunBase(G, run, steps, k - 1);
      assert Roomy(G, run[k - 1]) && Roomy(G, run[k]);
      hide Bounded, Init;
      BoundedStep(G, run[k - 1], steps[k - 1]);
    }
  }

  lemma BeginnerBounded(G: Group, S: System, step: Step)
    requires Base(G, S) && Bounded(G, S) && Roomy(G, S) && WellShaped(G, S) && Enabled(G, S, step) && Beginner(G, S, step).Some?
    ensures var m := Beginner(G, S, step).value; OwnRow(m).nChanges <= m.view.vid + G.max
  {
    hide Base, Synced, CanAck, CanStart, Start;
    LeadFacts(G, S);
  }

  /** While the ring has room nothing is written over, so everyone lists what the log says, and all agree. */
  lemma RoomyIsSound(G: Group, run: seq<System>, steps: seq<Step>)
    requires IsRun(G, run, steps) && RoomyRun(G, run)
    ensures SoundRun(G, run, steps)
  {
    hide Init, WellShaped, Enabled, Next, Base, Bounded, Beginner;
    forall k | 0 <= k < |steps| && Beginner(G, run[k], steps[k]).Some?
      ensures ReadsRight(G.max, run[k].log, Beginner(G, run[k], steps[k]).value)
    {
      RunBase(G, run, steps, k);
      RunBounded(G, run, steps, k);
      BeginnerBounded(G, run[k], steps[k]);
      BeginnerKnows(G, run[k], steps[k]);
      WindowBound(G.max, run[k].log, OwnRow(Beginner(G, run[k], steps[k]).value));
    }
  }

  /** A run without late marks never fills the ring, whatever the order of events. */
  lemma CleanIsRoomy(G: Group, run: seq<System>, steps: seq<Step>)
    requires IsRun(G, run, steps) && CleanRun(run, steps)
    ensures RoomyRun(G, run)
  {
    hide Init, WellShaped, Enabled, Next, CleanStep, Accounted, Majority;
    forall k | 0 <= k < |run| ensures Roomy(G, run[k]) {
      RingSafety(G, run, steps, k);
    }
  }

  // ---------------------------------------------------------------- small tables

  lemma {:induction false} NoneMarkedIs(f: seq<bool>)
    requires Count(f) == 0
    ensures forall r :: 0 <= r < |f| ==> !f[r]
    decreases |f|
  {
    if f != [] {
      NoneMarkedIs(f[..|f| - 1]);
    }
  }

  /** In a table of at most three a member to be removed is the only one marked, and while a node joins nobody is. */
  lemma SmallIsClean(max: nat, log: seq<nat>, m: Member)
    requires LeadOk(max, log, m) && LeadNext(log, m) && m.next.Some? && ViewShape(max, m.next.value) && max <= 3
    requires m.view.vid < |log|
    ensures NoLateMarks(m.view, m.next.value, log[m.view.vid])
  {
    hide Window, RankOf;
    var v, w, id := m.view, m.next.value, log[m.view.vid];
    NextShape(v, id);
    if id in v.members {
      CountWithout(v.failed, RankOf(v.members, id));
    } else {
      CountAppend(v.failed, [false]);
      CountOne(false);
    }
    hide Count;
    NoneMarkedIs(NextView(v, id).failed);
    assert w.failed == NextView(v, id).failed;
  }

  lemma SmallStepClean(G: Group, S: System, step: Step)
    requires Inv(G, S) && WellShaped(G, S) && Enabled(G, S, step) && G.max <= 3
    ensures CleanStep(S, step)
  {
    hide Inv, LeadOk, LeadNext, MetaWedged, NoLateMarks;
    InvFacts(G, S);
    if step.LeadInstalls? {
      SmallIsClean(G.max, S.log, S.lead.m);
    }
  }

  lemma {:induction false} SmallPrefixClean(G: Group, run: seq<System>, steps: seq<Step>, k: nat)
    requires IsRun(G, run, steps) && G.max <= 3 && k <= |steps|
    ensures forall j :: 0 <= j < k ==> CleanStep(run[j], steps[j])
    decreases k
  {
    hide Init, WellShaped, Enabled, Next, CleanStep, Inv;
    if k > 0 {
      SmallPrefixClean(G, run, steps, k - 1);
      RunInv(G, run, steps, k - 1);
      SmallStepClean(G, run[k - 1], steps[k - 1]);
    }
  }

  /**
   With room for three members or fewer, as in the program's own build, nothing can go
   wrong: every run is without late marks, never fills the ring, keeps the leader's accounts,
   and has all views agree.
   */
  lemma SmallTablesAgree(G: Group, run: seq<System>, steps: seq<Step>)
    requires IsRun(G, run, steps) && G.max <= 3
    ensures CleanRun(run, steps) && RoomyRun(G, run) && SoundRun(G, run, steps)
    ensures Agreeing(run) && Listed(G, run, run[|steps|].log)
    ensures forall k :: 0 <= k < |run| ==> Accounted(run[k]) && Majority(run[k].lead.m.view)
  {
    hide Init, WellShaped, Enabled, Next, CleanStep, SoundRun, Held, Roomy, MembersAt, Accounted, Majority;
    SmallPrefixClean(G, run, steps, |steps|);
    CleanIsRoomy(G, run, steps);
    RoomyIsSound(G, run, steps);
    SoundIffChosen(G, run, steps);
    ChosenAgree(G, LogChoice(run[|steps|].log), run, steps);
    ListedIffSound(G, run, steps);
    forall k | 0 <= k < |run| ensures Accounted(run[k]) && Majority(run[k].lead.m.view) {
      RingSafety(G, run, steps, k);
    }
  }

  // ---------------------------------------------------------------- what disagreement takes with it

  /** The leader and another member are changing from one view to the next, with different lists. */
  ghost predicate Parted(S: System) {
    exists id :: id in S.followers && PartedFrom(S.lead.m, S.followers[id].m)
  }

  predicate PartedFrom(m: Member, n: Member) {
    && m.view.vid == n.view.vid && m.next.Some? && n.next.Some?
    && m.next.value.vid == n.next.value.vid && m.next.value.members != n.next.value.members
  }

  lemma PartedDisagree(run: seq<System>, k: nat)
    requires k < |run| && Parted(run[k])
    ensures !Agreeing(run)
  {
    var id :| id in run[k].followers && PartedFrom(run[k].lead.m, run[k].followers[id].m);
    assert Held(run[k], run[k].lead.m.next.value) && Held(run[k], run[k].followers[id].m.next.value);
  }

  lemma NothingHolds(G: Group, run: seq<System>, steps: seq<Step>)
    requires IsRun(G, run, steps) && !Agreeing(run)
    ensures !SameChanges(G, run, steps) && !SoundRun(G, run, steps) && !RoomyRun(G, run) && !CleanRun(run, steps)
  {
    hide IsRun, RoomyRun, SoundRun, SameChanges, CleanRun, Agreeing, ChosenRun;
    RunSize(G, run, steps);
    AgreeingIffSameChanges(G, run, steps);
    SoundIffChosen(G, run, steps);
    if SoundRun(G, run, steps) {
      ChosenAgree(G, LogChoice(run[|steps|].log), run, steps);
    }
    if RoomyRun(G, run) {
      RoomyIsSound(G, run, steps);
    }
    if CleanRun(run, steps) {
      CleanIsRoomy(G, run, steps);
    }
  }
}
