/**
 The leader holds one joiner's connection at a time.  Without late marks every view that
 adds a node adds that joiner; a view that adds anyone else is never installed.
 */
module Standstill {
  import opened Collections
  import opened Messages
  import opened MembershipSpec
  import opened Membership
  import opened ChangeLog
  import opened LeaderSteps
  import opened ViewInstall
  import opened MembershipInv
  import opened FollowerSteps
  import opened MembershipSteps
  import opened MembershipKeeps
  import opened MembershipAccounts
  import opened MembershipRuns
  import opened MembershipLists
  import opened MembershipPledges

  // ---------------------------------------------------------------- a node nobody has brought

  /** The leader has fixed a view that adds a node whose connection it does not hold. */
  predicate Stranded(S: System) {
    !Served(S.lead.m)
  }

  lemma StrandedActs(G: Group, S: System, act: Act)
    requires Base(G, S) && WellShaped(G, S) && Enabled(G, S, LeadActs(act)) && Stranded(S)
    ensures var m, m' := S.lead.m, Next(G, S, LeadActs(act)).lead.m;
            m'.view.vid == m.view.vid && m'.view.members == m.view.members && m'.next == m.next && m'.joining == m.joining
  {
    hide Acted, Synced, NewlySuspected, Extended, RingShape, Base, RankOfLeader;
    LeadFacts(G, S);
    ActedLists(G.max, S.lead.m, act);
  }

  lemma StrandedStep(G: Group, S: System, step: Step)
    requires Base(G, S) && WellShaped(G, S) && Enabled(G, S, step) && Stranded(S)
    ensures var m, m' := S.lead.m, Next(G, S, step).lead.m;
            && m'.view.vid == m.view.vid && m'.view.members == m.view.members && m'.next == m.next
            && Stranded(Next(G, S, step))
  {
    hide Acted, MayAct, Synced, CanInstall, CanHear, StartedJoiner, Extended, RingShape, Base, Installed;
    match step
    case LeadActs(act) => StrandedActs(G, S, act);
    case LeadHears(put) => hide RankOf;
    case _ =>
  }

  /** A leader that has fixed such a view stays where it is, and nobody ever gets further. */
  lemma {:induction false} StrandedForGood(G: Group, run: seq<System>, steps: seq<Step>, a: nat, b: nat)
    requires IsRun(G, run, steps) && a <= b < |run| && Stranded(run[a])
    ensures Stranded(run[b]) && run[b].lead.m.view.vid == run[a].lead.m.view.vid && run[b].lead.m.next == run[a].lead.m.next
    ensures run[b].lead.m.view.members == run[a].lead.m.view.members
    ensures forall id :: id in run[b].followers ==> run[b].followers[id].m.view.vid <= run[a].lead.m.view.vid
    ensures forall id :: id in run[b].waiting ==> run[b].waiting[id].vid <= run[a].lead.m.view.vid
    decreases b
  {
    hide Init, WellShaped, Enabled, Next, Stranded, LeadBase, PublishedInv, ProcInv;
    RunBase(G, run, steps, b);
    if a < b {
      StrandedForGood(G, run, steps, a, b - 1);
      RunBase(G, run, steps, b - 1);
      StrandedStep(G, run[b - 1], steps[b - 1]);
    }
  }

  // ---------------------------------------------------------------- runs without late marks

  /** The joiner the leader serves is no member yet, and its joining is pending. */
  ghost predicate JoinerPending(S: System) {
    S.lead.m.joining.Some? ==>
      && S.lead.m.view.vid <= |S.log| && S.lead.m.joining.value !in S.lead.m.view.members
      && S.lead.m.joining.value in S.log[S.lead.m.view.vid..]
  }

  lemma PendingGrows(log: seq<nat>, log': seq<nat>, vid: nat, id: nat)
    requires vid <= |log| && log <= log' && id in log[vid..]
    ensures id in log'[vid..]
  {
    var i :| 0 <= i < |log| - vid && log[vid..][i] == id;
    assert log'[vid..][i] == id;
  }

  lemma PendingActs(G: Group, S: System, act: Act)
    requires Base(G, S) && WellShaped(G, S) && Enabled(G, S, LeadActs(act)) && JoinerPending(S)
    ensures JoinerPending(Next(G, S, LeadActs(act)))
  {
    hide Acted, Synced, NewlySuspected, Extended, RingShape, Base;
    LeadFacts(G, S);
    ActedLists(G.max, S.lead.m, act);
    if S.lead.m.joining.Some? {
      StepLog(G, S, LeadActs(act));
      PendingGrows(S.log, Next(G, S, LeadActs(act)).log, S.lead.m.view.vid, S.lead.m.joining.value);
    }
  }

  lemma PendingJoins(G: Group, S: System, id: nat)
    requires Inv(G, S) && WellShaped(G, S) && Enabled(G, S, LeadJoins(id)) && JoinerPending(S)
    ensures JoinerPending(Next(G, S, LeadJoins(id)))
  {
    hide Inv, Synced, Extended, RingShape, RankOfLeader;
    InvFacts(G, S);
    if ReceiveJoin(G.max, S.lead.m, id).Going? {
      JoinedLog(G, S, id);
      assert (S.log + [id])[S.lead.m.view.vid..] == S.log[S.lead.m.view.vid..] + [id];
    }
  }

  lemma InstallServes(G: Group, S: System)
    requires WellShaped(G, S) && Enabled(G, S, LeadInstalls) && IsLeader(S.lead.m.view)
    ensures var m, S' := S.lead.m, Next(G, S, LeadInstalls);
            && S'.log == S.log && m.next == Some(S'.lead.m.view)
            && S'.lead.m.joining == if |S'.lead.m.view.members| > |m.view.members| then None else m.joining
  {
    hide MetaWedged, RankOfLeader, FreshTable, Welcomed, RingShape, Served;
  }

  lemma PendingKept(log: seq<nat>, v: View, id: nat)
    requires ViewsAgreeInSize(v) && Distinct(v.members) && 0 <= v.vid < |log| && log[v.vid] in v.members
    requires id !in v.members && id in log[v.vid..]
    ensures id !in Changed(v.members, log[v.vid]) && id in log[v.vid + 1..]
  {
    hide Changed, Distinct;
    ChangedDistinct(v.members, log[v.vid]);
    assert log[v.vid..] == [log[v.vid]] + log[v.vid + 1..];
  }

  /** A view that removes a member leaves the joiner pending. */
  lemma PendingInstalls(G: Group, S: System)
    requires Inv(G, S) && WellShaped(G, S) && Enabled(G, S, LeadInstalls) && JoinerPending(S)
    ensures JoinerPending(Next(G, S, LeadInstalls))
  {
    hide Base, LeadOk, RankOf, NextView, Distinct, WellShaped, Next, MetaWedged, Served, Changed, RankOfLeader;
    InvFacts(G, S);
    LeadFacts(G, S);
    DistinctList(G, S);
    var v, x := S.lead.m.view, S.log[S.lead.m.view.vid];
    InstallServes(G, S);
    NextVid(v, x);
    NextShape(v, x);
    if S.lead.m.joining.Some? && x in v.members {
      PendingKept(S.log, v, S.lead.m.joining.value);
    }
  }

  lemma PendingStep(G: Group, S: System, step: Step)
    requires Inv(G, S) && WellShaped(G, S) && Enabled(G, S, step) && JoinerPending(S)
    ensures JoinerPending(Next(G, S, step))
  {
    hide Inv, Acted, MayAct, CanInstall, StartedJoiner, RankOf, Installed, ReceiveJoin;
    match step
    case LeadActs(act) =>
      InvFacts(G, S);
      PendingActs(G, S, act);
    case LeadJoins(id) => PendingJoins(G, S, id);
    case LeadInstalls => PendingInstalls(G, S);
    case _ =>
  }

  lemma {:induction false} CleanPending(G: Group, run: seq<System>, steps: seq<Step>, k: nat)
    requires IsRun(G, run, steps) && CleanRun(run, steps) && k < |run|
    ensures Inv(G, run[k]) && JoinerPending(run[k])
    decreases k
  {
    hide Inv, WellShaped, Enabled, Next, CleanStep;
    RunInv(G, run, steps, k);
    if k > 0 {
      CleanPending(G, run, steps, k - 1);
      PendingStep(G, run[k - 1], steps[k - 1]);
    }
  }

  /** Without late marks the view that a leader fixes adds nobody but the joiner it serves. */
  lemma NeverStranded(G: Group, run: seq<System>, steps: seq<Step>, k: nat)
    requires IsRun(G, run, steps) && CleanRun(run, steps) && k < |run|
    ensures !Stranded(run[k])
  {
    hide IsRun, CleanRun, Base, LeadBase, Majority, NoRepeat, RemovalsFailed, FailedListed, NextView;
    CleanPending(G, run, steps, k);
    var S := run[k];
    InvFacts(G, S);
    if S.lead.m.next.Some? && |S.lead.m.next.value.members| > |S.lead.m.view.members| {
      var v, id := S.lead.m.view, S.log[S.lead.m.view.vid];
      assert id !in v.members;
      var i :| 0 <= i < |S.log| - v.vid && S.log[v.vid..][i] == S.lead.m.joining.value;
      assert S.log[v.vid + i] == S.lead.m.joining.value;
    }
  }
}
