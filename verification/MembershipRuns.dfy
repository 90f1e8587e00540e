/** Theorems about every run of the membership protocol: its rings, its log, and the leader's accounts. */
module MembershipRuns {
  import opened Collections
  import opened Messages
  import opened MembershipSpec
  import opened Membership
  import opened ChangeLog
  import opened LeaderSteps
  import opened ViewInstall
  import opened MembershipInv
  import opened FollowerSteps
  import opened MembershipSteps
  import opened MembershipKeeps
  import opened MembershipAccounts

  ghost predicate IsRun(G: Group, run: seq<System>, steps: seq<Step>) {
    && |run| == |steps| + 1
    && Init(G, run[0])
    && (forall k :: 0 <= k < |run| ==> WellShaped(G, run[k]))
    && forall k :: 0 <= k < |steps| ==> Enabled(G, run[k], steps[k]) && run[k + 1] == Next(G, run[k], steps[k])
  }

  /** In this run the leader never marks anyone failed between fixing a view and installing it. */
  ghost predicate CleanRun(run: seq<System>, steps: seq<Step>)
    requires |run| == |steps| + 1
  {
    forall k :: 0 <= k < |steps| ==> CleanStep(run[k], steps[k])
  }

  // ---------------------------------------------------------------- the start

  lemma {:induction false} CountNone(n: nat)
    ensures Count(seq(n, i => false)) == 0
  {
    if n > 0 {
      CountNone(n - 1);
      assert seq(n, i => false)[..n - 1] == seq(n - 1, i => false);
    }
  }

  lemma InitialProcInv(G: Group, published: set<Put>, rank: nat)
    requires 0 < |G.first| <= G.max && rank < |G.first| && Distinct(G.first)
    ensures ProcInv(G, [], published, G.first[rank], InitialProc(G, rank))
  {
    BlankUnsuspecting(G.max);
  }

  lemma InitialLead(G: Group)
    requires 0 < |G.first| <= G.max && Distinct(G.first)
    ensures LeadOk(G.max, [], InitialProc(G, 0).m)
  {
    CountNone(|G.first|);
  }

  lemma InitInv(G: Group, S: System)
    requires Init(G, S)
    ensures Inv(G, S)
  {
    hide ProcInv, RowInv, PutInv, Window, Count, BlankRow, Matched, Majority, Distinct, RankOf;
    InitialLead(G);
    InitialProcInv(G, S.published, 0);
    forall id | id in S.followers ensures id != LeadId(G) && ProcInv(G, S.log, S.published, id, S.followers[id]) {
      InitialFollower(G, S, id);
    }
    forall put | put in S.published ensures PutInv(G, S, put) {
      InitialPut(G, S, put);
    }
  }

  lemma InitialFollower(G: Group, S: System, id: nat)
    requires Init(G, S) && id in S.followers
    ensures id != LeadId(G) && ProcInv(G, S.log, S.published, id, S.followers[id])
  {
    hide ProcInv, BlankRow;
    assert G.first == [G.first[0]] + G.first[1..];
    var k :| 0 <= k < |G.first[1..]| && G.first[1..][k] == id;
    RankIs(G.first, k + 1);
    InitialProcInv(G, S.published, k + 1);
  }

  lemma InitialPut(G: Group, S: System, put: Put)
    requires Init(G, S) && put in S.published
    ensures PutInv(G, S, put)
  {
    BlankUnsuspecting(G.max);
  }

  // ---------------------------------------------------------------- every run

  lemma {:induction false} RunBase(G: Group, run: seq<System>, steps: seq<Step>, k: nat)
    requires IsRun(G, run, steps) && k < |run|
    ensures Base(G, run[k])
    decreases k
  {
    hide Base, Settled, Init, WellShaped, Enabled, Next;
    if k == 0 {
      InitInv(G, run[0]);
    } else {
      RunBase(G, run, steps, k - 1);
      BaseStep(G, run[k - 1], steps[k - 1]);
    }
  }

  lemma StepLog(G: Group, S: System, step: Step)
    requires WellShaped(G, S) && Enabled(G, S, step)
    ensures S.log <= Next(G, S, step).log
  {
    hide Suspect, ReportFailure, ReceiveJoin, Ack, Commit, Start, MayAct, CanHear, CanInstall, Install, StartedJoiner;
  }

  /** The leader's log only grows. */
  lemma {:induction false} RunLog(G: Group, run: seq<System>, steps: seq<Step>, a: nat, b: nat)
    requires IsRun(G, run, steps) && a <= b < |run|
    ensures run[a].log <= run[b].log
    decreases b
  {
    hide Init, WellShaped, Enabled, Next;
    if a < b {
      RunLog(G, run, steps, a, b - 1);
      StepLog(G, run[b - 1], steps[b - 1]);
    }
  }

  predicate Running(G: Group, S: System, id: nat)
    requires G.first != []
  {
    id == LeadId(G) || id in S.followers
  }

  function ProcOf(G: Group, S: System, id: nat): Proc
    requires G.first != [] && Running(G, S, id)
  {
    if id == LeadId(G) then S.lead else S.followers[id]
  }

  function MemberOf(G: Group, S: System, id: nat): Member
    requires G.first != [] && Running(G, S, id)
  {
    ProcOf(G, S, id).m
  }

  lemma RunningProc(G: Group, S: System, id: nat)
    requires Base(G, S) && G.first != [] && Running(G, S, id)
    ensures ProcInv(G, S.log, S.published, id, ProcOf(G, S, id)) && MemberShape(G.max, MemberOf(G, S, id))
    ensures ViewInv(G, id, MemberOf(G, S, id).view) && RowInv(G, S.log, OwnRow(MemberOf(G, S, id)))
    ensures MemberOf(G, S, id).view.vid <= S.lead.m.view.vid <= |S.log| && LeadId(G) !in S.log
  {
    hide WaitingInv, PublishedInv, Window, Distinct;
  }

  /**
   In every run, whatever is marked, lost or overwritten, every member's counters are in
   order, and its ring holds the leader's one log, up to the member's own count of proposals.
   */
  lemma EchoedPrefix(G: Group, run: seq<System>, steps: seq<Step>, a: nat, p: nat)
    requires IsRun(G, run, steps) && a < |run| && G.first != [] && Running(G, run[a], p)
    ensures MemberShape(G.max, MemberOf(G, run[a], p))
    ensures var r := OwnRow(MemberOf(G, run[a], p));
            && r.nCommitted <= r.nAcked <= r.nChanges <= |run[a].log|
            && forall k :: 0 <= k < r.nChanges <= k + G.max ==> r.changes[k % G.max] == run[a].log[k]
  {
    hide Base, IsRun, MemberOf, Running, ProcInv, Distinct;
    RunBase(G, run, steps, a);
    RunningProc(G, run[a], p);
  }

  /** What is in the leader's ring is its log to the end, and the leader is never proposed for removal. */
  lemma LeaderWritesLog(G: Group, run: seq<System>, steps: seq<Step>, a: nat)
    requires IsRun(G, run, steps) && a < |run|
    ensures MemberShape(G.max, run[a].lead.m) && OwnRow(run[a].lead.m).nChanges == |run[a].log|
    ensures run[a].lead.m.view.vid <= OwnRow(run[a].lead.m).nCommitted && G.first != [] && LeadId(G) !in run[a].log
    ensures forall k :: 0 <= k < |run[a].log| <= k + G.max ==> OwnRow(run[a].lead.m).changes[k % G.max] == run[a].log[k]
  {
    hide Base, IsRun, Distinct;
    RunBase(G, run, steps, a);
    LeadFacts(G, run[a]);
  }

  // ---------------------------------------------------------------- runs without late marks

  lemma {:induction false} RunInv(G: Group, run: seq<System>, steps: seq<Step>, k: nat)
    requires IsRun(G, run, steps) && k < |run|
    requires forall j :: 0 <= j < k ==> CleanStep(run[j], steps[j])
    ensures Inv(G, run[k])
    decreases k
  {
    hide Inv, Init, WellShaped, Enabled, Next, CleanStep;
    if k == 0 {
      InitInv(G, run[0]);
    } else {
      RunInv(G, run, steps, k - 1);
      assert CleanStep(run[k - 1], steps[k - 1]);
      StepInv(G, run[k - 1], steps[k - 1]);
    }
  }

  /** The leader's pending proposals match its marks one to one, apart from a joiner while one is served. */
  ghost predicate Accounted(S: System) {
    && S.lead.m.view.vid <= |S.log| && |S.lead.m.view.members| == |S.lead.m.view.failed|
    && Matched(S.log, S.lead.m.view, S.lead.m.joining.Some?)
  }

  lemma InvAccounted(G: Group, S: System)
    requires Inv(G, S)
    ensures Accounted(S) && Majority(S.lead.m.view)
  {
    hide Base, Matched, Majority, Window, Distinct;
    InvFacts(G, S);
  }

  /**
   The proposals match the marks all along a run if and only if the leader never marks
   anyone between fixing a view and installing it: the first view that hides a mark leaves
   a removal pending for a member that counts as live.
   */
  lemma AccountedIffClean(G: Group, run: seq<System>, steps: seq<Step>)
    requires IsRun(G, run, steps)
    ensures (forall k :: 0 <= k < |run| ==> Accounted(run[k])) <==> CleanRun(run, steps)
  {
    hide Init, WellShaped, Enabled, Next, CleanStep, Inv, Accounted;
    if CleanRun(run, steps) {
      forall k | 0 <= k < |run| ensures Accounted(run[k]) {
        RunInv(G, run, steps, k);
        InvAccounted(G, run[k]);
      }
    } else {
      var j := FirstUnclean(run, steps);
      RunInv(G, run, steps, j);
      UncleanUnaccounted(G, run[j], steps[j]);
      assert !Accounted(run[j + 1]);
    }
  }

  lemma UncleanUnaccounted(G: Group, S: System, step: Step)
    requires Inv(G, S) && WellShaped(G, S) && Enabled(G, S, step) && !CleanStep(S, step)
    ensures !Accounted(Next(G, S, step))
  {
    hide Inv, WellShaped, Matched, CanInstall, Welcomed;
    assert Next(G, S, step).log == S.log;
    hide Enabled, Next, CleanStep;
    UncleanBreaks(G, S, step);
  }

  lemma FirstUnclean(run: seq<System>, steps: seq<Step>) returns (j: nat)
    requires |run| == |steps| + 1 && !CleanRun(run, steps)
    ensures j < |steps| && !CleanStep(run[j], steps[j]) && forall i :: 0 <= i < j ==> CleanStep(run[i], steps[i])
  {
    hide CleanStep;
    j := 0;
    while j < |steps| && CleanStep(run[j], steps[j])
      invariant j <= |steps| && forall i :: 0 <= i < j ==> CleanStep(run[i], steps[i])
    {
      j := j + 1;
    }
  }

  /**
   Ring safety.  While the accounts hold, the proposals not yet installed never outnumber
   the members; the leader's ring has room for them all; its suspicion trigger never runs
   out of room; and the leader counts its failed members exactly, a minority.
   */
  lemma RingSafety(G: Group, run: seq<System>, steps: seq<Step>, a: nat)
    requires IsRun(G, run, steps) && CleanRun(run, steps) && a < |run|
    ensures var S := run[a];
            && MemberShape(G.max, S.lead.m) && Accounted(S) && Majority(S.lead.m.view)
            && |S.log| - S.lead.m.view.vid <= |S.lead.m.view.members| <= G.max
            && (forall k :: S.lead.m.view.vid <= k < |S.log| ==> OwnRow(S.lead.m).changes[k % G.max] == S.log[k])
            && Suspect(G.max, S.lead.m) != Halted(NoRoom)
  {
    hide Inv, Init, WellShaped, Enabled, Next, CleanStep, Window, Matched, Majority, Suspect, Distinct;
    RunInv(G, run, steps, a);
    InvFacts(G, run[a]);
    LeadFacts(G, run[a]);
    RingSafe(G.max, run[a].log, run[a].lead.m);
    var log' := SuspectKeeps(G.max, run[a].log, run[a].lead.m);
  }
}
