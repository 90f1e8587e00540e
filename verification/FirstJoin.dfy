/** The smallest life of a group: its founder takes in a first joiner, and both are in view 1. */
module FirstJoin {
  import opened Messages
  import opened MembershipSpec
  import opened Membership
  import opened ChangeLog
  import opened ViewInstall
  import opened MembershipInv
  import opened MembershipAccounts
  import opened MembershipRuns

  const SOLO := Group(2, [7])

  /** The founder's own row, with one proposal to add 8 acknowledged and committed as given. */
  function FounderRow(nChanges: int, nAcked: int, nCommitted: int, wedged: bool): GmsRow {
    GmsRow([false, false], if nChanges == 0 then [0, 0] else [8, 0], nChanges, nCommitted, nAcked, wedged, false)
  }

  const ALONE := View(0, [7], [false], 0, 0)
  const PAIR := View(1, [7, 8], [false, false], 0, 0)

  function Founder(row: GmsRow, next: Option<View>, joining: Option<nat>): Member {
    Member(ALONE, [row], next, joining, [false, false])
  }

  function Stage(log: seq<nat>, m: Member, published: set<Put>): System {
    System(log, Proc(m, {0}), true, map[], map[], published)
  }

  function Zero(): System {
    Stage([], Founder(FounderRow(0, 0, 0, false), None, None), {})
  }

  lemma BlankIs()
    ensures BlankRow(2) == FounderRow(0, 0, 0, false)
  {
    assert seq(2, i => false) == [false, false] && seq(2, i => 0) == [0, 0];
  }

  lemma ZeroStarts()
    ensures Init(SOLO, Zero()) && WellShaped(SOLO, Zero())
  {
    BlankIs();
    assert seq(1, i => false) == [false] && seq(1, i => BlankRow(2)) == [BlankRow(2)];
    assert [7][1..] == [];
  }

  ghost predicate Reachable(S: System) {
    exists run, steps :: IsRun(SOLO, run, steps) && CleanRun(run, steps) && run[|steps|] == S
  }

  lemma ReachNext(S: System, step: Step)
    requires Reachable(S) && WellShaped(SOLO, S) && Enabled(SOLO, S, step) && CleanStep(S, step)
    ensures Reachable(Next(SOLO, S, step)) && Inv(SOLO, Next(SOLO, S, step)) && WellShaped(SOLO, Next(SOLO, S, step))
  {
    hide Inv, Init, Enabled, Next, WellShaped, CleanStep;
    var run, steps :| IsRun(SOLO, run, steps) && CleanRun(run, steps) && run[|steps|] == S;
    RunInv(SOLO, run, steps, |steps|);
    StepInv(SOLO, S, step);
    InvFacts(SOLO, Next(SOLO, S, step));
    BaseInvShape(SOLO, Next(SOLO, S, step));
    var run', steps' := run + [Next(SOLO, S, step)], steps + [step];
    forall k | 0 <= k < |steps'| ensures CleanStep(run'[k], steps'[k]) {
      if k < |steps| {
        assert CleanStep(run[k], steps[k]);
      }
    }
    assert IsRun(SOLO, run', steps') && CleanRun(run', steps') && run'[|steps'|] == Next(SOLO, S, step);
  }

  // ---------------------------------------------------------------- the founder's five steps

  lemma Joins() returns (S: System)
    ensures Reachable(S) && WellShaped(SOLO, S)
    ensures S == Stage([8], Founder(FounderRow(1, 0, 0, true), None, Some(8)), S.published)
  {
    hide Reachable, Inv, Init;
    ZeroStarts();
    ZeroReachable();
    assert RankOfLeader([false]) == 0;
    ReachNext(Zero(), LeadJoins(8));
    S := Next(SOLO, Zero(), LeadJoins(8));
    assert [0, 0][0 := 8] == [8, 0];
    assert seq(1, i requires 0 <= i < 1 => [8, 0][(0 + i) % 2]) == [8];
  }

  lemma ZeroReachable()
    ensures Reachable(Zero())
  {
    hide Init, WellShaped;
    ZeroStarts();
    assert IsRun(SOLO, [Zero()], []) && CleanRun([Zero()], []) && [Zero()][0] == Zero();
  }

  lemma Acknowledges() returns (S: System)
    ensures Reachable(S) && WellShaped(SOLO, S)
    ensures S == Stage([8], Founder(FounderRow(1, 1, 0, true), None, Some(8)), S.published)
  {
    hide Reachable, Inv;
    var T := Joins();
    assert RankOfLeader([false]) == 0;
    ReachNext(T, LeadActs(Acknowledge));
    S := Next(SOLO, T, LeadActs(Acknowledge));
  }

  lemma Commits() returns (S: System)
    ensures Reachable(S) && WellShaped(SOLO, S)
    ensures S == Stage([8], Founder(FounderRow(1, 1, 1, true), None, Some(8)), S.published)
  {
    hide Reachable, Inv;
    var T := Acknowledges();
    assert RankOfLeader([false]) == 0;
    assert MinAcked(T.lead.m) == 1;
    ReachNext(T, LeadActs(CommitChange));
    S := Next(SOLO, T, LeadActs(CommitChange));
  }

  lemma PairNext()
    ensures NextView(ALONE, 8) == PAIR
  {
    assert RankOf([7], 8) == -1;
    assert [7] + [8] == [7, 8] && [false] + [false] == [false, false];
    assert RankOf([7, 8], 7) == 0;
  }

  lemma Begins() returns (S: System)
    ensures Reachable(S) && WellShaped(SOLO, S)
    ensures S == Stage([8], Founder(FounderRow(1, 1, 1, true), Some(PAIR), Some(8)), S.published)
  {
    hide Reachable, Inv, NextView;
    var T := Commits();
    PairNext();
    assert RankOfLeader([false]) == 0;
    ReachNext(T, LeadActs(BeginChange));
    S := Next(SOLO, T, LeadActs(BeginChange));
  }

  lemma Installs() returns (S: System)
    ensures Reachable(S) && WellShaped(SOLO, S)
    ensures S.lead.m.view == PAIR && S.waiting == map[8 := PAIR] && S.followers == map[]
    ensures Put(7, 1, FounderRow(1, 1, 1, false)) in S.published
  {
    hide Reachable, Inv, NextView, RankOf;
    var T := Begins();
    PairNext();
    ReachNext(T, LeadInstalls);
    S := Next(SOLO, T, LeadInstalls);
    assert InitFromExisting(2, FounderRow(1, 1, 1, true)) == FounderRow(1, 1, 1, false) by {
      assert seq(2, i => false) == [false, false];
    }
  }

  /** Founder and joiner end up in the same view, and the joiner starts with the founder's counters. */
  lemma FounderAndJoinerMeet()
    ensures exists S :: && Reachable(S) && Inv(SOLO, S) && S.lead.m.view.members == [7, 8]
                        && 8 in S.followers && S.followers[8].m.view.members == [7, 8]
                        && S.followers[8].m.view.vid == S.lead.m.view.vid == 1
  {
    hide Reachable, Inv;
    var T := Installs();
    var step := JoinerStarts(8, Put(7, 1, FounderRow(1, 1, 1, false)));
    ReachNext(T, step);
    assert 8 in Next(SOLO, T, step).followers;
  }
}
