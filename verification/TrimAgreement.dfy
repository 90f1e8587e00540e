/** If leaders take over the trims they know of, all finished trims are the same, so survivors differ only in what they had received. */
module TrimAgreement {
  import opened Collections
  import opened Numbering
  import opened SharedTable
  import opened Messages
  import opened GroupSpec
  import opened Multicast
  import opened MulticastInv
  import opened MulticastRuns
  import opened Delivery

  /** Row i has, at its a-th put, a finished trim. */
  predicate Finished(t: Table, i: int, a: int) {
    0 <= i < |t.hist| && 0 <= a < |t.hist[i]| && t.hist[i][a].globalMinReady
  }

  /** All finished trims in any row, old or new, are the same. */
  ghost predicate OneTrim(t: Table) {
    forall i, a, i', a' :: Finished(t, i, a) && Finished(t, i', a') ==> t.hist[i][a].globalMin == t.hist[i'][a'].globalMin
  }

  /** If a trim has been finished anywhere, member j sees a finished one. */
  ghost predicate Informed(n: nat, t: Table, j: nat)
    requires Shape(n, t) && j < n
  {
    (exists i, a :: Finished(t, i, a)) ==> exists k :: 0 <= k < n && View(n, t, j, k).globalMinReady
  }

  lemma SeenFinished(n: nat, t: Table, j: nat, k: nat) returns (a: nat)
    requires Shape(n, t) && j < n && k < n && View(n, t, j, k).globalMinReady
    ensures Finished(t, k, a) && t.hist[k][a] == View(n, t, j, k)
  {
    a := if j == k then |t.hist[k]| - 1 else t.pos[j][k];
  }

  /** A row with a finished trim has taken it from a row in sight, or is the first. */
  lemma TrimTaken(n: nat, t: Table, j: nat, change: RowChange) returns (i: int, a: int)
    requires Shape(n, t) && j < n && Allowed(n, SstOf(n, t, j), j, change)
    requires NewRow(n, SstOf(n, t, j), j, change).globalMinReady && (change.Trim? ==> Informed(n, t, j))
    ensures (exists i', a' :: Finished(t, i', a')) ==>
              Finished(t, i, a) && t.hist[i][a].globalMin == NewRow(n, SstOf(n, t, j), j, change).globalMin
  {
    hide PrefixEnd, RowShape, View;
    i, a := 0, 0;
    if exists i', a' :: Finished(t, i', a') {
      var k := match change
        case Trim => FirstReady(SstOf(n, t, j), 0)
        case Echo(l) => l
        case _ => j;
      i := k;
      a := SeenFinished(n, t, j, k);
    }
  }

  lemma OwnKeepsOneTrim(n: nat, t: Table, j: nat, change: RowChange)
    requires Shape(n, t) && OneTrim(t) && j < n && Allowed(n, SstOf(n, t, j), j, change) && (change.Trim? ==> Informed(n, t, j))
    ensures OneTrim(Apply(n, t, Own(j, change)))
  {
    hide RowShape, NewRow, Allowed, Informed;
    var r, t' := NewRow(n, SstOf(n, t, j), j, change), Apply(n, t, Own(j, change));
    if r.globalMinReady {
      var i, a := TrimTaken(n, t, j, change);
    }
    forall i, a | Finished(t', i, a) ensures (Finished(t, i, a) && t'.hist[i][a] == t.hist[i][a]) || t'.hist[i][a] == r {
    }
  }

  lemma SightFinishesNone(n: nat, t: Table, step: TableStep)
    requires Shape(n, t) && Enabled(n, t, step) && !step.Own?
    ensures var t' := Apply(n, t, step);
            forall i, a :: Finished(t', i, a) ==> Finished(t, i, a) && t'.hist[i][a] == t.hist[i][a]
  {
  }

  lemma StepKeepsOneTrim(c: Config, S: System, step: Step)
    requires Inv(c, S) && WellShaped(c, S) && Offered(c, S, step) && AssertsHold(c, S, step) && OneTrim(S.table)
    requires step.LeaderCleanup? ==> step.j < c.n && Informed(c.n, S.table, step.j)
    ensures OneTrim(Next(c, S, step).table)
  {
    hide Inv, Next, Offered, AssertsHold, Shape, Informed, Allowed, Apply;
    StepsAreTableSteps(c, S, step);
    var move := TableStepOf(c, S, step);
    if move.Some? {
      match move.value
      case Own(j, change) => OwnKeepsOneTrim(c.n, S.table, j, change);
      case _ => SightFinishesNone(c.n, S.table, move.value);
    }
  }

  /** Every leader that cleans up has heard of a finished trim, if there is one. */
  ghost predicate LeadersInformed(c: Config, run: seq<System>, steps: seq<Step>)
    requires |run| == |steps| + 1
  {
    forall k :: 0 <= k < |steps| && steps[k].LeaderCleanup? ==>
      WellShaped(c, run[k]) && steps[k].j < c.n && Informed(c.n, run[k].table, steps[k].j)
  }

  lemma {:induction false} RunOneTrim(c: Config, run: seq<System>, steps: seq<Step>, k: nat)
    requires IsRun(c, run, steps) && k < |run| && LeadersInformed(c, run, steps)
    ensures OneTrim(run[k].table)
    decreases k
  {
    hide Inv, Next, Offered, AssertsHold, OneTrim, Informed, Init, WellShaped;
    if k == 0 {
      InitialOneTrim(c, run[0]);
    } else {
      RunOneTrim(c, run, steps, k - 1);
      RunInv(c, run, steps, k - 1);
      StepKeepsOneTrim(c, run[k - 1], steps[k - 1]);
    }
  }

  lemma InitialOneTrim(c: Config, S: System)
    requires Init(c, S)
    ensures OneTrim(S.table)
  {
    hide InitialMember;
  }

  // ---------------------------------------------------------------- one leader

  /** Only member l ever computes a trim; all others echo. */
  ghost predicate OneLeader(steps: seq<Step>, l: nat) {
    forall k :: 0 <= k < |steps| && steps[k].LeaderCleanup? ==> steps[k].j == l
  }

  /** No trim is finished before member l's. */
  ghost predicate LeaderFirst(n: nat, t: Table, l: nat)
    requires Shape(n, t) && l < n
  {
    (exists i, a :: Finished(t, i, a)) ==> View(n, t, l, l).globalMinReady
  }

  lemma TableStepLeaderFirst(n: nat, t: Table, step: TableStep, l: nat)
    requires TableInv(n, t) && Enabled(n, t, step) && l < n && LeaderFirst(n, t, l)
    requires step.Own? && step.change.Trim? ==> step.who == l
    ensures LeaderFirst(n, Apply(n, t, step), l)
  {
    hide TableInv, View, Shape, Apply, Allowed;
    TableInvShape(n, t);
    var t' := Apply(n, t, step);
    ViewsAdvance(n, t, step);
    assert RowLe(n, View(n, t, l, l), View(n, t', l, l));
    if step.Own? {
      OwnLeaderFirst(n, t, step.who, step.change, l);
    } else {
      SightFinishesNone(n, t, step);
    }
  }

  lemma TableInvShape(n: nat, t: Table)
    requires TableInv(n, t)
    ensures Shape(n, t)
  {
  }

  lemma OwnLeaderFirst(n: nat, t: Table, j: nat, change: RowChange, l: nat)
    requires Shape(n, t) && j < n && l < n && LeaderFirst(n, t, l) && Allowed(n, SstOf(n, t, j), j, change) && (change.Trim? ==> j == l)
    ensures var t' := Apply(n, t, Own(j, change));
            (exists i, a :: Finished(t', i, a)) ==> View(n, t, l, l).globalMinReady || View(n, t', l, l).globalMinReady
  {
    hide PrefixEnd, LeaderTrim, RowShape;
    var r, t' := NewRow(n, SstOf(n, t, j), j, change), Apply(n, t, Own(j, change));
    PublishViews(n, t, j, r);
    if i, a :| Finished(t', i, a) {
      if r.globalMinReady && !change.Trim? {
        var a' := SeenFinished(n, t, j, if change.Echo? then change.leader else j);
      } else if !r.globalMinReady {
        assert Finished(t, i, a);
      }
    }
  }

  lemma {:induction false} RunLeaderFirst(c: Config, run: seq<System>, steps: seq<Step>, l: nat, k: nat)
    requires IsRun(c, run, steps) && k < |run| && l < c.n && OneLeader(steps, l)
    ensures WellShaped(c, run[k]) && LeaderFirst(c.n, run[k].table, l)
    decreases k
  {
    hide MembersOk, StreamsOk, WindowsOk, TableInv, Next, Offered, AssertsHold, LeaderFirst, Init, Shape;
    assert WellShaped(c, run[k]);
    if k == 0 {
      InitialLeaderFirst(c, run[0], l);
    } else {
      RunLeaderFirst(c, run, steps, l, k - 1);
      RunInv(c, run, steps, k - 1);
      StepsAreTableSteps(c, run[k - 1], steps[k - 1]);
      var move := TableStepOf(c, run[k - 1], steps[k - 1]);
      if move.Some? {
        TableStepLeaderFirst(c.n, run[k - 1].table, move.value, l);
      }
    }
  }

  lemma InitialLeaderFirst(c: Config, S: System, l: nat)
    requires Init(c, S) && l < c.n
    ensures LeaderFirst(c.n, S.table, l)
  {
    hide InitialMember;
  }

  /** A leader that is the only one is informed: it has finished no trim, so nobody has. */
  lemma OneLeaderInformed(c: Config, run: seq<System>, steps: seq<Step>, l: nat)
    requires IsRun(c, run, steps) && l < c.n && OneLeader(steps, l)
    ensures LeadersInformed(c, run, steps)
  {
    hide Inv, Init, LeaderFirst, Shape, View;
    forall k | 0 <= k < |steps| && steps[k].LeaderCleanup?
      ensures WellShaped(c, run[k]) && steps[k].j < c.n && Informed(c.n, run[k].table, steps[k].j)
    {
      RunLeaderFirst(c, run, steps, l, k);
      RunInv(c, run, steps, k);
      NothingFinished(c.n, run[k].table, l);
    }
  }

  lemma NothingFinished(n: nat, t: Table, l: nat)
    requires Shape(n, t) && l < n && LeaderFirst(n, t, l) && !View(n, t, l, l).globalMinReady
    ensures Informed(n, t, l)
  {
  }

  // ---------------------------------------------------------------- survivors

  /**
   In a run in which every leader has heard of a finished trim, if there is one, before it
   cleans up, any two members that have cleaned up used the same trim, and have delivered
   the same sequence exactly when their counts agree up to its end.
   */
  lemma SurvivorsAgree(c: Config, run: seq<System>, steps: seq<Step>, a: nat, j: nat, k: nat)
    requires IsRun(c, run, steps) && a < |run| && LeadersInformed(c, run, steps) && j < c.n && k < c.n
    requires OwnRow(c, run[a], j).globalMinReady && OwnRow(c, run[a], k).globalMinReady
    ensures OwnRow(c, run[a], j).globalMin == OwnRow(c, run[a], k).globalMin
    ensures var v, w, g := OwnRow(c, run[a], j).nReceived, OwnRow(c, run[a], k).nReceived, OwnRow(c, run[a], j).globalMin;
            run[a].nodes[j].log == run[a].nodes[k].log <==> SameUptoTrim(v, w, g)
  {
    hide Inv, IsRun, Shape, View, OneTrim, SameUptoTrim, LeadersInformed;
    RunInv(c, run, steps, a);
    InvShape(c, run[a]);
    RunOneTrim(c, run, steps, a);
    SameTrim(c, run[a], j, k);
    SurvivorsAgreeIff(c, run[a], j, k);
  }

  lemma SameTrim(c: Config, S: System, j: nat, k: nat)
    requires WellShaped(c, S) && OneTrim(S.table) && j < c.n && k < c.n
    requires OwnRow(c, S, j).globalMinReady && OwnRow(c, S, k).globalMinReady
    ensures OwnRow(c, S, j).globalMin == OwnRow(c, S, k).globalMin
  {
    assert Finished(S.table, j, |S.table.hist[j]| - 1) && Finished(S.table, k, |S.table.hist[k]| - 1);
  }
}
