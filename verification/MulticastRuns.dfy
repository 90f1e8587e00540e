/** Theorems about every run of the multicast protocol in one view. */
module MulticastRuns {
  import opened Collections
  import opened Numbering
  import opened SharedTable
  import opened Messages
  import opened GroupSpec
  import opened MemberInvariant
  import opened MemberSteps
  import opened Multicast
  import opened MulticastInv
  import opened Buffers

  /** One step of a run; were an assert to fail, anything might follow. */
  ghost predicate RunStep(c: Config, S: System, step: Step, S': System)
    requires WellShaped(c, S)
  {
    && Offered(c, S, step)
    && (AssertsHold(c, S, step) ==> S' == Next(c, S, step))
  }

  ghost predicate IsRun(c: Config, run: seq<System>, steps: seq<Step>) {
    && |run| == |steps| + 1
    && Init(c, run[0])
    && (forall k :: 0 <= k < |run| ==> WellShaped(c, run[k]))
    && forall k :: 0 <= k < |steps| ==> RunStep(c, run[k], steps[k], run[k + 1])
  }

  /** In every run no assert ever fires, and the invariant holds throughout. */
  lemma {:induction false} RunInv(c: Config, run: seq<System>, steps: seq<Step>, k: nat)
    requires IsRun(c, run, steps) && k < |run|
    ensures Inv(c, run[k])
    ensures k < |steps| ==> Offered(c, run[k], steps[k]) && AssertsHold(c, run[k], steps[k]) && run[k + 1] == Next(c, run[k], steps[k])
    decreases k
  {
    hide Inv, Offered, AssertsHold, Next, WellShaped, Init;
    assert WellShaped(c, run[k]);
    if k == 0 {
      InitInv(c, run[0]);
    } else {
      RunInv(c, run, steps, k - 1);
      assert RunStep(c, run[k - 1], steps[k - 1], run[k]);
      StepInv(c, run[k - 1], steps[k - 1]);
    }
    if k < |steps| {
      assert RunStep(c, run[k], steps[k], run[k + 1]);
      AssertsNeverFire(c, run[k], steps[k]);
    }
  }

  // ---------------------------------------------------------------- nothing goes back

  /** From S to S' every history has only grown, and every log too. */
  ghost predicate Later(c: Config, S: System, S': System)
    requires WellShaped(c, S) && WellShaped(c, S')
  {
    && (forall i :: 0 <= i < c.n ==> S.table.hist[i] <= S'.table.hist[i])
    && (forall j :: 0 <= j < c.n ==> RowLe(c.n, OwnRow(c, S, j), OwnRow(c, S', j)))
    && (forall j :: 0 <= j < c.n ==> S.nodes[j].log <= S'.nodes[j].log)
    && (forall j :: 0 <= j < c.n ==> S.accepted[j] <= S'.accepted[j])
    && (forall j :: 0 <= j < c.n ==> S.sent[j] <= S'.sent[j])
  }

  lemma {:induction false} DeliverRangeLog(x: Node, lo: int, hi: int)
    ensures x.log <= DeliverRange(x, lo, hi).log
    decreases hi - lo
  {
    if lo <= hi {
      DeliverRangeLog(if lo in x.locallyStable then DeliverNo(x, lo) else x, lo + 1, hi);
    }
  }

  /** The step of the tables, if any, that a protocol step takes. */
  ghost function TableStepOf(c: Config, S: System, step: Step): Option<TableStep>
    requires WellShaped(c, S) && Offered(c, S, step)
  {
    match step
    case Complete(j, s) =>
      Some(Own(j, Receive(CountsAfter(TableOf(c, S, j), j, s, S.sent[s][S.got[j][s]].body.pause))))
    case RunStability(j) => Some(Own(j, Stabilize))
    case RunDelivery(j) => Some(Own(j, Deliver(Least(S.nodes[j].locallyStable))))
    case RowArrives(i, j, k) => Some(Push(i, j, k))
    case FreezeRow(j, i) => Some(Freeze(j, i))
    case WedgeMember(j) => Some(Own(j, RowChange.Wedge))
    case LeaderCleanup(j, _) => Some(Own(j, Trim))
    case FollowerCleanup(j, l, _) => Some(Own(j, Echo(l)))
    case _ => None
  }

  /** What the protocol does to the rows is a step of the shared table. */
  lemma StepsAreTableSteps(c: Config, S: System, step: Step)
    requires Inv(c, S) && Offered(c, S, step) && AssertsHold(c, S, step)
    ensures match TableStepOf(c, S, step)
            case Some(t) => Enabled(c.n, S.table, t) && Next(c, S, step).table == Apply(c.n, S.table, t)
            case None => Next(c, S, step).table == S.table
  {
    hide TableInv, StreamsOk, WindowsOk, Shape, View, RowOk, CountsOk, TransitOk, FiledOk, LogOk, BuffersOk, CurrentOk,
         CanReceive, CanGetPosition, ShouldSend, CanDeliver, Publish, HandOver;
    if step.RunDelivery? {
      DeliveryIsNext(c, S, step.j);
    }
  }

  lemma TableLater(c: Config, t: Table, step: TableStep)
    requires TableInv(c.n, t) && Enabled(c.n, t, step)
    ensures var t' := Apply(c.n, t, step);
            (forall i :: 0 <= i < c.n ==> t.hist[i] <= t'.hist[i])
            && (forall j :: 0 <= j < c.n ==> RowLe(c.n, View(c.n, t, j, j), View(c.n, t', j, j)))
  {
    hide RowLe, Allowed, NewRow, TwoStage, TrimsVouched, Ordered;
    ViewsAdvance(c.n, t, step);
  }

  /** A step only adds to logs and streams. */
  lemma LogsGrow(c: Config, S: System, step: Step)
    requires WellShaped(c, S) && Offered(c, S, step) && AssertsHold(c, S, step)
    requires WellShaped(c, Next(c, S, step))
    ensures var S' := Next(c, S, step);
            (forall j :: 0 <= j < c.n ==> S.nodes[j].log <= S'.nodes[j].log)
            && (forall j :: 0 <= j < c.n ==> S.accepted[j] <= S'.accepted[j])
            && (forall j :: 0 <= j < c.n ==> S.sent[j] <= S'.sent[j])
  {
    hide Shape, View, CanReceive, CanGetPosition, ShouldSend, CanDeliver, Publish, HandOver, DeliverRange, TrimEnd,
         FileSkips, LeaderTrim;
    if step.LeaderCleanup? || step.FollowerCleanup? {
      var x, row := S.nodes[step.j], OwnRow(c, S, step.j);
      var g := if step.LeaderCleanup? then LeaderTrim(c.n, TableOf(c, S, step.j))
               else TableOf(c, S, step.j)[step.leader].globalMin;
      DeliverRangeLog(x, row.deliveredNum, TrimEnd(c.n, row.deliveredNum, g));
    }
  }

  lemma StepLater(c: Config, S: System, step: Step)
    requires Inv(c, S) && Offered(c, S, step) && AssertsHold(c, S, step)
    ensures WellShaped(c, Next(c, S, step)) && Later(c, S, Next(c, S, step))
  {
    hide TableInv, MembersOk, StreamsOk, WindowsOk, Offered, AssertsHold, Next, RowLe, Shape, View;
    StepInv(c, S, step);
    LogsGrow(c, S, step);
    StepsAreTableSteps(c, S, step);
    if TableStepOf(c, S, step).Some? {
      TableLater(c, S.table, TableStepOf(c, S, step).value);
    } else {
      SameTableLater(c, S, Next(c, S, step));
    }
  }

  lemma SameTableLater(c: Config, S: System, S': System)
    requires WellShaped(c, S) && WellShaped(c, S') && S'.table == S.table
    ensures forall j :: 0 <= j < c.n ==> RowLe(c.n, OwnRow(c, S, j), OwnRow(c, S', j))
  {
  }

  lemma LaterTransitive(c: Config, S: System, S': System, S'': System)
    requires WellShaped(c, S) && WellShaped(c, S') && WellShaped(c, S'')
    requires Later(c, S, S') && Later(c, S', S'')
    ensures Later(c, S, S'')
  {
    hide Shape, View;
    forall j | 0 <= j < c.n ensures RowLe(c.n, OwnRow(c, S, j), OwnRow(c, S'', j)) {
      assert RowLe(c.n, OwnRow(c, S, j), OwnRow(c, S', j)) && RowLe(c.n, OwnRow(c, S', j), OwnRow(c, S'', j));
    }
  }

  /** Histories, rows, logs and streams only move forward along a run. */
  lemma {:induction false} RunLater(c: Config, run: seq<System>, steps: seq<Step>, a: nat, b: nat)
    requires IsRun(c, run, steps) && a <= b < |run|
    ensures WellShaped(c, run[a]) && WellShaped(c, run[b]) && Later(c, run[a], run[b])
    decreases b
  {
    hide TableInv, MembersOk, StreamsOk, WindowsOk, Shape, View, Later, IsRun, Next, Offered, AssertsHold;
    RunInv(c, run, steps, a);
    if a < b {
      RunLater(c, run, steps, a, b - 1);
      RunInv(c, run, steps, b - 1);
      RunInv(c, run, steps, b);
      IsRunLength(c, run, steps);
      StepLater(c, run[b - 1], steps[b - 1]);
      LaterTransitive(c, run[a], run[b - 1], run[b]);
    } else {
      SameLater(c, run[a]);
    }
  }

  lemma IsRunLength(c: Config, run: seq<System>, steps: seq<Step>)
    requires IsRun(c, run, steps)
    ensures |run| == |steps| + 1
  {
  }

  lemma SameLater(c: Config, S: System)
    requires WellShaped(c, S)
    ensures Later(c, S, S)
  {
    hide View;
    SameTableLater(c, S, S);
    hide RowLe;
  }
}
