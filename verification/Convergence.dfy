/**
 Once nothing more is being received, handing rows over and running the two triggers
 brings every member to the same point, and cannot go on for ever.
 */
module Convergence {
  import opened Numbering
  import opened SharedTable
  import opened Messages
  import opened GroupSpec
  import opened MemberInvariant
  import opened Multicast
  import opened MulticastInv
  import opened Buffers
  import opened MulticastRuns
  import opened Delivery
  import opened Sums

  // ---------------------------------------------------------------- how far there is to go

  /** What everybody has received: where all members will end up. */
  function Target(c: Config, S: System): int
    requires WellShapedTable(c, S)
  {
    Min(seq(c.n, j requires 0 <= j < c.n => OwnRow(c, S, j).seqNum))
  }

  predicate WellShapedTable(c: Config, S: System) {
    Shape(c.n, S.table)
  }

  /** How far each member's stable and delivered numbers are from the target. */
  function Lags(c: Config, S: System, m: int): (v: seq<int>)
    requires WellShapedTable(c, S)
    ensures |v| == c.n
  {
    seq(c.n, j requires 0 <= j < c.n => (m - OwnRow(c, S, j).stableNum) + (m - OwnRow(c, S, j).deliveredNum))
  }

  /** How many published snapshots of each owner member j has not seen. */
  function Unseen(c: Config, t: Table, j: nat): (v: seq<int>)
    requires Shape(c.n, t) && j < c.n
    ensures |v| == c.n
    ensures forall i :: 0 <= i < c.n ==> v[i] >= 0
  {
    seq(c.n, i requires 0 <= i < c.n => if i == j then 0 else |t.hist[i]| - 1 - t.pos[j][i])
  }

  function AllUnseen(c: Config, t: Table): (v: seq<int>)
    requires Shape(c.n, t)
    ensures |v| == c.n
  {
    seq(c.n, j requires 0 <= j < c.n => Sum(Unseen(c, t, j)))
  }

  function Potential(c: Config, S: System): int
    requires WellShapedTable(c, S)
  {
    (c.n * c.n + 1) * Sum(Lags(c, S, Target(c, S))) + Sum(AllUnseen(c, S.table))
  }

  /** A hand-over or trigger that changes something. */
  ghost predicate Effective(c: Config, S: System, step: Step)
    requires WellShaped(c, S)
  {
    Offered(c, S, step) &&
    match step
    case RunStability(j) => AfterStability(TableOf(c, S, j), j) != OwnRow(c, S, j)
    case RunDelivery(j) => true
    case RowArrives(i, j, k) => k > S.table.pos[j][i]
    case _ => false
  }

  lemma TargetBounds(c: Config, S: System)
    requires Inv(c, S)
    ensures forall j :: 0 <= j < c.n ==>
              OwnRow(c, S, j).stableNum <= Target(c, S) && OwnRow(c, S, j).deliveredNum <= Target(c, S)
              && Target(c, S) <= OwnRow(c, S, j).seqNum
  {
    hide MembersOk, StreamsOk, WindowsOk, View, Ordered, TrimsVouched;
    var nums := seq(c.n, j requires 0 <= j < c.n => OwnRow(c, S, j).seqNum);
    var k :| 0 <= k < c.n && nums[k] == Target(c, S);
    forall j | 0 <= j < c.n
      ensures OwnRow(c, S, j).stableNum <= Target(c, S) && OwnRow(c, S, j).deliveredNum <= Target(c, S)
              && Target(c, S) <= OwnRow(c, S, j).seqNum
    {
      SeenRow(c.n, S.table, j, k);
      SeenRow(c.n, S.table, j, j);
      assert Rests(View(c.n, S.table, j, j), View(c.n, S.table, j, k));
      assert nums[j] == OwnRow(c, S, j).seqNum;
    }
  }

  lemma PotentialLow(c: Config, S: System)
    requires Inv(c, S)
    ensures Potential(c, S) >= 0
  {
    hide Inv, Shape, View, Sum, Min, Unseen;
    InvShape(c, S);
    TargetBounds(c, S);
    SumLow(Lags(c, S, Target(c, S)));
    forall j | 0 <= j < c.n ensures AllUnseen(c, S.table)[j] >= 0 {
      SumLow(Unseen(c, S.table, j));
    }
    SumLow(AllUnseen(c, S.table));
    Weighted(c.n, Sum(Lags(c, S, Target(c, S))), Sum(AllUnseen(c, S.table)));
  }

  lemma Weighted(n: nat, x: int, y: int)
    requires x >= 0 && y >= 0
    ensures (n * n + 1) * x + y >= 0
  {
    assert n * n >= 0;
    assert (n * n + 1) * x >= 0;
  }

  // ---------------------------------------------------------------- every effective step gains

  lemma SumRiseByLength(c: Config, t: Table, t': Table)
    requires Shape(c.n, t) && Shape(c.n, t')
    requires forall j, i :: 0 <= j < c.n && 0 <= i < c.n ==> Unseen(c, t', j)[i] <= Unseen(c, t, j)[i] + 1
    ensures Sum(AllUnseen(c, t')) <= Sum(AllUnseen(c, t)) + c.n * c.n
  {
    hide Unseen;
    forall j | 0 <= j < c.n ensures AllUnseen(c, t')[j] <= AllUnseen(c, t)[j] + c.n {
      SumRise(Unseen(c, t, j), Unseen(c, t', j));
    }
    SumRiseBy(AllUnseen(c, t), AllUnseen(c, t'), c.n);
  }

  lemma {:induction false} SumRiseBy(v: seq<int>, w: seq<int>, b: nat)
    requires |v| == |w|
    requires forall k :: 0 <= k < |v| ==> w[k] <= v[k] + b
    ensures Sum(w) <= Sum(v) + b * |v|
    decreases |v|
  {
    if v != [] {
      var last := |v| - 1;
      assert forall k :: 0 <= k < last ==> w[..last][k] <= v[..last][k] + b;
      SumRiseBy(v[..last], w[..last], b);
      assert b * last + b == b * |v|;
    }
  }

  lemma PublishUnseen(c: Config, t: Table, j: nat, r: Row)
    requires Shape(c.n, t) && j < c.n && RowShape(c.n, r)
    ensures Sum(AllUnseen(c, Publish(c.n, t, j, r))) <= Sum(AllUnseen(c, t)) + c.n * c.n
  {
    var t' := Publish(c.n, t, j, r);
    hide AllUnseen, View;
    SumRiseByLength(c, t, t');
  }

  /** A row that moves closer to the target outweighs any staleness it causes. */
  lemma RowGain(c: Config, S: System, j: nat, r: Row)
    requires Inv(c, S) && j < c.n && RowShape(c.n, r)
    requires r.seqNum == OwnRow(c, S, j).seqNum
    requires r.stableNum + r.deliveredNum > OwnRow(c, S, j).stableNum + OwnRow(c, S, j).deliveredNum
    ensures Potential(c, SetRow(c, S, j, r)) < Potential(c, S)
    ensures Target(c, SetRow(c, S, j, r)) == Target(c, S)
  {
    hide MembersOk, StreamsOk, WindowsOk, TableInv, Shape, View, Publish, AllUnseen, Sum, Min, RowShape;
    var S' := SetRow(c, S, j, r);
    PublishViews(c.n, S.table, j, r);
    SameTarget(c, S, S');
    var m := Target(c, S);
    SumPoint(Lags(c, S, m), Lags(c, S', m), j);
    PublishUnseen(c, S.table, j, r);
    Outweigh(c.n * c.n, Sum(Lags(c, S, m)), Sum(Lags(c, S', m)), Sum(AllUnseen(c, S.table)), Sum(AllUnseen(c, S'.table)));
  }

  lemma SameTarget(c: Config, S: System, S': System)
    requires WellShapedTable(c, S) && WellShapedTable(c, S')
    requires forall k :: 0 <= k < c.n ==> OwnRow(c, S', k).seqNum == OwnRow(c, S, k).seqNum
    ensures Target(c, S') == Target(c, S)
  {
    hide Shape, View;
    assert seq(c.n, k requires 0 <= k < c.n => OwnRow(c, S', k).seqNum)
        == seq(c.n, k requires 0 <= k < c.n => OwnRow(c, S, k).seqNum);
  }

  lemma Outweigh(b: nat, x: int, x': int, y: int, y': int)
    requires x' <= x - 1 && y' <= y + b
    ensures (b + 1) * x' + y' < (b + 1) * x + y
  {
    assert (b + 1) * (x - x') >= b + 1 by {
      Multiple(b + 1, x - x');
    }
    assert (b + 1) * (x - x') == (b + 1) * x - (b + 1) * x';
  }

  lemma PushGain(c: Config, S: System, i: nat, j: nat, k: nat)
    requires Inv(c, S) && i < c.n && j < c.n && i != j && S.table.pos[j][i] < k < |S.table.hist[i]|
    ensures var S' := S.(table := HandOver(c.n, S.table, i, j, k));
            Potential(c, S') < Potential(c, S) && Target(c, S') == Target(c, S)
  {
    hide MembersOk, StreamsOk, WindowsOk, TableInv, View;
    var S' := S.(table := HandOver(c.n, S.table, i, j, k));
    HandOverViews(c.n, S.table, i, j, k);
    assert seq(c.n, l requires 0 <= l < c.n => OwnRow(c, S', l).seqNum)
        == seq(c.n, l requires 0 <= l < c.n => OwnRow(c, S, l).seqNum);
    assert Lags(c, S', Target(c, S)) == Lags(c, S, Target(c, S));
    SumPoint(Unseen(c, S.table, j), Unseen(c, S'.table, j), i);
    forall l | 0 <= l < c.n && l != j ensures AllUnseen(c, S'.table)[l] == AllUnseen(c, S.table)[l] {
      assert Unseen(c, S'.table, l) == Unseen(c, S.table, l);
    }
    SumPoint(AllUnseen(c, S.table), AllUnseen(c, S'.table), j);
  }

  /** Every effective step brings the group strictly closer, and the target stays put. */
  lemma EffectiveStepGains(c: Config, S: System, step: Step)
    requires Inv(c, S) && Effective(c, S, step)
    ensures var S' := Next(c, S, step);
            Inv(c, S') && Potential(c, S') < Potential(c, S) && Target(c, S') == Target(c, S)
  {
    hide Inv, Potential, Target, SetRow, HandOver, CanDeliver;
    InvShape(c, S);
    StepInv(c, S, step);
    var S' := Next(c, S, step);
    InvShape(c, S');
    if step.RowArrives? {
      PushGain(c, S, step.owner, step.j, step.k);
    } else if step.RunStability? {
      RowGain(c, S, step.j, AfterStability(TableOf(c, S, step.j), step.j));
    } else {
      DeliveryGain(c, S, step.j, S');
    }
  }

  lemma DeliveryGain(c: Config, S: System, j: nat, S': System)
    requires WellShaped(c, S) && j < c.n && Offered(c, S, RunDelivery(j)) && S' == AfterRunDelivery(c, S, j)
    requires WellShapedTable(c, S) && WellShapedTable(c, S')
    requires Inv(c, S)
    ensures Potential(c, S') < Potential(c, S) && Target(c, S') == Target(c, S)
  {
    hide Inv, Shape, View, Publish, AllUnseen;
    InvShape(c, S);
    DeliveryIsNext(c, S, j);
    var r := OwnRow(c, S, j).(deliveredNum := OwnRow(c, S, j).deliveredNum + 1);
    RowGain(c, S, j, r);
    assert S'.table == SetRow(c, S, j, r).table;
    hide AfterRunDelivery, SetRow;
    SamePotential(c, S', SetRow(c, S, j, r));
  }

  lemma SamePotential(c: Config, S: System, S': System)
    requires WellShapedTable(c, S) && S'.table == S.table
    ensures Potential(c, S) == Potential(c, S') && Target(c, S) == Target(c, S')
  {
    hide View, Shape, AllUnseen;
    assert seq(c.n, k requires 0 <= k < c.n => OwnRow(c, S', k).seqNum)
        == seq(c.n, k requires 0 <= k < c.n => OwnRow(c, S, k).seqNum);
    assert Lags(c, S', Target(c, S)) == Lags(c, S, Target(c, S));
  }

  // ---------------------------------------------------------------- quiet runs

  /** A stretch of a run in which only effective hand-overs and triggers happen. */
  ghost predicate QuietRun(c: Config, run: seq<System>, steps: seq<Step>) {
    && |run| == |steps| + 1
    && Inv(c, run[0])
    && forall k :: 0 <= k < |steps| ==>
         WellShaped(c, run[k]) && Effective(c, run[k], steps[k]) && run[k + 1] == Next(c, run[k], steps[k])
  }

  lemma {:induction false} QuietRunFrom(c: Config, run: seq<System>, steps: seq<Step>, k: nat)
    requires QuietRun(c, run, steps) && k < |run|
    ensures Inv(c, run[k]) && Target(c, run[k]) == Target(c, run[0])
    ensures Potential(c, run[k]) + k <= Potential(c, run[0])
    decreases k
  {
    hide Inv, Effective, Next, Potential, Target, WellShaped;
    if k > 0 {
      QuietRunFrom(c, run, steps, k - 1);
      assert Effective(c, run[k - 1], steps[k - 1]);
      EffectiveStepGains(c, run[k - 1], steps[k - 1]);
    }
  }

  /** Nothing is frozen and no engine has shut down. */
  ghost predicate AllLive(c: Config, S: System)
    requires WellShaped(c, S)
  {
    && (forall j :: 0 <= j < c.n ==> S.table.frozen[j] == {} && !S.nodes[j].shutdown)
  }

  /** Member j has the latest snapshot of every row. */
  lemma UpToDate(c: Config, S: System, j: nat, i: nat)
    requires Inv(c, S) && AllLive(c, S) && j < c.n && i < c.n && i != j
    requires forall step :: !Effective(c, S, step)
    ensures View(c.n, S.table, j, i) == OwnRow(c, S, i)
  {
    hide MembersOk, StreamsOk, WindowsOk, TableInv;
    assert !Effective(c, S, RowArrives(i, j, |S.table.hist[i]| - 1));
  }

  lemma RestingMember(c: Config, S: System, j: nat)
    requires Inv(c, S) && AllLive(c, S) && j < c.n
    requires forall step :: !Effective(c, S, step)
    ensures OwnRow(c, S, j).stableNum == Target(c, S)
  {
    hide MembersOk, StreamsOk, WindowsOk, TableInv, View, Shape;
    assert !Effective(c, S, RunStability(j));
    TargetBounds(c, S);
    var sst := TableOf(c, S, j);
    forall i | 0 <= i < c.n ensures sst[i] == OwnRow(c, S, i) {
      if i != j {
        UpToDate(c, S, j, i);
      }
    }
    assert SeqNums(sst) == seq(c.n, i requires 0 <= i < c.n => OwnRow(c, S, i).seqNum);
  }

  lemma RestingDelivery(c: Config, S: System, j: nat)
    requires Inv(c, S) && AllLive(c, S) && j < c.n
    requires forall step :: !Effective(c, S, step)
    ensures OwnRow(c, S, j).deliveredNum == Target(c, S)
  {
    hide MembersOk, StreamsOk, WindowsOk, TableInv, View, Shape, Target, CanDeliver;
    assert !Effective(c, S, RunDelivery(j));
    TargetBounds(c, S);
    var sst := TableOf(c, S, j);
    forall i | 0 <= i < c.n ensures sst[i].stableNum == Target(c, S) {
      if i != j {
        UpToDate(c, S, j, i);
      }
      RestingMember(c, S, i);
    }
    var k :| 0 <= k < |StableNums(sst)| && StableNums(sst)[k] == Min(StableNums(sst));
    assert Min(StableNums(sst)) == Target(c, S);
    DeliveryIsNext(c, S, j);
  }

  /**
   Convergence.  From any reachable state S, with no further receives, a run of effective
   hand-overs and triggers has at most Potential(S) steps.  Where none is left to take, and
   nothing is frozen or shut down, every member's stable_num and delivered_num equal the
   least seq_num the members had in S.
   */
  lemma Converges(c: Config, run: seq<System>, steps: seq<Step>)
    requires QuietRun(c, run, steps)
    ensures |steps| <= Potential(c, run[0])
    ensures var last := run[|steps|];
            Inv(c, last) && (AllLive(c, last) && (forall step :: !Effective(c, last, step)) ==>
              forall j :: 0 <= j < c.n ==>
                OwnRow(c, last, j).stableNum == Target(c, run[0])
                && OwnRow(c, last, j).deliveredNum == Target(c, run[0]))
  {
    hide Inv, Effective, Potential, Target, View, Shape, QuietRun;
    QuietRunLength(c, run, steps);
    QuietRunFrom(c, run, steps, |steps|);
    var last := run[|steps|];
    InvShape(c, run[0]);
    InvShape(c, last);
    PotentialLow(c, last);
    if AllLive(c, last) && forall step :: !Effective(c, last, step) {
      forall j | 0 <= j < c.n
        ensures OwnRow(c, last, j).stableNum == Target(c, run[0])
                && OwnRow(c, last, j).deliveredNum == Target(c, run[0])
      {
        RestingMember(c, last, j);
        RestingDelivery(c, last, j);
      }
    }
  }

  lemma QuietRunLength(c: Config, run: seq<System>, steps: seq<Step>)
    requires QuietRun(c, run, steps)
    ensures |run| == |steps| + 1 && Inv(c, run[0])
  {
  }
}
