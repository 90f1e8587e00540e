/**
 Cleanup delivers up to the highest number the trim names, not up to each sender's own bound.
 A run of two members shows that survivors can then deliver different messages.
 */
module Disagreement {
  import opened Collections
  import opened Numbering
  import opened SharedTable
  import opened Messages
  import opened GroupSpec
  import opened MemberInvariant
  import opened MemberSteps
  import opened Multicast
  import opened MulticastInv
  import opened Buffers
  import opened MulticastRuns
  import opened Delivery

  const PAIR := Config(2, 2, 100)

  /** Member j's only message, still to be sent. */
  function Hello(j: nat): Message {
    Message(j, 0, 10, BLANK)
  }

  function Starter(j: nat): Node {
    Node(true, false, 1, None, [Hello(j)], None, map[], map[], 3, 4, [])
  }

  function Start(): System {
    System(InitialTable(2), [Starter(0), Starter(1)], [[], []], [[0, 0], [0, 0]], [{}, {}], [[Hello(0)], [Hello(1)]])
  }

  ghost predicate Reachable(c: Config, S: System) {
    exists run, steps :: IsRun(c, run, steps) && run[|steps|] == S
  }

  lemma ReachNext(c: Config, S: System, step: Step)
    requires Reachable(c, S) && WellShaped(c, S) && Offered(c, S, step)
    ensures AssertsHold(c, S, step) && Inv(c, S)
    ensures Inv(c, Next(c, S, step)) && Reachable(c, Next(c, S, step))
  {
    hide Inv, Init, Offered, AssertsHold, Next, WellShaped;
    var run, steps :| IsRun(c, run, steps) && run[|steps|] == S;
    RunInv(c, run, steps, |steps|);
    AssertsNeverFire(c, S, step);
    StepInv(c, S, step);
    InvShape(c, Next(c, S, step));
    var run', steps' := run + [Next(c, S, step)], steps + [step];
    assert RunStep(c, S, step, Next(c, S, step));
    forall k | 0 <= k < |steps'| ensures RunStep(c, run'[k], steps'[k], run'[k + 1]) {
      if k < |steps| {
        assert RunStep(c, run[k], steps[k], run[k + 1]);
      }
    }
    assert IsRun(c, run', steps') && run'[|steps'|] == Next(c, S, step);
  }

  lemma StartReachable()
    ensures Init(PAIR, Start()) && Reachable(PAIR, Start()) && Inv(PAIR, Start())
  {
    StartInit();
    hide Init, Inv;
    assert IsRun(PAIR, [Start()], []) && [Start()][0] == Start();
    InitInv(PAIR, Start());
  }

  lemma StartInit()
    ensures Init(PAIR, Start())
  {
    forall j | 0 <= j < 2 ensures StreamOk(j, Starter(j), [], [Hello(j)]) {
      StarterStream(j);
    }
  }

  lemma StarterStream(j: nat)
    ensures StreamOk(j, Starter(j), [], [Hello(j)])
  {
    assert [Hello(j)][..0] == [];
    assert Expand([]) == [];
    ExpandAppend([], Hello(j));
    assert [] + [Hello(j)] == [Hello(j)];
  }

  // ---------------------------------------------------------------- the run, step by step

  /** What matters of a state: who has sent and received what, and whose row says what. */
  ghost predicate At(S: System, began: seq<bool>, got: seq<seq<nat>>, busy: seq<set<nat>>, counts: seq<seq<int>>, wedged: seq<bool>)
    requires |began| == |counts| == |wedged| == 2
  {
    && WellShaped(PAIR, S)
    && S.got == got && S.busy == busy && S.table.frozen == [{}, {}]
    && forall j :: 0 <= j < 2 ==>
         && S.nodes[j].created && S.nodes[j].shutdown == wedged[j]
         && S.nodes[j].pendingSends == (if began[j] then [] else [Hello(j)])
         && S.sent[j] == (if began[j] then [Hello(j)] else [])
         && OwnRow(PAIR, S, j).nReceived == counts[j]
         && OwnRow(PAIR, S, j).deliveredNum == -1
         && OwnRow(PAIR, S, j).wedged == wedged[j]
         && !OwnRow(PAIR, S, j).globalMinReady
  }

  lemma FarEnough(S: System, j: nat)
    requires Inv(PAIR, S) && j < 2
    ensures WindowOpen(PAIR, j, TableOf(PAIR, S, j), 0)
  {
    hide MembersOk, StreamsOk, WindowsOk, RowLe;
    forall k | 0 <= k < 2 ensures TableOf(PAIR, S, j)[k].deliveredNum >= -1 {
      SeenRow(2, S.table, j, k);
    }
  }

  lemma DoBeginSend(S: System, j: nat, began: seq<bool>, got: seq<seq<nat>>, busy: seq<set<nat>>, counts: seq<seq<int>>, wedged: seq<bool>)
    returns (S': System)
    requires |began| == |counts| == |wedged| == 2 && At(S, began, got, busy, counts, wedged)
    requires Reachable(PAIR, S) && Inv(PAIR, S) && j < 2 && !began[j] && !wedged[j] && |counts[j]| == 2 && counts[j][j] >= -1
    ensures Reachable(PAIR, S') && Inv(PAIR, S') && At(S', began[j := true], got, busy, counts, wedged)
  {
    hide Inv, Reachable, WindowOpen, Shape, View;
    FarEnough(S, j);
    ReachNext(PAIR, S, BeginSend(j));
    S' := Next(PAIR, S, BeginSend(j));
    InvShape(PAIR, S');
  }

  lemma DoTakeBuffer(S: System, j: nat, s: nat, began: seq<bool>, got: seq<seq<nat>>, busy: seq<set<nat>>, counts: seq<seq<int>>, wedged: seq<bool>)
    returns (S': System)
    requires |began| == |counts| == |wedged| == 2 && At(S, began, got, busy, counts, wedged)
    requires Reachable(PAIR, S) && Inv(PAIR, S) && j < 2 && s < 2 && s != j
    requires s !in busy[j] && !wedged[j] && began[s] && got[j][s] == 0
    ensures Reachable(PAIR, S') && Inv(PAIR, S') && |busy| == 2 && At(S', began, got, busy[j := busy[j] + {s}], counts, wedged)
  {
    hide Inv, Reachable, Shape, View;
    ReachNext(PAIR, S, TakeBuffer(j, s));
    S' := Next(PAIR, S, TakeBuffer(j, s));
    InvShape(PAIR, S');
  }

  lemma PublishOwn(S: System, j: nat, r: Row)
    requires WellShaped(PAIR, S) && j < 2 && RowShape(2, r)
    ensures WellShaped(PAIR, SetRow(PAIR, S, j, r))
    ensures SetRow(PAIR, S, j, r).table.frozen == S.table.frozen
    ensures SetRow(PAIR, S, j, r).(table := S.table) == S
    ensures forall k :: 0 <= k < 2 ==> OwnRow(PAIR, SetRow(PAIR, S, j, r), k) == if k == j then r else OwnRow(PAIR, S, k)
  {
    PublishViews(2, S.table, j, r);
  }

  lemma DoComplete(S: System, j: nat, s: nat, began: seq<bool>, got: seq<seq<nat>>, busy: seq<set<nat>>, counts: seq<seq<int>>, wedged: seq<bool>)
    returns (S': System)
    requires |began| == |counts| == |wedged| == 2 && At(S, began, got, busy, counts, wedged)
    requires Reachable(PAIR, S) && Inv(PAIR, S) && j < 2 && s < 2
    requires (s == j || s in busy[j]) && !wedged[j] && began[s] && got[j][s] == 0
    ensures Reachable(PAIR, S') && Inv(PAIR, S') && |busy| == |got| == 2 && |got[j]| == |counts[j]| == 2
    ensures var at: seq<nat> := got[j][s := 1];
            At(S', began, got[j := at], busy[j := busy[j] - {s}], counts[j := counts[j][s := counts[j][s] + 1]], wedged)
  {
    hide Inv, Reachable, Shape, View, PrefixEnd, CanReceive, ReceiveHandler, SetRow;
    ReachNext(PAIR, S, Complete(j, s));
    S' := Next(PAIR, S, Complete(j, s));
    InvShape(PAIR, S');
    var sst := TableOf(PAIR, S, j);
    var r := AfterReceive(OwnRow(PAIR, S, j), CountsAfter(sst, j, s, 0));
    PublishOwn(SetMember(S, j, ReceiveHandler(PAIR, j, S.nodes[j], sst, s, BLANK)), j, r);
    HandlerFrame(PAIR, j, S.nodes[j], sst, s, BLANK);
    AfterReceiveFlags(OwnRow(PAIR, S, j), CountsAfter(sst, j, s, 0));
    assert S.sent[s] == [Hello(s)] && S.sent[s][S.got[j][s]].body == BLANK;
    var x := SetRow(PAIR, SetMember(S, j, ReceiveHandler(PAIR, j, S.nodes[j], sst, s, BLANK)), j, r);
    forall k | 0 <= k < 2 ensures OwnRow(PAIR, S', k) == if k == j then r else OwnRow(PAIR, S, k) {
      assert OwnRow(PAIR, x, k) == if k == j then r else OwnRow(PAIR, S, k);
    }
  }

  lemma HandlerFrame(c: Config, me: nat, x: Node, sst: Sst, s: nat, body: Body)
    requires SstShape(c.n, sst) && me < c.n && s < c.n && CanReceive(c, me, x, sst, s)
    ensures var x' := ReceiveHandler(c, me, x, sst, s, body);
            x'.created == x.created && x'.shutdown == x.shutdown && x'.pendingSends == x.pendingSends
  {
  }

  lemma DoWedge(S: System, j: nat, began: seq<bool>, got: seq<seq<nat>>, busy: seq<set<nat>>, counts: seq<seq<int>>, wedged: seq<bool>)
    returns (S': System)
    requires |began| == |counts| == |wedged| == 2 && At(S, began, got, busy, counts, wedged)
    requires Reachable(PAIR, S) && Inv(PAIR, S) && j < 2
    ensures Reachable(PAIR, S') && Inv(PAIR, S') && At(S', began, got, busy, counts, wedged[j := true])
  {
    hide Inv, Reachable, Shape, View, SetRow;
    ReachNext(PAIR, S, WedgeMember(j));
    S' := Next(PAIR, S, WedgeMember(j));
    InvShape(PAIR, S');
    PublishOwn(SetMember(S, j, S.nodes[j].(shutdown := true)), j, OwnRow(PAIR, S, j).(wedged := true));
  }

  /** Member i's current row reaches member j. */
  lemma DoHandOver(S: System, i: nat, j: nat) returns (S': System)
    requires Reachable(PAIR, S) && Inv(PAIR, S) && i < 2 && j < 2 && i != j && WellShaped(PAIR, S) && S.table.frozen == [{}, {}]
    ensures Reachable(PAIR, S') && Inv(PAIR, S') && WellShaped(PAIR, S') && S'.table.frozen == S.table.frozen
    ensures S'.(table := S.table) == S
    ensures View(2, S'.table, j, i) == OwnRow(PAIR, S, i)
    ensures forall m, k :: 0 <= m < 2 && 0 <= k < 2 && (m, k) != (j, i) ==> View(2, S'.table, m, k) == View(2, S.table, m, k)
  {
    hide Inv, Reachable;
    var k := |S.table.hist[i]| - 1;
    assert S.table.pos[j][i] <= k;
    ReachNext(PAIR, S, RowArrives(i, j, k));
    S' := Next(PAIR, S, RowArrives(i, j, k));
    InvShape(PAIR, S');
    HandOverViews(2, S.table, i, j, k);
  }

  /** Both have sent; only member 0 has received both messages; both are wedged and see it. */
  lemma UntilWedged() returns (S: System)
    ensures Reachable(PAIR, S) && Inv(PAIR, S)
    ensures At(S, [true, true], [[1, 1], [0, 1]], [{}, {}], [[0, 0], [-1, 0]], [true, true])
    ensures View(2, S.table, 0, 1) == OwnRow(PAIR, S, 1) && View(2, S.table, 1, 0) == OwnRow(PAIR, S, 0)
  {
    hide Inv, Reachable, At, Init;
    StartReachable();
    StartAt();
    var e: seq<set<nat>> := [{}, {}];
    S := DoBeginSend(Start(), 0, [false, false], [[0, 0], [0, 0]], e, [[-1, -1], [-1, -1]], [false, false]);
    assert [false, false][0 := true] == [true, false];
    S := DoBeginSend(S, 1, [true, false], [[0, 0], [0, 0]], e, [[-1, -1], [-1, -1]], [false, false]);
    assert [true, false][1 := true] == [true, true];
    S := DoComplete(S, 0, 0, [true, true], [[0, 0], [0, 0]], e, [[-1, -1], [-1, -1]], [false, false]);
    assert [0, 0][0 := 1] == [1, 0] && [0, 0][1 := 1] == [0, 1] && [1, 0][1 := 1] == [1, 1];
    assert [-1, -1][0 := 0] == [0, -1] && [-1, -1][1 := 0] == [-1, 0] && [0, -1][1 := 0] == [0, 0];
    assert e[0 := e[0] - {0}][0] == e[0] && e[1 := e[1] - {1}][1] == e[1];
    assert [[0, 0], [0, 0]][0 := [0, 0][0 := 1]] == [[1, 0], [0, 0]];
    assert [[-1, -1], [-1, -1]][0 := [-1, -1][0 := 0]] == [[0, -1], [-1, -1]];
    assert e[0 := e[0] - {0}] == e;
    S := DoComplete(S, 1, 1, [true, true], [[1, 0], [0, 0]], e, [[0, -1], [-1, -1]], [false, false]);
    assert [[1, 0], [0, 0]][1 := [0, 0][1 := 1]] == [[1, 0], [0, 1]];
    assert [[0, -1], [-1, -1]][1 := [-1, -1][1 := 0]] == [[0, -1], [-1, 0]];
    assert e[1 := e[1] - {1}] == e;
    S := DoTakeBuffer(S, 0, 1, [true, true], [[1, 0], [0, 1]], e, [[0, -1], [-1, 0]], [false, false]);
    var b: seq<set<nat>> := [{1}, {}];
    assert e[0 := e[0] + {1}][0] == b[0] && e[0 := e[0] + {1}] == b;
    S := DoComplete(S, 0, 1, [true, true], [[1, 0], [0, 1]], b, [[0, -1], [-1, 0]], [false, false]);
    assert [[1, 0], [0, 1]][0 := [1, 0][1 := 1]] == [[1, 1], [0, 1]];
    assert [[0, -1], [-1, 0]][0 := [0, -1][1 := 0]] == [[0, 0], [-1, 0]];
    assert b[0 := b[0] - {1}] == e;
    S := DoWedge(S, 0, [true, true], [[1, 1], [0, 1]], e, [[0, 0], [-1, 0]], [false, false]);
    assert [false, false][0 := true] == [true, false];
    S := DoWedge(S, 1, [true, true], [[1, 1], [0, 1]], e, [[0, 0], [-1, 0]], [true, false]);
    assert [true, false][1 := true] == [true, true];
    S := ShowRows(S, [true, true], [[1, 1], [0, 1]], e, [[0, 0], [-1, 0]], [true, true]);
  }

  lemma StartAt()
    ensures At(Start(), [false, false], [[0, 0], [0, 0]], [{}, {}], [[-1, -1], [-1, -1]], [false, false])
  {
    hide RowShape, Shape;
    InitialShape(2);
    assert InitialRow(2).nReceived == [-1, -1];
    forall j | 0 <= j < 2 ensures OwnRow(PAIR, Start(), j) == InitialRow(2) {
    }
  }

  lemma ShowRows(S: System, began: seq<bool>, got: seq<seq<nat>>, busy: seq<set<nat>>, counts: seq<seq<int>>, wedged: seq<bool>)
    returns (S': System)
    requires |began| == |counts| == |wedged| == 2 && At(S, began, got, busy, counts, wedged)
    requires Reachable(PAIR, S) && Inv(PAIR, S)
    ensures Reachable(PAIR, S') && Inv(PAIR, S') && At(S', began, got, busy, counts, wedged)
    ensures View(2, S'.table, 0, 1) == OwnRow(PAIR, S', 1) && View(2, S'.table, 1, 0) == OwnRow(PAIR, S', 0)
  {
    hide Inv, Reachable, Shape, View;
    S' := DoHandOver(S, 1, 0);
    S' := DoHandOver(S', 0, 1);
  }

  // ---------------------------------------------------------------- cleanup

  lemma TrimOfPair(sst: Sst)
    requires SstShape(2, sst) && sst[0].nReceived == [0, 0] && sst[1].nReceived == [-1, 0]
    requires !sst[0].globalMinReady && !sst[1].globalMinReady
    ensures LeaderTrim(2, sst) == [-1, 0]
  {
    assert Column(2, sst, 0) == [0, -1] && Column(2, sst, 1) == [0, 0];
    assert [0, -1][1..] == [-1] && [0, 0][1..] == [0];
    assert FirstReady(sst, 2) == 2 && FirstReady(sst, 1) == 2;
  }

  lemma CleanupRow(S: System, j: nat, g: seq<int>)
    requires WellShaped(PAIR, S) && j < 2 && |g| == 2
    ensures var S' := AfterCleanup(PAIR, S, j, g);
            WellShaped(PAIR, S') && S'.table.frozen == S.table.frozen
            && OwnRow(PAIR, S', j) == OwnRow(PAIR, S, j).(globalMin := g, globalMinReady := true)
            && OwnRow(PAIR, S', 1 - j) == OwnRow(PAIR, S, 1 - j)
            && View(2, S'.table, j, 1 - j) == View(2, S.table, j, 1 - j)
            && View(2, S'.table, 1 - j, j) == View(2, S.table, 1 - j, j)
  {
    hide Shape, View, DeliverUpto;
    var x := SetMember(S, j, DeliverUpto(PAIR, S.nodes[j], OwnRow(PAIR, S, j).deliveredNum, g));
    PublishViews(2, x.table, j, OwnRow(PAIR, S, j).(globalMin := g, globalMinReady := true));
  }

  lemma UntilCleaned() returns (S: System)
    ensures Reachable(PAIR, S) && Inv(PAIR, S)
    ensures forall j :: 0 <= j < 2 ==> OwnRow(PAIR, S, j).globalMinReady && OwnRow(PAIR, S, j).globalMin == [-1, 0]
    ensures OwnRow(PAIR, S, 0).nReceived == [0, 0] && OwnRow(PAIR, S, 1).nReceived == [-1, 0]
  {
    hide Inv, Reachable, Shape, View, AfterCleanup, LeaderTrim;
    var A := UntilWedged();
    TrimOfPair(TableOf(PAIR, A, 0));
    ReachNext(PAIR, A, LeaderCleanup(0, {}));
    var B := Next(PAIR, A, LeaderCleanup(0, {}));
    CleanupRow(A, 0, [-1, 0]);
    var C := DoHandOver(B, 0, 1);
    assert OwnRow(PAIR, C, 1) == OwnRow(PAIR, A, 1) && OwnRow(PAIR, C, 0) == OwnRow(PAIR, B, 0);
    ReachNext(PAIR, C, FollowerCleanup(1, 0, {}));
    S := Next(PAIR, C, FollowerCleanup(1, 0, {}));
    CleanupRow(C, 1, [-1, 0]);
  }

  /**
   Survivors need not agree: here is a run in which both members clean up with the same
   trim, yet have not delivered the same messages.  Member 0 had received a message beyond
   its sender's bound but numbered below the end of the trim, and delivers it.
   */
  lemma SurvivorsMayDisagree()
    ensures exists S :: && Reachable(PAIR, S) && Inv(PAIR, S)
                        && OwnRow(PAIR, S, 0).globalMinReady && OwnRow(PAIR, S, 1).globalMinReady
                        && OwnRow(PAIR, S, 0).globalMin == OwnRow(PAIR, S, 1).globalMin
                        && S.nodes[0].log != S.nodes[1].log
  {
    hide Inv, Reachable, View, Shape, TrimEnd;
    var S := UntilCleaned();
    InvShape(PAIR, S);
    EndOfPairTrim();
    SurvivorsAgreeIff(PAIR, S, 0, 1);
    assert Capped([0, 0], [-1, 0], 0) != Capped([-1, 0], [-1, 0], 0);
  }

  lemma EndOfPairTrim()
    ensures EndOfTrim(2, [-1, 0]) == 1
  {
    assert [-1, 0][..1] == [-1] && [-1][..0] == [];
    assert TrimEnd(2, -1, []) == -1;
    assert TrimEnd(2, -1, [-1]) == -1;
  }
}
