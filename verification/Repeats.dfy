/**
 Two runs of two members: one ends a view with a message that a member misses for good, the
 other with a message that a member has delivered and will be sent again.
 */
module Repeats {
  import opened Collections
  import opened Numbering
  import opened SharedTable
  import opened Messages
  import opened GroupSpec
  import opened Multicast
  import opened MulticastInv
  import opened MulticastRuns
  import opened Delivery
  import opened OwnStream
  import opened AcrossViews
  import opened Disagreement

  /** Both have cleaned up with one trim. */
  ghost predicate Cleaned(S: System) {
    && Reachable(PAIR, S) && Inv(PAIR, S) && WellShaped(PAIR, S)
    && OwnRow(PAIR, S, 0).globalMinReady && OwnRow(PAIR, S, 1).globalMinReady
    && OwnRow(PAIR, S, 0).globalMin == OwnRow(PAIR, S, 1).globalMin
  }

  /** Member 0 has delivered its own message, and does not send it again; member 1 never gets it. */
  lemma MayBeMissed()
    ensures exists S :: Cleaned(S) && From(S, 0, 1) < From(S, 0, 0)
  {
    hide Inv, Reachable, View, Shape, TrimEnd, OwnMessages, Unsent;
    var S := UntilCleaned();
    InvShape(PAIR, S);
    EndOfPairTrim();
    CarriedExactlyIff(PAIR, S, 0, 1);
    assert Capped([-1, 0], [-1, 0], 0) < Capped([0, 0], [-1, 0], 0);
    assert Cleaned(S);
  }

  /** Both have sent; member 1 has received both messages, member 0 only the other's; both are wedged and see it. */
  lemma UntilWedgedToo() returns (S: System)
    ensures Reachable(PAIR, S) && Inv(PAIR, S)
    ensures At(S, [true, true], [[0, 1], [1, 1]], [{}, {}], [[-1, 0], [0, 0]], [true, true])
    ensures View(2, S.table, 0, 1) == OwnRow(PAIR, S, 1) && View(2, S.table, 1, 0) == OwnRow(PAIR, S, 0)
  {
    hide Inv, Reachable, At, Init;
    var e: seq<set<nat>> := [{}, {}];
    S := BothBegin();
    S := DoComplete(S, 1, 1, [true, true], [[0, 0], [0, 0]], e, [[-1, -1], [-1, -1]], [false, false]);
    assert [0, 0][1 := 1] == [0, 1] && [-1, -1][1 := 0] == [-1, 0];
    assert [[0, 0], [0, 0]][1 := [0, 1]] == [[0, 0], [0, 1]];
    assert e[1 := e[1] - {1}][1] == e[1];
    assert e[1 := e[1] - {1}] == e;
    assert [[-1, -1], [-1, -1]][1 := [-1, 0]] == [[-1, -1], [-1, 0]];
    S := Receives(S, 1, 0, [[0, 0], [0, 1]], [[-1, -1], [-1, 0]]);
    assert [0, 1][0 := 1] == [1, 1] && [-1, 0][0 := 0] == [0, 0];
    assert [[0, 0], [0, 1]][1 := [1, 1]] == [[0, 0], [1, 1]] && [[-1, -1], [-1, 0]][1 := [0, 0]] == [[-1, -1], [0, 0]];
    S := Receives(S, 0, 1, [[0, 0], [1, 1]], [[-1, -1], [0, 0]]);
    assert [[0, 0], [1, 1]][0 := [0, 1]] == [[0, 1], [1, 1]] && [[-1, -1], [0, 0]][0 := [-1, 0]] == [[-1, 0], [0, 0]];
    S := DoWedge(S, 0, [true, true], [[0, 1], [1, 1]], e, [[-1, 0], [0, 0]], [false, false]);
    assert [false, false][0 := true] == [true, false];
    S := DoWedge(S, 1, [true, true], [[0, 1], [1, 1]], e, [[-1, 0], [0, 0]], [true, false]);
    assert [true, false][1 := true] == [true, true];
    S := ShowRows(S, [true, true], [[0, 1], [1, 1]], e, [[-1, 0], [0, 0]], [true, true]);
  }

  lemma BothBegin() returns (S: System)
    ensures Reachable(PAIR, S) && Inv(PAIR, S)
    ensures At(S, [true, true], [[0, 0], [0, 0]], [{}, {}], [[-1, -1], [-1, -1]], [false, false])
  {
    hide Inv, Reachable, At, Init;
    StartReachable();
    StartAt();
    var e: seq<set<nat>> := [{}, {}];
    S := DoBeginSend(Start(), 0, [false, false], [[0, 0], [0, 0]], e, [[-1, -1], [-1, -1]], [false, false]);
    assert [false, false][0 := true] == [true, false];
    S := DoBeginSend(S, 1, [true, false], [[0, 0], [0, 0]], e, [[-1, -1], [-1, -1]], [false, false]);
    assert [true, false][1 := true] == [true, true];
  }

  /** Member j takes a buffer for the other's message and has it whole. */
  lemma Receives(S: System, j: nat, s: nat, got: seq<seq<nat>>, counts: seq<seq<int>>) returns (S': System)
    requires |got| == |counts| == 2 && At(S, [true, true], got, [{}, {}], counts, [false, false])
    requires Reachable(PAIR, S) && Inv(PAIR, S) && j < 2 && s < 2 && s != j && |got[j]| == 2 && got[j][s] == 0
    ensures Reachable(PAIR, S') && Inv(PAIR, S') && |counts[j]| == 2
    ensures At(S', [true, true], got[j := got[j][s := 1]], [{}, {}], counts[j := counts[j][s := counts[j][s] + 1]], [false, false])
  {
    hide Inv, Reachable, At;
    var e: seq<set<nat>> := [{}, {}];
    S' := DoTakeBuffer(S, j, s, [true, true], got, e, counts, [false, false]);
    var b := e[j := e[j] + {s}];
    assert b[j] == {s};
    S' := DoComplete(S', j, s, [true, true], got, b, counts, [false, false]);
    assert b[j := b[j] - {s}] == e;
  }

  lemma TrimOfPairToo(sst: Sst)
    requires SstShape(2, sst) && sst[0].nReceived == [-1, 0] && sst[1].nReceived == [0, 0]
    requires !sst[0].globalMinReady && !sst[1].globalMinReady
    ensures LeaderTrim(2, sst) == [-1, 0]
  {
    assert Column(2, sst, 0) == [-1, 0] && Column(2, sst, 1) == [0, 0];
    assert [-1, 0][1..] == [0] && [0, 0][1..] == [0];
    assert FirstReady(sst, 2) == 2 && FirstReady(sst, 1) == 2;
  }

  lemma UntilCleanedToo() returns (S: System)
    ensures Reachable(PAIR, S) && Inv(PAIR, S)
    ensures forall j :: 0 <= j < 2 ==> OwnRow(PAIR, S, j).globalMinReady && OwnRow(PAIR, S, j).globalMin == [-1, 0]
    ensures OwnRow(PAIR, S, 0).nReceived == [-1, 0] && OwnRow(PAIR, S, 1).nReceived == [0, 0]
  {
    hide Inv, Reachable, Shape, View, AfterCleanup, LeaderTrim;
    var A := UntilWedgedToo();
    TrimOfPairToo(TableOf(PAIR, A, 0));
    ReachNext(PAIR, A, LeaderCleanup(0, {}));
    var B := Next(PAIR, A, LeaderCleanup(0, {}));
    CleanupRow(A, 0, [-1, 0]);
    var C := DoHandOver(B, 0, 1);
    assert OwnRow(PAIR, C, 1) == OwnRow(PAIR, A, 1) && OwnRow(PAIR, C, 0) == OwnRow(PAIR, B, 0);
    ReachNext(PAIR, C, FollowerCleanup(1, 0, {}));
    S := Next(PAIR, C, FollowerCleanup(1, 0, {}));
    CleanupRow(C, 1, [-1, 0]);
  }

  /** Member 1 has delivered member 0's message, and it is the first that member 0 will send in the next view. */
  lemma MayBeRepeated()
    ensures exists S :: Cleaned(S) && From(S, 0, 0) < From(S, 0, 1) && Unsent(S.nodes[0], 0) != []
                        && From(S, 0, 1)[|From(S, 0, 0)|] == Unsent(S.nodes[0], 0)[0]
  {
    hide Inv, Reachable, View, Shape, TrimEnd, OwnMessages, Unsent;
    var S := UntilCleanedToo();
    InvShape(PAIR, S);
    EndOfPairTrim();
    CarriedExactlyIff(PAIR, S, 0, 1);
    assert Capped([0, 0], [-1, 0], 0) > Capped([-1, 0], [-1, 0], 0);
    OwnStreamConserved(PAIR, S, 0);
    assert S.accepted[0][|From(S, 0, 0)|] == Unsent(S.nodes[0], 0)[0];
    assert Cleaned(S);
  }
}
