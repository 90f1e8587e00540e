/** When a client is granted a position, and when a message goes out: exactly, and never held up for want of a buffer. */
module Positions {
  import opened Collections
  import opened Numbering
  import opened SharedTable
  import opened Messages
  import opened GroupSpec
  import opened MemberInvariant
  import opened MemberSteps
  import opened Multicast
  import opened MulticastInv
  import opened Buffers
  import opened MulticastRuns
  import opened Delivery
  import opened OwnStream
  import opened ClientWords
  import opened Receiving

  /** Member i shows that it has delivered all of member me's turns up to and including turn x. */
  predicate Shown(n: nat, me: nat, row: Row, x: int) {
    forall y :: 0 <= y <= x ==> SeqNo(n, me, y) <= row.deliveredNum
  }

  /**
   The window, in terms of turns: it is open for a turn exactly if every member shows that it
   has delivered all turns that are a whole window or more before it.  So it is always open
   for the first window of turns.
   */
  lemma WindowOpenIff(c: Config, me: nat, sst: Sst, index: int)
    requires me < c.n && forall i :: 0 <= i < |sst| ==> sst[i].deliveredNum >= -1
    ensures WindowOpen(c, me, sst, index) <==> forall i :: 0 <= i < |sst| ==> Shown(c.n, me, sst[i], index - c.window)
  {
    hide SeqNo;
    var x := index - c.window;
    forall i | 0 <= i < |sst| ensures sst[i].deliveredNum >= SeqNo(c.n, me, x) <==> Shown(c.n, me, sst[i], x) {
      if x < 0 {
        BeforeFirst(c.n, me, x);
      }
      if sst[i].deliveredNum >= SeqNo(c.n, me, x) {
        forall y | 0 <= y <= x ensures SeqNo(c.n, me, y) <= sst[i].deliveredNum {
          SeqNoGrows(c.n, me, y, x);
        }
      }
    }
  }

  lemma BeforeFirst(n: nat, me: nat, x: int)
    requires me < n && x < 0
    ensures SeqNo(n, me, x) <= -1
  {
    assert (-x - 1) * n >= 0;
    assert (-x - 1) * n == -(x * n) - n;
  }

  lemma SeqNoGrows(n: nat, me: nat, y: int, x: int)
    requires y <= x
    ensures SeqNo(n, me, y) <= SeqNo(n, me, x)
  {
    Multiple(n, x - y);
    assert (x - y) * n == x * n - y * n;
  }

  // ---------------------------------------------------------------- a buffer for every position

  /** The same state with one buffer more at member j. */
  function OneMore(S: System, j: nat): System
    requires j < |S.nodes|
  {
    var x := S.nodes[j];
    SetMember(S, j, x.(freeBuffers := x.freeBuffers + 1, totalBuffers := x.totalBuffers + 1))
  }

  lemma OneMoreInv(c: Config, S: System, j: nat)
    requires Inv(c, S) && j < c.n
    ensures Inv(c, OneMore(S, j)) && WellShaped(c, OneMore(S, j))
  {
    hide TableInv, Shape, View, MemberInv, StreamOk, Windowed;
    var S', x := OneMore(S, j), S.nodes[j];
    OneMoreMember(c, j, x, OwnRow(c, S, j), S.sent, S.got[j], S.busy[j]);
    StreamDepends(j, x, S'.nodes[j], S.sent[j], S.accepted[j]);
    forall s | 0 <= s < c.n ensures Stream(S', s) == Stream(S, s) {
    }
    assert MembersOk(c, S');
    assert StreamsOk(c, S');
    assert WindowsOk(c, S');
  }

  lemma OneMoreMember(c: Config, j: nat, x: Node, row: Row, sent: seq<seq<Message>>, got: seq<nat>, busy: set<nat>)
    requires MemberInv(c.n, j, x, row, sent, got, busy)
    ensures MemberInv(c.n, j, x.(freeBuffers := x.freeBuffers + 1, totalBuffers := x.totalBuffers + 1), row, sent, got, busy)
  {
    hide CountsOk, FiledOk, TransitOk, LogOk, RowOk;
  }

  /** No member ever uses more buffers than a window for each sender. */
  lemma UsedBuffers(c: Config, S: System, j: nat)
    requires Inv(c, S) && j < c.n
    ensures BuffersUsed(S.nodes[j]) <= c.window * c.n
  {
    hide WindowsOk, TableInv, Shape, View, CountsOk, FiledOk, TransitOk, LogOk, RowOk, Held, AllWindows, BuffersUsed, StreamOk,
         Lasts, CurrentOk, BuffersOk;
    HeldInWindows(c, S, j);
    assert MemberInv(c.n, j, S.nodes[j], OwnRow(c, S, j), S.sent, S.got[j], S.busy[j]);
    assert StreamOk(j, S.nodes[j], S.sent[j], S.accepted[j]);
    HeldSize(c.n, j, S.nodes[j], OwnRow(c, S, j), S.sent, S.got[j], S.busy[j], S.accepted[j]);
    SubsetSize(Held(c.n, j, S.nodes[j]), AllWindows(c.n, Lasts(c, S), c.window, c.n));
  }

  /** Whatever a client asks for inside the window, a buffer is free for it. */
  lemma PositionHasBuffer(c: Config, S: System, j: nat, size: nat)
    requires Inv(c, S) && j < c.n && S.nodes[j].nextSend.None? && S.nodes[j].created && !S.nodes[j].shutdown
    requires MessageSize(c, size) <= c.maxMsgSize && WindowOpen(c, j, TableOf(c, S, j), S.nodes[j].futureIndex)
    ensures S.nodes[j].freeBuffers > 0
  {
    hide Inv, Shape, View, WindowOpen, SeqNo, BuffersUsed;
    InvShape(c, S);
    OneMoreInv(c, S, j);
    var T, step := OneMore(S, j), AskPosition(j, size, 0, false);
    assert TableOf(c, T, j) == TableOf(c, S, j);
    assert Offered(c, T, step) && AssertsHold(c, T, step);
    StepInv(c, T, step);
    UsedBuffers(c, Next(c, T, step), j);
    BuffersHold(c, S, j);
    BuffersHold(c, Next(c, T, step), j);
    EnoughBuffers(c, S, j);
  }

  lemma EnoughBuffers(c: Config, S: System, j: nat)
    requires Inv(c, S) && j < c.n
    ensures S.nodes[j].totalBuffers >= c.window * c.n
  {
    hide MemberInv, StreamsOk, WindowsOk, TableInv, Shape;
  }

  /** No row, as anyone sees it, shows less than nothing delivered. */
  lemma RowsLow(c: Config, S: System, j: nat)
    requires Inv(c, S) && j < c.n
    ensures forall i :: 0 <= i < c.n ==> TableOf(c, S, j)[i].deliveredNum >= -1
  {
    hide MembersOk, StreamsOk, WindowsOk, View, TwoStage, TrimsVouched;
    forall i | 0 <= i < c.n ensures TableOf(c, S, j)[i].deliveredNum >= -1 {
      SeenRow(c.n, S.table, j, i);
    }
  }

  /**
   A position, exactly.  In every run a client that holds none is granted one if and only if
   the group can send and has not stopped, the message with its 9 bytes of header is no
   larger than the largest allowed (0 asks for that one), and every member is seen to have
   delivered all of this member's turns that are a window or more before it.  A buffer is
   then always free.
   */
  lemma PositionGrantedIff(c: Config, run: seq<System>, steps: seq<Step>, a: nat, j: nat, size: nat, pause: nat, cooked: bool)
    requires IsRun(c, run, steps) && a < |run| && j < c.n
    ensures WellShaped(c, run[a]) && var S := run[a]; var x := S.nodes[j];
            Offered(c, S, AskPosition(j, size, pause, cooked)) <==>
              && x.nextSend.None? && x.created && !x.shutdown && (size == 0 || size + 9 <= c.maxMsgSize)
              && forall i :: 0 <= i < c.n ==> Shown(c.n, j, TableOf(c, S, j)[i], x.futureIndex - c.window)
  {
    hide Inv, IsRun, Shape, View, Shown, WindowOpen;
    RunInv(c, run, steps, a);
    InvShape(c, run[a]);
    RowsLow(c, run[a], j);
    var S := run[a];
    WindowOpenIff(c, j, TableOf(c, S, j), S.nodes[j].futureIndex);
    var x := S.nodes[j];
    if x.nextSend.None? && x.created && !x.shutdown && MessageSize(c, size) <= c.maxMsgSize && WindowOpen(c, j, TableOf(c, S, j), x.futureIndex) {
      PositionHasBuffer(c, S, j, size);
    }
  }

  // ---------------------------------------------------------------- when a message goes out

  /** For every message of its client's, member j itself sees the window open. */
  ghost predicate SeesWindows(c: Config, S: System, j: nat)
    requires WellShaped(c, S) && j < c.n
  {
    forall i :: 0 <= i < |Stream(S, j)| ==> WindowOpen(c, j, TableOf(c, S, j), Stream(S, j)[i].index)
  }

  lemma SeesAtStart(c: Config, S: System, j: nat)
    requires Init(c, S) && j < c.n
    ensures SeesWindows(c, S, j)
  {
    hide StreamOk, BuffersOk, SeqNo;
    var stream := Stream(S, j);
    forall i | 0 <= i < |stream| ensures WindowOpen(c, j, TableOf(c, S, j), stream[i].index) {
      assert stream[i] in S.nodes[j].pendingSends + OneOrNone(S.nodes[j].nextSend);
      BeforeFirst(c.n, j, stream[i].index - c.window);
    }
  }

  /** No member's sight of anything delivered goes back. */
  lemma SightAdvances(c: Config, S: System, step: Step, j: nat)
    requires Inv(c, S) && Offered(c, S, step) && AssertsHold(c, S, step) && j < c.n
    ensures WellShaped(c, Next(c, S, step))
    ensures forall i :: 0 <= i < c.n ==> TableOf(c, S, j)[i].deliveredNum <= TableOf(c, Next(c, S, step), j)[i].deliveredNum
  {
    hide MembersOk, StreamsOk, WindowsOk, TableInv, Next, Offered, AssertsHold, Shape, View, Apply, RowLe;
    StepInv(c, S, step);
    StepsAreTableSteps(c, S, step);
    var S' := Next(c, S, step);
    if TableStepOf(c, S, step).Some? {
      ViewsAdvance(c.n, S.table, TableStepOf(c, S, step).value);
      forall i | 0 <= i < c.n ensures TableOf(c, S, j)[i].deliveredNum <= TableOf(c, S', j)[i].deliveredNum {
        DeliveredAdvances(c.n, View(c.n, S.table, j, i), View(c.n, S'.table, j, i));
      }
    }
  }

  lemma DeliveredAdvances(n: nat, r: Row, r': Row)
    requires RowLe(n, r, r')
    ensures r.deliveredNum <= r'.deliveredNum
  {
  }

  lemma WindowStaysOpen(c: Config, j: nat, sst: Sst, sst': Sst, index: int)
    requires WindowOpen(c, j, sst, index) && |sst'| == |sst| && forall i :: 0 <= i < |sst| ==> sst[i].deliveredNum <= sst'[i].deliveredNum
    ensures WindowOpen(c, j, sst', index)
  {
    hide SeqNo;
  }

  /** A step leaves the indices of j's messages alone, but for the position j's client is granted. */
  lemma StreamIndices(c: Config, S: System, step: Step, j: nat)
    requires WellShaped(c, S) && Offered(c, S, step) && AssertsHold(c, S, step) && WellShaped(c, Next(c, S, step)) && j < c.n
    ensures var s, s' := Stream(S, j), Stream(Next(c, S, step), j);
            if step.AskPosition? && step.j == j
            then |s'| == |s| + 1 && s' == s + [s'[|s|]] && s'[|s|].index == S.nodes[j].futureIndex
                 && WindowOpen(c, j, TableOf(c, S, j), S.nodes[j].futureIndex)
            else |s'| == |s| && forall i :: 0 <= i < |s| ==> s'[i].index == s[i].index
  {
    hide Shape, View, WindowOpen, ShouldSend, CanDeliver;
    if (step.AskPosition? || step.ClientSend?) && step.j == j {
    } else {
      hide Offered, Next, AssertsHold;
      OthersSayNothing(c, S, step, j);
    }
  }

  lemma SeesStep(c: Config, S: System, step: Step, j: nat)
    requires Inv(c, S) && WellShaped(c, S) && Offered(c, S, step) && AssertsHold(c, S, step) && WellShaped(c, Next(c, S, step))
    requires j < c.n && SeesWindows(c, S, j)
    ensures SeesWindows(c, Next(c, S, step), j)
  {
    hide Inv, Offered, AssertsHold, Next, WindowOpen, Shape, View;
    var S' := Next(c, S, step);
    SightAdvances(c, S, step, j);
    StreamIndices(c, S, step, j);
    forall i | 0 <= i < |Stream(S', j)| ensures WindowOpen(c, j, TableOf(c, S', j), Stream(S', j)[i].index) {
      WindowStaysOpen(c, j, TableOf(c, S, j), TableOf(c, S', j), Stream(S', j)[i].index);
    }
  }

  lemma {:induction false} RunSees(c: Config, run: seq<System>, steps: seq<Step>, k: nat, j: nat)
    requires IsRun(c, run, steps) && k < |run| && j < c.n
    ensures WellShaped(c, run[k]) && SeesWindows(c, run[k], j)
    decreases k
  {
    hide Inv, Init, Offered, AssertsHold, Next, WellShaped, SeesWindows;
    assert WellShaped(c, run[k]);
    if k == 0 {
      SeesAtStart(c, run[0], j);
    } else {
      RunSees(c, run, steps, k - 1, j);
      RunInv(c, run, steps, k - 1);
      SeesStep(c, run[k - 1], steps[k - 1], j);
    }
  }

  lemma SeesFirst(c: Config, S: System, j: nat)
    requires Inv(c, S) && WellShaped(c, S) && j < c.n && SeesWindows(c, S, j) && S.nodes[j].pendingSends != []
    ensures WindowOpen(c, j, TableOf(c, S, j), S.nodes[j].pendingSends[0].index)
  {
    hide MembersOk, WindowsOk, TableInv, Shape, View, WindowOpen, Indexed;
    assert StreamOk(j, S.nodes[j], S.sent[j], S.accepted[j]);
    assert Stream(S, j)[|S.sent[j]|] == S.nodes[j].pendingSends[0];
  }

  /**
   A send, exactly.  In every run the message at the front goes out if and only if the group
   can send and has not stopped, and the member has received all its own turns before the
   message's: the window, which the sender looks at once more, is open for whatever has been
   granted a position, in this view or the one before.
   */
  lemma SendGoesIff(c: Config, run: seq<System>, steps: seq<Step>, a: nat, j: nat)
    requires IsRun(c, run, steps) && a < |run| && j < c.n
    ensures WellShaped(c, run[a]) && var S := run[a]; var x := S.nodes[j];
            Offered(c, S, BeginSend(j)) <==>
              x.created && !x.shutdown && x.pendingSends != [] && OwnRow(c, S, j).nReceived[j] + 1 == x.pendingSends[0].index
  {
    hide Inv, IsRun, Shape, View, WindowOpen, SeesWindows;
    RunInv(c, run, steps, a);
    RunSees(c, run, steps, a, j);
    var S := run[a];
    if S.nodes[j].pendingSends != [] {
      SeesFirst(c, S, j);
      if Offered(c, S, BeginSend(j)) {
        OneSendOutstanding(c, S, j);
      }
    }
  }

  // ---------------------------------------------------------------- a position can be used

  lemma HoldsStep(c: Config, S: System, step: Step, j: nat)
    requires WellShaped(c, S) && Offered(c, S, step) && AssertsHold(c, S, step) && j < c.n
    requires WellShaped(c, Next(c, S, step))
    ensures Next(c, S, step).nodes[j].created == S.nodes[j].created
    ensures S.nodes[j].nextSend.Some? && !(step.ClientSend? && step.j == j) ==>
              Next(c, S, step).nodes[j].nextSend == S.nodes[j].nextSend
  {
    hide Shape, View, CanReceive, ShouldSend, CanDeliver, Publish, HandOver, DeliverRange, TrimEnd, FileSkips, LeaderTrim;
    if step.LeaderCleanup? || step.FollowerCleanup? {
      var x, row := S.nodes[step.j], OwnRow(c, S, step.j);
      var g := if step.LeaderCleanup? then LeaderTrim(c.n, TableOf(c, S, step.j))
               else TableOf(c, S, step.j)[step.leader].globalMin;
      DeliverRangeFrame(x, row.deliveredNum, TrimEnd(c.n, row.deliveredNum, g));
    }
  }

  /** A position that has been granted stays good: until the member stops its client can send in it. */
  lemma {:induction false} PositionStaysGood(c: Config, run: seq<System>, steps: seq<Step>, k: nat, a: nat, j: nat, payload: seq<byte>)
    requires IsRun(c, run, steps) && k < a < |run| && j < c.n
    requires steps[k].AskPosition? && steps[k].j == j
    requires forall i :: k < i < a ==> !(steps[i].ClientSend? && steps[i].j == j)
    ensures WellShaped(c, run[a]) && run[a].nodes[j].created && run[a].nodes[j].nextSend.Some?
    ensures run[a].nodes[j].nextSend == run[k + 1].nodes[j].nextSend
    ensures Offered(c, run[a], ClientSend(j, payload)) <==> !run[a].nodes[j].shutdown
    decreases a
  {
    hide Inv, Shape, View, IsRun, Next, CanReceive, ShouldSend, CanDeliver, WindowOpen;
    IsRunLength(c, run, steps);
    RunInv(c, run, steps, a - 1);
    RunInv(c, run, steps, a);
    InvShape(c, run[a - 1]);
    InvShape(c, run[a]);
    HoldsStep(c, run[a - 1], steps[a - 1], j);
    if k == a - 1 {
      AskGranted(c, run[k], steps[k]);
    } else {
      PositionStaysGood(c, run, steps, k, a - 1, j, payload);
    }
  }
}
