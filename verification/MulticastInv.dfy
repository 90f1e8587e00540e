/** The invariant of Multicast holds at the start of a view and every step keeps it. */
module MulticastInv {
  import opened Collections
  import opened Numbering
  import opened SharedTable
  import opened Messages
  import opened GroupSpec
  import opened MemberInvariant
  import opened MemberSteps
  import opened Multicast

  // ---------------------------------------------------------------- the start of a view

  lemma InitialMemberOk(c: Config, j: nat, x: Node, sent: seq<seq<Message>>, got: seq<nat>)
    requires c.n > 0 && j < c.n && |sent| == |got| == c.n && InitialMember(c, j, x)
    requires forall s :: 0 <= s < c.n ==> sent[s] == [] && got[s] == 0
    ensures MemberInv(c.n, j, x, InitialRow(c.n), sent, got, {})
  {
    hide RowOk, BuffersOk, StreamOk, Received, Slot, SeqNo;
    var row := InitialRow(c.n);
    InitialRowOk(c.n);
    forall q ensures !Received(row.nReceived, q) {
      NothingReceived(c.n, q);
    }
    assert ReceivedUpto(row.nReceived, -1) == [];
  }

  lemma NothingReceived(n: nat, q: int)
    requires n > 0
    ensures !Received(InitialRow(n).nReceived, q)
  {
    SplitSeqNo(n, q);
  }

  lemma InitialWindow(c: Config, s: nat, stream: seq<Message>)
    requires s < c.n
    requires forall m :: m in stream ==> m.index < c.window
    ensures Windowed(c, s, stream, -1)
  {
    forall i | 0 <= i < |stream| ensures SeqNo(c.n, s, stream[i].index - c.window) <= -1 {
      assert stream[i] in stream;
      JoinSeqNo(c.n, s, stream[i].index - c.window);
    }
  }

  lemma InitInv(c: Config, S: System)
    requires Init(c, S)
    ensures Inv(c, S)
  {
    hide InitialMember, MemberInv, StreamOk, Windowed, TableInv;
    InitialTableInv(c.n);
    InitPieces(c, S);
  }

  lemma InitPieces(c: Config, S: System)
    requires Init(c, S)
    ensures MembersOk(c, S) && StreamsOk(c, S) && WindowsOk(c, S)
  {
    hide MemberInv, StreamOk, Windowed, BuffersOk;
    forall j | 0 <= j < c.n
      ensures MemberInv(c.n, j, S.nodes[j], OwnRow(c, S, j), S.sent, S.got[j], S.busy[j])
    {
      InitialMemberOk(c, j, S.nodes[j], S.sent, S.got[j]);
    }
    forall s, k | 0 <= s < c.n && 0 <= k < c.n
      ensures Windowed(c, s, Stream(S, s), OwnRow(c, S, k).deliveredNum)
    {
      InitialWindow(c, s, Stream(S, s));
    }
  }

  // ---------------------------------------------------------------- one member changes

  ghost predicate OthersSame(c: Config, S: System, S': System, j: nat)
    requires WellShaped(c, S) && WellShaped(c, S')
  {
    forall k :: 0 <= k < c.n && k != j ==>
      S'.nodes[k] == S.nodes[k] && S'.got[k] == S.got[k] && S'.busy[k] == S.busy[k]
      && S'.accepted[k] == S.accepted[k] && OwnRow(c, S', k) == OwnRow(c, S, k)
  }

  lemma MemberChanged(c: Config, S: System, S': System, j: nat)
    requires Inv(c, S) && WellShaped(c, S') && TableInv(c.n, S'.table)
    requires j < c.n && S'.sent == S.sent && OthersSame(c, S, S', j)
    requires MemberInv(c.n, j, S'.nodes[j], OwnRow(c, S', j), S'.sent, S'.got[j], S'.busy[j])
    requires S'.nodes[j].totalBuffers == S.nodes[j].totalBuffers
    requires StreamOk(j, S'.nodes[j], S'.sent[j], S'.accepted[j])
    requires OwnRow(c, S, j).deliveredNum <= OwnRow(c, S', j).deliveredNum
    requires forall k :: 0 <= k < c.n ==> Windowed(c, j, Stream(S', j), OwnRow(c, S, k).deliveredNum)
    ensures Inv(c, S')
  {
    hide MemberInv, StreamOk, Windowed, Shape, View, TableInv;
    forall s, k | 0 <= s < c.n && 0 <= k < c.n
      ensures Windowed(c, s, Stream(S', s), OwnRow(c, S', k).deliveredNum)
    {
      assert s != j ==> Windowed(c, s, Stream(S, s), OwnRow(c, S, k).deliveredNum) && Stream(S', s) == Stream(S, s);
      WindowedMonotone(c, s, Stream(S', s), OwnRow(c, S, k).deliveredNum, OwnRow(c, S', k).deliveredNum);
    }
  }

  lemma WindowedMonotone(c: Config, s: nat, stream: seq<Message>, d: int, d': int)
    requires Windowed(c, s, stream, d) && d <= d'
    ensures Windowed(c, s, stream, d')
  {
  }

  /** A step that leaves the member's own stream and the table alone. */
  lemma QuietChange(c: Config, S: System, S': System, j: nat)
    requires Inv(c, S) && WellShaped(c, S') && j < c.n
    requires S'.table == S.table && S'.sent == S.sent && OthersSame(c, S, S', j)
    requires S'.accepted[j] == S.accepted[j] && S'.nodes[j].nextSend == S.nodes[j].nextSend
    requires S'.nodes[j].totalBuffers == S.nodes[j].totalBuffers
    requires MemberInv(c.n, j, S'.nodes[j], OwnRow(c, S', j), S'.sent, S'.got[j], S'.busy[j])
    requires StreamOk(j, S'.nodes[j], S'.sent[j], S'.accepted[j])
    ensures Inv(c, S')
  {
    hide MemberInv, StreamOk, Windowed, Shape, View, TableInv;
    forall k | 0 <= k < c.n ensures Windowed(c, j, Stream(S', j), OwnRow(c, S, k).deliveredNum) {
      assert Windowed(c, j, Stream(S, j), OwnRow(c, S, k).deliveredNum);
    }
    MemberChanged(c, S, S', j);
  }

  // ---------------------------------------------------------------- sending

  lemma OpenWindow(c: Config, S: System, j: nat, index: int, k: nat)
    requires Inv(c, S) && j < c.n && k < c.n && WindowOpen(c, j, TableOf(c, S, j), index)
    ensures SeqNo(c.n, j, index - c.window) <= OwnRow(c, S, k).deliveredNum
  {
    hide MembersOk, StreamsOk, WindowsOk, SeqNo, RowOk;
    SeenRow(c.n, S.table, j, k);
  }

  lemma AskPositionStream(c: Config, j: nat, x: Node, sent: seq<Message>, accepted: seq<Message>,
                          payloadSize: nat, pause: nat, cooked: bool)
    requires StreamOk(j, x, sent, accepted) && x.nextSend.None? && x.freeBuffers > 0
    requires c.maxMsgSize >= HEADER_SIZE
    ensures StreamOk(j, GetPosition(c, j, x, payloadSize, pause, cooked), sent, accepted)
  {
    var x' := GetPosition(c, j, x, payloadSize, pause, cooked);
    var m := x'.nextSend.value;
    assert accepted + OneOrNone(x.nextSend) == accepted;
    IndexedAppend(j, accepted, m);
    ExpandAppend(accepted, m);
  }

  lemma AskPositionInv(c: Config, S: System, j: nat, payloadSize: nat, pause: nat, cooked: bool)
    requires Inv(c, S) && j < c.n && S.nodes[j].nextSend.None?
    requires CanGetPosition(c, j, S.nodes[j], TableOf(c, S, j), payloadSize)
    ensures Inv(c, AfterAsk(c, S, j, payloadSize, pause, cooked))
  {
    hide MemberInv, StreamOk, Windowed, Shape, View, TableInv, WindowOpen;
    var x, S' := S.nodes[j], AfterAsk(c, S, j, payloadSize, pause, cooked);
    AskPositionStream(c, j, x, S.sent[j], S.accepted[j], payloadSize, pause, cooked);
    GetPositionKeeps(c, j, x, OwnRow(c, S, j), S.sent, S.got[j], S.busy[j], payloadSize, pause, cooked);
    forall k | 0 <= k < c.n ensures Windowed(c, j, Stream(S', j), OwnRow(c, S, k).deliveredNum) {
      assert Windowed(c, j, Stream(S, j), OwnRow(c, S, k).deliveredNum);
      OpenWindow(c, S, j, x.futureIndex, k);
      assert Stream(S', j) == Stream(S, j) + [S'.nodes[j].nextSend.value];
      WindowExtends(c, j, Stream(S, j), S'.nodes[j].nextSend.value, OwnRow(c, S, k).deliveredNum);
    }
    MemberChanged(c, S, S', j);
  }

  lemma WindowExtends(c: Config, s: nat, stream: seq<Message>, m: Message, d: int)
    requires Windowed(c, s, stream, d) && SeqNo(c.n, s, m.index - c.window) <= d
    ensures Windowed(c, s, stream + [m], d)
  {
    hide SeqNo;
  }

  lemma FilledStream(j: nat, x: Node, sent: seq<Message>, accepted: seq<Message>, payload: seq<byte>)
    requires StreamOk(j, x, sent, accepted) && x.nextSend.Some?
    ensures StreamOk(j, Send(x, payload), sent, accepted + [Filled(x.nextSend.value, payload)])
  {
    var m := x.nextSend.value;
    var m' := Filled(m, payload);
    var all := accepted + [m];
    assert all[..|accepted|] == accepted && all[|accepted|] == m;
    IndexedPrefix(j, all, |accepted|);
    IndexedAppend(j, accepted, m');
    ExpandAppend(accepted, m);
    ExpandAppend(accepted, m');
    assert accepted + [m'] + OneOrNone(Send(x, payload).nextSend) == accepted + [m'];
    assert |Turn(m')| == |Turn(m)|;
  }

  lemma ClientSendInv(c: Config, S: System, j: nat, payload: seq<byte>)
    requires Inv(c, S) && j < c.n && S.nodes[j].nextSend.Some?
    ensures Inv(c, AfterClientSend(S, j, payload))
  {
    hide MemberInv, StreamOk, Windowed, Shape, View, TableInv;
    var x, S' := S.nodes[j], AfterClientSend(S, j, payload);
    FilledStream(j, x, S.sent[j], S.accepted[j], payload);
    SendKeeps(c.n, j, x, OwnRow(c, S, j), S.sent, S.got[j], S.busy[j], payload);
    forall k | 0 <= k < c.n ensures Windowed(c, j, Stream(S', j), OwnRow(c, S, k).deliveredNum) {
      assert Windowed(c, j, Stream(S, j), OwnRow(c, S, k).deliveredNum);
      WindowFilled(c, j, S.accepted[j], x.nextSend.value, payload, OwnRow(c, S, k).deliveredNum);
      assert Stream(S', j) == S.accepted[j] + [Filled(x.nextSend.value, payload)];
    }
    MemberChanged(c, S, S', j);
  }

  lemma WindowFilled(c: Config, s: nat, accepted: seq<Message>, m: Message, payload: seq<byte>, d: int)
    requires Windowed(c, s, accepted + [m], d)
    ensures Windowed(c, s, accepted + [Filled(m, payload)], d)
  {
    hide SeqNo;
    var all, all' := accepted + [m], accepted + [Filled(m, payload)];
    forall i | 0 <= i < |all'| ensures SeqNo(c.n, s, all'[i].index - c.window) <= d {
      assert all[i].index == all'[i].index;
    }
  }

  lemma BeginSendInv(c: Config, S: System, j: nat)
    requires Inv(c, S) && j < c.n && ShouldSend(c, j, S.nodes[j], TableOf(c, S, j))
    ensures Inv(c, AfterBeginSend(S, j))
  {
    hide MemberInv, Windowed, Shape, View, TableInv, WindowOpen, StreamOk;
    var x, S', m := S.nodes[j], AfterBeginSend(S, j), S.nodes[j].pendingSends[0];
    BeginSendStream(j, x, S.sent[j], S.accepted[j]);
    forall k | 0 <= k < c.n
      ensures MemberInv(c.n, k, S'.nodes[k], OwnRow(c, S, k), S'.sent, S'.got[k], S'.busy[k])
    {
      if k == j {
        StartSendKeeps(c, j, x, OwnRow(c, S, j), S.sent, S.got[j], S.busy[j], S.accepted[j]);
      } else {
        OthersSendKeeps(c.n, k, S.nodes[k], OwnRow(c, S, k), S.sent, S.got[k], S.busy[k], j, m);
      }
    }
    forall s, k | 0 <= s < c.n && 0 <= k < c.n
      ensures Windowed(c, s, Stream(S', s), OwnRow(c, S, k).deliveredNum)
    {
      assert Windowed(c, s, Stream(S, s), OwnRow(c, S, k).deliveredNum);
    }
  }

  lemma BeginSendStream(j: nat, x: Node, sent: seq<Message>, accepted: seq<Message>)
    requires StreamOk(j, x, sent, accepted) && x.pendingSends != []
    ensures StreamOk(j, StartSend(x), sent + [x.pendingSends[0]], accepted)
  {
    hide Indexed;
    assert x.pendingSends == [x.pendingSends[0]] + x.pendingSends[1..];
  }

  // ---------------------------------------------------------------- receiving

  lemma TakeBufferInv(c: Config, S: System, j: nat, s: nat)
    requires Inv(c, S) && j < c.n && BufferAsked(c, S, j, s) && S.nodes[j].freeBuffers > 0
    ensures Inv(c, AfterTakeBuffer(c, S, j, s))
  {
    hide MemberInv, Windowed, Shape, View, TableInv, StreamOk;
    var x := S.nodes[j];
    ReceiveDestinationKeeps(c, j, x, OwnRow(c, S, j), TableOf(c, S, j), S.sent, S.got[j], S.busy[j], s);
    StreamDepends(j, x, ReceiveDestination(c, j, x, TableOf(c, S, j), s, S.sent[s][S.got[j][s]].size),
                  S.sent[j], S.accepted[j]);
    QuietChange(c, S, AfterTakeBuffer(c, S, j, s), j);
  }

  lemma StreamDepends(j: nat, x: Node, x': Node, sent: seq<Message>, accepted: seq<Message>)
    requires StreamOk(j, x, sent, accepted)
    requires x'.nextSend == x.nextSend && x'.pendingSends == x.pendingSends && x'.futureIndex == x.futureIndex
    ensures StreamOk(j, x', sent, accepted)
  {
  }

  /** An own-row step of the tables: the new row is sound and further on, and only that row moves. */
  lemma RowChanged(c: Config, S: System, j: nat, change: RowChange)
    requires Inv(c, S) && j < c.n && Allowed(c.n, TableOf(c, S, j), j, change)
    ensures var r := NewRow(c.n, TableOf(c, S, j), j, change);
            var S' := SetRow(c, S, j, r);
            RowOk(c.n, r) && RowLe(c.n, OwnRow(c, S, j), r)
            && TableInv(c.n, S'.table) && OwnRow(c, S', j) == r
            && forall k :: 0 <= k < c.n && k != j ==> OwnRow(c, S', k) == OwnRow(c, S, k)
  {
    hide MembersOk, StreamsOk, WindowsOk, RowOk, RowLe, Allowed, NewRow;
    TableStepInv(c.n, S.table, Own(j, change));
    SeenRow(c.n, S.table, j, j);
    NewRowOk(c.n, TableOf(c, S, j), j, change);
    PublishViews(c.n, S.table, j, NewRow(c.n, TableOf(c, S, j), j, change));
  }

  /** A member's engine and row change; its own stream does not. */
  lemma EngineAndRow(c: Config, S: System, S': System, j: nat, change: RowChange)
    requires Inv(c, S) && j < c.n && Allowed(c.n, TableOf(c, S, j), j, change)
    requires WellShaped(c, S')
    requires S'.table == SetRow(c, S, j, NewRow(c.n, TableOf(c, S, j), j, change)).table
    requires S'.sent == S.sent && S'.accepted == S.accepted
    requires forall k :: 0 <= k < c.n && k != j ==>
               S'.nodes[k] == S.nodes[k] && S'.got[k] == S.got[k] && S'.busy[k] == S.busy[k]
    requires S'.nodes[j].nextSend == S.nodes[j].nextSend
    requires S'.nodes[j].pendingSends == S.nodes[j].pendingSends
    requires S'.nodes[j].futureIndex == S.nodes[j].futureIndex
    requires S'.nodes[j].totalBuffers == S.nodes[j].totalBuffers
    requires MemberInv(c.n, j, S'.nodes[j], NewRow(c.n, TableOf(c, S, j), j, change), S'.sent, S'.got[j], S'.busy[j])
    ensures Inv(c, S')
  {
    hide MemberInv, Windowed, Shape, View, TableInv, StreamOk, RowOk, Allowed, NewRow, Publish;
    RowChanged(c, S, j, change);
    StreamDepends(j, S.nodes[j], S'.nodes[j], S.sent[j], S.accepted[j]);
    forall k | 0 <= k < c.n ensures Windowed(c, j, Stream(S', j), OwnRow(c, S, k).deliveredNum) {
      assert Windowed(c, j, Stream(S, j), OwnRow(c, S, k).deliveredNum);
    }
    MemberChanged(c, S, S', j);
  }

  lemma SentIndexed(j: nat, x: Node, sent: seq<Message>, accepted: seq<Message>)
    requires StreamOk(j, x, sent, accepted)
    ensures Indexed(j, sent)
  {
    hide Indexed;
    var all := accepted + OneOrNone(x.nextSend);
    assert all[..|sent|] == sent;
    IndexedPrefix(j, all, |sent|);
  }

  lemma CompleteInv(c: Config, S: System, j: nat, s: nat)
    requires Inv(c, S) && j < c.n && Arriving(c, S, j, s)
    requires CanReceive(c, j, S.nodes[j], TableOf(c, S, j), s)
    ensures Inv(c, AfterComplete(c, S, j, s))
  {
    hide Windowed, Shape, View, TableInv, StreamOk, RowOk, CountsOk, CurrentOk, TransitOk, FiledOk, LogOk, BuffersOk,
         CanReceive, AfterReceive;
    var x, sst, row := S.nodes[j], TableOf(c, S, j), OwnRow(c, S, j);
    var m := S.sent[s][S.got[j][s]];
    var v := CountsAfter(sst, j, s, m.body.pause);
    SentIndexed(s, S.nodes[s], S.sent[s], S.accepted[s]);
    RowChanged(c, S, j, Receive(v));
    ReceiveHandlerKeeps(c, j, x, row, AfterReceive(row, v), sst, S.sent, S.got[j], S.busy[j], s);
    hide MemberInv;
    EngineAndRow(c, S, AfterComplete(c, S, j, s), j, Receive(v));
  }

  // ---------------------------------------------------------------- triggers

  lemma StabilityInv(c: Config, S: System, j: nat)
    requires Inv(c, S) && j < c.n && !S.nodes[j].shutdown
    ensures Inv(c, SetRow(c, S, j, AfterStability(TableOf(c, S, j), j)))
  {
    hide Windowed, Shape, View, TableInv, StreamOk, RowOk, CountsOk, CurrentOk, TransitOk, FiledOk, LogOk, BuffersOk;
    var x, row, r := S.nodes[j], OwnRow(c, S, j), AfterStability(TableOf(c, S, j), j);
    RowChanged(c, S, j, Stabilize);
    RowChangeKeeps(c.n, j, x, row, r, S.sent, S.got[j], S.busy[j]);
    assert x.(shutdown := r.wedged) == x;
    hide MemberInv, AfterStability;
    EngineAndRow(c, S, SetRow(c, S, j, r), j, Stabilize);
  }

  lemma MinStable(c: Config, S: System, j: nat)
    requires Inv(c, S) && j < c.n
    ensures Min(StableNums(TableOf(c, S, j))) <= OwnRow(c, S, j).stableNum
  {
    hide MembersOk, StreamsOk, WindowsOk, TableInv, Shape, View;
    assert StableNums(TableOf(c, S, j))[j] == OwnRow(c, S, j).stableNum;
  }

  /** The delivery trigger takes the next number in line, once it is stable at everyone in sight. */
  lemma DeliveryIsNext(c: Config, S: System, j: nat)
    requires Inv(c, S) && j < c.n && !S.nodes[j].shutdown
    ensures CanDeliver(S.nodes[j], TableOf(c, S, j))
            <==> OwnRow(c, S, j).deliveredNum < Min(StableNums(TableOf(c, S, j)))
    ensures CanDeliver(S.nodes[j], TableOf(c, S, j))
            ==> Least(S.nodes[j].locallyStable) == OwnRow(c, S, j).deliveredNum + 1
  {
    hide Windowed, Shape, View, TableInv, StreamOk, RowOk, CountsOk, CurrentOk, TransitOk, FiledOk, LogOk, BuffersOk,
         CanDeliver;
    MinStable(c, S, j);
    DeliversNext(c.n, S.nodes[j], OwnRow(c, S, j), TableOf(c, S, j), S.sent);
  }

  lemma DeliveryInv(c: Config, S: System, j: nat)
    requires Inv(c, S) && j < c.n && !S.nodes[j].shutdown && CanDeliver(S.nodes[j], TableOf(c, S, j))
    ensures Inv(c, AfterRunDelivery(c, S, j))
  {
    hide Windowed, Shape, View, TableInv, StreamOk, RowOk, CountsOk, CurrentOk, TransitOk, FiledOk, LogOk, BuffersOk;
    var x, row := S.nodes[j], OwnRow(c, S, j);
    DeliveryIsNext(c, S, j);
    var q := row.deliveredNum + 1;
    RowChanged(c, S, j, Deliver(q));
    DeliveryKeeps(c.n, j, x, row, row.(deliveredNum := q), S.sent, S.got[j], S.busy[j]);
    hide MemberInv;
    EngineAndRow(c, S, AfterRunDelivery(c, S, j), j, Deliver(q));
  }

  // ---------------------------------------------------------------- rows on the move

  lemma RowArrivesInv(c: Config, S: System, i: nat, j: nat, k: nat)
    requires Inv(c, S) && Enabled(c.n, S.table, Push(i, j, k))
    ensures Inv(c, S.(table := HandOver(c.n, S.table, i, j, k)))
  {
    hide MemberInv, Windowed, TableInv, StreamOk, Shape, View;
    TableStepInv(c.n, S.table, Push(i, j, k));
    HandOverViews(c.n, S.table, i, j, k);
    TableOnly(c, S, HandOver(c.n, S.table, i, j, k));
  }

  lemma FreezeRowInv(c: Config, S: System, j: nat, i: nat)
    requires Inv(c, S) && j < c.n && i < c.n
    ensures Inv(c, S.(table := S.table.(frozen := S.table.frozen[j := S.table.frozen[j] + {i}])))
  {
    hide MemberInv, Windowed, TableInv, StreamOk;
    TableStepInv(c.n, S.table, Freeze(j, i));
    TableOnly(c, S, S.table.(frozen := S.table.frozen[j := S.table.frozen[j] + {i}]));
  }

  lemma TableOnly(c: Config, S: System, t': Table)
    requires Inv(c, S) && TableInv(c.n, t')
    requires forall k :: 0 <= k < c.n ==> View(c.n, t', k, k) == View(c.n, S.table, k, k)
    ensures Inv(c, S.(table := t'))
  {
    hide MemberInv, Windowed, StreamOk, View;
    var S' := S.(table := t');
    forall s, k | 0 <= s < c.n && 0 <= k < c.n
      ensures Windowed(c, s, Stream(S', s), OwnRow(c, S', k).deliveredNum)
    {
      assert Windowed(c, s, Stream(S, s), OwnRow(c, S, k).deliveredNum);
    }
  }

  // ---------------------------------------------------------------- the end of a view

  lemma WedgeInv(c: Config, S: System, j: nat)
    requires Inv(c, S) && j < c.n
    ensures Inv(c, AfterWedge(c, S, j))
  {
    hide Windowed, Shape, View, TableInv, StreamOk, RowOk, CountsOk, CurrentOk, TransitOk, FiledOk, LogOk, BuffersOk;
    var x, row := S.nodes[j], OwnRow(c, S, j);
    RowChanged(c, S, j, RowChange.Wedge);
    RowChangeKeeps(c.n, j, x, row, row.(wedged := true), S.sent, S.got[j], S.busy[j]);
    hide MemberInv;
    EngineAndRow(c, S, AfterWedge(c, S, j), j, RowChange.Wedge);
  }

  lemma DeliverRangeFrame(x: Node, lo: int, hi: int)
    ensures var x' := DeliverRange(x, lo, hi);
            x' == x.(locallyStable := x'.locallyStable, log := x'.log, freeBuffers := x'.freeBuffers)
    decreases hi - lo
  {
    if lo <= hi {
      DeliverRangeFrame(if lo in x.locallyStable then DeliverNo(x, lo) else x, lo + 1, hi);
    }
  }

  lemma CleanupWith(c: Config, S: System, j: nat, change: RowChange, g: seq<int>)
    requires Inv(c, S) && j < c.n && Allowed(c.n, TableOf(c, S, j), j, change) && |g| == c.n
    requires OwnRow(c, S, j).wedged && !OwnRow(c, S, j).globalMinReady
    requires NewRow(c.n, TableOf(c, S, j), j, change) == OwnRow(c, S, j).(globalMin := g, globalMinReady := true)
    ensures Inv(c, AfterCleanup(c, S, j, g))
  {
    hide Windowed, Shape, View, TableInv, StreamOk, RowOk, CountsOk, CurrentOk, TransitOk, FiledOk, LogOk, BuffersOk,
         NewRow, Allowed, TrimEnd, DeliverRange;
    var x, row := S.nodes[j], OwnRow(c, S, j);
    RowChanged(c, S, j, change);
    CleanupKeeps(c, j, x, row, g, S.sent, S.got[j], S.busy[j]);
    DeliverRangeFrame(x, row.deliveredNum, TrimEnd(c.n, row.deliveredNum, g));
    hide MemberInv;
    EngineAndRow(c, S, AfterCleanup(c, S, j, g), j, change);
  }

  lemma LeaderCleanupInv(c: Config, S: System, j: nat, failed: set<nat>)
    requires Inv(c, S) && j < c.n && CleanupReady(c, S, j, failed)
    ensures Inv(c, AfterCleanup(c, S, j, LeaderTrim(c.n, TableOf(c, S, j))))
  {
    hide MembersOk, StreamsOk, WindowsOk, TableInv, Shape, View, LeaderTrim, AfterCleanup;
    CleanupWith(c, S, j, Trim, LeaderTrim(c.n, TableOf(c, S, j)));
  }

  lemma FollowerCleanupInv(c: Config, S: System, j: nat, l: nat, failed: set<nat>)
    requires Inv(c, S) && j < c.n && CleanupReady(c, S, j, failed)
    requires l < c.n && TableOf(c, S, j)[l].globalMinReady
    ensures Inv(c, AfterCleanup(c, S, j, TableOf(c, S, j)[l].globalMin))
  {
    hide MembersOk, StreamsOk, WindowsOk, TableInv, Shape, View, AfterCleanup;
    CleanupWith(c, S, j, Echo(l), TableOf(c, S, j)[l].globalMin);
  }

  // ---------------------------------------------------------------- every step

  lemma StepInv(c: Config, S: System, step: Step)
    requires Inv(c, S) && Offered(c, S, step) && AssertsHold(c, S, step)
    ensures Inv(c, Next(c, S, step))
  {
    hide Inv, CanReceive, CanGetPosition, ShouldSend, CanDeliver, BufferAsked, Arriving, CleanupReady,
         AfterAsk, AfterClientSend, AfterBeginSend, AfterTakeBuffer, AfterComplete, AfterRunDelivery, AfterWedge,
         AfterCleanup, SetRow, HandOver;
    match step
    case AskPosition(j, payloadSize, pause, cooked) => AskPositionInv(c, S, j, payloadSize, pause, cooked);
    case ClientSend(j, payload) => ClientSendInv(c, S, j, payload);
    case BeginSend(j) => BeginSendInv(c, S, j);
    case TakeBuffer(j, s) => TakeBufferInv(c, S, j, s);
    case Complete(j, s) => CompleteInv(c, S, j, s);
    case RunStability(j) => StabilityInv(c, S, j);
    case RunDelivery(j) => DeliveryInv(c, S, j);
    case RowArrives(i, j, k) => RowArrivesInv(c, S, i, j, k);
    case FreezeRow(j, i) => FreezeRowInv(c, S, j, i);
    case WedgeMember(j) => WedgeInv(c, S, j);
    case LeaderCleanup(j, failed) => LeaderCleanupInv(c, S, j, failed);
    case FollowerCleanup(j, l, failed) => FollowerCleanupInv(c, S, j, l, failed);
  }
}
