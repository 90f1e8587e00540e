/** Each operation of a member keeps the invariant of MemberInvariant. */
module MemberSteps {
  import opened Collections
  import opened Numbering
  import opened SharedTable
  import opened Messages
  import opened GroupSpec
  import opened MemberInvariant

  // ---------------------------------------------------------------- sending

  lemma GetPositionKeeps(c: Config, me: nat, x: Node, row: Row, sent: seq<seq<Message>>, got: seq<nat>,
                         busy: set<nat>, payloadSize: nat, pause: nat, cooked: bool)
    requires MemberInv(c.n, me, x, row, sent, got, busy)
    requires x.freeBuffers > 0 && x.nextSend.None?
    ensures MemberInv(c.n, me, GetPosition(c, me, x, payloadSize, pause, cooked), row, sent, got, busy)
  {
    hide RowOk, CountsOk, TransitOk, FiledOk, LogOk;
  }

  lemma SendKeeps(n: nat, me: nat, x: Node, row: Row, sent: seq<seq<Message>>, got: seq<nat>,
                  busy: set<nat>, payload: seq<byte>)
    requires MemberInv(n, me, x, row, sent, got, busy)
    requires x.nextSend.Some?
    ensures MemberInv(n, me, Send(x, payload), row, sent, got, busy)
  {
    hide RowOk, CountsOk, TransitOk, FiledOk, LogOk;
  }

  /** A stream growing at its end disturbs nothing that has been received from it. */
  lemma StreamGrows(n: nat, me: nat, x: Node, row: Row, sent: seq<seq<Message>>, got: seq<nat>,
                    busy: set<nat>, s: nat, m: Message)
    requires MemberInv(n, me, x, row, sent, got, busy) && s < n
    ensures var sent' := sent[s := sent[s] + [m]];
            CountsOk(n, row, sent', got)
            && TransitOk(n, me, x.currentReceives, row, sent', got, busy)
            && FiledOk(n, x.locallyStable, row, sent')
            && LogOk(n, x.log, row, sent')
  {
    var sent' := sent[s := sent[s] + [m]];
    StreamGrowsCounts(n, row, sent, got, s, m);
    StreamGrowsSlots(n, row, sent, got, s, m);
    hide RowOk, CountsOk, Slot, ReceivedUpto, Received, Top;
    var nums := ReceivedUpto(row.nReceived, Top(n, row));
    forall k | 0 <= k < |nums| ensures Slot(n, sent', nums[k]) == Slot(n, sent, nums[k]) {
      ReceivedUptoMembers(row.nReceived, Top(n, row), nums[k]);
    }
  }

  lemma StreamGrowsCounts(n: nat, row: Row, sent: seq<seq<Message>>, got: seq<nat>, s: nat, m: Message)
    requires RowShape(n, row) && |sent| == |got| == n && s < n
    requires CountsOk(n, row, sent, got)
    ensures CountsOk(n, row, sent[s := sent[s] + [m]], got)
  {
    var sent' := sent[s := sent[s] + [m]];
    forall i | 0 <= i < n ensures got[i] <= |sent'[i]| && sent'[i][..got[i]] == sent[i][..got[i]] {
    }
  }

  lemma StreamGrowsSlots(n: nat, row: Row, sent: seq<seq<Message>>, got: seq<nat>, s: nat, m: Message)
    requires n > 0 && RowShape(n, row) && |sent| == |got| == n && s < n
    requires CountsOk(n, row, sent, got)
    ensures forall q :: Received(row.nReceived, q)
              ==> Slot(n, sent[s := sent[s] + [m]], q) == Slot(n, sent, q)
  {
    var sent' := sent[s := sent[s] + [m]];
    hide CountsOk, Received;
    ExpandAppend(sent[s], m);
    hide Expand;
    forall q | Received(row.nReceived, q) ensures Slot(n, sent', q) == Slot(n, sent, q) {
      ReceivedTurnSent(n, row, sent, got, q);
      SplitSeqNo(n, q);
      hide IndexOf, SenderOf;
    }
  }

  /** While the previous own message is on its way, send_loop does not start the next one. */
  lemma NoOverlap(c: Config, me: nat, x: Node, row: Row, sent: seq<seq<Message>>, got: seq<nat>,
                  accepted: seq<Message>)
    requires me < c.n && |sent| == |got| == c.n && RowShape(c.n, row)
    requires CountsOk(c.n, row, sent, got) && CurrentOk(x, sent[me], got[me])
    requires StreamOk(me, x, sent[me], accepted)
    requires x.pendingSends != [] && row.nReceived[me] >= x.pendingSends[0].index - 1
    ensures got[me] == |sent[me]| && x.currentSend.None?
    ensures x.pendingSends[0].index == row.nReceived[me] + 1
  {
    var mine := sent[me];
    var all := accepted + OneOrNone(x.nextSend);
    assert all[|mine|] == x.pendingSends[0];
    assert all[..|mine|] == mine;
    assert x.pendingSends[0].index == |Expand(mine)|;
    assert got[me] == |mine| ==> mine[..got[me]] == mine;
  }

  lemma StartSendKeeps(c: Config, me: nat, x: Node, row: Row, sent: seq<seq<Message>>, got: seq<nat>,
                       busy: set<nat>, accepted: seq<Message>)
    requires MemberInv(c.n, me, x, row, sent, got, busy)
    requires StreamOk(me, x, sent[me], accepted)
    requires x.pendingSends != [] && row.nReceived[me] >= x.pendingSends[0].index - 1
    ensures MemberInv(c.n, me, StartSend(x), row,
                      sent[me := sent[me] + [x.pendingSends[0]]], got, busy)
  {
    NoOverlap(c, me, x, row, sent, got, accepted);
    StreamGrows(c.n, me, x, row, sent, got, busy, me, x.pendingSends[0]);
    hide RowOk, CountsOk, TransitOk, FiledOk, LogOk, StreamOk;
  }

  lemma OthersSendKeeps(n: nat, me: nat, x: Node, row: Row, sent: seq<seq<Message>>, got: seq<nat>,
                        busy: set<nat>, s: nat, m: Message)
    requires MemberInv(n, me, x, row, sent, got, busy) && s < n && s != me
    ensures MemberInv(n, me, x, row, sent[s := sent[s] + [m]], got, busy)
  {
    StreamGrows(n, me, x, row, sent, got, busy, s, m);
    hide RowOk, CountsOk, TransitOk, FiledOk, LogOk;
  }

  // ---------------------------------------------------------------- receiving

  lemma FreshKey(n: nat, s: nat, i: int, row: Row)
    requires s < n && RowShape(n, row) && i > row.nReceived[s] >= -1
    ensures !Received(row.nReceived, SeqNo(n, s, i))
    ensures RowOk(n, row) ==> SeqNo(n, s, i) > row.seqNum
  {
    JoinSeqNo(n, s, i);
    if RowOk(n, row) {
      ExactPrefix(row.nReceived, row.seqNum);
    }
  }

  lemma ReceiveDestinationKeeps(c: Config, me: nat, x: Node, row: Row, sst: Sst, sent: seq<seq<Message>>,
                                got: seq<nat>, busy: set<nat>, s: nat)
    requires MemberInv(c.n, me, x, row, sent, got, busy)
    requires SstShape(c.n, sst) && sst[me] == row
    requires s < c.n && s != me && s !in busy && got[s] < |sent[s]| && x.freeBuffers > 0
    ensures MemberInv(c.n, me, ReceiveDestination(c, me, x, sst, s, sent[s][got[s]].size), row, sent, got, busy + {s})
  {
    var x' := ReceiveDestination(c, me, x, sst, s, sent[s][got[s]].size);
    ReceiveDestinationTransit(c.n, me, x.currentReceives, row, sent, got, busy, s);
    hide RowOk, CountsOk, TransitOk, FiledOk, LogOk, SeqNo;
    assert x'.locallyStable == x.locallyStable && x'.log == x.log && x'.currentSend == x.currentSend;
    AddReceive(x, NextNo(c, me, sst, s), x'.currentReceives[NextNo(c, me, sst, s)]);
    hide BuffersOk, CurrentOk;
  }

  lemma AddReceive(x: Node, q: int, m: Message)
    requires BuffersOk(x) && x.freeBuffers > 0 && q !in x.currentReceives
    ensures BuffersOk(x.(freeBuffers := x.freeBuffers - 1, currentReceives := x.currentReceives[q := m]))
  {
    hide Content;
    assert x.currentReceives[q := m].Keys == x.currentReceives.Keys + {q};
  }

  lemma ReceiveDestinationTransit(n: nat, me: nat, receives: map<int, Message>, row: Row,
                                  sent: seq<seq<Message>>, got: seq<nat>, busy: set<nat>, s: nat)
    requires RowShape(n, row) && |sent| == |got| == n
    requires TransitOk(n, me, receives, row, sent, got, busy)
    requires s < n && s != me && s !in busy && got[s] < |sent[s]|
    ensures var q := SeqNo(n, s, row.nReceived[s] + 1);
            q !in receives
            && TransitOk(n, me, receives[q := Message(s, row.nReceived[s] + 1, sent[s][got[s]].size, BLANK)],
                         row, sent, got, busy + {s})
  {
    var q := SeqNo(n, s, row.nReceived[s] + 1);
    JoinSeqNo(n, s, row.nReceived[s] + 1);
    forall i | i in busy ensures i < n && SeqNo(n, i, row.nReceived[i] + 1) != q {
      JoinSeqNo(n, i, row.nReceived[i] + 1);
    }
    hide SenderOf, SeqNo;
  }

  /** The receiver's own idea of the message is the message the sender sent: rank, index, size and body. */
  lemma ArrivedIsSent(c: Config, me: nat, x: Node, row: Row, sst: Sst, sent: seq<seq<Message>>,
                      got: seq<nat>, busy: set<nat>, s: nat)
    requires MemberInv(c.n, me, x, row, sent, got, busy)
    requires SstShape(c.n, sst) && sst[me] == row
    requires s < c.n && got[s] < |sent[s]| && Indexed(s, sent[s])
    requires s == me || s in busy
    ensures CanReceive(c, me, x, sst, s)
    ensures Arrived(c, me, x, sst, s, sent[s][got[s]].body) == sent[s][got[s]]
    ensures sent[s][got[s]].index == row.nReceived[s] + 1
  {
    hide RowOk, FiledOk, LogOk, SeqNo, Expand, BuffersOk;
    var m := sent[s][got[s]];
    assert m.index == |Expand(sent[s][..got[s]])|;
  }

  // The four parts of what the receive handler changes.

  lemma ReceiveCounts(n: nat, row: Row, sent: seq<seq<Message>>, got: seq<nat>, s: nat)
    requires RowShape(n, row) && |sent| == |got| == n && s < n
    requires CountsOk(n, row, sent, got) && got[s] < |sent[s]|
    ensures var v := row.nReceived[s := row.nReceived[s] + 1 + sent[s][got[s]].body.pause];
            CountsOk(n, row.(nReceived := v), sent, got[s := got[s] + 1])
  {
    ExpandAt(sent[s], got[s]);
    hide Expand;
  }

  lemma CountsDependOnReceived(n: nat, row: Row, row': Row, sent: seq<seq<Message>>, got: seq<nat>)
    requires RowShape(n, row) && RowShape(n, row') && |sent| == |got| == n
    requires CountsOk(n, row, sent, got) && row'.nReceived == row.nReceived
    ensures CountsOk(n, row', sent, got)
  {
  }

  lemma ReceiveTransit(n: nat, me: nat, receives: map<int, Message>, row: Row, row': Row,
                       sent: seq<seq<Message>>, got: seq<nat>, busy: set<nat>, s: nat)
    requires RowShape(n, row) && RowShape(n, row') && |sent| == |got| == n && s < n && me < n
    requires TransitOk(n, me, receives, row, sent, got, busy)
    requires s == me || s in busy
    requires forall i :: 0 <= i < n && i != s ==> row'.nReceived[i] == row.nReceived[i]
    ensures var receives' := if s == me then receives else receives - {SeqNo(n, s, row.nReceived[s] + 1)};
            TransitOk(n, me, receives', row', sent, got[s := got[s] + 1], busy - {s})
  {
    hide SenderOf, SeqNo, IndexOf;
    forall i | i in busy && i != s ensures i < n && SeqNo(n, i, row.nReceived[i] + 1) != SeqNo(n, s, row.nReceived[s] + 1) {
      JoinSeqNo(n, i, row.nReceived[i] + 1);
      JoinSeqNo(n, s, row.nReceived[s] + 1);
    }
  }

  /** The skips filed after `index` are the turns index + 1 .. index + pause of sender s, and empty. */
  lemma {:induction false} FileSkipsSlots(n: nat, ls: map<int, Message>, s: nat, index: int, pause: nat, q: int)
    requires s < n
    ensures var after := FileSkips(n, ls, s, index, pause);
            var skip := SenderOf(n, q) == s && index < IndexOf(n, q) <= index + pause;
            (q in after <==> q in ls || skip)
            && (q in after ==> after[q] == if skip then Skipped(s, IndexOf(n, q)) else ls[q])
    decreases pause
  {
    if pause > 0 {
      JoinSeqNo(n, s, index + pause);
      SplitSeqNo(n, q);
      FileSkipsSlots(n, ls, s, index, pause - 1, q);
      hide SenderOf, IndexOf, SeqNo;
    }
  }

  /** The turns of the message that just arrived are in its sender's stream, in place. */
  lemma TurnSlots(n: nat, sent: seq<seq<Message>>, got: seq<nat>, s: nat, q: int)
    requires |sent| == |got| == n && s < n && got[s] < |sent[s]| && Indexed(s, sent[s])
    requires var m := sent[s][got[s]];
             SenderOf(n, q) == s && m.index <= IndexOf(n, q) <= m.index + m.body.pause
    ensures var m := sent[s][got[s]];
            Slot(n, sent, q) == if IndexOf(n, q) == m.index then m else Skipped(s, IndexOf(n, q))
  {
    var m := sent[s][got[s]];
    ExpandAt(sent[s], got[s]);
    assert m.index == |Expand(sent[s][..got[s]])|;
    TurnAt(m, IndexOf(n, q) - m.index);
    hide Expand, IndexOf, SenderOf, Turn;
  }

  /** What the counts say has been received after the handler: what was, and the turns of the message. */
  lemma ReceivedAfter(n: nat, v: seq<int>, s: nat, pause: nat, q: int)
    requires |v| == n && s < n && v[s] >= -1
    ensures Received(v[s := v[s] + 1 + pause], q)
            <==> Received(v, q) || (SenderOf(n, q) == s && v[s] < IndexOf(n, q) <= v[s] + 1 + pause)
  {
    SplitSeqNo(n, q);
  }

  /** One number at a time: what is filed under q after the handler. */
  lemma FiledAfterHandler(n: nat, ls: map<int, Message>, own: bool, s: nat, m: Message, q: int)
    requires s < n && SeqNo(n, s, m.index) !in ls
    ensures var after := FileSkips(n, FileMessage(ls, own, SeqNo(n, s, m.index), m), s, m.index, m.body.pause);
            var turn := SenderOf(n, q) == s && m.index <= IndexOf(n, q) <= m.index + m.body.pause;
            (q in after <==> q in ls || turn)
            && (q in after && !turn ==> after[q] == ls[q])
            && (turn ==> after[q] == if IndexOf(n, q) == m.index then m else Skipped(s, IndexOf(n, q)))
  {
    FileSkipsSlots(n, FileMessage(ls, own, SeqNo(n, s, m.index), m), s, m.index, m.body.pause, q);
    JoinSeqNo(n, s, m.index);
    SplitSeqNo(n, q);
    hide SeqNo, SenderOf, IndexOf, FileSkips;
  }

  lemma ReceiveFiled(n: nat, ls: map<int, Message>, row: Row, row': Row, sent: seq<seq<Message>>, got: seq<nat>,
                     s: nat, own: bool)
    requires RowOk(n, row) && RowShape(n, row') && |sent| == |got| == n && s < n && got[s] < |sent[s]|
    requires FiledOk(n, ls, row, sent) && Indexed(s, sent[s])
    requires !row.globalMinReady && !row'.globalMinReady && row'.deliveredNum == row.deliveredNum
    requires sent[s][got[s]].index == row.nReceived[s] + 1
    requires row'.nReceived == row.nReceived[s := row.nReceived[s] + 1 + sent[s][got[s]].body.pause]
    ensures var m := sent[s][got[s]];
            var q := SeqNo(n, s, m.index);
            q !in ls
            && FiledOk(n, FileSkips(n, FileMessage(ls, own, q, m), s, m.index, m.body.pause), row', sent)
  {
    var m := sent[s][got[s]];
    var q := SeqNo(n, s, m.index);
    FreshKey(n, s, m.index, row);
    var after := FileSkips(n, FileMessage(ls, own, q, m), s, m.index, m.body.pause);
    forall p
      ensures p in after <==> p > row.deliveredNum && Received(row'.nReceived, p)
      ensures p in after ==> after[p] == Slot(n, sent, p)
    {
      FiledAfterHandler(n, ls, own, s, m, p);
      ReceivedAfter(n, row.nReceived, s, m.body.pause, p);
      SplitSeqNo(n, p);
      if SenderOf(n, p) == s && m.index <= IndexOf(n, p) <= m.index + m.body.pause {
        TurnSlots(n, sent, got, s, p);
        FreshKey(n, s, IndexOf(n, p), row);
      }
      hide Slot, SeqNo, SenderOf, IndexOf, FileSkips, Received, FileMessage;
    }
    hide Slot, Received, FileSkips, FileMessage;
  }

  lemma ReceiveLog(n: nat, log: seq<Message>, row: Row, row': Row, sent: seq<seq<Message>>)
    requires RowOk(n, row) && RowOk(n, row') && |sent| == n
    requires LogOk(n, log, row, sent)
    requires !row.globalMinReady && !row'.globalMinReady && row'.deliveredNum == row.deliveredNum
    ensures LogOk(n, log, row', sent)
  {
    CoversDelivered(n, row);
    CoversDelivered(n, row');
    ReceivedUptoSame(row.nReceived, row'.nReceived, row.deliveredNum);
    hide RowOk, Covers, ReceivedUpto, Slots;
  }

  lemma ContentAfterHandler(n: nat, ls: map<int, Message>, own: bool, s: nat, m: Message)
    requires s < n && SeqNo(n, s, m.index) !in ls && m.size > 0
    requires forall q :: q in ls ==> !(SenderOf(n, q) == s && IndexOf(n, q) >= m.index)
    ensures Content(FileSkips(n, FileMessage(ls, own, SeqNo(n, s, m.index), m), s, m.index, m.body.pause))
         == Content(ls) + {SeqNo(n, s, m.index)}
  {
    var q := SeqNo(n, s, m.index);
    var after := FileSkips(n, FileMessage(ls, own, q, m), s, m.index, m.body.pause);
    forall p ensures p in Content(after) <==> p in Content(ls) + {q} {
      FiledAfterHandler(n, ls, own, s, m, p);
      JoinSeqNo(n, s, m.index);
      SplitSeqNo(n, p);
      hide SeqNo, SenderOf, IndexOf, FileSkips, FileMessage;
    }
  }

  lemma ReceiveBuffers(c: Config, me: nat, x: Node, sst: Sst, s: nat, body: Body)
    requires SstShape(c.n, sst) && me < c.n && s < c.n && CanReceive(c, me, x, sst, s)
    requires BuffersOk(x)
    requires var m := Arrived(c, me, x, sst, s, body);
             m.size > 0 && m.index == sst[me].nReceived[s] + 1 && m.body == body
             && SeqNo(c.n, s, m.index) !in x.locallyStable
             && forall q :: q in x.locallyStable ==> !(SenderOf(c.n, q) == s && IndexOf(c.n, q) >= m.index)
    ensures BuffersOk(ReceiveHandler(c, me, x, sst, s, body))
  {
    var m := Arrived(c, me, x, sst, s, body);
    var q := SeqNo(c.n, s, m.index);
    ContentAfterHandler(c.n, x.locallyStable, s == me, s, m);
    hide Content, FileSkips, FileMessage, SeqNo, SenderOf, IndexOf;
    assert q !in Content(x.locallyStable) by {
      ContentFiled(x.locallyStable, q);
    }
    if s != me {
      RemoveKey(x.currentReceives, q);
    }
  }

  lemma ContentFiled(ls: map<int, Message>, q: int)
    ensures q in Content(ls) ==> q in ls
  {
  }

  lemma FiledBelow(n: nat, ls: map<int, Message>, row: Row, sent: seq<seq<Message>>, s: nat)
    requires n == |sent| > 0 && RowShape(n, row) && s < n && FiledOk(n, ls, row, sent)
    ensures forall q :: q in ls ==> !(SenderOf(n, q) == s && IndexOf(n, q) >= row.nReceived[s] + 1)
  {
    hide Slot, Top, SenderOf, IndexOf;
    forall q | q in ls ensures !(SenderOf(n, q) == s && IndexOf(n, q) >= row.nReceived[s] + 1) {
      assert Received(row.nReceived, q);
    }
  }

  lemma ReceiveHandlerKeeps(c: Config, me: nat, x: Node, row: Row, row': Row, sst: Sst,
                            sent: seq<seq<Message>>, got: seq<nat>, busy: set<nat>, s: nat)
    requires MemberInv(c.n, me, x, row, sent, got, busy)
    requires SstShape(c.n, sst) && sst[me] == row && !row.wedged
    requires s < c.n && got[s] < |sent[s]| && Indexed(s, sent[s])
    requires s == me || s in busy
    requires row' == AfterReceive(row, CountsAfter(sst, me, s, sent[s][got[s]].body.pause)) && RowOk(c.n, row')
    ensures CanReceive(c, me, x, sst, s)
    ensures MemberInv(c.n, me, ReceiveHandler(c, me, x, sst, s, sent[s][got[s]].body), row',
                      sent, got[s := got[s] + 1], busy - {s})
  {
    hide RowOk, CountsOk, TransitOk, FiledOk, LogOk, BuffersOk, Indexed, SeqNo, Arrived, FileSkips, FileMessage,
         AfterReceive;
    ArrivedIsSent(c, me, x, row, sst, sent, got, busy, s);
    AfterReceiveFlags(row, CountsAfter(sst, me, s, sent[s][got[s]].body.pause));
    HandlerTables(c, me, x, row, row', sst, sent, got, busy, s);
    HandlerBuffers(c, me, x, row, sst, sent, got, busy, s);
  }

  lemma AfterReceiveFlags(row: Row, v: seq<int>)
    requires |v| > 0
    ensures var row' := AfterReceive(row, v);
            row'.wedged == row.wedged && row'.globalMinReady == row.globalMinReady
            && row'.nReceived == v && row'.deliveredNum == row.deliveredNum
  {
  }

  lemma HandlerTables(c: Config, me: nat, x: Node, row: Row, row': Row, sst: Sst,
                      sent: seq<seq<Message>>, got: seq<nat>, busy: set<nat>, s: nat)
    requires MemberInv(c.n, me, x, row, sent, got, busy)
    requires SstShape(c.n, sst) && sst[me] == row && !row.wedged
    requires s < c.n && got[s] < |sent[s]| && Indexed(s, sent[s])
    requires s == me || s in busy
    requires row' == AfterReceive(row, CountsAfter(sst, me, s, sent[s][got[s]].body.pause)) && RowOk(c.n, row')
    requires CanReceive(c, me, x, sst, s)
    ensures var x' := ReceiveHandler(c, me, x, sst, s, sent[s][got[s]].body);
            CountsOk(c.n, row', sent, got[s := got[s] + 1])
            && TransitOk(c.n, me, x'.currentReceives, row', sent, got[s := got[s] + 1], busy - {s})
            && FiledOk(c.n, x'.locallyStable, row', sent)
            && LogOk(c.n, x'.log, row', sent)
  {
    hide RowOk, CountsOk, TransitOk, FiledOk, LogOk, BuffersOk, PrefixEnd, Indexed, SeqNo, FileSkips, FileMessage,
         SenderOf, IndexOf, Received, CurrentOk;
    ArrivedIsSent(c, me, x, row, sst, sent, got, busy, s);
    RowOkShape(c.n, row');
    ReceiveCounts(c.n, row, sent, got, s);
    CountsDependOnReceived(c.n, row.(nReceived := row'.nReceived), row', sent, got[s := got[s] + 1]);
    ReceiveTransit(c.n, me, x.currentReceives, row, row', sent, got, busy, s);
    ReceiveFiled(c.n, x.locallyStable, row, row', sent, got, s, s == me);
    ReceiveLog(c.n, x.log, row, row', sent);
  }

  lemma HandlerBuffers(c: Config, me: nat, x: Node, row: Row, sst: Sst,
                       sent: seq<seq<Message>>, got: seq<nat>, busy: set<nat>, s: nat)
    requires MemberInv(c.n, me, x, row, sent, got, busy)
    requires SstShape(c.n, sst) && sst[me] == row && !row.wedged
    requires s < c.n && got[s] < |sent[s]| && Indexed(s, sent[s])
    requires s == me || s in busy
    requires CanReceive(c, me, x, sst, s)
    ensures BuffersOk(ReceiveHandler(c, me, x, sst, s, sent[s][got[s]].body))
  {
    hide RowOk, CountsOk, TransitOk, FiledOk, LogOk, BuffersOk, Indexed, SeqNo, ReceiveHandler, CanReceive, CurrentOk,
         Arrived, SenderOf, IndexOf, Received;
    ArrivedIsSent(c, me, x, row, sst, sent, got, busy, s);
    ContentPositive(s, sent[s], got[s]);
    RowOkShape(c.n, row);
    FiledBelow(c.n, x.locallyStable, row, sent, s);
    FreshKey(c.n, s, row.nReceived[s] + 1, row);
    NotFiled(c.n, x.locallyStable, row, sent, SeqNo(c.n, s, row.nReceived[s] + 1));
    ReceiveBuffers(c, me, x, sst, s, sent[s][got[s]].body);
  }

  lemma NotFiled(n: nat, ls: map<int, Message>, row: Row, sent: seq<seq<Message>>, q: int)
    requires n == |sent| > 0 && RowShape(n, row) && FiledOk(n, ls, row, sent)
    requires !Received(row.nReceived, q)
    ensures q !in ls
  {
  }

  lemma ContentPositive(s: nat, ms: seq<Message>, k: nat)
    requires Indexed(s, ms) && k < |ms|
    ensures ms[k].size > 0
  {
  }

  // ---------------------------------------------------------------- rows that change nothing here

  /** Raising the stable number, or wedging, leaves what has been received and handed out alone. */
  lemma RowChangeKeeps(n: nat, me: nat, x: Node, row: Row, row': Row, sent: seq<seq<Message>>,
                       got: seq<nat>, busy: set<nat>)
    requires MemberInv(n, me, x, row, sent, got, busy) && RowOk(n, row')
    requires row'.nReceived == row.nReceived && row'.deliveredNum == row.deliveredNum
    requires row'.globalMin == row.globalMin && row'.globalMinReady == row.globalMinReady
    requires row.wedged ==> row'.wedged
    ensures MemberInv(n, me, x.(shutdown := row'.wedged), row', sent, got, busy)
  {
    hide RowOk, Received, ReceivedUpto, Slots, Slot;
  }

  // ---------------------------------------------------------------- delivering

  /** The delivery trigger fires exactly when the next number is stable everywhere, and delivers that number. */
  lemma DeliversNext(n: nat, x: Node, row: Row, sst: Sst, sent: seq<seq<Message>>)
    requires RowOk(n, row) && |sent| == n && FiledOk(n, x.locallyStable, row, sent)
    requires SstShape(n, sst) && !row.globalMinReady
    requires Min(StableNums(sst)) <= row.stableNum
    ensures CanDeliver(x, sst) <==> row.deliveredNum < Min(StableNums(sst))
    ensures CanDeliver(x, sst) ==> Least(x.locallyStable) == row.deliveredNum + 1
  {
    var d, m := row.deliveredNum, Min(StableNums(sst));
    CoversDelivered(n, row);
    hide RowOk, Received, Slot;
    if d < m {
      assert Received(row.nReceived, d + 1);
      assert d + 1 in x.locallyStable;
      var q := Least(x.locallyStable);
      assert q == d + 1;
    }
  }

  lemma DeliverBuffers(x: Node, q: int)
    requires BuffersOk(x) && q in x.locallyStable
    ensures BuffersOk(DeliverNo(x, q))
  {
    var ls' := x.locallyStable - {q};
    assert Content(ls') == Content(x.locallyStable) - {q};
    assert q in Content(x.locallyStable) <==> x.locallyStable[q].size > 0;
  }

  lemma SlotsAppend(n: nat, sent: seq<seq<Message>>, nums: seq<int>, q: int)
    requires n == |sent| > 0
    ensures Slots(n, sent, nums + [q]) == Slots(n, sent, nums) + [Slot(n, sent, q)]
  {
    hide Slot;
  }

  lemma DeliveryKeeps(n: nat, me: nat, x: Node, row: Row, row': Row, sent: seq<seq<Message>>,
                      got: seq<nat>, busy: set<nat>)
    requires MemberInv(n, me, x, row, sent, got, busy) && RowOk(n, row') && !row.globalMinReady
    requires row' == row.(deliveredNum := row.deliveredNum + 1)
    requires row'.deliveredNum in x.locallyStable
    ensures MemberInv(n, me, DeliverNo(x, row'.deliveredNum), row', sent, got, busy)
  {
    var q := row'.deliveredNum;
    RowOkShape(n, row);
    hide RowOk, Received, Slots, Slot, CountsOk, TransitOk, FiledOk, BuffersOk;
    DeliverBuffers(x, q);
    PartsDependOnReceived(n, me, x.currentReceives, row, row', sent, got, busy);
    FiledAfterDelivery(n, x.locallyStable, row, row', sent);
    LogAfterDelivery(n, x.log, row, row', sent);
    FiledIsSlot(n, x.locallyStable, row, sent, q);
    hide LogOk, Top;
  }

  lemma RowOkShape(n: nat, row: Row)
    requires RowOk(n, row)
    ensures RowShape(n, row) && forall s :: 0 <= s < n ==> row.nReceived[s] >= -1
  {
  }

  lemma FiledIsSlot(n: nat, ls: map<int, Message>, row: Row, sent: seq<seq<Message>>, q: int)
    requires n == |sent| > 0 && RowShape(n, row) && FiledOk(n, ls, row, sent) && q in ls
    ensures ls[q] == Slot(n, sent, q)
  {
  }

  lemma LogAfterDelivery(n: nat, log: seq<Message>, row: Row, row': Row, sent: seq<seq<Message>>)
    requires n == |sent| > 0 && RowOk(n, row) && RowOk(n, row') && !row.globalMinReady
    requires row' == row.(deliveredNum := row.deliveredNum + 1) && LogOk(n, log, row, sent)
    ensures LogOk(n, log + [Slot(n, sent, row'.deliveredNum)], row', sent)
  {
    var q := row'.deliveredNum;
    CoversDelivered(n, row');
    hide RowOk, Received, Slots, Slot;
    assert Received(row'.nReceived, q);
    SlotsAppend(n, sent, ReceivedUpto(row.nReceived, q - 1), q);
  }

  lemma FiledAfterDelivery(n: nat, ls: map<int, Message>, row: Row, row': Row, sent: seq<seq<Message>>)
    requires n == |sent| > 0 && RowShape(n, row) && FiledOk(n, ls, row, sent) && !row.globalMinReady
    requires row' == row.(deliveredNum := row.deliveredNum + 1)
    ensures FiledOk(n, ls - {row'.deliveredNum}, row', sent)
  {
    hide Received, Slot;
  }

  lemma PartsDependOnReceived(n: nat, me: nat, receives: map<int, Message>, row: Row, row': Row,
                              sent: seq<seq<Message>>, got: seq<nat>, busy: set<nat>)
    requires RowShape(n, row) && RowShape(n, row') && |sent| == |got| == n
    requires row'.nReceived == row.nReceived
    requires CountsOk(n, row, sent, got) && TransitOk(n, me, receives, row, sent, got, busy)
    ensures CountsOk(n, row', sent, got) && TransitOk(n, me, receives, row', sent, got, busy)
  {
    hide SeqNo, SenderOf;
  }

  // ---------------------------------------------------------------- ragged-edge cleanup

  /**
   Delivering a range hands out exactly the received numbers in it, in order; t is how
   far messages had been handed out before.
   */
  lemma {:induction false} DeliverRangeSlots(n: nat, x: Node, v: seq<int>, sent: seq<seq<Message>>, t: int, lo: int, hi: int)
    requires n == |sent| == |v| > 0 && lo - 1 <= t && -1 <= t
    requires forall q :: q in x.locallyStable <==> q > t && Received(v, q)
    requires forall q :: q in x.locallyStable ==> x.locallyStable[q] == Slot(n, sent, q)
    requires x.log == Slots(n, sent, ReceivedUpto(v, t)) && BuffersOk(x)
    ensures var x' := DeliverRange(x, lo, hi);
            (forall q :: q in x'.locallyStable <==> q > Max(t, hi) && Received(v, q))
            && (forall q :: q in x'.locallyStable ==> x'.locallyStable[q] == Slot(n, sent, q))
            && x'.log == Slots(n, sent, ReceivedUpto(v, Max(t, hi)))
            && BuffersOk(x')
            && x' == x.(locallyStable := x'.locallyStable, log := x'.log, freeBuffers := x'.freeBuffers)
    decreases hi - lo
  {
    hide Received, Slot, Slots, BuffersOk;
    if lo <= hi {
      var t' := Max(t, lo);
      if lo in x.locallyStable {
        DeliverBuffers(x, lo);
        SlotsAppend(n, sent, ReceivedUpto(v, lo - 1), lo);
        DeliverRangeSlots(n, DeliverNo(x, lo), v, sent, t', lo + 1, hi);
      } else {
        assert t' != t ==> !Received(v, lo) && t == lo - 1;
        assert ReceivedUpto(v, t') == ReceivedUpto(v, t);
        DeliverRangeSlots(n, x, v, sent, t', lo + 1, hi);
      }
    }
  }

  /** Cleanup with the trim g hands out what was received up to the end of the trim. */
  lemma CleanupKeeps(c: Config, me: nat, x: Node, row: Row, g: seq<int>, sent: seq<seq<Message>>,
                     got: seq<nat>, busy: set<nat>)
    requires MemberInv(c.n, me, x, row, sent, got, busy)
    requires row.wedged && !row.globalMinReady && |g| == c.n
    ensures MemberInv(c.n, me, DeliverUpto(c, x, row.deliveredNum, g),
                      row.(globalMin := g, globalMinReady := true), sent, got, busy)
  {
    var row' := row.(globalMin := g, globalMinReady := true);
    hide Received, Slot, Slots, BuffersOk, ReceivedUpto, CountsOk, TransitOk, PrefixEnd, DeliverRange, TrimEnd;
    DeliverRangeSlots(c.n, x, row.nReceived, sent, row.deliveredNum, row.deliveredNum, TrimEnd(c.n, row.deliveredNum, g));
    PartsDependOnReceived(c.n, me, x.currentReceives, row, row', sent, got, busy);
  }
}
