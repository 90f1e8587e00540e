/**
 A member's own messages across a change of view: what it has delivered of them, followed by
 what the next view's engine takes over, is everything its client ever sent, in order.
 */
module OwnStream {
  import opened Collections
  import opened Numbering
  import opened SharedTable
  import opened Messages
  import opened GroupSpec
  import opened MemberInvariant
  import opened MemberSteps
  import opened Multicast
  import opened MulticastInv
  import opened Buffers
  import opened Delivery

  // ---------------------------------------------------------------- picking out own messages

  lemma {:induction false} OwnMessagesConcat(rank: int, a: seq<Message>, b: seq<Message>)
    ensures OwnMessages(rank, a + b) == OwnMessages(rank, a) + OwnMessages(rank, b)
    decreases |a|
  {
    if a == [] {
      assert a + b == b;
    } else {
      assert (a + b)[0] == a[0] && (a + b)[1..] == a[1..] + b;
      OwnMessagesConcat(rank, a[1..], b);
    }
  }

  lemma {:induction false} NoOwnInSkips(rank: int, ms: seq<Message>)
    requires forall k :: 0 <= k < |ms| ==> ms[k].size == 0
    ensures OwnMessages(rank, ms) == []
    decreases |ms|
  {
    if ms != [] {
      NoOwnInSkips(rank, ms[1..]);
    }
  }

  lemma OwnInTurn(rank: int, m: Message)
    requires m.size > 0 && m.sender == rank
    ensures OwnMessages(rank, Turn(m)) == [m]
  {
    var skips := Turn(m)[1..];
    assert Turn(m) == [m] + skips;
    forall k | 0 <= k < |skips| ensures skips[k].size == 0 {
      TurnAt(m, k + 1);
    }
    NoOwnInSkips(rank, skips);
    OwnMessagesConcat(rank, [m], skips);
    assert [m][1..] == [];
    assert OwnMessages(rank, [m]) == [m];
  }

  /** Dropping the skipped turns from a stream's turns leaves the stream. */
  lemma {:induction false} OwnInExpand(rank: int, ms: seq<Message>)
    requires Indexed(rank, ms)
    ensures OwnMessages(rank, Expand(ms)) == ms
    decreases |ms|
  {
    if ms != [] {
      var last := |ms| - 1;
      IndexedPrefix(rank, ms, last);
      OwnInExpand(rank, ms[..last]);
      OwnInTurn(rank, ms[last]);
      OwnMessagesConcat(rank, Expand(ms[..last]), Turn(ms[last]));
    }
  }

  // ---------------------------------------------------------------- what is filed, in order

  /** The largest number in a finite set, or at least -1. */
  lemma {:induction false} SetBound(s: set<int>) returns (b: int)
    ensures b >= -1 && forall q :: q in s ==> q <= b
    decreases |s|
  {
    if s == {} {
      b := -1;
    } else {
      var a := Pick(s);
      var rest := SetBound(s - {a});
      b := if a > rest then a else rest;
      assert forall q :: q in s ==> q == a || q in s - {a};
    }
  }

  lemma {:induction false} NothingReceivedBetween(v: seq<int>, t: int, q: int)
    requires |v| > 0 && t <= q
    requires forall p :: t < p <= q ==> !Received(v, p)
    ensures ReceivedUpto(v, q) == ReceivedUpto(v, t)
    decreases q - t
  {
    hide Received;
    if t < q {
      NothingReceivedBetween(v, t, q - 1);
    }
  }

  /** What has been handed out, followed by what is filed, is all that has been received, in order. */
  lemma {:induction false} FiledInOrder(n: nat, ls: map<int, Message>, v: seq<int>, sent: seq<seq<Message>>, t: int, top: int)
    requires n == |sent| == |v| > 0 && -1 <= t <= top
    requires forall q :: q in ls <==> q > t && Received(v, q)
    requires forall q :: q in ls ==> ls[q] == Slot(n, sent, q) && q <= top
    ensures Slots(n, sent, ReceivedUpto(v, t)) + Ascending(ls) == Slots(n, sent, ReceivedUpto(v, top))
    decreases |ls.Keys|
  {
    hide Received, Slot, Slots;
    if ls == map[] {
      NothingReceivedBetween(v, t, top);
    } else {
      var q := Least(ls);
      RemoveKey(ls, q);
      FiledInOrder(n, ls - {q}, v, sent, q, top);
      NothingReceivedBetween(v, t, q - 1);
      SlotsAppend(n, sent, ReceivedUpto(v, q - 1), q);
      assert ReceivedUpto(v, q) == ReceivedUpto(v, q - 1) + [q];
      assert Slots(n, sent, ReceivedUpto(v, t)) + ([ls[q]] + Ascending(ls - {q}))
          == (Slots(n, sent, ReceivedUpto(v, t)) + [ls[q]]) + Ascending(ls - {q});
    }
  }

  /** How many of sender s's turns are among the received numbers up to q. */
  function TurnsUpto(v: seq<int>, s: nat, q: int): nat
    requires |v| > 0
    decreases if q < 0 then 0 else q + 1
  {
    if q < 0 then 0
    else TurnsUpto(v, s, q - 1) + if Received(v, q) && SenderOf(|v|, q) == s then 1 else 0
  }

  /** They are the first ones: turn i of s is received and numbered up to q exactly when i is below the count. */
  lemma {:induction false} TurnsAreFirst(v: seq<int>, s: nat, q: int, i: int)
    requires s < |v| && q >= -1 && i >= 0 && v[s] >= -1
    ensures i < TurnsUpto(v, s, q) <==> i <= v[s] && SeqNo(|v|, s, i) <= q
    decreases q + 1
  {
    var n := |v|;
    JoinSeqNo(n, s, i);
    hide SeqNo;
    if q >= 0 {
      TurnsAreFirst(v, s, q - 1, i);
      if Received(v, q) && SenderOf(n, q) == s {
        TurnCount(v, s, q);
        SplitSeqNo(n, q);
        SeqNoMonotone(n, s, i, IndexOf(n, q));
        SeqNoMonotone(n, s, IndexOf(n, q), i);
      } else if SeqNo(n, s, i) == q {
        assert i > v[s];
      }
    }
  }

  /** When a turn of s comes up, exactly the turns before it have been counted. */
  lemma {:induction false} TurnCount(v: seq<int>, s: nat, q: int)
    requires s < |v| && q >= 0 && v[s] >= -1
    requires Received(v, q) && SenderOf(|v|, q) == s
    ensures TurnsUpto(v, s, q - 1) == IndexOf(|v|, q)
    decreases q
  {
    var n := |v|;
    var i := IndexOf(n, q);
    SplitSeqNo(n, q);
    if i == 0 {
      NoTurnBefore(v, s, q - 1);
    } else {
      var p := q - n;
      assert p == SeqNo(n, s, i - 1);
      JoinSeqNo(n, s, i - 1);
      TurnCount(v, s, p);
      NoTurnBetween(v, s, p, q - 1);
    }
  }

  lemma {:induction false} NoTurnBefore(v: seq<int>, s: nat, q: int)
    requires s < |v| && q < s
    ensures TurnsUpto(v, s, q) == 0
    decreases if q < 0 then 0 else q + 1
  {
    if q >= 0 {
      NoTurnBefore(v, s, q - 1);
      JoinSeqNo(|v|, q, 0);
    }
  }

  lemma {:induction false} NoTurnBetween(v: seq<int>, s: nat, p: int, q: int)
    requires s < |v| && 0 <= p <= q < p + |v| && SenderOf(|v|, p) == s
    requires Received(v, p)
    ensures TurnsUpto(v, s, q) == TurnsUpto(v, s, p - 1) + 1
    decreases q
  {
    hide Received;
    if p < q {
      SenderRepeats(|v|, p, q);
      NoTurnBetween(v, s, p, q - 1);
      hide SenderOf;
    }
  }

  lemma SenderRepeats(n: nat, p: int, q: int)
    requires n > 0 && p <= q < p + n
    ensures SenderOf(n, p) == SenderOf(n, q) ==> p == q
  {
    SplitSeqNo(n, p);
    SplitSeqNo(n, q);
    Multiple(n, IndexOf(n, q) - IndexOf(n, p));
    assert SenderOf(n, p) == SenderOf(n, q) ==> (IndexOf(n, q) - IndexOf(n, p)) * n == q - p;
  }

  // ---------------------------------------------------------------- own messages received

  /** The own messages among the received numbers up to q are those in the first turns of the own stream. */
  lemma {:induction false} OwnUpto(n: nat, v: seq<int>, sent: seq<seq<Message>>, s: nat, q: int)
    requires n == |sent| == |v| && s < n && q >= -1 && v[s] >= -1
    requires v[s] < |Expand(sent[s])|
    requires forall p :: Received(v, p) ==> Slot(n, sent, p).sender == SenderOf(n, p)
    ensures TurnsUpto(v, s, q) <= |Expand(sent[s])|
    ensures OwnMessages(s, Slots(n, sent, ReceivedUpto(v, q)))
         == OwnMessages(s, Expand(sent[s])[..TurnsUpto(v, s, q)])
    decreases q + 1
  {
    hide Received, Slots, Slot, OwnMessages, Expand, SenderOf;
    if q < 0 {
      NoSlots(n, sent);
    } else {
      OwnUpto(n, v, sent, s, q - 1);
      if Received(v, q) {
        SlotsAppend(n, sent, ReceivedUpto(v, q - 1), q);
        OwnMessagesConcat(s, Slots(n, sent, ReceivedUpto(v, q - 1)), [Slot(n, sent, q)]);
        if SenderOf(n, q) == s {
          OwnUptoStep(n, v, sent, s, q);
        } else {
          OwnSingle(s, Slot(n, sent, q));
        }
      } else {
        assert ReceivedUpto(v, q) == ReceivedUpto(v, q - 1);
      }
    }
  }

  lemma NoSlots(n: nat, sent: seq<seq<Message>>)
    requires n == |sent| > 0
    ensures Slots(n, sent, []) == []
  {
  }

  lemma OwnSingle(s: nat, m: Message)
    ensures OwnMessages(s, [m]) == if m.size > 0 && m.sender == s then [m] else []
  {
    assert [m][1..] == [];
  }

  lemma OwnUptoStep(n: nat, v: seq<int>, sent: seq<seq<Message>>, s: nat, q: int)
    requires n == |sent| == |v| && s < n && q >= 0 && v[s] >= -1
    requires v[s] < |Expand(sent[s])| && Received(v, q) && SenderOf(n, q) == s
    ensures TurnsUpto(v, s, q) <= |Expand(sent[s])|
    ensures OwnMessages(s, Expand(sent[s])[..TurnsUpto(v, s, q)])
         == OwnMessages(s, Expand(sent[s])[..TurnsUpto(v, s, q - 1)]) + OwnMessages(s, [Slot(n, sent, q)])
  {
    var turns := Expand(sent[s]);
    var i := IndexOf(n, q);
    TurnCount(v, s, q);
    SplitSeqNo(n, q);
    assert turns[..i + 1] == turns[..i] + [turns[i]];
    OwnMessagesConcat(s, turns[..i], [turns[i]]);
  }

  /** All own turns are among the received numbers up to a high enough bound. */
  lemma AllOwnTurns(v: seq<int>, s: nat, top: int)
    requires s < |v| && top >= -1 && v[s] >= -1 && top >= SeqNo(|v|, s, v[s])
    ensures TurnsUpto(v, s, top) == v[s] + 1
  {
    hide SeqNo, TurnsUpto;
    TurnsAreFirst(v, s, top, v[s] + 1);
    if v[s] >= 0 {
      TurnsAreFirst(v, s, top, v[s]);
    }
  }

  /** What a member has handed out and filed of its own is what has come back of its stream. */
  lemma OwnReceived(c: Config, S: System, j: nat)
    requires Inv(c, S) && j < c.n
    ensures S.got[j][j] <= |S.sent[j]|
    ensures OwnMessages(j, S.nodes[j].log) + OwnMessages(j, Ascending(S.nodes[j].locallyStable))
         == S.sent[j][..S.got[j][j]]
  {
    hide WindowsOk, TableInv, Shape, View, TransitOk, RowOk, CurrentOk, Received, Slot, Slots, OwnMessages, Ascending,
         ReceivedUpto, SeqNo, TurnsUpto, Top, StreamOk, Expand;
    var x, row := S.nodes[j], OwnRow(c, S, j);
    var v, ls := row.nReceived, x.locallyStable;
    assert MemberInv(c.n, j, x, row, S.sent, S.got[j], S.busy[j]);
    RowOkShape(c.n, row);
    TopLow(c.n, row);
    var b := SetBound(ls.Keys);
    var top := Max(Max(b, Top(c.n, row)), SeqNo(c.n, j, v[j]));
    FiledInOrder(c.n, ls, v, S.sent, Top(c.n, row), top);
    OwnMessagesConcat(j, x.log, Ascending(ls));
    ExpandPrefix(S.sent[j], S.got[j][j]);
    forall p | Received(v, p) ensures Slot(c.n, S.sent, p).sender == SenderOf(c.n, p) {
      SlotNumber(c, S, j, p);
    }
    OwnUpto(c.n, v, S.sent, j, top);
    AllOwnTurns(v, j, top);
    assert Expand(S.sent[j])[..v[j] + 1] == Expand(S.sent[j][..S.got[j][j]]);
    SentIndexed(j, S.nodes[j], S.sent[j], S.accepted[j]);
    IndexedPrefix(j, S.sent[j], S.got[j][j]);
    OwnInExpand(j, S.sent[j][..S.got[j][j]]);
  }

  lemma TopLow(n: nat, row: Row)
    requires RowOk(n, row)
    ensures Top(n, row) >= row.deliveredNum >= -1
  {
  }

  /**
   Nothing lost, nothing repeated, nothing out of order: the own messages a member has
   delivered, followed by those it still owes the group, are all its client has sent.
   */
  lemma OwnStreamConserved(c: Config, S: System, j: nat)
    requires Inv(c, S) && j < c.n
    ensures OwnMessages(j, S.nodes[j].log) + Unsent(S.nodes[j], j) == S.accepted[j]
  {
    hide WindowsOk, TableInv, Shape, View, TransitOk, RowOk, CountsOk, FiledOk, LogOk, OwnMessages, Ascending, Indexed;
    OwnReceived(c, S, j);
    var x, got, sent := S.nodes[j], S.got[j][j], S.sent[j];
    assert MemberInv(c.n, j, x, OwnRow(c, S, j), S.sent, S.got[j], S.busy[j]);
    assert StreamOk(j, x, sent, S.accepted[j]);
    assert sent[..got] + OneOrNone(x.currentSend) == sent;
    ConcatAssoc(OwnMessages(j, x.log), OwnMessages(j, Ascending(x.locallyStable)), OneOrNone(x.currentSend), x.pendingSends);
  }

  lemma ConcatAssoc<T>(a: seq<T>, b: seq<T>, d: seq<T>, e: seq<T>)
    ensures a + (b + d + e) == (a + b) + d + e
  {
  }

  // ---------------------------------------------------------------- renumbering

  /** Renumbered from 0, messages leave exactly the turns each one skips; contents are untouched. */
  lemma {:induction false} ReindexIndexed(rank: nat, ms: seq<Message>)
    requires forall m :: m in ms ==> m.size > 0
    ensures Indexed(rank, Reindex(rank, 0, ms))
    ensures |Expand(Reindex(rank, 0, ms))| == IndexAfter(0, ms)
    ensures forall k :: 0 <= k < |ms| ==>
              Reindex(rank, 0, ms)[k] == ms[k].(sender := rank, index := IndexAfter(0, ms[..k]))
    decreases |ms|
  {
    if ms != [] {
      var last := |ms| - 1;
      var front, m := ms[..last], ms[last];
      assert ms == front + [m];
      ReindexIndexed(rank, front);
      ReindexConcat(rank, 0, front, [m]);
      IndexAfterConcat(0, front, [m]);
      ReindexOne(rank, IndexAfter(0, front), m);
      var m' := m.(sender := rank, index := IndexAfter(0, front));
      IndexedAppend(rank, Reindex(rank, 0, front), m');
      ExpandAppend(Reindex(rank, 0, front), m');
      hide Indexed, Expand, Reindex, IndexAfter;
      forall k | 0 <= k < last ensures ms[..k] == front[..k] {
      }
    }
  }

  /** Renumbering a stretch of a stream keeps the distances between its indices. */
  lemma {:induction false} StretchIndex(s: nat, ms: seq<Message>, d: nat, k: nat)
    requires Indexed(s, ms) && d <= k < |ms|
    ensures IndexAfter(0, ms[d..k]) == ms[k].index - ms[d].index
    decreases k
  {
    hide Indexed, IndexAfter;
    if d < k {
      var front := ms[d..k - 1];
      StretchIndex(s, ms, d, k - 1);
      StreamStep(s, ms, k - 1);
      assert ms[d..k] == front + [ms[k - 1]];
      IndexAfterConcat(0, front, [ms[k - 1]]);
      ReindexOne(0, IndexAfter(0, front), ms[k - 1]);
    } else {
      assert ms[d..k] == [];
      IndexAfterNone(0);
    }
  }

  lemma IndexAfterNone(from: int)
    ensures IndexAfter(from, []) == from
  {
  }

  lemma StreamStep(s: nat, ms: seq<Message>, k: nat)
    requires Indexed(s, ms) && k + 1 < |ms|
    ensures ms[k + 1].index == ms[k].index + 1 + ms[k].body.pause
  {
    ExpandAt(ms, k);
    hide Expand;
  }

  // ---------------------------------------------------------------- the next view's engine

  /** The messages carried into the next view: the rest of the stream from position d on. */
  lemma CarriedIsStretch(c: Config, S: System, j: nat)
    requires Inv(c, S) && j < c.n
    ensures var d := |OwnMessages(j, S.nodes[j].log)|;
            d <= |Stream(S, j)|
            && Unsent(S.nodes[j], j) + OneOrNone(S.nodes[j].nextSend) == Stream(S, j)[d..]
  {
    hide Inv, OwnMessages, Ascending, Unsent, Shape, View;
    InvShape(c, S);
    OwnStreamConserved(c, S, j);
    var done, rest, held := OwnMessages(j, S.nodes[j].log), Unsent(S.nodes[j], j), OneOrNone(S.nodes[j].nextSend);
    assert Stream(S, j) == done + (rest + held);
  }

  lemma {:induction false} OwnIsIn(rank: int, ms: seq<Message>, m: Message)
    requires m in OwnMessages(rank, ms)
    ensures m in ms && m.size > 0 && m.sender == rank
    decreases |ms|
  {
    if m in OwnMessages(rank, ms[1..]) {
      OwnIsIn(rank, ms[1..], m);
    }
  }

  lemma {:induction false} AscendingIsIn(ls: map<int, Message>, m: Message)
    requires m in Ascending(ls)
    ensures exists q :: q in ls && ls[q] == m
    decreases |ls.Keys|
  {
    var q := Least(ls);
    RemoveKey(ls, q);
    if m != ls[q] {
      AscendingIsIn(ls - {q}, m);
      var p :| p in ls - {q} && (ls - {q})[p] == m;
      assert p in ls && ls[p] == m;
    }
  }

  /** Nothing that is carried over had been delivered by the trigger. */
  lemma CarriedUndelivered(c: Config, S: System, j: nat, m: Message)
    requires Inv(c, S) && j < c.n
    requires m in Unsent(S.nodes[j], j) + OneOrNone(S.nodes[j].nextSend)
    ensures SeqNo(c.n, j, m.index) > OwnRow(c, S, j).deliveredNum
  {
    hide WindowsOk, TableInv, Shape, View, TransitOk, RowOk, LogOk, OwnMessages, Ascending, SeqNo, Received, Slot, StreamOk;
    var x, row := S.nodes[j], OwnRow(c, S, j);
    assert MemberInv(c.n, j, x, row, S.sent, S.got[j], S.busy[j]);
    RowOkShape(c.n, row);
    if m in OwnMessages(j, Ascending(x.locallyStable)) {
      OwnIsIn(j, Ascending(x.locallyStable), m);
      AscendingIsIn(x.locallyStable, m);
      var q :| q in x.locallyStable && x.locallyStable[q] == m;
      SlotNumber(c, S, j, q);
      TopLow(c.n, row);
    } else {
      OwnQueueIsTail(c.n, j, x, row, S.sent, S.got[j], S.accepted[j]);
      assert m in OwnQueue(x);
      AheadOfDelivered(c.n, row, j, m.index);
    }
  }

  /** The stretch carried over spans less than a window, so its new indices stay below the window. */
  lemma CarriedFitsWindow(c: Config, S: System, j: nat, k: nat)
    requires Inv(c, S) && j < c.n
    requires k < |Unsent(S.nodes[j], j) + OneOrNone(S.nodes[j].nextSend)|
    ensures IndexAfter(0, (Unsent(S.nodes[j], j) + OneOrNone(S.nodes[j].nextSend))[..k]) < c.window
  {
    hide MembersOk, TableInv, Shape, View, Unsent, Indexed, SeqNo, OwnMessages, IndexAfter;
    var carried, d := Unsent(S.nodes[j], j) + OneOrNone(S.nodes[j].nextSend), |OwnMessages(j, S.nodes[j].log)|;
    var stream := Stream(S, j);
    CarriedIsStretch(c, S, j);
    assert StreamOk(j, S.nodes[j], S.sent[j], S.accepted[j]);
    StretchIndex(j, stream, d, d + k);
    assert carried[..k] == stream[d..d + k];
    assert carried[0] == stream[d];
    CarriedUndelivered(c, S, j, carried[0]);
    assert Windowed(c, j, stream, OwnRow(c, S, j).deliveredNum);
    SeqNoMonotone(c.n, j, stream[d].index, stream[d + k].index - c.window);
  }

  /** Every buffer filed away is either an own message to resend or one to reclaim. */
  lemma {:induction false} FiledBuffers(rank: int, ls: map<int, Message>)
    ensures |Content(ls)| == |OwnMessages(rank, Ascending(ls))| + OthersCount(rank, Ascending(ls))
    decreases |ls.Keys|
  {
    if ls == map[] {
      assert Content(ls) == {};
    } else {
      var q := Least(ls);
      var rest := ls - {q};
      RemoveKey(ls, q);
      FiledBuffers(rank, rest);
      var more := Ascending(rest);
      assert ([ls[q]] + more)[1..] == more;
      assert Content(rest) == Content(ls) - {q};
      assert q in Content(ls) <==> ls[q].size > 0;
    }
  }

  /** All buffers are carried over, and new ones made only as far as a window for each member needs them. */
  lemma NextEngineBuffers(c: Config, rank: nat, x: Node, j: nat, created: bool)
    requires BuffersOk(x)
    ensures BuffersOk(NextEngine(c, rank, x, j, created))
    ensures var total := NextEngine(c, rank, x, j, created).totalBuffers;
            && total >= x.totalBuffers && total >= c.window * c.n
            && (total > x.totalBuffers ==> total == c.window * c.n)
  {
    hide OwnMessages, Ascending, OthersCount, Content, Reindex, IndexAfter;
    FiledBuffers(j, x.locallyStable);
    var y := NextEngine(c, rank, x, j, created);
    NoContent();
    assert |y.currentReceives.Keys| == 0;
    assert |x.currentReceives| == |x.currentReceives.Keys|;
  }

  lemma NoContent()
    ensures Content(map[]) == {}
  {
  }

  lemma NextEngineStream(c: Config, rank: nat, x: Node, j: nat, created: bool)
    requires forall m :: m in Unsent(x, j) + OneOrNone(x.nextSend) ==> m.size > 0
    ensures var y := NextEngine(c, rank, x, j, created);
            StreamOk(rank, y, [], y.pendingSends)
            && y.pendingSends + OneOrNone(y.nextSend) == Reindex(rank, 0, Unsent(x, j) + OneOrNone(x.nextSend))
            && |y.pendingSends| == |Unsent(x, j)|
  {
    hide Unsent, Indexed;
    var rest, held := Unsent(x, j), OneOrNone(x.nextSend);
    ReindexConcat(rank, 0, rest, held);
    ReindexIndexed(rank, rest + held);
    IndexAfterConcat(0, rest, held);
    hide Reindex, Expand;
    var y := NextEngine(c, rank, x, j, created);
    assert y.pendingSends == [] + y.pendingSends;
    assert OneOrNone(y.nextSend) == Reindex(rank, IndexAfter(0, rest), held);
  }

  lemma CarriedContent(c: Config, S: System, j: nat)
    requires Inv(c, S) && j < c.n
    ensures forall m :: m in Unsent(S.nodes[j], j) + OneOrNone(S.nodes[j].nextSend) ==> m.size > 0
  {
    hide MembersOk, WindowsOk, TableInv, Shape, View, Unsent, OwnMessages, Expand;
    CarriedIsStretch(c, S, j);
    assert StreamOk(j, S.nodes[j], S.sent[j], S.accepted[j]);
    var carried, d := Unsent(S.nodes[j], j) + OneOrNone(S.nodes[j].nextSend), |OwnMessages(j, S.nodes[j].log)|;
    forall m | m in carried ensures m.size > 0 {
      var k :| 0 <= k < |carried| && carried[k] == m;
      assert Stream(S, j)[d + k] == m;
    }
  }

  /**
   The next view starts well.  From any reachable state, member j's engine for the next view
   (any size, any rank, the same window) is one a view may start with: its queue is numbered
   from 0 with exactly the gaps the skipped turns need, it fits in one window, and no buffer
   was lost.  So everything proved about runs holds in every view.
   */
  lemma NextViewStartsWell(c: Config, S: System, j: nat, c': Config, rank: nat, created: bool)
    requires Inv(c, S) && j < c.n
    requires c'.window == c.window && rank < c'.n
    ensures InitialMember(c', rank, NextEngine(c', rank, S.nodes[j], j, created))
  {
    hide MemberInv, StreamsOk, WindowsOk, TableInv, Shape, View, Unsent, StreamOk, Reindex, IndexAfter;
    var x := S.nodes[j];
    var y := NextEngine(c', rank, x, j, created);
    var carried := Unsent(x, j) + OneOrNone(x.nextSend);
    CarriedContent(c, S, j);
    NextEngineStream(c', rank, x, j, created);
    BuffersHold(c, S, j);
    NextEngineBuffers(c', rank, x, j, created);
    ReindexIndexed(rank, carried);
    hide BuffersOk;
    forall m | m in y.pendingSends + OneOrNone(y.nextSend) ensures m.index < c'.window {
      var k :| 0 <= k < |carried| && Reindex(rank, 0, carried)[k] == m;
      CarriedFitsWindow(c, S, j, k);
    }
  }

  /** No buffer is ever lost or made up: free ones and occupied ones always add up. */
  lemma BuffersHold(c: Config, S: System, j: nat)
    requires Inv(c, S) && j < c.n
    ensures S.nodes[j].freeBuffers + BuffersUsed(S.nodes[j]) == S.nodes[j].totalBuffers
    ensures BuffersOk(S.nodes[j])
  {
    hide WindowsOk, StreamsOk, TableInv, Shape, View, RowOk, CountsOk, TransitOk, FiledOk, LogOk, CurrentOk, BuffersUsed;
    assert MemberInv(c.n, j, S.nodes[j], OwnRow(c, S, j), S.sent, S.got[j], S.busy[j]);
  }

  /**
   The own stream across a change of view: what was delivered, then what the next engine
   queues, then what the client was still filling, have the contents of everything the
   client ever asked to send, in the original order.
   */
  lemma OwnStreamAcrossViews(c: Config, S: System, j: nat, c': Config, rank: nat, created: bool)
    requires Inv(c, S) && j < c.n && rank < c'.n
    ensures var y := NextEngine(c', rank, S.nodes[j], j, created);
            var delivered := OwnMessages(j, S.nodes[j].log);
            var all := Stream(S, j);
            && |delivered| + |y.pendingSends| + |OneOrNone(y.nextSend)| == |all|
            && |delivered| + |y.pendingSends| == |S.accepted[j]|
            && (forall k :: 0 <= k < |delivered| ==> delivered[k] == all[k])
            && (forall k :: |delivered| <= k < |all| ==>
                  var m := (y.pendingSends + OneOrNone(y.nextSend))[k - |delivered|];
                  m.size == all[k].size && m.body == all[k].body)
  {
    hide Inv, Shape, View, Unsent, OwnMessages, IndexAfter, Reindex, Indexed, StreamOk;
    InvShape(c, S);
    var x := S.nodes[j];
    var y := NextEngine(c', rank, x, j, created);
    var carried := Unsent(x, j) + OneOrNone(x.nextSend);
    OwnStreamConserved(c, S, j);
    CarriedIsStretch(c, S, j);
    CarriedContent(c, S, j);
    NextEngineStream(c', rank, x, j, created);
    ReindexIndexed(rank, carried);
    var delivered, all := OwnMessages(j, x.log), Stream(S, j);
    assert delivered == S.accepted[j][..|delivered|];
    forall k | |delivered| <= k < |all|
      ensures var m := (y.pendingSends + OneOrNone(y.nextSend))[k - |delivered|];
              m.size == all[k].size && m.body == all[k].body
    {
      assert carried[k - |delivered|] == all[k];
    }
  }
}
