/**
 Why a receiver never runs out of buffers: everything that occupies a buffer at a member
 has a distinct number inside some sender's current window.
 */
module Buffers {
  import opened Collections
  import opened Numbering
  import opened SharedTable
  import opened Messages
  import opened GroupSpec
  import opened MemberInvariant
  import opened MemberSteps
  import opened Multicast
  import opened MulticastInv

  // ---------------------------------------------------------------- windows as sets of numbers

  /** The numbers of the w indices of sender s that end at hi. */
  ghost function WindowNos(n: nat, s: nat, hi: int, w: nat): (nos: set<int>)
    ensures |nos| <= w
    decreases w
  {
    if w == 0 then {}
    else
      var rest := WindowNos(n, s, hi - 1, w - 1);
      assert |rest + {SeqNo(n, s, hi)}| <= |rest| + 1;
      rest + {SeqNo(n, s, hi)}
  }

  lemma {:induction false} InWindow(n: nat, s: nat, hi: int, w: nat, i: int)
    requires hi - w < i <= hi
    ensures SeqNo(n, s, i) in WindowNos(n, s, hi, w)
    decreases w
  {
    hide SeqNo;
    if i < hi {
      InWindow(n, s, hi - 1, w - 1, i);
    }
  }

  /** The windows of the first k senders; his[s] is where sender s's window ends. */
  ghost function AllWindows(n: nat, his: seq<int>, w: nat, k: nat): (nos: set<int>)
    requires k <= |his|
    ensures |nos| <= w * k
  {
    if k == 0 then {}
    else
      var rest, mine := AllWindows(n, his, w, k - 1), WindowNos(n, k - 1, his[k - 1], w);
      assert |rest + mine| <= |rest| + |mine|;
      assert w * (k - 1) + w == w * k;
      rest + mine
  }

  lemma {:induction false} InAllWindows(n: nat, his: seq<int>, w: nat, k: nat, s: nat, i: int)
    requires s < k <= |his| && his[s] - w < i <= his[s]
    ensures SeqNo(n, s, i) in AllWindows(n, his, w, k)
    decreases k
  {
    hide SeqNo;
    if s == k - 1 {
      InWindow(n, s, his[s], w, i);
    } else {
      InAllWindows(n, his, w, k - 1, s, i);
    }
  }

  // ---------------------------------------------------------------- what a member holds

  /** Own messages not yet received back: being sent, queued, or being filled by the client. */
  function OwnQueue(x: Node): seq<Message> {
    OneOrNone(x.currentSend) + x.pendingSends + OneOrNone(x.nextSend)
  }

  ghost function Nos(n: nat, me: nat, ms: seq<Message>): set<int> {
    if ms == [] then {} else Nos(n, me, ms[..|ms| - 1]) + {SeqNo(n, me, ms[|ms| - 1].index)}
  }

  lemma {:induction false} NosMembers(n: nat, me: nat, ms: seq<Message>, q: int)
    ensures q in Nos(n, me, ms) <==> exists k :: 0 <= k < |ms| && q == SeqNo(n, me, ms[k].index)
    decreases |ms|
  {
    hide SeqNo;
    if ms != [] {
      var last := |ms| - 1;
      NosMembers(n, me, ms[..last], q);
      if q in Nos(n, me, ms[..last]) {
        var k :| 0 <= k < last && q == SeqNo(n, me, ms[..last][k].index);
        assert q == SeqNo(n, me, ms[k].index);
      }
      if k :| 0 <= k < |ms| && q == SeqNo(n, me, ms[k].index) && k != last {
        assert q == SeqNo(n, me, ms[..last][k].index);
      }
    }
  }

  lemma {:induction false} NosSize(n: nat, me: nat, ms: seq<Message>)
    requires n > 0 && forall a, b :: 0 <= a < b < |ms| ==> ms[a].index < ms[b].index
    ensures |Nos(n, me, ms)| == |ms|
    decreases |ms|
  {
    if ms != [] {
      var last := |ms| - 1;
      NosSize(n, me, ms[..last]);
      var q := SeqNo(n, me, ms[last].index);
      NosMembers(n, me, ms[..last], q);
      if q in Nos(n, me, ms[..last]) {
        var k :| 0 <= k < last && q == SeqNo(n, me, ms[..last][k].index);
        SeqNoMonotone(n, me, ms[last].index, ms[k].index);
        assert false;
      }
    }
  }

  /** The numbers of everything that occupies a buffer at member me. */
  ghost function Held(n: nat, me: nat, x: Node): set<int> {
    x.currentReceives.Keys + Content(x.locallyStable) + Nos(n, me, OwnQueue(x))
  }

  /** The own queue is the tail of the own stream that has not come back yet. */
  lemma OwnQueueIsTail(n: nat, me: nat, x: Node, row: Row, sent: seq<seq<Message>>, got: seq<nat>, accepted: seq<Message>)
    requires me < n && |sent| == |got| == n && RowShape(n, row)
    requires CountsOk(n, row, sent, got) && CurrentOk(x, sent[me], got[me])
    requires StreamOk(me, x, sent[me], accepted)
    ensures var all := accepted + OneOrNone(x.nextSend);
            got[me] <= |all| && OwnQueue(x) == all[got[me]..]
    ensures forall m :: m in OwnQueue(x) ==> m.index > row.nReceived[me]
    ensures forall a, b :: 0 <= a < b < |OwnQueue(x)| ==> OwnQueue(x)[a].index < OwnQueue(x)[b].index
  {
    var all := accepted + OneOrNone(x.nextSend);
    hide Expand, FiledOk;
    assert OwnQueue(x) == all[got[me]..];
    forall a, b | 0 <= a < b < |OwnQueue(x)| ensures OwnQueue(x)[a].index < OwnQueue(x)[b].index {
      IndicesGrow(me, all, got[me] + a, got[me] + b);
    }
    forall k | 0 <= k < |OwnQueue(x)| ensures OwnQueue(x)[k].index > row.nReceived[me] {
      assert all[got[me] + k].index == |Expand(all[..got[me] + k])|;
      ExpandPrefix(all[..got[me] + k], got[me]);
      assert all[..got[me] + k][..got[me]] == sent[me][..got[me]];
    }
  }

  lemma HeldSize(n: nat, me: nat, x: Node, row: Row, sent: seq<seq<Message>>, got: seq<nat>,
                 busy: set<nat>, accepted: seq<Message>)
    requires MemberInv(n, me, x, row, sent, got, busy) && StreamOk(me, x, sent[me], accepted)
    ensures |Held(n, me, x)| == BuffersUsed(x)
  {
    hide StreamOk, CountsOk, RowOk, Slot, BuffersOk, LogOk;
    RowOkShape(n, row);
    OwnQueueIsTail(n, me, x, row, sent, got, accepted);
    NosSize(n, me, OwnQueue(x));
    HeldApart(n, me, x, row, sent, got, busy);
    hide Content, Nos;
    var a, b, d := x.currentReceives.Keys, Content(x.locallyStable), Nos(n, me, OwnQueue(x));
    assert |a + b| == |a| + |b|;
    assert |a + b + d| == |a + b| + |d|;
  }

  lemma HeldApart(n: nat, me: nat, x: Node, row: Row, sent: seq<seq<Message>>, got: seq<nat>, busy: set<nat>)
    requires me < n && |sent| == |got| == n && RowOk(n, row)
    requires TransitOk(n, me, x.currentReceives, row, sent, got, busy) && FiledOk(n, x.locallyStable, row, sent)
    requires forall m :: m in OwnQueue(x) ==> m.index > row.nReceived[me]
    ensures x.currentReceives.Keys !! Content(x.locallyStable)
    ensures (x.currentReceives.Keys + Content(x.locallyStable)) !! Nos(n, me, OwnQueue(x))
  {
    hide Slot, PrefixEnd, TransitOk, FiledOk, Received, SenderOf, Nos, Content, OwnQueue;
    RowOkShape(n, row);
    forall q | q in Content(x.locallyStable)
      ensures q !in x.currentReceives && q !in Nos(n, me, OwnQueue(x))
    {
      ContentReceived(n, x.locallyStable, row, sent, q);
      if q in x.currentReceives {
        TransitNotReceived(n, me, x.currentReceives, row, sent, got, busy, q);
      }
      if q in Nos(n, me, OwnQueue(x)) {
        QueueNotReceived(n, me, OwnQueue(x), row, q);
      }
    }
    forall q | q in x.currentReceives ensures q !in Nos(n, me, OwnQueue(x)) {
      TransitNotReceived(n, me, x.currentReceives, row, sent, got, busy, q);
      if q in Nos(n, me, OwnQueue(x)) {
        QueueNotReceived(n, me, OwnQueue(x), row, q);
      }
    }
  }

  lemma ContentReceived(n: nat, ls: map<int, Message>, row: Row, sent: seq<seq<Message>>, q: int)
    requires n == |sent| > 0 && RowShape(n, row) && FiledOk(n, ls, row, sent) && q in Content(ls)
    ensures Received(row.nReceived, q) && q > row.deliveredNum && q in ls
  {
    hide Received, Slot, TrimEnd;
  }

  lemma TransitNotReceived(n: nat, me: nat, receives: map<int, Message>, row: Row,
                           sent: seq<seq<Message>>, got: seq<nat>, busy: set<nat>, q: int)
    requires RowShape(n, row) && |sent| == |got| == n
    requires TransitOk(n, me, receives, row, sent, got, busy) && q in receives
    ensures n > 0 && !Received(row.nReceived, q) && SenderOf(n, q) != me
    ensures SenderOf(n, q) in busy && q == SeqNo(n, SenderOf(n, q), row.nReceived[SenderOf(n, q)] + 1)
  {
    var s := SenderOf(n, q);
    assert s in busy;
    JoinSeqNo(n, s, row.nReceived[s] + 1);
    hide SeqNo, SenderOf, IndexOf;
  }

  lemma BusyIncoming(n: nat, me: nat, receives: map<int, Message>, row: Row,
                     sent: seq<seq<Message>>, got: seq<nat>, busy: set<nat>, s: nat)
    requires RowShape(n, row) && |sent| == |got| == n
    requires TransitOk(n, me, receives, row, sent, got, busy) && s in busy
    ensures s < n && got[s] < |sent[s]|
  {
  }

  lemma QueueNotReceived(n: nat, me: nat, ms: seq<Message>, row: Row, q: int)
    requires me < n && RowShape(n, row) && q in Nos(n, me, ms)
    requires forall m :: m in ms ==> m.index > row.nReceived[me]
    ensures !Received(row.nReceived, q) && SenderOf(n, q) == me
    ensures exists m :: m in ms && q == SeqNo(n, me, m.index)
  {
    NosMembers(n, me, ms, q);
    hide Nos;
    var k :| 0 <= k < |ms| && q == SeqNo(n, me, ms[k].index);
    assert ms[k] in ms;
    JoinSeqNo(n, me, ms[k].index);
    hide SeqNo, SenderOf, IndexOf;
  }

  // ---------------------------------------------------------------- held numbers lie in the windows

  /** The index of the last message of a stream; -1 if it has none. */
  function LastIndex(ms: seq<Message>): int {
    if ms == [] then -1 else ms[|ms| - 1].index
  }

  function Lasts(c: Config, S: System): (his: seq<int>)
    requires |S.accepted| == |S.nodes| == c.n
    ensures |his| == c.n
  {
    seq(c.n, s requires 0 <= s < c.n => LastIndex(Stream(S, s)))
  }

  lemma BelowLast(s: nat, ms: seq<Message>, k: nat)
    requires Indexed(s, ms) && k < |ms|
    ensures ms[k].index <= LastIndex(ms)
  {
    if k < |ms| - 1 {
      IndicesGrow(s, ms, k, |ms| - 1);
    }
  }

  /** A turn with content belongs to one of the stream's messages. */
  lemma {:induction false} ContentTurn(s: nat, ms: seq<Message>, i: nat)
    requires Indexed(s, ms) && i < |Expand(ms)| && Expand(ms)[i].size > 0
    ensures exists k :: 0 <= k < |ms| && ms[k].index == i && ms[k] == Expand(ms)[i]
    decreases |ms|
  {
    var last := |ms| - 1;
    var front := ms[..last];
    if i < |Expand(front)| {
      IndexedPrefix(s, ms, last);
      ContentTurn(s, front, i);
      var k :| 0 <= k < |front| && front[k].index == i && front[k] == Expand(front)[i];
      assert ms[k].index == i && ms[k] == Expand(ms)[i];
    } else {
      assert ms[last].index == |Expand(front)|;
      TurnAt(ms[last], i - ms[last].index);
      assert ms[last].index == i;
    }
  }

  /** A number (s, i) that is some message of s's stream and not yet delivered here is in s's window. */
  lemma IndexInWindow(c: Config, S: System, j: nat, s: nat, k: nat)
    requires Inv(c, S) && j < c.n && s < c.n && k < |Stream(S, s)|
    requires SeqNo(c.n, s, Stream(S, s)[k].index) > OwnRow(c, S, j).deliveredNum
    ensures SeqNo(c.n, s, Stream(S, s)[k].index) in AllWindows(c.n, Lasts(c, S), c.window, c.n)
  {
    hide MembersOk, TableInv, Shape, View, SeqNo, AllWindows, Indexed;
    var stream := Stream(S, s);
    var hi := LastIndex(stream);
    BelowLast(s, stream, k);
    assert Windowed(c, s, stream, OwnRow(c, S, j).deliveredNum);
    assert SeqNo(c.n, s, stream[|stream| - 1].index - c.window) <= OwnRow(c, S, j).deliveredNum;
    SeqNoMonotone(c.n, s, stream[k].index, hi - c.window);
    assert Lasts(c, S)[s] == hi;
    InAllWindows(c.n, Lasts(c, S), c.window, c.n, s, stream[k].index);
  }

  lemma AheadOfDelivered(n: nat, row: Row, s: nat, i: int)
    requires RowOk(n, row) && s < n && i > row.nReceived[s]
    ensures SeqNo(n, s, i) > row.deliveredNum
  {
    FreshKey(n, s, i, row);
  }

  lemma SentInStream(c: Config, S: System, s: nat, k: nat)
    requires Inv(c, S) && s < c.n && k < |S.sent[s]|
    ensures k < |Stream(S, s)| && Stream(S, s)[k] == S.sent[s][k]
  {
    hide MembersOk, WindowsOk, TableInv, Shape, View, Indexed;
    assert StreamOk(s, S.nodes[s], S.sent[s], S.accepted[s]);
  }

  /** The next message of s to come to j has the index after those received. */
  lemma NextIndex(c: Config, S: System, j: nat, s: nat)
    requires Inv(c, S) && j < c.n && s < c.n && S.got[j][s] < |S.sent[s]|
    ensures S.sent[s][S.got[j][s]].index == OwnRow(c, S, j).nReceived[s] + 1
  {
    hide WindowsOk, TableInv, Shape, View, FiledOk, LogOk, TransitOk, Expand, RowOk;
    SentIndexed(s, S.nodes[s], S.sent[s], S.accepted[s]);
    assert CountsOk(c.n, OwnRow(c, S, j), S.sent, S.got[j]);
  }

  lemma IncomingInWindow(c: Config, S: System, j: nat, s: nat)
    requires Inv(c, S) && j < c.n && s < c.n && S.got[j][s] < |S.sent[s]|
    ensures SeqNo(c.n, s, OwnRow(c, S, j).nReceived[s] + 1) in AllWindows(c.n, Lasts(c, S), c.window, c.n)
  {
    hide StreamsOk, WindowsOk, TableInv, Shape, View, CountsOk, FiledOk, LogOk, TransitOk, RowOk, SeqNo;
    NextIndex(c, S, j, s);
    SentInStream(c, S, s, S.got[j][s]);
    AheadOfDelivered(c.n, OwnRow(c, S, j), s, OwnRow(c, S, j).nReceived[s] + 1);
    IndexInWindow(c, S, j, s, S.got[j][s]);
  }

  lemma FiledInWindow(c: Config, S: System, j: nat, q: int)
    requires Inv(c, S) && j < c.n && q in Content(S.nodes[j].locallyStable)
    ensures q in AllWindows(c.n, Lasts(c, S), c.window, c.n)
  {
    hide WindowsOk, TableInv, Shape, View, CountsOk, FiledOk, LogOk, TransitOk, RowOk, SeqNo, Received, SenderOf, IndexOf;
    var x, row := S.nodes[j], OwnRow(c, S, j);
    RowOkShape(c.n, row);
    ContentReceived(c.n, x.locallyStable, row, S.sent, q);
    ReceivedTurnSent(c.n, row, S.sent, S.got[j], q);
    FiledIsSlot(c.n, x.locallyStable, row, S.sent, q);
    SplitSeqNo(c.n, q);
    var s, i := SenderOf(c.n, q), IndexOf(c.n, q);
    SentIndexed(s, S.nodes[s], S.sent[s], S.accepted[s]);
    ContentTurn(s, S.sent[s], i);
    var k :| 0 <= k < |S.sent[s]| && S.sent[s][k].index == i && S.sent[s][k] == Expand(S.sent[s])[i];
    SentInStream(c, S, s, k);
    IndexInWindow(c, S, j, s, k);
  }

  lemma QueuedInWindow(c: Config, S: System, j: nat, q: int)
    requires Inv(c, S) && j < c.n && q in Nos(c.n, j, OwnQueue(S.nodes[j]))
    ensures q in AllWindows(c.n, Lasts(c, S), c.window, c.n)
  {
    hide WindowsOk, TableInv, Shape, View, CountsOk, FiledOk, LogOk, TransitOk, RowOk, SeqNo, Indexed, Nos, CurrentOk;
    var x, row := S.nodes[j], OwnRow(c, S, j);
    RowOkShape(c.n, row);
    OwnQueueIsTail(c.n, j, x, row, S.sent, S.got[j], S.accepted[j]);
    QueueNotReceived(c.n, j, OwnQueue(x), row, q);
    var m :| m in OwnQueue(x) && q == SeqNo(c.n, j, m.index);
    var k :| 0 <= k < |OwnQueue(x)| && OwnQueue(x)[k] == m;
    assert Stream(S, j)[S.got[j][j] + k] == m;
    AheadOfDelivered(c.n, row, j, m.index);
    IndexInWindow(c, S, j, j, S.got[j][j] + k);
  }

  lemma TransitInWindow(c: Config, S: System, j: nat, q: int)
    requires Inv(c, S) && j < c.n && q in S.nodes[j].currentReceives
    ensures q in AllWindows(c.n, Lasts(c, S), c.window, c.n)
  {
    hide StreamsOk, WindowsOk, TableInv, Shape, View, CountsOk, FiledOk, LogOk, RowOk, SeqNo, SenderOf, TransitOk,
         CurrentOk, BuffersOk, Received, AllWindows, Lasts;
    assert MemberInv(c.n, j, S.nodes[j], OwnRow(c, S, j), S.sent, S.got[j], S.busy[j]);
    RowOkShape(c.n, OwnRow(c, S, j));
    TransitNotReceived(c.n, j, S.nodes[j].currentReceives, OwnRow(c, S, j), S.sent, S.got[j], S.busy[j], q);
    var s := SenderOf(c.n, q);
    BusyIncoming(c.n, j, S.nodes[j].currentReceives, OwnRow(c, S, j), S.sent, S.got[j], S.busy[j], s);
    IncomingInWindow(c, S, j, s);
  }

  /** What would be filed next from s is not held yet. */
  lemma IncomingNotHeld(c: Config, S: System, j: nat, s: nat)
    requires Inv(c, S) && j < c.n && s < c.n && s != j && s !in S.busy[j]
    ensures SeqNo(c.n, s, OwnRow(c, S, j).nReceived[s] + 1) !in Held(c.n, j, S.nodes[j])
  {
    hide WindowsOk, TableInv, Shape, View, CountsOk, FiledOk, TransitOk, LogOk, RowOk, SeqNo, SenderOf, Received,
         Nos, OwnQueue, Content, CurrentOk;
    var x, row := S.nodes[j], OwnRow(c, S, j);
    var q := SeqNo(c.n, s, row.nReceived[s] + 1);
    RowOkShape(c.n, row);
    FreshKey(c.n, s, row.nReceived[s] + 1, row);
    JoinSeqNo(c.n, s, row.nReceived[s] + 1);
    if q in x.currentReceives {
      TransitNotReceived(c.n, j, x.currentReceives, row, S.sent, S.got[j], S.busy[j], q);
    } else if q in Content(x.locallyStable) {
      ContentReceived(c.n, x.locallyStable, row, S.sent, q);
    } else if q in Nos(c.n, j, OwnQueue(x)) {
      OwnQueueIsTail(c.n, j, x, row, S.sent, S.got[j], S.accepted[j]);
      QueueNotReceived(c.n, j, OwnQueue(x), row, q);
    }
  }

  /**
   With window * n buffers per member, a receiver asked for a buffer always has one: the
   window checks bound what any sender can have outstanding anywhere, however stale the
   rows they read.
   */
  lemma BufferAlwaysFree(c: Config, S: System, j: nat, s: nat)
    requires Inv(c, S) && j < c.n && BufferAsked(c, S, j, s)
    ensures S.nodes[j].freeBuffers > 0
  {
    hide WindowsOk, TableInv, Shape, View, CountsOk, FiledOk, TransitOk, LogOk, RowOk, SeqNo, Held, AllWindows,
         BuffersUsed, StreamOk, Lasts, CurrentOk;
    var x, row := S.nodes[j], OwnRow(c, S, j);
    var windows := AllWindows(c.n, Lasts(c, S), c.window, c.n);
    var q := SeqNo(c.n, s, row.nReceived[s] + 1);
    HeldInWindows(c, S, j);
    IncomingInWindow(c, S, j, s);
    IncomingNotHeld(c, S, j, s);
    SubsetSize(Held(c.n, j, x) + {q}, windows);
    assert |Held(c.n, j, x) + {q}| == |Held(c.n, j, x)| + 1;
    HeldSize(c.n, j, x, row, S.sent, S.got[j], S.busy[j], S.accepted[j]);
  }

  lemma HeldInWindows(c: Config, S: System, j: nat)
    requires Inv(c, S) && j < c.n
    ensures Held(c.n, j, S.nodes[j]) <= AllWindows(c.n, Lasts(c, S), c.window, c.n)
  {
    hide MembersOk, StreamsOk, WindowsOk, TableInv, Shape, View, AllWindows, Nos, Content, OwnQueue, Lasts;
    forall q | q in Held(c.n, j, S.nodes[j]) ensures q in AllWindows(c.n, Lasts(c, S), c.window, c.n) {
      if q in S.nodes[j].currentReceives {
        TransitInWindow(c, S, j, q);
      } else if q in Content(S.nodes[j].locallyStable) {
        FiledInWindow(c, S, j, q);
      } else {
        QueuedInWindow(c, S, j, q);
      }
    }
  }

  /** The code's asserts hold whenever the environment offers the step. */
  lemma AssertsNeverFire(c: Config, S: System, step: Step)
    requires Inv(c, S) && Offered(c, S, step)
    ensures AssertsHold(c, S, step)
  {
    hide WindowsOk, TableInv, Shape, View, CountsOk, FiledOk, TransitOk, LogOk, RowOk, SeqNo, BuffersOk, StreamOk,
         CanReceive, CurrentOk;
    if step.TakeBuffer? {
      BufferAlwaysFree(c, S, step.j, step.s);
    } else if step.Complete? {
      var j, s := step.j, step.s;
      SentIndexed(s, S.nodes[s], S.sent[s], S.accepted[s]);
      ArrivedIsSent(c, j, S.nodes[j], OwnRow(c, S, j), TableOf(c, S, j), S.sent, S.got[j], S.busy[j], s);
    }
  }
}
