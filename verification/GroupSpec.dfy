/**
 What one member's multicast engine does, as functions on its state and its table.
 The class in DerechoGroup.dfy is proved against these; the group protocol in
 Multicast.dfy takes its local steps from here.
 */
module GroupSpec {
  import opened Collections
  import opened Numbering
  import opened SharedTable
  import opened Messages

  /** What all members agree on: group size, window, and the largest message. */
  datatype Config = Config(n: nat, window: nat, maxMsgSize: nat)

  /** Size of the packed header in front of every payload. */
  const HEADER_SIZE := 9

  /**
   One member's message state.  freeBuffers counts free_message_buffers; `log` lists
   the messages handed to deliver_message so far, skipped turns included.
   */
  datatype Node = Node(
    created: bool,
    shutdown: bool,
    futureIndex: int,
    nextSend: Option<Message>,
    pendingSends: seq<Message>,
    currentSend: Option<Message>,
    currentReceives: map<int, Message>,
    locallyStable: map<int, Message>,
    freeBuffers: nat,
    totalBuffers: nat,
    log: seq<Message>)

  function InitialNode(created: bool, buffers: nat): Node {
    Node(created, false, 0, None, [], None, map[], map[], buffers, buffers, [])
  }

  // ---------------------------------------------------------------- sending

  /** Every member has delivered the message one window before `index`, as far as the table shows. */
  predicate WindowOpen(c: Config, me: nat, sst: Sst, index: int) {
    forall i :: 0 <= i < |sst| ==> sst[i].deliveredNum >= SeqNo(c.n, me, index - c.window)
  }

  function MessageSize(c: Config, payloadSize: nat): nat {
    if payloadSize == 0 then c.maxMsgSize else payloadSize + HEADER_SIZE
  }

  predicate CanGetPosition(c: Config, me: nat, x: Node, sst: Sst, payloadSize: nat) {
    && x.created
    && MessageSize(c, payloadSize) <= c.maxMsgSize
    && WindowOpen(c, me, sst, x.futureIndex)
    && !x.shutdown
    && x.freeBuffers > 0
  }

  function GetPosition(c: Config, me: nat, x: Node, payloadSize: nat, pause: nat, cooked: bool): Node
    requires x.freeBuffers > 0
  {
    var m := Message(me, x.futureIndex, MessageSize(c, payloadSize), Body(pause, cooked, []));
    x.(nextSend := Some(m), freeBuffers := x.freeBuffers - 1, futureIndex := x.futureIndex + pause + 1)
  }

  predicate CanSend(x: Node) {
    !x.shutdown && x.created
  }

  /** The client has filled the buffer of the message get_position handed out. */
  function Filled(m: Message, payload: seq<byte>): Message {
    m.(body := m.body.(payload := payload))
  }

  function Send(x: Node, payload: seq<byte>): Node
    requires x.nextSend.Some?
  {
    x.(pendingSends := x.pendingSends + [Filled(x.nextSend.value, payload)], nextSend := None)
  }

  predicate ShouldSend(c: Config, me: nat, x: Node, sst: Sst)
    requires SstShape(c.n, sst) && me < c.n
  {
    && x.created
    && x.pendingSends != []
    && sst[me].nReceived[me] >= x.pendingSends[0].index - 1
    && WindowOpen(c, me, sst, x.pendingSends[0].index)
  }

  function StartSend(x: Node): Node
    requires x.pendingSends != []
  {
    x.(currentSend := Some(x.pendingSends[0]), pendingSends := x.pendingSends[1..])
  }

  // ---------------------------------------------------------------- receiving

  /** The number the next message from `s` will be filed under. */
  function NextNo(c: Config, me: nat, sst: Sst, s: nat): int
    requires SstShape(c.n, sst) && me < c.n && s < c.n
  {
    SeqNo(c.n, s, sst[me].nReceived[s] + 1)
  }

  function ReceiveDestination(c: Config, me: nat, x: Node, sst: Sst, s: nat, length: nat): Node
    requires SstShape(c.n, sst) && me < c.n && s < c.n
    requires x.freeBuffers > 0
  {
    var m := Message(s, sst[me].nReceived[s] + 1, length, BLANK);
    x.(freeBuffers := x.freeBuffers - 1,
       currentReceives := x.currentReceives[NextNo(c, me, sst, s) := m])
  }

  /** File an empty entry for each turn the sender skips after `index`. */
  function FileSkips(n: nat, ls: map<int, Message>, s: nat, index: int, pause: nat): map<int, Message> {
    if pause == 0 then ls
    else FileSkips(n, ls, s, index, pause - 1)[SeqNo(n, s, index + pause) := Skipped(s, index + pause)]
  }

  /** The receive handler can run: the asserts at its start hold. */
  predicate CanReceive(c: Config, me: nat, x: Node, sst: Sst, s: nat)
    requires SstShape(c.n, sst) && me < c.n && s < c.n
  {
    if s == me then x.currentSend.Some? else NextNo(c, me, sst, s) in x.currentReceives
  }

  /** The message as RDMC has now filled its buffer. */
  function Arrived(c: Config, me: nat, x: Node, sst: Sst, s: nat, body: Body): Message
    requires SstShape(c.n, sst) && me < c.n && s < c.n
    requires CanReceive(c, me, x, sst, s)
  {
    if s == me then x.currentSend.value
    else x.currentReceives[NextNo(c, me, sst, s)].(body := body)
  }

  /** The new locally stable map: plain assignment for an own message, emplace for another's. */
  function FileMessage(ls: map<int, Message>, own: bool, q: int, m: Message): map<int, Message> {
    if !own && q in ls then ls else ls[q := m]
  }

  function ReceiveHandler(c: Config, me: nat, x: Node, sst: Sst, s: nat, body: Body): Node
    requires SstShape(c.n, sst) && me < c.n && s < c.n
    requires CanReceive(c, me, x, sst, s)
  {
    var q := NextNo(c, me, sst, s);
    var m := Arrived(c, me, x, sst, s, body);
    var filed := FileMessage(x.locallyStable, s == me, q, m);
    x.(locallyStable := FileSkips(c.n, filed, s, sst[me].nReceived[s] + 1, body.pause),
       currentSend := if s == me then None else x.currentSend,
       currentReceives := if s == me then x.currentReceives else x.currentReceives - {q})
  }

  function CountsAfter(sst: Sst, me: nat, s: nat, pause: nat): seq<int>
    requires me < |sst| && s < |sst[me].nReceived|
  {
    sst[me].nReceived[s := sst[me].nReceived[s] + 1 + pause]
  }

  // ---------------------------------------------------------------- delivering

  lemma LeastExists(ls: map<int, Message>)
    requires ls != map[]
    ensures exists q :: q in ls && forall k :: k in ls ==> q <= k
  {
    LeastInSet(ls.Keys);
    var q :| q in ls.Keys && forall k :: k in ls.Keys ==> q <= k;
    assert q in ls;
  }

  /** The lowest number filed: where an ordered map begins. */
  ghost function Least(ls: map<int, Message>): (q: int)
    requires ls != map[]
    ensures q in ls && forall k :: k in ls ==> q <= k
  {
    LeastExists(ls);
    var q :| q in ls && forall k :: k in ls ==> q <= k;
    q
  }

  /** deliver_message: a message with content frees its buffer, a skipped turn has none. */
  function DeliverMessage(x: Node, m: Message): Node {
    x.(freeBuffers := x.freeBuffers + (if m.size > 0 then 1 else 0), log := x.log + [m])
  }

  ghost predicate CanDeliver(x: Node, sst: Sst)
    requires |sst| > 0
  {
    x.locallyStable != map[] && Least(x.locallyStable) <= Min(StableNums(sst))
  }

  function DeliverNo(x: Node, q: int): Node
    requires q in x.locallyStable
  {
    DeliverMessage(x, x.locallyStable[q]).(locallyStable := x.locallyStable - {q})
  }

  /** Deliver, in order, whatever is filed under lo, lo + 1, ..., hi. */
  function DeliverRange(x: Node, lo: int, hi: int): Node
    decreases hi - lo
  {
    if lo > hi then x
    else DeliverRange(if lo in x.locallyStable then DeliverNo(x, lo) else x, lo + 1, hi)
  }

  /** The highest number a trim names, but never less than `from`. */
  function TrimEnd(n: nat, from: int, g: seq<int>): (m: int)
    ensures m >= from
    ensures forall s :: 0 <= s < |g| ==> SeqNo(n, s, g[s]) <= m
    ensures m == from || exists s :: 0 <= s < |g| && SeqNo(n, s, g[s]) == m
    decreases |g|
  {
    if g == [] then from
    else
      var front := g[..|g| - 1];
      var m := TrimEnd(n, from, front);
      var last := SeqNo(n, |g| - 1, g[|g| - 1]);
      assert forall s :: 0 <= s < |front| ==> g[s] == front[s];
      if last > m then last
      else
        assert m == from || exists s :: 0 <= s < |g| && SeqNo(n, s, g[s]) == m by {
          if m != from {
            var s :| 0 <= s < |front| && SeqNo(n, s, front[s]) == m;
            assert SeqNo(n, s, g[s]) == m;
          }
        }
        m
  }

  function DeliverUpto(c: Config, x: Node, delivered: int, g: seq<int>): Node {
    DeliverRange(x, delivered, TrimEnd(c.n, delivered, g))
  }

  // ---------------------------------------------------------------- a new view

  /** Everything filed, lowest number first. */
  ghost function Ascending(ls: map<int, Message>): seq<Message>
    decreases |ls.Keys|
  {
    if ls == map[] then []
    else
      var q := Least(ls);
      RemoveKey(ls, q);
      [ls[q]] + Ascending(ls - {q})
  }

  /** The filed messages that `rank` sent itself and that carry content. */
  function OwnMessages(rank: int, ms: seq<Message>): seq<Message> {
    if ms == [] then []
    else
      var rest := OwnMessages(rank, ms[1..]);
      if ms[0].size > 0 && ms[0].sender == rank then [ms[0]] + rest else rest
  }

  /** How many filed messages carry content but come from others. */
  function OthersCount(rank: int, ms: seq<Message>): nat {
    if ms == [] then 0
    else OthersCount(rank, ms[1..]) + if ms[0].size > 0 && ms[0].sender != rank then 1 else 0
  }

  /** Give messages new indices from `from` on, leaving room for the turns each one skips. */
  function Reindex(rank: int, from: int, ms: seq<Message>): (r: seq<Message>)
    ensures |r| == |ms|
    decreases |ms|
  {
    if ms == [] then []
    else [ms[0].(sender := rank, index := from)] + Reindex(rank, from + 1 + ms[0].body.pause, ms[1..])
  }

  function IndexAfter(from: int, ms: seq<Message>): int
    decreases |ms|
  {
    if ms == [] then from else IndexAfter(from + 1 + ms[0].body.pause, ms[1..])
  }

  function Max(a: int, b: int): int {
    if a > b then a else b
  }

  /** The messages the old engine still owes the group, in sending order. */
  ghost function Unsent(old': Node, rank: int): seq<Message> {
    OwnMessages(rank, Ascending(old'.locallyStable)) + OneOrNone(old'.currentSend) + old'.pendingSends
  }

  /** The engine for the next view, built from the old one. */
  ghost function NextEngine(c: Config, rank: nat, old': Node, oldRank: nat, created: bool): Node {
    var total := Max(old'.totalBuffers, c.window * c.n);
    var requeued := Reindex(rank, 0, Unsent(old', oldRank));
    var next := IndexAfter(0, Unsent(old', oldRank));
    var held := OneOrNone(old'.nextSend);
    Node(created, false, IndexAfter(next, held),
         if held == [] then None else Some(Reindex(rank, next, held)[0]),
         requeued, None, map[], map[],
         old'.freeBuffers + (total - old'.totalBuffers) + |old'.currentReceives|
           + OthersCount(oldRank, Ascending(old'.locallyStable)),
         total, [])
  }

  lemma {:induction false} IndexAfterConcat(from: int, a: seq<Message>, b: seq<Message>)
    ensures IndexAfter(from, a + b) == IndexAfter(IndexAfter(from, a), b)
    decreases |a|
  {
    if a == [] {
      assert a + b == b;
    } else {
      assert (a + b)[0] == a[0] && (a + b)[1..] == a[1..] + b;
      IndexAfterConcat(from + 1 + a[0].body.pause, a[1..], b);
    }
  }

  lemma {:induction false} ReindexConcat(rank: int, from: int, a: seq<Message>, b: seq<Message>)
    ensures Reindex(rank, from, a + b) == Reindex(rank, from, a) + Reindex(rank, IndexAfter(from, a), b)
    decreases |a|
  {
    if a == [] {
      assert a + b == b;
    } else {
      assert (a + b)[0] == a[0] && (a + b)[1..] == a[1..] + b;
      ReindexConcat(rank, from + 1 + a[0].body.pause, a[1..], b);
    }
  }

  lemma ReindexOne(rank: int, from: int, m: Message)
    ensures Reindex(rank, from, [m]) == [m.(sender := rank, index := from)]
    ensures IndexAfter(from, [m]) == from + 1 + m.body.pause
  {
    assert [m][1..] == [];
    assert Reindex(rank, from + 1 + m.body.pause, []) == [];
  }
}
