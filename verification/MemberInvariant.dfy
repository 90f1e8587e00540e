/**
 What holds of one member's engine throughout a view, stated against the streams the
 senders have handed to RDMC, and that each local operation keeps it.
 */
module MemberInvariant {
  import opened Collections
  import opened Numbering
  import opened SharedTable
  import opened Messages
  import opened GroupSpec

  /** The entry with number q: turn IndexOf(q) of sender SenderOf(q)'s stream. */
  function Slot(n: nat, sent: seq<seq<Message>>, q: int): Message
    requires n == |sent| > 0
  {
    SlotAt(sent[SenderOf(n, q)], IndexOf(n, q))
  }

  /** The numbers 0..q that have been received, in increasing order. */
  function ReceivedUpto(v: seq<int>, q: int): seq<int>
    requires |v| > 0
    decreases if q < 0 then 0 else q + 1
  {
    if q < 0 then [] else ReceivedUpto(v, q - 1) + if Received(v, q) then [q] else []
  }

  function Slots(n: nat, sent: seq<seq<Message>>, nums: seq<int>): seq<Message>
    requires n == |sent| > 0
  {
    seq(|nums|, k requires 0 <= k < |nums| => Slot(n, sent, nums[k]))
  }

  /** Up to where a member has handed out messages: its delivered_num, or the end of the trim after cleanup. */
  function Top(n: nat, row: Row): int {
    if row.globalMinReady then TrimEnd(n, row.deliveredNum, row.globalMin) else row.deliveredNum
  }

  /** The filed messages that occupy a buffer. */
  function Content(ls: map<int, Message>): set<int> {
    set q | q in ls && ls[q].size > 0
  }

  function BuffersUsed(x: Node): nat {
    |OneOrNone(x.nextSend)| + |x.pendingSends| + |OneOrNone(x.currentSend)|
      + |x.currentReceives.Keys| + |Content(x.locallyStable)|
  }

  // ---------------------------------------------------------------- the pieces

  /** The count for each sender is the number of turns its first got[s] messages take. */
  ghost predicate CountsOk(n: nat, row: Row, sent: seq<seq<Message>>, got: seq<nat>)
    requires RowShape(n, row) && |sent| == |got| == n
  {
    forall s :: 0 <= s < n ==>
      got[s] <= |sent[s]| && row.nReceived[s] + 1 == |Expand(sent[s][..got[s]])|
  }

  /** At most one own send is outstanding, and current_send holds it. */
  ghost predicate CurrentOk(x: Node, mine: seq<Message>, got: nat) {
    && got <= |mine| <= got + 1
    && x.currentSend == if got < |mine| then Some(mine[got]) else None
  }

  /** current_receives holds exactly one entry per receive in progress, under the number it will be filed by. */
  ghost predicate TransitOk(n: nat, me: nat, receives: map<int, Message>, row: Row,
                            sent: seq<seq<Message>>, got: seq<nat>, busy: set<nat>)
    requires RowShape(n, row) && |sent| == |got| == n
  {
    && (forall s :: s in busy ==>
          && s < n && s != me && got[s] < |sent[s]|
          && SeqNo(n, s, row.nReceived[s] + 1) in receives
          && receives[SeqNo(n, s, row.nReceived[s] + 1)]
             == Message(s, row.nReceived[s] + 1, sent[s][got[s]].size, BLANK))
    && (forall q :: q in receives ==>
          n > 0 && SenderOf(n, q) in busy
          && q == SeqNo(n, SenderOf(n, q), row.nReceived[SenderOf(n, q)] + 1))
  }

  /** Filed are exactly the received numbers not yet handed out, each with its sender's message. */
  ghost predicate FiledOk(n: nat, ls: map<int, Message>, row: Row, sent: seq<seq<Message>>)
    requires n == |sent| > 0 && RowShape(n, row)
  {
    && (forall q :: q in ls <==> q > Top(n, row) && Received(row.nReceived, q))
    && (forall q :: q in ls ==> ls[q] == Slot(n, sent, q))
  }

  ghost predicate LogOk(n: nat, log: seq<Message>, row: Row, sent: seq<seq<Message>>)
    requires n == |sent| > 0 && RowShape(n, row)
  {
    log == Slots(n, sent, ReceivedUpto(row.nReceived, Top(n, row)))
  }

  ghost predicate BuffersOk(x: Node) {
    x.freeBuffers + BuffersUsed(x) == x.totalBuffers
  }

  ghost predicate MemberInv(n: nat, me: nat, x: Node, row: Row,
                            sent: seq<seq<Message>>, got: seq<nat>, busy: set<nat>) {
    && me < n && |sent| == |got| == n && RowOk(n, row)
    && CountsOk(n, row, sent, got)
    && CurrentOk(x, sent[me], got[me])
    && TransitOk(n, me, x.currentReceives, row, sent, got, busy)
    && FiledOk(n, x.locallyStable, row, sent)
    && LogOk(n, x.log, row, sent)
    && BuffersOk(x)
    && x.shutdown == row.wedged
    && (row.globalMinReady ==> row.wedged)
  }

  /** A sender's messages, from get_position to RDMC: numbered by the turns before them. */
  ghost predicate StreamOk(me: nat, x: Node, sent: seq<Message>, accepted: seq<Message>) {
    && accepted == sent + x.pendingSends
    && Indexed(me, accepted + OneOrNone(x.nextSend))
    && x.futureIndex == |Expand(accepted + OneOrNone(x.nextSend))|
  }

  // ---------------------------------------------------------------- small facts

  lemma {:induction false} ReceivedUptoMembers(v: seq<int>, q: int, p: int)
    requires |v| > 0
    ensures p in ReceivedUpto(v, q) <==> p <= q && Received(v, p)
    decreases if q < 0 then 0 else q + 1
  {
    hide Received;
    if q >= 0 {
      ReceivedUptoMembers(v, q - 1, p);
    } else {
      NegativeNotReceived(v, p);
    }
  }

  lemma NegativeNotReceived(v: seq<int>, p: int)
    requires |v| > 0
    ensures p < 0 ==> !Received(v, p)
  {
  }

  /** The handed-out numbers strictly increase. */
  lemma {:induction false} ReceivedUptoIncreasing(v: seq<int>, q: int)
    requires |v| > 0
    ensures forall a, b :: 0 <= a < b < |ReceivedUpto(v, q)|
              ==> ReceivedUpto(v, q)[a] < ReceivedUpto(v, q)[b]
    ensures forall a :: 0 <= a < |ReceivedUpto(v, q)| ==> 0 <= ReceivedUpto(v, q)[a] <= q
    decreases if q < 0 then 0 else q + 1
  {
    hide Received;
    if q >= 0 {
      ReceivedUptoIncreasing(v, q - 1);
    }
  }

  /** With nothing missing up to q, the list is 0, 1, ..., q. */
  lemma {:induction false} ReceivedUptoFull(v: seq<int>, q: int)
    requires |v| > 0 && q >= -1 && Covers(v, q)
    ensures |ReceivedUpto(v, q)| == q + 1
    ensures forall k :: 0 <= k <= q ==> ReceivedUpto(v, q)[k] == k
    decreases q + 1
  {
    hide Received;
    if q >= 0 {
      assert Received(v, q);
      ReceivedUptoFull(v, q - 1);
    }
  }

  lemma ReceivedUptoSame(v: seq<int>, w: seq<int>, q: int)
    requires |v| > 0 && |w| > 0 && q >= -1 && Covers(v, q) && Covers(w, q)
    ensures ReceivedUpto(v, q) == ReceivedUpto(w, q)
  {
    hide Received;
    ReceivedUptoFull(v, q);
    ReceivedUptoFull(w, q);
  }

  lemma CoversDelivered(n: nat, row: Row)
    requires RowOk(n, row)
    ensures Covers(row.nReceived, row.deliveredNum)
    ensures Covers(row.nReceived, row.stableNum)
  {
    ExactPrefix(row.nReceived, row.deliveredNum);
    ExactPrefix(row.nReceived, row.stableNum);
  }

  /** A received number names a turn the sender has really sent. */
  lemma ReceivedTurnSent(n: nat, row: Row, sent: seq<seq<Message>>, got: seq<nat>, q: int)
    requires n > 0 && RowShape(n, row) && |sent| == |got| == n && CountsOk(n, row, sent, got)
    requires Received(row.nReceived, q)
    ensures 0 <= IndexOf(n, q) < |Expand(sent[SenderOf(n, q)])|
  {
    var s := SenderOf(n, q);
    SplitSeqNo(n, q);
    ExpandPrefix(sent[s], got[s]);
  }
}
