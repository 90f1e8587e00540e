/** What every receiver knows about every message: index, number, and the extent of its prefix. */
module Receiving {
  import opened Numbering
  import opened SharedTable
  import opened Messages
  import opened GroupSpec
  import opened MemberInvariant
  import opened MemberSteps
  import opened Multicast
  import opened MulticastInv
  import opened Buffers
  import opened MulticastRuns
  import opened Delivery

  /**
   Index agreement.  Whatever turns were skipped, the message the receive handler files
   is the very message the sender numbered, and it goes under that message's number; the
   handler's asserts hold.
   */
  lemma IndexAgreement(c: Config, run: seq<System>, steps: seq<Step>, k: nat)
    requires IsRun(c, run, steps) && k < |steps| && steps[k].Complete?
    ensures var S, j, s := run[k], steps[k].j, steps[k].s;
            && j < c.n && s < c.n && S.got[j][s] < |S.sent[s]|
            && var m := S.sent[s][S.got[j][s]];
            && CanReceive(c, j, S.nodes[j], TableOf(c, S, j), s)
            && Arrived(c, j, S.nodes[j], TableOf(c, S, j), s, m.body) == m
            && m.sender == s
            && NextNo(c, j, TableOf(c, S, j), s) == Number(c.n, m)
  {
    hide Inv, Next, IsRun, AssertsHold, Shape, View, CanReceive, Arrived;
    IsRunStep(c, run, steps, k);
    RunInv(c, run, steps, k);
    CompleteAgrees(c, run[k], steps[k].j, steps[k].s);
  }

  lemma IsRunStep(c: Config, run: seq<System>, steps: seq<Step>, k: nat)
    requires IsRun(c, run, steps) && k < |steps|
    ensures k < |run| && WellShaped(c, run[k]) && Offered(c, run[k], steps[k])
  {
    assert RunStep(c, run[k], steps[k], run[k + 1]);
  }

  lemma CompleteAgrees(c: Config, S: System, j: nat, s: nat)
    requires Inv(c, S) && j < c.n && Arriving(c, S, j, s)
    ensures var m := S.sent[s][S.got[j][s]];
            && CanReceive(c, j, S.nodes[j], TableOf(c, S, j), s)
            && Arrived(c, j, S.nodes[j], TableOf(c, S, j), s, m.body) == m
            && m.sender == s
            && NextNo(c, j, TableOf(c, S, j), s) == Number(c.n, m)
  {
    hide WindowsOk, TableInv, Shape, View, RowOk, CountsOk, TransitOk, FiledOk, LogOk, BuffersOk, CurrentOk, Expand,
         CanReceive, Arrived, SeqNo;
    assert MemberInv(c.n, j, S.nodes[j], OwnRow(c, S, j), S.sent, S.got[j], S.busy[j]);
    SentIndexed(s, S.nodes[s], S.sent[s], S.accepted[s]);
    ArrivedIsSent(c, j, S.nodes[j], OwnRow(c, S, j), TableOf(c, S, j), S.sent, S.got[j], S.busy[j], s);
  }

  /** A sender has at most one message outstanding: when the next starts, the last one has come back. */
  lemma OneSendOutstanding(c: Config, S: System, j: nat)
    requires Inv(c, S) && Offered(c, S, BeginSend(j))
    ensures S.nodes[j].currentSend.None? && S.got[j][j] == |S.sent[j]|
    ensures S.nodes[j].pendingSends[0].index == OwnRow(c, S, j).nReceived[j] + 1
  {
    hide WindowsOk, TableInv, Shape, View, RowOk, CountsOk, TransitOk, FiledOk, LogOk, BuffersOk, CurrentOk, StreamOk,
         WindowOpen;
    assert MemberInv(c.n, j, S.nodes[j], OwnRow(c, S, j), S.sent, S.got[j], S.busy[j]);
    RowOkShape(c.n, OwnRow(c, S, j));
    NoOverlap(c, j, S.nodes[j], OwnRow(c, S, j), S.sent, S.got[j], S.accepted[j]);
  }

  /**
   Exact prefix.  At every moment of a run, a member's seq_num is the largest number up to
   which it has received everything; delivered_num <= stable_num <= seq_num; and until
   cleanup its stable map holds exactly the received numbers above delivered_num.
   */
  lemma ExactState(c: Config, run: seq<System>, steps: seq<Step>, k: nat, j: nat, q: int)
    requires IsRun(c, run, steps) && k < |run| && j < c.n
    ensures var row := OwnRow(c, run[k], j);
            && (Covers(row.nReceived, q) <==> q <= row.seqNum)
            && -1 <= row.deliveredNum <= row.stableNum <= row.seqNum
            && (!row.globalMinReady ==>
                  (q in run[k].nodes[j].locallyStable <==> q > row.deliveredNum && Received(row.nReceived, q)))
  {
    hide Inv, IsRun, Shape, View, Covers, Received, PrefixEnd;
    RunInv(c, run, steps, k);
    MemberState(c, run[k], j, q);
    ExactPrefix(OwnRow(c, run[k], j).nReceived, q);
  }

  lemma MemberState(c: Config, S: System, j: nat, q: int)
    requires Inv(c, S) && j < c.n
    ensures WellShaped(c, S) && RowOk(c.n, OwnRow(c, S, j))
    ensures !OwnRow(c, S, j).globalMinReady ==>
      (q in S.nodes[j].locallyStable <==> q > OwnRow(c, S, j).deliveredNum && Received(OwnRow(c, S, j).nReceived, q))
  {
    hide StreamsOk, WindowsOk, TableInv, Shape, View, CountsOk, TransitOk, LogOk, BuffersOk, CurrentOk, Received, Slot;
    assert MemberInv(c.n, j, S.nodes[j], OwnRow(c, S, j), S.sent, S.got[j], S.busy[j]);
  }

  /** The three numbers never go back. */
  lemma NumbersMonotone(c: Config, run: seq<System>, steps: seq<Step>, a: nat, b: nat, j: nat)
    requires IsRun(c, run, steps) && a <= b < |run| && j < c.n
    ensures OwnRow(c, run[a], j).seqNum <= OwnRow(c, run[b], j).seqNum
    ensures OwnRow(c, run[a], j).stableNum <= OwnRow(c, run[b], j).stableNum
    ensures OwnRow(c, run[a], j).deliveredNum <= OwnRow(c, run[b], j).deliveredNum
  {
    hide Inv, IsRun, Shape, View, WellShaped;
    RunLater(c, run, steps, a, b);
  }
}
