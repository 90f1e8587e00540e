/**
 What members deliver: one total order of stable messages, and after a view ends, what the
 leader's trim makes everyone deliver.
 */
module Delivery {
  import opened Collections
  import opened Numbering
  import opened SharedTable
  import opened Messages
  import opened GroupSpec
  import opened MemberInvariant
  import opened MemberSteps
  import opened Multicast
  import opened MulticastInv
  import opened MulticastRuns

  function Number(n: nat, m: Message): int {
    SeqNo(n, m.sender, m.index)
  }

  /** What member j's delivery trigger has delivered. */
  function TriggerLog(c: Config, S: System, j: nat): seq<Message>
    requires Shape(c.n, S.table) && j < c.n == |S.nodes|
  {
    var d := OwnRow(c, S, j).deliveredNum;
    if -1 <= d < |S.nodes[j].log| then S.nodes[j].log[..d + 1] else S.nodes[j].log
  }

  lemma {:induction false} ReceivedUptoPrefix(v: seq<int>, p: int, q: int)
    requires |v| > 0 && p <= q
    ensures ReceivedUpto(v, p) <= ReceivedUpto(v, q)
    decreases q - p
  {
    hide Received;
    if p < q {
      ReceivedUptoPrefix(v, p, q - 1);
    }
  }

  /** A received number's entry carries that number. */
  lemma SlotNumber(c: Config, S: System, j: nat, q: int)
    requires Inv(c, S) && j < c.n && Received(OwnRow(c, S, j).nReceived, q)
    ensures Number(c.n, Slot(c.n, S.sent, q)) == q
    ensures Slot(c.n, S.sent, q).sender == SenderOf(c.n, q) && Slot(c.n, S.sent, q).index == IndexOf(c.n, q)
  {
    hide WindowsOk, TableInv, Shape, View, FiledOk, TransitOk, LogOk, CurrentOk, CountsOk, RowOk, Received;
    var row, s := OwnRow(c, S, j), SenderOf(c.n, q);
    assert MemberInv(c.n, j, S.nodes[j], row, S.sent, S.got[j], S.busy[j]);
    RowOkShape(c.n, row);
    ReceivedTurnSent(c.n, row, S.sent, S.got[j], q);
    SplitSeqNo(c.n, q);
    SentIndexed(s, S.nodes[s], S.sent[s], S.accepted[s]);
    TurnNumbers(s, S.sent[s], IndexOf(c.n, q));
  }

  lemma LogIsSlots(c: Config, S: System, j: nat)
    requires Inv(c, S) && j < c.n
    ensures var row := OwnRow(c, S, j);
            S.nodes[j].log == Slots(c.n, S.sent, ReceivedUpto(row.nReceived, Top(c.n, row))) && RowOk(c.n, row)
  {
    hide StreamsOk, WindowsOk, TableInv, Shape, View, FiledOk, TransitOk, CurrentOk, CountsOk, RowOk;
    assert MemberInv(c.n, j, S.nodes[j], OwnRow(c, S, j), S.sent, S.got[j], S.busy[j]);
  }

  lemma TopAboveDelivered(n: nat, row: Row)
    ensures Top(n, row) >= row.deliveredNum
  {
  }

  /** The delivery trigger's log has exactly one entry for each of 0, 1, ..., delivered_num. */
  lemma TriggerLogExact(c: Config, S: System, j: nat)
    requires Inv(c, S) && j < c.n
    ensures |TriggerLog(c, S, j)| == OwnRow(c, S, j).deliveredNum + 1
    ensures TriggerLog(c, S, j) <= S.nodes[j].log
    ensures forall q :: 0 <= q < |TriggerLog(c, S, j)| ==>
              TriggerLog(c, S, j)[q] == Slot(c.n, S.sent, q) && Number(c.n, TriggerLog(c, S, j)[q]) == q
  {
    hide Inv, MembersOk, StreamsOk, WindowsOk, TableInv, View, RowOk, Covers, Received, Slot, Top, ReceivedUpto;
    InvShape(c, S);
    var row := OwnRow(c, S, j);
    var d, v := row.deliveredNum, row.nReceived;
    LogIsSlots(c, S, j);
    CoversDelivered(c.n, row);
    DeliveredLow(c.n, row);
    ReceivedUptoFull(v, d);
    TopAboveDelivered(c.n, row);
    ReceivedUptoPrefix(v, d, Top(c.n, row));
    forall q | 0 <= q <= d ensures Number(c.n, Slot(c.n, S.sent, q)) == q {
      CoversUse(v, d, q);
      SlotNumber(c, S, j, q);
    }
  }

  lemma InvShape(c: Config, S: System)
    requires Inv(c, S)
    ensures WellShaped(c, S)
  {
  }

  lemma DeliveredLow(n: nat, row: Row)
    requires RowOk(n, row)
    ensures RowShape(n, row) && row.deliveredNum >= -1 && n > 0
  {
  }

  lemma CoversUse(v: seq<int>, d: int, q: int)
    requires |v| > 0 && Covers(v, d) && 0 <= q <= d
    ensures Received(v, q)
  {
  }

  /** In one state, what two members' triggers have delivered agrees as far as both go. */
  lemma TriggerLogsAgree(c: Config, S: System, j: nat, k: nat)
    requires Inv(c, S) && j < c.n && k < c.n
    requires OwnRow(c, S, j).deliveredNum <= OwnRow(c, S, k).deliveredNum
    ensures TriggerLog(c, S, j) <= TriggerLog(c, S, k)
  {
    hide Inv, Slot, TriggerLog, View, Shape;
    InvShape(c, S);
    TriggerLogExact(c, S, j);
    TriggerLogExact(c, S, k);
  }

  lemma TriggerLogGrows(c: Config, S: System, S': System, j: nat)
    requires Inv(c, S) && Inv(c, S') && Later(c, S, S') && j < c.n
    ensures TriggerLog(c, S, j) <= TriggerLog(c, S', j)
  {
    hide Inv, Slot, TriggerLog, View, Shape;
    InvShape(c, S);
    InvShape(c, S');
    TriggerLogExact(c, S, j);
    TriggerLogExact(c, S', j);
    assert RowLe(c.n, OwnRow(c, S, j), OwnRow(c, S', j));
  }

  lemma PrefixesComparable<T>(a: seq<T>, b: seq<T>, a': seq<T>, b': seq<T>)
    requires a <= a' && b <= b' && (a' <= b' || b' <= a')
    ensures a <= b || b <= a
  {
    var whole := if a' <= b' then b' else a';
    assert a == whole[..|a|] && b == whole[..|b|];
  }

  /**
   Total order and stability.  At any two moments of a run, what the delivery triggers of
   any two members have delivered is one sequence cut at two places: messages numbered
   0, 1, 2, ... without gap or repeat, equal in sender, index and content; and everything
   delivered had by then been received by every member.
   */
  lemma TotalOrder(c: Config, run: seq<System>, steps: seq<Step>, a: nat, j: nat, b: nat, k: nat)
    requires IsRun(c, run, steps) && a < |run| && b < |run| && j < c.n && k < c.n
    ensures TriggerLog(c, run[a], j) <= TriggerLog(c, run[b], k) || TriggerLog(c, run[b], k) <= TriggerLog(c, run[a], j)
    ensures forall q :: 0 <= q < |TriggerLog(c, run[a], j)| ==> Number(c.n, TriggerLog(c, run[a], j)[q]) == q
    ensures forall i :: 0 <= i < c.n ==> Covers(OwnRow(c, run[a], i).nReceived, |TriggerLog(c, run[a], j)| - 1)
  {
    hide Inv, IsRun, TriggerLog, View, Shape, Covers, Later;
    var m := if a < b then b else a;
    RunInv(c, run, steps, a);
    RunInv(c, run, steps, b);
    RunLater(c, run, steps, a, m);
    RunLater(c, run, steps, b, m);
    TriggerLogGrows(c, run[a], run[m], j);
    TriggerLogGrows(c, run[b], run[m], k);
    TriggerLogExact(c, run[a], j);
    if OwnRow(c, run[m], j).deliveredNum <= OwnRow(c, run[m], k).deliveredNum {
      TriggerLogsAgree(c, run[m], j, k);
    } else {
      TriggerLogsAgree(c, run[m], k, j);
    }
    PrefixesComparable(TriggerLog(c, run[a], j), TriggerLog(c, run[b], k), TriggerLog(c, run[m], j), TriggerLog(c, run[m], k));
    forall i | 0 <= i < c.n ensures Covers(OwnRow(c, run[a], i).nReceived, OwnRow(c, run[a], j).deliveredNum) {
      ReceivedByAll(c, run[a], j, i);
    }
  }

  lemma ReceivedByAll(c: Config, S: System, j: nat, i: nat)
    requires Inv(c, S) && j < c.n && i < c.n
    ensures Covers(OwnRow(c, S, i).nReceived, OwnRow(c, S, j).deliveredNum)
  {
    hide MembersOk, StreamsOk, WindowsOk, TableInv, View, Shape, Covers;
    DeliveredReceivedByAll(c.n, S.table, j, i);
  }

  // ---------------------------------------------------------------- the trim

  /** If a trim is finished now, it covers all that any trigger has delivered up to now. */
  lemma TrimCoversNow(c: Config, S: System, i: nat, j: nat)
    requires Inv(c, S) && i < c.n && j < c.n && OwnRow(c, S, i).globalMinReady
    ensures Covers(OwnRow(c, S, i).globalMin, OwnRow(c, S, j).deliveredNum)
    ensures VecLe(OwnRow(c, S, i).globalMin, OwnRow(c, S, j).nReceived)
  {
    hide MembersOk, StreamsOk, WindowsOk, TableInv, Covers, RowOk;
    TrimCoversDelivered(c.n, S.table, i, |S.table.hist[i]| - 1, j);
  }

  /**
   The trim covers all deliveries.  If member i holds a finished trim at moment a of a run,
   and member j's trigger delivers number q at any moment b, before or after, then every
   message (s, x) numbered at most q is within the trim.
   */
  lemma TrimCoversAllDeliveries(c: Config, run: seq<System>, steps: seq<Step>, a: nat, i: nat, b: nat, j: nat, s: nat, x: nat)
    requires IsRun(c, run, steps) && a < |run| && b < |run| && i < c.n && j < c.n && s < c.n
    requires OwnRow(c, run[a], i).globalMinReady
    requires SeqNo(c.n, s, x) <= OwnRow(c, run[b], j).deliveredNum
    ensures x <= OwnRow(c, run[a], i).globalMin[s]
  {
    hide Inv, IsRun, Shape, View, Covers;
    var m := if a < b then b else a;
    RunInv(c, run, steps, m);
    RunLater(c, run, steps, a, m);
    RunLater(c, run, steps, b, m);
    InvShape(c, run[m]);
    assert RowLe(c.n, OwnRow(c, run[a], i), OwnRow(c, run[m], i));
    assert RowLe(c.n, OwnRow(c, run[b], j), OwnRow(c, run[m], j));
    TrimCoversNow(c, run[m], i, j);
    JoinSeqNo(c.n, s, x);
    CoversUse(OwnRow(c, run[m], i).globalMin, OwnRow(c, run[m], j).deliveredNum, SeqNo(c.n, s, x));
  }

  // ---------------------------------------------------------------- the ragged edge

  /** The last number the trim g names. */
  function EndOfTrim(n: nat, g: seq<int>): int {
    TrimEnd(n, -1, g)
  }

  lemma TrimEndFrom(n: nat, d: int, g: seq<int>)
    requires |g| == n > 0 && d >= -1 && Covers(g, d)
    ensures TrimEnd(n, d, g) == EndOfTrim(n, g) && d <= EndOfTrim(n, g)
  {
    if d >= 0 {
      CoversUse(g, d, d);
      SplitSeqNo(n, d);
      SeqNoMonotone(n, SenderOf(n, d), IndexOf(n, d), g[SenderOf(n, d)]);
    }
    hide SeqNo, Covers, SenderOf, IndexOf;
  }

  /** After cleanup a member has handed out what it had received up to the end of the trim. */
  lemma CleanedLog(c: Config, S: System, j: nat)
    requires Inv(c, S) && j < c.n && OwnRow(c, S, j).globalMinReady
    ensures var row := OwnRow(c, S, j);
            S.nodes[j].log == Slots(c.n, S.sent, ReceivedUpto(row.nReceived, EndOfTrim(c.n, row.globalMin)))
            && row.deliveredNum <= EndOfTrim(c.n, row.globalMin)
  {
    hide Inv, Shape, View, Slots, ReceivedUpto, Covers, RowOk, TrimEnd;
    InvShape(c, S);
    LogIsSlots(c, S, j);
    TrimCoversNow(c, S, j, j);
    DeliveredLow(c.n, OwnRow(c, S, j));
    TrimEndFrom(c.n, OwnRow(c, S, j).deliveredNum, OwnRow(c, S, j).globalMin);
  }

  /** The numbers delivered at j, in order of delivery. */
  function Numbers(n: nat, log: seq<Message>): seq<int> {
    seq(|log|, k requires 0 <= k < |log| => Number(n, log[k]))
  }

  lemma CleanedNumbers(c: Config, S: System, j: nat)
    requires Inv(c, S) && j < c.n && OwnRow(c, S, j).globalMinReady
    ensures var row := OwnRow(c, S, j);
            Numbers(c.n, S.nodes[j].log) == ReceivedUpto(row.nReceived, EndOfTrim(c.n, row.globalMin))
  {
    hide Inv, Shape, View, ReceivedUpto, TrimEnd, Slot, Received, SeqNo;
    InvShape(c, S);
    CleanedLog(c, S, j);
    var row := OwnRow(c, S, j);
    var nums := ReceivedUpto(row.nReceived, EndOfTrim(c.n, row.globalMin));
    var log := S.nodes[j].log;
    forall k | 0 <= k < |nums| ensures Number(c.n, log[k]) == nums[k] {
      ReceivedUptoMembers(row.nReceived, EndOfTrim(c.n, row.globalMin), nums[k]);
      SlotNumber(c, S, j, nums[k]);
    }
  }

  /**
   Ragged-edge delivery.  A member that has run cleanup, with trim g, has delivered, in
   strictly increasing order and so each at most once, exactly the numbers it had received
   up to the end of the trim; among them every message (s, x) with x <= g[s].
   */
  lemma RaggedEdge(c: Config, S: System, j: nat)
    requires Inv(c, S) && j < c.n && OwnRow(c, S, j).globalMinReady
    ensures var nums, g := Numbers(c.n, S.nodes[j].log), OwnRow(c, S, j).globalMin;
            && (forall a, b :: 0 <= a < b < |nums| ==> nums[a] < nums[b])
            && (forall q :: q in nums <==> q <= EndOfTrim(c.n, g) && Received(OwnRow(c, S, j).nReceived, q))
            && (forall s, x :: 0 <= s < c.n && 0 <= x <= g[s] ==> SeqNo(c.n, s, x) in nums)
  {
    hide Inv, Shape, View, ReceivedUpto, Received, SeqNo, Numbers;
    InvShape(c, S);
    CleanedNumbers(c, S, j);
    var row := OwnRow(c, S, j);
    var end := EndOfTrim(c.n, row.globalMin);
    ReceivedUptoIncreasing(row.nReceived, end);
    forall q ensures q in ReceivedUpto(row.nReceived, end) <==> q <= end && Received(row.nReceived, q) {
      ReceivedUptoMembers(row.nReceived, end, q);
    }
    forall s, x | 0 <= s < c.n && 0 <= x <= row.globalMin[s]
      ensures SeqNo(c.n, s, x) <= end && Received(row.nReceived, SeqNo(c.n, s, x))
    {
      TrimmedReceived(c, S, j, s, x);
    }
  }

  /** Every member holds, or has delivered, every message within a finished trim. */
  lemma TrimmedReceived(c: Config, S: System, j: nat, s: nat, x: nat)
    requires Inv(c, S) && j < c.n && s < c.n && OwnRow(c, S, j).globalMinReady
    requires x <= OwnRow(c, S, j).globalMin[s]
    ensures SeqNo(c.n, s, x) <= EndOfTrim(c.n, OwnRow(c, S, j).globalMin)
    ensures Received(OwnRow(c, S, j).nReceived, SeqNo(c.n, s, x))
  {
    hide Inv, Shape, View, Covers;
    InvShape(c, S);
    TrimCoversNow(c, S, j, j);
    JoinSeqNo(c.n, s, x);
    SeqNoMonotone(c.n, s, x, OwnRow(c, S, j).globalMin[s]);
    hide SeqNo, SenderOf, IndexOf;
  }

  // ---------------------------------------------------------------- do survivors agree?

  /** Up to the end of the trim, the two members have received the same. */
  ghost predicate SameUptoTrim(v: seq<int>, w: seq<int>, g: seq<int>)
    requires |v| == |w| == |g| > 0
  {
    forall s :: 0 <= s < |g| ==> Capped(v, g, s) == Capped(w, g, s)
  }

  /** The last index of sender s that is both received and not beyond the end of the trim. */
  function Capped(v: seq<int>, g: seq<int>, s: nat): int
    requires |v| == |g| > 0 && s < |v|
  {
    var cap := IndexOf(|g|, EndOfTrim(|g|, g) - s);
    if v[s] < cap then v[s] else cap
  }

  lemma CapBound(n: nat, s: nat, i: int, m: int)
    requires s < n
    ensures i <= IndexOf(n, m - s) <==> SeqNo(n, s, i) <= m
  {
    var cap := IndexOf(n, m - s);
    assert m - s == cap * n + (m - s) % n;
    Multiple(n, i - cap);
    assert (i - cap) * n == i * n - cap * n;
  }

  lemma ReceivedCapped(v: seq<int>, g: seq<int>, q: int)
    requires |v| == |g| > 0
    ensures q <= EndOfTrim(|g|, g) && Received(v, q)
            <==> q >= 0 && IndexOf(|v|, q) <= Capped(v, g, SenderOf(|v|, q))
  {
    SplitSeqNo(|v|, q);
    CapBound(|v|, SenderOf(|v|, q), IndexOf(|v|, q), EndOfTrim(|g|, g));
    hide SeqNo, TrimEnd;
  }

  lemma {:induction false} SameMembersSameList(v: seq<int>, w: seq<int>, q: int)
    requires |v| == |w| > 0
    requires forall p :: 0 <= p <= q ==> (Received(v, p) <==> Received(w, p))
    ensures ReceivedUpto(v, q) == ReceivedUpto(w, q)
    decreases if q < 0 then 0 else q + 1
  {
    hide Received;
    if q >= 0 {
      SameMembersSameList(v, w, q - 1);
    }
  }

  /**
   Two members that cleaned up with the same trim have delivered the same sequence if and
   only if they had received the same messages up to the end of the trim, which can be read
   off their two rows before cleanup.
   */
  lemma SurvivorsAgreeIff(c: Config, S: System, j: nat, k: nat)
    requires Inv(c, S) && j < c.n && k < c.n
    requires OwnRow(c, S, j).globalMinReady && OwnRow(c, S, k).globalMinReady
    requires OwnRow(c, S, j).globalMin == OwnRow(c, S, k).globalMin
    ensures S.nodes[j].log == S.nodes[k].log
            <==> SameUptoTrim(OwnRow(c, S, j).nReceived, OwnRow(c, S, k).nReceived, OwnRow(c, S, j).globalMin)
  {
    hide Inv, Shape, View, ReceivedUpto, Received, TrimEnd, Slots, Numbers, IndexOf, SenderOf, Capped;
    InvShape(c, S);
    var v, w, g := OwnRow(c, S, j).nReceived, OwnRow(c, S, k).nReceived, OwnRow(c, S, j).globalMin;
    var end := EndOfTrim(c.n, g);
    CleanedLog(c, S, j);
    CleanedLog(c, S, k);
    if SameUptoTrim(v, w, g) {
      forall p | 0 <= p <= end ensures Received(v, p) <==> Received(w, p) {
        ReceivedCapped(v, g, p);
        ReceivedCapped(w, g, p);
        SplitSeqNo(c.n, p);
      }
      SameMembersSameList(v, w, end);
    }
    if S.nodes[j].log == S.nodes[k].log {
      CleanedNumbers(c, S, j);
      CleanedNumbers(c, S, k);
      AllReceivedLow(c, S, j);
      AllReceivedLow(c, S, k);
      SameListSameCaps(v, w, g);
    }
  }

  lemma AllReceivedLow(c: Config, S: System, j: nat)
    requires Inv(c, S) && j < c.n
    ensures forall s :: 0 <= s < c.n ==> OwnRow(c, S, j).nReceived[s] >= -1
  {
    hide Inv, Shape, View;
    InvShape(c, S);
    LogIsSlots(c, S, j);
    RowOkShape(c.n, OwnRow(c, S, j));
  }

  lemma SameListSameCaps(v: seq<int>, w: seq<int>, g: seq<int>)
    requires |v| == |w| == |g| > 0
    requires forall s :: 0 <= s < |v| ==> v[s] >= -1 && w[s] >= -1
    requires ReceivedUpto(v, EndOfTrim(|g|, g)) == ReceivedUpto(w, EndOfTrim(|g|, g))
    ensures SameUptoTrim(v, w, g)
  {
    hide ReceivedUpto, Received, TrimEnd, Capped;
    forall s | 0 <= s < |g| ensures Capped(v, g, s) == Capped(w, g, s) {
      CapCarries(v, w, g, s);
      CapCarries(w, v, g, s);
    }
  }

  /** If the lists agree, what caps v at sender s is received in w too. */
  lemma CapCarries(v: seq<int>, w: seq<int>, g: seq<int>, s: nat)
    requires |v| == |w| == |g| > 0 && s < |g| && v[s] >= -1 && w[s] >= -1
    requires ReceivedUpto(v, EndOfTrim(|g|, g)) == ReceivedUpto(w, EndOfTrim(|g|, g))
    ensures Capped(v, g, s) <= Capped(w, g, s)
  {
    var n, end := |g|, EndOfTrim(|g|, g);
    var i := Capped(v, g, s);
    hide ReceivedUpto, Received, TrimEnd, SeqNo;
    var q := SeqNo(n, s, i);
    JoinSeqNo(n, s, i);
    if i >= 0 {
      ReceivedCapped(v, g, q);
      ReceivedUptoMembers(v, end, q);
      ReceivedUptoMembers(w, end, q);
      ReceivedCapped(w, g, q);
    } else {
      EndOfTrimCap(n, end, s);
    }
  }

  lemma EndOfTrimCap(n: nat, end: int, s: nat)
    requires s < n && end >= -1
    ensures IndexOf(n, end - s) >= -1
  {
    CapBound(n, s, -1, end);
  }

  /** The sufficient condition: no survivor holds a message beyond the trim that is numbered within it. */
  lemma NothingBeyondTrimAgrees(c: Config, S: System, j: nat, k: nat)
    requires Inv(c, S) && j < c.n && k < c.n
    requires OwnRow(c, S, j).globalMinReady && OwnRow(c, S, k).globalMinReady
    requires OwnRow(c, S, j).globalMin == OwnRow(c, S, k).globalMin
    requires forall m, s, x :: m in {j, k} && 0 <= s < c.n && OwnRow(c, S, j).globalMin[s] < x <= OwnRow(c, S, m).nReceived[s]
               ==> SeqNo(c.n, s, x) > EndOfTrim(c.n, OwnRow(c, S, j).globalMin)
    ensures S.nodes[j].log == S.nodes[k].log
  {
    hide Inv, Shape, View, TrimEnd, Covers, SeqNo, IndexOf;
    InvShape(c, S);
    SurvivorsAgreeIff(c, S, j, k);
    TrimCoversNow(c, S, j, j);
    TrimCoversNow(c, S, k, k);
    var g := OwnRow(c, S, j).globalMin;
    forall s, m | 0 <= s < c.n && m in {j, k} ensures Capped(OwnRow(c, S, m).nReceived, g, s) == g[s] {
      var v := OwnRow(c, S, m).nReceived;
      CapBound(c.n, s, g[s], EndOfTrim(c.n, g));
      CapBound(c.n, s, v[s], EndOfTrim(c.n, g));
      if g[s] < v[s] {
        CapBound(c.n, s, g[s] + 1, EndOfTrim(c.n, g));
        assert SeqNo(c.n, s, g[s] + 1) > EndOfTrim(c.n, g);
      }
    }
  }
}
