/** What the invariant means for every run of the multicast protocol, from whatever start a view may have. */
module EveryRun {
  import opened Collections
  import opened Numbering
  import opened SharedTable
  import opened Messages
  import opened GroupSpec
  import opened MemberInvariant
  import opened Multicast
  import opened Buffers
  import opened MulticastRuns
  import opened Delivery
  import opened TrimAgreement
  import opened OwnStream
  import opened Convergence
  import opened Receiving

  lemma StateOf(c: Config, run: seq<System>, steps: seq<Step>, a: nat)
    requires IsRun(c, run, steps) && a < |run|
    ensures Inv(c, run[a]) && WellShaped(c, run[a])
  {
    hide Inv, WellShaped;
    RunInv(c, run, steps, a);
  }

  /** Whenever the transport asks for a buffer there is one, and buffers are never lost or made up. */
  lemma BuffersSuffice(c: Config, run: seq<System>, steps: seq<Step>, a: nat, j: nat, s: nat)
    requires IsRun(c, run, steps) && a < |run| && j < c.n
    ensures WellShaped(c, run[a])
    ensures run[a].nodes[j].freeBuffers + BuffersUsed(run[a].nodes[j]) == run[a].nodes[j].totalBuffers
    ensures BufferAsked(c, run[a], j, s) ==> run[a].nodes[j].freeBuffers > 0
  {
    hide Inv, IsRun, BuffersUsed, BufferAsked;
    StateOf(c, run, steps, a);
    BuffersHold(c, run[a], j);
    if BufferAsked(c, run[a], j, s) {
      BufferAlwaysFree(c, run[a], j, s);
    }
  }

  /** A sender never has two messages outstanding. */
  lemma OneAtATime(c: Config, run: seq<System>, steps: seq<Step>, k: nat)
    requires IsRun(c, run, steps) && k < |steps| && steps[k].BeginSend?
    ensures var S, j := run[k], steps[k].j;
            && j < c.n && WellShaped(c, S)
            && S.nodes[j].currentSend.None? && S.nodes[j].pendingSends != []
            && S.nodes[j].pendingSends[0].index == OwnRow(c, S, j).nReceived[j] + 1
  {
    hide Inv, IsRun, Shape, View, WindowOpen;
    IsRunStep(c, run, steps, k);
    StateOf(c, run, steps, k);
    OneSendOutstanding(c, run[k], steps[k].j);
  }

  /**
   Ragged-edge delivery.  A member that has cleaned up with trim g has delivered, in strictly
   increasing order, exactly the numbers it had received up to the end of g; everything
   within g is among them, and g covers all that any trigger has delivered.
   */
  lemma RaggedEdgeDelivered(c: Config, run: seq<System>, steps: seq<Step>, a: nat, j: nat, k: nat)
    requires IsRun(c, run, steps) && a < |run| && j < c.n && k < c.n && OwnRow(c, run[a], j).globalMinReady
    ensures WellShaped(c, run[a])
    ensures var nums, g := Numbers(c.n, run[a].nodes[j].log), OwnRow(c, run[a], j).globalMin;
            && (forall x, y :: 0 <= x < y < |nums| ==> nums[x] < nums[y])
            && (forall q :: q in nums <==> q <= EndOfTrim(c.n, g) && Received(OwnRow(c, run[a], j).nReceived, q))
            && (forall s, x :: 0 <= s < c.n && 0 <= x <= g[s] ==> SeqNo(c.n, s, x) in nums)
            && Covers(g, OwnRow(c, run[a], k).deliveredNum)
  {
    hide Inv, IsRun, Shape, View, Received, Covers, Numbers, SeqNo, TrimEnd;
    StateOf(c, run, steps, a);
    RaggedEdge(c, run[a], j);
    TrimCoversNow(c, run[a], j, k);
  }

  /**
   Where leaders know of each other's trims: if neither of two survivors holds a message beyond its sender's bound
   that is numbered up to the trim's end, they have delivered identical sequences.
   */
  lemma SurvivorsIdentical(c: Config, run: seq<System>, steps: seq<Step>, a: nat, j: nat, k: nat)
    requires IsRun(c, run, steps) && a < |run| && LeadersInformed(c, run, steps) && j < c.n && k < c.n
    requires OwnRow(c, run[a], j).globalMinReady && OwnRow(c, run[a], k).globalMinReady
    requires forall m, s, x :: m in {j, k} && 0 <= s < c.n && OwnRow(c, run[a], j).globalMin[s] < x <= OwnRow(c, run[a], m).nReceived[s]
               ==> SeqNo(c.n, s, x) > EndOfTrim(c.n, OwnRow(c, run[a], j).globalMin)
    ensures run[a].nodes[j].log == run[a].nodes[k].log
  {
    hide Inv, IsRun, Shape, View, SeqNo, TrimEnd, SameUptoTrim, LeadersInformed;
    StateOf(c, run, steps, a);
    SurvivorsAgree(c, run, steps, a, j, k);
    NothingBeyondTrimAgrees(c, run[a], j, k);
  }

  /** Whenever a view ends, member j's next engine is one a view may start with, and no message of its client is lost. */
  lemma NextView(c: Config, run: seq<System>, steps: seq<Step>, a: nat, j: nat, c': Config, rank: nat, created: bool)
    requires IsRun(c, run, steps) && a < |run| && j < c.n && c'.window == c.window && rank < c'.n
    ensures WellShaped(c, run[a])
    ensures var y := NextEngine(c', rank, run[a].nodes[j], j, created);
            && InitialMember(c', rank, y)
            && OwnMessages(j, run[a].nodes[j].log) <= Stream(run[a], j)
            && |OwnMessages(j, run[a].nodes[j].log)| + |y.pendingSends| == |run[a].accepted[j]|
  {
    hide Inv, IsRun, InitialMember, OwnMessages;
    StateOf(c, run, steps, a);
    NextViewStartsWell(c, run[a], j, c', rank, created);
    OwnStreamAcrossViews(c, run[a], j, c', rank, created);
    DeliveredFirst(OwnMessages(j, run[a].nodes[j].log), Stream(run[a], j));
  }

  lemma DeliveredFirst(a: seq<Message>, b: seq<Message>)
    requires |a| <= |b| && forall k :: 0 <= k < |a| ==> a[k] == b[k]
    ensures a <= b
  {
  }

  /** From any moment of a run on which nothing more is received, hand-overs and triggers converge. */
  lemma ConvergesFromRun(c: Config, run: seq<System>, steps: seq<Step>, quiet: seq<System>, moves: seq<Step>)
    requires IsRun(c, run, steps) && |quiet| == |moves| + 1 && quiet[0] == run[|steps|]
    requires forall k :: 0 <= k < |moves| ==>
      WellShaped(c, quiet[k]) && Effective(c, quiet[k], moves[k]) && quiet[k + 1] == Next(c, quiet[k], moves[k])
    ensures WellShaped(c, quiet[0]) && WellShaped(c, quiet[|moves|])
    ensures |moves| <= Potential(c, quiet[0])
    ensures AllLive(c, quiet[|moves|]) && (forall step :: !Effective(c, quiet[|moves|], step)) ==>
              forall j :: 0 <= j < c.n ==>
                OwnRow(c, quiet[|moves|], j).stableNum == Target(c, quiet[0])
                && OwnRow(c, quiet[|moves|], j).deliveredNum == Target(c, quiet[0])
  {
    hide Inv, IsRun, Effective, Next, Potential, Target, WellShaped;
    RunEnds(c, run, steps);
    StateOf(c, run, steps, |steps|);
    Converges(c, quiet, moves);
    InvShape(c, quiet[|moves|]);
  }

  lemma RunEnds(c: Config, run: seq<System>, steps: seq<Step>)
    requires IsRun(c, run, steps)
    ensures |run| == |steps| + 1
  {
  }

  // ---------------------------------------------------------------- what the single steps do

  /**
   The stability trigger.  The member's stable_num goes straight to the least seq_num it
   sees, if that is higher: it does not go down, passes no seq_num seen unless it stays where
   it was, and reaches at least one of them, so that the trigger changes nothing if it runs
   again.  Nothing else changes.
   */
  lemma StabilityReaches(c: Config, run: seq<System>, steps: seq<Step>, k: nat)
    requires IsRun(c, run, steps) && k < |steps| && steps[k].RunStability?
    ensures var S, S', j := run[k], run[k + 1], steps[k].j;
            && WellShaped(c, S) && WellShaped(c, S') && j < c.n
            && var seen, was, now := TableOf(c, S, j), OwnRow(c, S, j), OwnRow(c, S', j);
               && now == was.(stableNum := now.stableNum) && now.stableNum >= was.stableNum
               && (now.stableNum == was.stableNum || forall i :: 0 <= i < c.n ==> now.stableNum <= seen[i].seqNum)
               && (exists i :: 0 <= i < c.n && now.stableNum >= seen[i].seqNum)
               && (forall i :: 0 <= i < c.n && i != j ==> TableOf(c, S', j)[i] == seen[i] && OwnRow(c, S', i) == OwnRow(c, S, i))
               && S' == S.(table := S'.table)
               && Offered(c, S', steps[k]) && OwnRow(c, Next(c, S', steps[k]), j) == now
  {
    hide Inv, IsRun, Publish;
    RunEnds(c, run, steps);
    IsRunStep(c, run, steps, k);
    RunInv(c, run, steps, k);
    StabilityTwice(c, run[k], steps[k].j);
  }

  lemma StabilityTwice(c: Config, S: System, j: nat)
    requires WellShaped(c, S) && j < c.n && Offered(c, S, RunStability(j))
    ensures var S' := Next(c, S, RunStability(j));
            && WellShaped(c, S')
            && var seen, was, now := TableOf(c, S, j), OwnRow(c, S, j), OwnRow(c, S', j);
               && now == was.(stableNum := now.stableNum) && now.stableNum >= was.stableNum
               && (now.stableNum == was.stableNum || forall i :: 0 <= i < c.n ==> now.stableNum <= seen[i].seqNum)
               && (exists i :: 0 <= i < c.n && now.stableNum >= seen[i].seqNum)
               && (forall i :: 0 <= i < c.n && i != j ==> TableOf(c, S', j)[i] == seen[i] && OwnRow(c, S', i) == OwnRow(c, S, i))
               && S' == S.(table := S'.table)
               && Offered(c, S', RunStability(j)) && OwnRow(c, Next(c, S', RunStability(j)), j) == now
  {
    hide Shape, View, Publish;
    var sst, S' := TableOf(c, S, j), Next(c, S, RunStability(j));
    var r := AfterStability(sst, j);
    PublishViews(c.n, S.table, j, r);
    var sst' := TableOf(c, S', j);
    assert forall i :: 0 <= i < c.n ==> SeqNums(sst)[i] == sst[i].seqNum && SeqNums(sst')[i] == sst'[i].seqNum;
    assert SeqNums(sst') == SeqNums(sst);
    PublishViews(c.n, S'.table, j, AfterStability(sst', j));
  }
}
