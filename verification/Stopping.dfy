/** What a member's wedging stops, in every run, and why a trim can then be final. */
module Stopping {
  import opened Collections
  import opened Numbering
  import opened SharedTable
  import opened Messages
  import opened GroupSpec
  import opened MemberInvariant
  import opened Multicast
  import opened MulticastInv
  import opened Buffers
  import opened MulticastRuns
  import opened Delivery

  // ---------------------------------------------------------------- a member that has stopped

  /** Of member j all is as it was, but for what cleanup delivers and the trim it publishes. */
  ghost predicate Still(c: Config, S: System, S': System, j: nat)
    requires WellShaped(c, S) && WellShaped(c, S') && j < c.n
  {
    var x, x', r, r' := S.nodes[j], S'.nodes[j], OwnRow(c, S, j), OwnRow(c, S', j);
    && x' == x.(locallyStable := x'.locallyStable, log := x'.log, freeBuffers := x'.freeBuffers)
    && r' == r.(globalMin := r'.globalMin, globalMinReady := r'.globalMinReady)
    && S'.sent[j] == S.sent[j] && S'.accepted[j] == S.accepted[j] && S'.got[j] == S.got[j] && S'.busy[j] == S.busy[j]
  }

  lemma StillTransitive(c: Config, S: System, S': System, S'': System, j: nat)
    requires WellShaped(c, S) && WellShaped(c, S') && WellShaped(c, S'') && j < c.n
    requires Still(c, S, S', j) && Still(c, S', S'', j)
    ensures Still(c, S, S'', j)
  {
    hide Shape, View;
  }

  /** Nobody touches another member's engine or row. */
  lemma OthersLeaveStill(c: Config, S: System, step: Step, j: nat)
    requires WellShaped(c, S) && Offered(c, S, step) && AssertsHold(c, S, step) && j < c.n && step.j != j
    requires WellShaped(c, Next(c, S, step))
    ensures Still(c, S, Next(c, S, step), j)
  {
    hide CanReceive, CanGetPosition, ShouldSend, CanDeliver, DeliverRange, TrimEnd, FileSkips, LeaderTrim, RowShape,
         ReceiveDestination, ReceiveHandler, CountsAfter, AfterReceive, AfterStability, Least, DeliverNo, GetPosition, Send, StartSend;
  }

  lemma StopsStep(c: Config, S: System, step: Step, j: nat)
    requires WellShaped(c, S) && Offered(c, S, step) && AssertsHold(c, S, step) && j < c.n && S.nodes[j].shutdown && OwnRow(c, S, j).wedged
    requires WellShaped(c, Next(c, S, step)) && step.j == j
    ensures Still(c, S, Next(c, S, step), j)
  {
    hide CanReceive, WindowOpen, ShouldSend, CanDeliver, DeliverRange, TrimEnd, FileSkips, LeaderTrim, RowShape;
    if step.LeaderCleanup? || step.FollowerCleanup? {
      var x, row := S.nodes[step.j], OwnRow(c, S, step.j);
      var g := if step.LeaderCleanup? then LeaderTrim(c.n, TableOf(c, S, step.j))
               else TableOf(c, S, step.j)[step.leader].globalMin;
      DeliverRangeFrame(x, row.deliveredNum, TrimEnd(c.n, row.deliveredNum, g));
    }
  }

  lemma StoppedIsWedged(c: Config, S: System, j: nat)
    requires Inv(c, S) && j < c.n
    ensures S.nodes[j].shutdown == OwnRow(c, S, j).wedged
  {
    hide TableInv, StreamsOk, WindowsOk, Shape, View, RowOk, CountsOk, TransitOk, FiledOk, LogOk, BuffersOk, CurrentOk;
    assert MemberInv(c.n, j, S.nodes[j], OwnRow(c, S, j), S.sent, S.got[j], S.busy[j]);
  }

  /**
   A member that has stopped stays so.  From then on, whatever is tried, its client is
   granted nothing and sends nothing, nothing of its is handed to RDMC, it takes no buffer
   and receives nothing, and its counts and numbers stand still: all that can still happen
   to it is its cleanup.
   */
  lemma {:induction false} StoppedForGood(c: Config, run: seq<System>, steps: seq<Step>, a: nat, b: nat, j: nat)
    requires IsRun(c, run, steps) && a <= b < |run| && j < c.n && run[a].nodes[j].shutdown
    ensures WellShaped(c, run[a]) && WellShaped(c, run[b]) && Still(c, run[a], run[b], j)
    decreases b
  {
    hide Inv, IsRun, Shape, View, Still, Offered, AssertsHold, Next;
    RunInv(c, run, steps, a);
    RunInv(c, run, steps, b);
    InvShape(c, run[a]);
    InvShape(c, run[b]);
    if a == b {
      SameStill(c, run[a], j);
    } else {
      StoppedForGood(c, run, steps, a, b - 1, j);
      IsRunLength(c, run, steps);
      RunInv(c, run, steps, b - 1);
      StoppedIsWedged(c, run[b - 1], j);
      StillStopped(c, run[a], run[b - 1], j);
      if steps[b - 1].j == j {
        StopsStep(c, run[b - 1], steps[b - 1], j);
      } else {
        OthersLeaveStill(c, run[b - 1], steps[b - 1], j);
      }
      StillTransitive(c, run[a], run[b - 1], run[b], j);
    }
  }

  lemma SameStill(c: Config, S: System, j: nat)
    requires WellShaped(c, S) && j < c.n
    ensures Still(c, S, S, j)
  {
  }

  lemma StillStopped(c: Config, S: System, S': System, j: nat)
    requires WellShaped(c, S) && WellShaped(c, S') && j < c.n && Still(c, S, S', j)
    ensures S'.nodes[j].shutdown == S.nodes[j].shutdown && S'.nodes[j].created == S.nodes[j].created
    ensures OwnRow(c, S', j).nReceived == OwnRow(c, S, j).nReceived
  {
    hide Shape, View;
  }

  // ---------------------------------------------------------------- a member whose group could not be made

  lemma CreatedStep(c: Config, S: System, step: Step, j: nat)
    requires WellShaped(c, S) && Offered(c, S, step) && AssertsHold(c, S, step) && j < c.n && !S.nodes[j].created
    requires WellShaped(c, Next(c, S, step))
    ensures var S' := Next(c, S, step);
            && S'.nodes[j].created == S.nodes[j].created && S'.nodes[j].nextSend == S.nodes[j].nextSend
            && S'.nodes[j].pendingSends == S.nodes[j].pendingSends
            && S'.sent[j] == S.sent[j] && S'.accepted[j] == S.accepted[j]
  {
    hide Shape, View, CanReceive, CanDeliver, Publish, HandOver, DeliverRange, TrimEnd, FileSkips, LeaderTrim, WindowOpen;
    if step.LeaderCleanup? || step.FollowerCleanup? {
      var x, row := S.nodes[step.j], OwnRow(c, S, step.j);
      var g := if step.LeaderCleanup? then LeaderTrim(c.n, TableOf(c, S, step.j))
               else TableOf(c, S, step.j)[step.leader].globalMin;
      DeliverRangeFrame(x, row.deliveredNum, TrimEnd(c.n, row.deliveredNum, g));
    }
  }

  /** If RDMC's groups could not be made, the client is granted nothing and nothing is sent, all through the view. */
  lemma {:induction false} NotCreatedIsSilent(c: Config, run: seq<System>, steps: seq<Step>, k: nat, j: nat)
    requires IsRun(c, run, steps) && k < |run| && j < c.n && |run[0].nodes| == c.n && !run[0].nodes[j].created
    ensures WellShaped(c, run[0]) && WellShaped(c, run[k])
    ensures !run[k].nodes[j].created && run[k].sent[j] == [] && run[k].accepted[j] == run[0].accepted[j]
    ensures run[k].nodes[j].nextSend == run[0].nodes[j].nextSend && run[k].nodes[j].pendingSends == run[0].nodes[j].pendingSends
    decreases k
  {
    hide Inv, Shape, View, InitialMember, InitialTable, Offered, AssertsHold, Next;
    RunInv(c, run, steps, 0);
    RunInv(c, run, steps, k);
    InvShape(c, run[0]);
    InvShape(c, run[k]);
    if k > 0 {
      IsRunLength(c, run, steps);
      RunInv(c, run, steps, k - 1);
      InvShape(c, run[k - 1]);
      NotCreatedIsSilent(c, run, steps, k - 1, j);
      CreatedStep(c, run[k - 1], steps[k - 1], j);
    }
  }

  // ---------------------------------------------------------------- the trim is final

  /** What a wedged row shows, in any copy of it, is what its owner has received for good. */
  lemma WedgedCopy(c: Config, run: seq<System>, steps: seq<Step>, k: nat, j: nat, i: nat, b: nat)
    requires IsRun(c, run, steps) && k <= b < |run| && j < c.n && i < c.n
    ensures WellShaped(c, run[k]) && WellShaped(c, run[b])
    ensures TableOf(c, run[k], j)[i].wedged ==> OwnRow(c, run[b], i).nReceived == TableOf(c, run[k], j)[i].nReceived
  {
    hide Inv, IsRun, Shape, View, MembersOk, StreamsOk, WindowsOk, RowOk;
    RunInv(c, run, steps, k);
    RunLater(c, run, steps, k, b);
    TableHolds(c, run[k]);
    SeenRow(c.n, run[k].table, j, i);
    assert RowLe(c.n, OwnRow(c, run[k], i), OwnRow(c, run[b], i));
  }

  lemma TableHolds(c: Config, S: System)
    requires Inv(c, S)
    ensures WellShaped(c, S) && TableInv(c.n, S.table)
  {
  }

  /**
   The leader's trim is final and leaves nothing out.  When a leader that knows of no trim
   cleans up, what it sees of every member not marked failed is all that member will ever
   have received; and a message that all of these hold at any later time, and that the rows
   of the failed members show, is within the trim.  With nobody failed, the trim is exactly
   what everybody has received.
   */
  lemma TrimLeavesNothingOut(c: Config, run: seq<System>, steps: seq<Step>, k: nat, b: nat, s: nat, x: int)
    requires IsRun(c, run, steps) && k < |steps| && k < b < |run| && steps[k].LeaderCleanup? && s < c.n
    ensures WellShaped(c, run[k]) && WellShaped(c, run[b]) && steps[k].j < c.n
    ensures var seen, g := TableOf(c, run[k], steps[k].j), OwnRow(c, run[b], steps[k].j).globalMin;
            && (forall i :: 0 <= i < c.n && i !in steps[k].failed ==> OwnRow(c, run[b], i).nReceived == seen[i].nReceived)
            && ((forall i :: 0 <= i < c.n ==> !seen[i].globalMinReady) ==>
                  (x <= g[s] <==> forall i :: 0 <= i < c.n ==>
                                    x <= if i in steps[k].failed then seen[i].nReceived[s] else OwnRow(c, run[b], i).nReceived[s]))
  {
    hide Inv, Shape, View, LeaderTrim, FirstReady, DeliverUpto;
    var j := steps[k].j;
    IsRunLength(c, run, steps);
    RunInv(c, run, steps, k);
    InvShape(c, run[k]);
    RunLater(c, run, steps, k + 1, b);
    forall i | 0 <= i < c.n && i !in steps[k].failed
      ensures OwnRow(c, run[b], i).nReceived == TableOf(c, run[k], j)[i].nReceived
    {
      WedgedCopy(c, run, steps, k, j, i, b);
    }
    LeaderPublishes(c, run[k], j, steps[k].failed);
    assert RowLe(c.n, OwnRow(c, run[k + 1], j), OwnRow(c, run[b], j));
    var seen := TableOf(c, run[k], j);
    if forall i :: 0 <= i < c.n ==> !seen[i].globalMinReady {
      NoneReady(seen);
      TrimIsColumnMin(c.n, seen, s);
    }
  }

  lemma NoneReady(sst: Sst)
    requires forall i :: 0 <= i < |sst| ==> !sst[i].globalMinReady
    ensures FirstReady(sst, 0) == |sst|
  {
  }

  lemma LeaderPublishes(c: Config, S: System, j: nat, failed: set<nat>)
    requires Inv(c, S) && WellShaped(c, S) && Offered(c, S, LeaderCleanup(j, failed)) && j < c.n
    ensures var S' := Next(c, S, LeaderCleanup(j, failed));
            WellShaped(c, S') && OwnRow(c, S', j).globalMinReady && OwnRow(c, S', j).globalMin == LeaderTrim(c.n, TableOf(c, S, j))
    ensures c.n > 0
  {
    hide Inv, View, LeaderTrim, DeliverUpto, Publish;
    StepInv(c, S, LeaderCleanup(j, failed));
    InvShape(c, Next(c, S, LeaderCleanup(j, failed)));
    var row := OwnRow(c, S, j);
    PublishViews(c.n, S.table, j, row.(globalMin := LeaderTrim(c.n, TableOf(c, S, j)), globalMinReady := true));
  }
}
