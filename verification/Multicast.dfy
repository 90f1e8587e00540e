/**
 The multicast protocol of one view: n members, each with its engine and its table, RDMC
 delivering each sender's messages in order, and rows travelling late or not at all.
 */
module Multicast {
  import opened Collections
  import opened Numbering
  import opened SharedTable
  import opened Messages
  import opened GroupSpec
  import opened MemberInvariant
  import opened MemberSteps

  /**
   sent[s] lists the messages s has passed to RDMC; got[j][s] counts those that have
   completely arrived at j; busy[j] holds the senders whose next message is arriving at j.
   accepted[s] lists every message s's client has sent, including those carried over from
   the previous view.
   */
  datatype System = System(
    table: Table,
    nodes: seq<Node>,
    sent: seq<seq<Message>>,
    got: seq<seq<nat>>,
    busy: seq<set<nat>>,
    accepted: seq<seq<Message>>)

  datatype Step =
    | AskPosition(j: nat, payloadSize: nat, pause: nat, cooked: bool)
    | ClientSend(j: nat, payload: seq<byte>)
    | BeginSend(j: nat)
    | TakeBuffer(j: nat, s: nat)
    | Complete(j: nat, s: nat)
    | RunStability(j: nat)
    | RunDelivery(j: nat)
    | RowArrives(owner: nat, j: nat, k: nat)
    | FreezeRow(j: nat, owner: nat)
    | WedgeMember(j: nat)
    | LeaderCleanup(j: nat, failed: set<nat>)
    | FollowerCleanup(j: nat, leader: nat, failed: set<nat>)

  ghost predicate WellShaped(c: Config, S: System) {
    && c.window >= 1 && c.maxMsgSize >= HEADER_SIZE
    && Shape(c.n, S.table)
    && |S.nodes| == |S.sent| == |S.got| == |S.busy| == |S.accepted| == c.n
    && forall j :: 0 <= j < c.n ==> |S.got[j]| == c.n
  }

  function OwnRow(c: Config, S: System, j: nat): Row
    requires Shape(c.n, S.table) && j < c.n
  {
    View(c.n, S.table, j, j)
  }

  function TableOf(c: Config, S: System, j: nat): (sst: Sst)
    requires Shape(c.n, S.table) && j < c.n
    ensures SstShape(c.n, sst) && sst[j] == OwnRow(c, S, j)
  {
    SstOf(c.n, S.table, j)
  }

  // ---------------------------------------------------------------- start of a view

  /** How an engine may enter a view: nothing received, at most a window of own messages queued. */
  ghost predicate InitialMember(c: Config, j: nat, x: Node) {
    && !x.shutdown
    && x.currentSend.None? && x.currentReceives == map[] && x.locallyStable == map[] && x.log == []
    && StreamOk(j, x, [], x.pendingSends)
    && BuffersOk(x)
    && x.totalBuffers >= c.window * c.n
    && forall m :: m in x.pendingSends + OneOrNone(x.nextSend) ==> m.index < c.window
  }

  ghost predicate Init(c: Config, S: System) {
    && c.n > 0
    && WellShaped(c, S)
    && S.table == InitialTable(c.n)
    && (forall j :: 0 <= j < c.n ==> InitialMember(c, j, S.nodes[j]))
    && (forall j :: 0 <= j < c.n ==>
          S.sent[j] == [] && S.busy[j] == {} && S.accepted[j] == S.nodes[j].pendingSends)
    && (forall j, s :: 0 <= j < c.n && 0 <= s < c.n ==> S.got[j][s] == 0)
  }

  // ---------------------------------------------------------------- steps

  /** All members not marked failed are seen to be wedged. */
  predicate MetaWedged(n: nat, sst: Sst, failed: set<nat>)
    requires |sst| == n
  {
    forall k :: 0 <= k < n && k !in failed ==> sst[k].wedged
  }

  function SetMember(S: System, j: nat, x: Node): System
    requires j < |S.nodes|
  {
    S.(nodes := S.nodes[j := x])
  }

  function SetRow(c: Config, S: System, j: nat, r: Row): System
    requires Shape(c.n, S.table) && j < c.n && RowShape(c.n, r)
  {
    S.(table := Publish(c.n, S.table, j, r))
  }

  function AfterAsk(c: Config, S: System, j: nat, payloadSize: nat, pause: nat, cooked: bool): System
    requires j < |S.nodes| && S.nodes[j].freeBuffers > 0
  {
    SetMember(S, j, GetPosition(c, j, S.nodes[j], payloadSize, pause, cooked))
  }

  function AfterClientSend(S: System, j: nat, payload: seq<byte>): System
    requires j < |S.nodes| == |S.accepted| && S.nodes[j].nextSend.Some?
  {
    SetMember(S, j, Send(S.nodes[j], payload))
      .(accepted := S.accepted[j := S.accepted[j] + [Filled(S.nodes[j].nextSend.value, payload)]])
  }

  function AfterBeginSend(S: System, j: nat): System
    requires j < |S.nodes| == |S.sent| && S.nodes[j].pendingSends != []
  {
    SetMember(S, j, StartSend(S.nodes[j]))
      .(sent := S.sent[j := S.sent[j] + [S.nodes[j].pendingSends[0]]])
  }

  /** RDMC asks member j where to put the next message of sender s. */
  ghost predicate BufferAsked(c: Config, S: System, j: nat, s: nat)
    requires WellShaped(c, S) && j < c.n
  {
    !S.nodes[j].shutdown && s < c.n && s != j && s !in S.busy[j] && S.got[j][s] < |S.sent[s]|
  }

  ghost function AfterTakeBuffer(c: Config, S: System, j: nat, s: nat): System
    requires WellShaped(c, S) && j < c.n && BufferAsked(c, S, j, s) && S.nodes[j].freeBuffers > 0
  {
    SetMember(S, j, ReceiveDestination(c, j, S.nodes[j], TableOf(c, S, j), s, S.sent[s][S.got[j][s]].size))
      .(busy := S.busy[j := S.busy[j] + {s}])
  }

  /** RDMC has the whole next message of sender s at member j. */
  ghost predicate Arriving(c: Config, S: System, j: nat, s: nat)
    requires WellShaped(c, S) && j < c.n
  {
    !S.nodes[j].shutdown && s < c.n && S.got[j][s] < |S.sent[s]| && (s == j || s in S.busy[j])
  }

  ghost function AfterComplete(c: Config, S: System, j: nat, s: nat): System
    requires WellShaped(c, S) && j < c.n && Arriving(c, S, j, s)
    requires CanReceive(c, j, S.nodes[j], TableOf(c, S, j), s)
  {
    var sst, body := TableOf(c, S, j), S.sent[s][S.got[j][s]].body;
    var got: seq<nat> := S.got[j][s := S.got[j][s] + 1];
    SetRow(c, SetMember(S, j, ReceiveHandler(c, j, S.nodes[j], sst, s, body)), j,
           AfterReceive(OwnRow(c, S, j), CountsAfter(sst, j, s, body.pause)))
      .(got := S.got[j := got], busy := S.busy[j := S.busy[j] - {s}])
  }

  ghost function AfterRunDelivery(c: Config, S: System, j: nat): System
    requires WellShaped(c, S) && j < c.n && S.nodes[j].locallyStable != map[]
  {
    var q := Least(S.nodes[j].locallyStable);
    SetRow(c, SetMember(S, j, DeliverNo(S.nodes[j], q)), j, OwnRow(c, S, j).(deliveredNum := q))
  }

  function AfterWedge(c: Config, S: System, j: nat): System
    requires Shape(c.n, S.table) && j < c.n == |S.nodes|
  {
    SetRow(c, SetMember(S, j, S.nodes[j].(shutdown := true)), j, OwnRow(c, S, j).(wedged := true))
  }

  ghost predicate CleanupReady(c: Config, S: System, j: nat, failed: set<nat>)
    requires WellShaped(c, S) && j < c.n
  {
    && OwnRow(c, S, j).wedged && !OwnRow(c, S, j).globalMinReady
    && MetaWedged(c.n, TableOf(c, S, j), failed)
  }

  function AfterCleanup(c: Config, S: System, j: nat, g: seq<int>): System
    requires Shape(c.n, S.table) && j < c.n == |S.nodes| == |g|
  {
    var row := OwnRow(c, S, j);
    SetRow(c, SetMember(S, j, DeliverUpto(c, S.nodes[j], row.deliveredNum, g)), j,
           row.(globalMin := g, globalMinReady := true))
  }

  /** What the network, the client and the code's own guards allow, asserts left aside. */
  ghost predicate Offered(c: Config, S: System, step: Step)
    requires WellShaped(c, S)
  {
    step.j < c.n &&
    var j := step.j;
    var x, sst := S.nodes[j], TableOf(c, S, j);
    match step
    case AskPosition(_, payloadSize, _, _) => x.nextSend.None? && CanGetPosition(c, j, x, sst, payloadSize)
    case ClientSend(_, _) => CanSend(x) && x.nextSend.Some?
    case BeginSend(_) => !x.shutdown && ShouldSend(c, j, x, sst)
    case TakeBuffer(_, s) => BufferAsked(c, S, j, s)
    case Complete(_, s) => Arriving(c, S, j, s)
    case RunStability(_) => !x.shutdown
    case RunDelivery(_) => !x.shutdown && CanDeliver(x, sst)
    case RowArrives(i, _, k) =>
      i < c.n && i != j && i !in S.table.frozen[j] && S.table.pos[j][i] <= k < |S.table.hist[i]|
    case FreezeRow(_, i) => i < c.n
    case WedgeMember(_) => true
    case LeaderCleanup(_, failed) => CleanupReady(c, S, j, failed)
    case FollowerCleanup(_, l, failed) => CleanupReady(c, S, j, failed) && l < c.n && sst[l].globalMinReady
  }

  /** The asserts the code makes when it takes the step. */
  predicate AssertsHold(c: Config, S: System, step: Step)
    requires Shape(c.n, S.table) && |S.nodes| == c.n && step.j < c.n
  {
    match step
    case TakeBuffer(j, s) => S.nodes[j].freeBuffers > 0
    case Complete(j, s) => s < c.n && CanReceive(c, j, S.nodes[j], TableOf(c, S, j), s)
    case _ => true
  }

  ghost function Next(c: Config, S: System, step: Step): System
    requires WellShaped(c, S) && Offered(c, S, step) && AssertsHold(c, S, step)
  {
    match step
    case AskPosition(j, payloadSize, pause, cooked) => AfterAsk(c, S, j, payloadSize, pause, cooked)
    case ClientSend(j, payload) => AfterClientSend(S, j, payload)
    case BeginSend(j) => AfterBeginSend(S, j)
    case TakeBuffer(j, s) => AfterTakeBuffer(c, S, j, s)
    case Complete(j, s) => AfterComplete(c, S, j, s)
    case RunStability(j) => SetRow(c, S, j, AfterStability(TableOf(c, S, j), j))
    case RunDelivery(j) => AfterRunDelivery(c, S, j)
    case RowArrives(i, j, k) => S.(table := HandOver(c.n, S.table, i, j, k))
    case FreezeRow(j, i) => S.(table := S.table.(frozen := S.table.frozen[j := S.table.frozen[j] + {i}]))
    case WedgeMember(j) => AfterWedge(c, S, j)
    case LeaderCleanup(j, _) => AfterCleanup(c, S, j, LeaderTrim(c.n, TableOf(c, S, j)))
    case FollowerCleanup(j, l, _) => AfterCleanup(c, S, j, TableOf(c, S, j)[l].globalMin)
  }

  // ---------------------------------------------------------------- the invariant

  function Stream(S: System, s: nat): seq<Message>
    requires s < |S.accepted| == |S.nodes|
  {
    S.accepted[s] + OneOrNone(S.nodes[s].nextSend)
  }

  /** Whatever has been numbered is less than a window ahead of what has been delivered. */
  ghost predicate Windowed(c: Config, s: nat, stream: seq<Message>, delivered: int) {
    forall i :: 0 <= i < |stream| ==> SeqNo(c.n, s, stream[i].index - c.window) <= delivered
  }

  ghost predicate MembersOk(c: Config, S: System)
    requires WellShaped(c, S)
  {
    && (forall j :: 0 <= j < c.n ==>
          MemberInv(c.n, j, S.nodes[j], OwnRow(c, S, j), S.sent, S.got[j], S.busy[j]))
    && (forall j :: 0 <= j < c.n ==> S.nodes[j].totalBuffers >= c.window * c.n)
  }

  ghost predicate StreamsOk(c: Config, S: System)
    requires WellShaped(c, S)
  {
    forall s :: 0 <= s < c.n ==> StreamOk(s, S.nodes[s], S.sent[s], S.accepted[s])
  }

  ghost predicate WindowsOk(c: Config, S: System)
    requires WellShaped(c, S)
  {
    forall s, k :: 0 <= s < c.n && 0 <= k < c.n
      ==> Windowed(c, s, Stream(S, s), OwnRow(c, S, k).deliveredNum)
  }

  ghost predicate Inv(c: Config, S: System) {
    WellShaped(c, S) && TableInv(c.n, S.table) && MembersOk(c, S) && StreamsOk(c, S) && WindowsOk(c, S)
  }
}
