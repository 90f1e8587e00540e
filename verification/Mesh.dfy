/**
 Setting up the full mesh of TCP connections.  Every node connects to the nodes with lower
 ids, in ascending order, and then accepts from whoever of the others comes; connecting and
 accepting wait for each other.
 */
module Mesh {
  import opened Collections
  import opened Sums

  /** What the network answers: nothing, a connection on which the exchange fails, or the id of the peer. */
  datatype Reply = Down | NoExchange | Peer(id: nat)

  /** A socket map: for each id, the node at the other end of the connection kept under it. */
  type Sockets = map<nat, nat>

  function Connected(me: nat, other: nat, sockets: Sockets, reply: Reply): (bool, Sockets) {
    if other < me then
      match reply
      case Down => (false, sockets)
      case NoExchange => (false, sockets - {other})
      case Peer(id) => if id == other then (true, sockets[other := id]) else (false, sockets - {other})
    else if other > me then
      match reply
      case Peer(id) => (true, sockets[id := id])
      case _ => (false, sockets)
    else
      (false, sockets)
  }

  /** The sockets after trying every other id in turn. */
  function Established(me: nat, ids: seq<nat>, replies: seq<Reply>, sockets: Sockets): Sockets
    requires |ids| == |replies|
    decreases |ids|
  {
    if ids == [] then sockets
    else
      var front := Established(me, ids[..|ids| - 1], replies[..|ids| - 1], sockets);
      Connected(me, ids[|ids| - 1], front, replies[|ids| - 1]).1
  }

  class TcpConnections {
    const myId: nat
    var sockets: Sockets

    constructor (me: nat)
      ensures myId == me && sockets == map[]
    {
      myId, sockets := me, map[];
    }

    method AddConnection(otherId: nat, reply: Reply) returns (ok: bool)
      modifies this
      ensures (ok, sockets) == Connected(myId, otherId, old(sockets), reply)
    {
      if otherId < myId {
        if reply.Down? {
          return false;
        }
        sockets := sockets[otherId := if reply.Peer? then reply.id else otherId];
        if reply.NoExchange? {
          sockets := sockets - {otherId};
          assert sockets == old(sockets) - {otherId};
          return false;
        } else if reply.id != otherId {
          sockets := sockets - {otherId};
          assert sockets == old(sockets) - {otherId};
          return false;
        }
        return true;
      } else if otherId > myId {
        if !reply.Peer? {
          return false;
        }
        sockets := sockets[reply.id := reply.id];
        return true;
      }
      return false;
    }

    /** One attempt for every other id, in ascending order; a failure is only reported. */
    method EstablishNodeConnections(ids: seq<nat>, replies: seq<Reply>)
      requires |ids| == |replies|
      modifies this
      ensures sockets == Established(myId, ids, replies, old(sockets))
    {
      var i := 0;
      while i < |ids|
        invariant 0 <= i <= |ids|
        invariant sockets == Established(myId, ids[..i], replies[..i], old(sockets))
      {
        assert ids[..i + 1][..i] == ids[..i] && replies[..i + 1][..i] == replies[..i];
        if ids[i] != myId {
          var ok := AddConnection(ids[i], replies[i]);
        }
        i := i + 1;
      }
      assert ids[..i] == ids && replies[..i] == replies;
    }
  }

  // ---------------------------------------------------------------- all nodes together

  ghost predicate Ascending(ids: seq<nat>) {
    forall a, b :: 0 <= a < b < |ids| ==> ids[a] < ids[b]
  }

  /** at[a] is how many of the other nodes node a is done with; node a is the one with the a-th lowest id. */
  datatype State = State(at: seq<nat>, sockets: seq<Sockets>)

  predicate Shape(ids: seq<nat>, S: State) {
    |S.at| == |S.sockets| == |ids|
  }

  /** The node that place k of node a's list names. */
  function Other(a: nat, k: nat): nat {
    if k < a then k else k + 1
  }

  /** Node a is connecting to node b, and b is accepting. */
  predicate CanMeet(ids: seq<nat>, S: State, a: nat, b: nat)
    requires Shape(ids, S)
  {
    a < |ids| && S.at[a] < a && b == S.at[a] && b <= S.at[b] < |ids| - 1
  }

  function Meet(ids: seq<nat>, S: State, a: nat, b: nat): (S': State)
    requires Shape(ids, S) && CanMeet(ids, S, a, b)
    ensures Shape(ids, S')
  {
    var atA, atB := S.at[a] + 1, S.at[b] + 1;
    var socketsA := Connected(ids[a], ids[Other(a, S.at[a])], S.sockets[a], Peer(ids[b])).1;
    var socketsB := Connected(ids[b], ids[Other(b, S.at[b])], S.sockets[b], Peer(ids[a])).1;
    State(S.at[a := atA][b := atB], S.sockets[a := socketsA][b := socketsB])
  }

  function Initial(n: nat): State {
    State(seq(n, i => 0), seq(n, i => map[]))
  }

  predicate Done(ids: seq<nat>, S: State)
    requires Shape(ids, S)
  {
    forall a :: 0 <= a < |ids| ==> S.at[a] == |ids| - 1
  }

  // ---------------------------------------------------------------- the invariant

  /** Nodes a and p have met: the higher of the two has got past the lower one. */
  predicate Linked(at: seq<nat>, a: nat, p: nat)
    requires a < |at| && p < |at|
  {
    if p < a then p < at[a] else a < at[p]
  }

  /** The higher nodes that have connected to b. */
  function Callers(at: seq<nat>, b: nat): set<nat> {
    set a: nat | b < a < |at| && b < at[a]
  }

  ghost predicate Counted(at: seq<nat>, b: nat)
    requires b < |at|
  {
    && at[b] <= |at| - 1
    && (at[b] < b ==> Callers(at, b) == {})
    && (b <= at[b] ==> at[b] - b == |Callers(at, b)|)
  }

  ghost predicate SocketsOk(ids: seq<nat>, S: State, a: nat)
    requires Shape(ids, S) && a < |ids|
  {
    && (forall p :: 0 <= p < |ids| && p != a ==> (ids[p] in S.sockets[a] <==> Linked(S.at, a, p)))
    && (forall x :: x in S.sockets[a] ==> S.sockets[a][x] == x && exists p :: 0 <= p < |ids| && p != a && ids[p] == x)
  }

  ghost predicate Inv(ids: seq<nat>, S: State) {
    && Shape(ids, S)
    && (forall b :: 0 <= b < |ids| ==> Counted(S.at, b))
    && (forall a :: 0 <= a < |ids| ==> SocketsOk(ids, S, a))
  }

  lemma InitialInv(ids: seq<nat>)
    ensures Inv(ids, Initial(|ids|))
  {
    var S := Initial(|ids|);
    forall b | 0 <= b < |ids| ensures Callers(S.at, b) == {} {
    }
  }

  lemma CallersMet(ids: seq<nat>, S: State, a: nat, b: nat, p: nat)
    requires Inv(ids, S) && CanMeet(ids, S, a, b) && p < |ids|
    ensures Callers(Meet(ids, S, a, b).at, p) == Callers(S.at, p) + (if p == b then {a} else {})
    ensures a !in Callers(S.at, b)
  {
    hide SocketsOk;
  }

  lemma MeetCounted(ids: seq<nat>, S: State, a: nat, b: nat, p: nat)
    requires Inv(ids, S) && CanMeet(ids, S, a, b) && p < |ids|
    ensures Counted(Meet(ids, S, a, b).at, p)
  {
    hide SocketsOk, Callers;
    CallersMet(ids, S, a, b, p);
    assert Counted(S.at, p);
    if p == b {
      assert |Callers(S.at, b) + {a}| == |Callers(S.at, b)| + 1;
    }
  }

  lemma MeetSockets(ids: seq<nat>, S: State, a: nat, b: nat, p: nat)
    requires Ascending(ids) && Inv(ids, S) && CanMeet(ids, S, a, b) && p < |ids|
    ensures SocketsOk(ids, Meet(ids, S, a, b), p)
  {
    hide Counted;
    assert SocketsOk(ids, S, p);
    assert ids[b] < ids[a] && ids[b] < ids[Other(b, S.at[b])];
  }

  lemma MeetInv(ids: seq<nat>, S: State, a: nat, b: nat)
    requires Ascending(ids) && Inv(ids, S) && CanMeet(ids, S, a, b)
    ensures Inv(ids, Meet(ids, S, a, b))
  {
    hide SocketsOk, Counted;
    forall p | 0 <= p < |ids| ensures Counted(Meet(ids, S, a, b).at, p) && SocketsOk(ids, Meet(ids, S, a, b), p) {
      MeetCounted(ids, S, a, b, p);
      MeetSockets(ids, S, a, b, p);
    }
  }

  // ---------------------------------------------------------------- no deadlock

  lemma {:induction false} LowestConnector(at: seq<nat>, a: nat) returns (c: nat)
    requires a < |at| && at[a] < a
    ensures c < |at| && at[c] < c && forall p :: 0 <= p < c ==> p <= at[p]
    decreases a
  {
    if p :| 0 <= p < a && at[p] < p {
      c := LowestConnector(at, p);
    } else {
      c := a;
    }
  }

  /** The numbers from lo up to but not including n. */
  function Range(lo: nat, n: nat): (r: set<nat>)
    requires lo <= n
    ensures |r| == n - lo
    ensures forall a :: a in r <==> lo <= a < n
    decreases n - lo
  {
    if lo == n then {} else {lo} + Range(lo + 1, n)
  }

  /** The node with the lowest id that is still connecting always finds the other end accepting. */
  lemma LowestCanMeet(ids: seq<nat>, S: State, a: nat)
    requires Inv(ids, S) && a < |ids| && S.at[a] < a && forall p :: 0 <= p < a ==> p <= S.at[p]
    ensures CanMeet(ids, S, a, S.at[a])
  {
    hide SocketsOk;
    var b, n := S.at[a], |ids|;
    assert Counted(S.at, b);
    var higher := Range(b + 1, n);
    assert Callers(S.at, b) <= higher - {a};
    SubsetSize(Callers(S.at, b), higher - {a});
    assert |higher - {a}| == |higher| - 1;
  }

  /** When nobody is connecting any more, everybody is done. */
  lemma AllAcceptedDone(ids: seq<nat>, S: State)
    requires Inv(ids, S) && forall a :: 0 <= a < |ids| ==> a <= S.at[a]
    ensures Done(ids, S)
  {
    hide SocketsOk;
    forall b | 0 <= b < |ids| ensures S.at[b] == |ids| - 1 {
      assert Counted(S.at, b);
      assert Callers(S.at, b) == Range(b + 1, |ids|);
    }
  }

  lemma NoDeadlock(ids: seq<nat>, S: State)
    requires Inv(ids, S) && !Done(ids, S)
    ensures exists a, b :: CanMeet(ids, S, a, b)
  {
    hide SocketsOk, Counted, CanMeet;
    if forall a :: 0 <= a < |ids| ==> a <= S.at[a] {
      AllAcceptedDone(ids, S);
    } else {
      var a :| 0 <= a < |ids| && S.at[a] < a;
      var c := LowestConnector(S.at, a);
      LowestCanMeet(ids, S, c);
    }
  }

  // ---------------------------------------------------------------- runs

  ghost predicate IsRun(ids: seq<nat>, run: seq<State>, meets: seq<(nat, nat)>) {
    && |run| == |meets| + 1 && run[0] == Initial(|ids|)
    && (forall k :: 0 <= k < |run| ==> Shape(ids, run[k]))
    && forall k :: 0 <= k < |meets| ==>
         CanMeet(ids, run[k], meets[k].0, meets[k].1) && run[k + 1] == Meet(ids, run[k], meets[k].0, meets[k].1)
  }

  function Ints(at: seq<nat>): seq<int> {
    seq(|at|, i requires 0 <= i < |at| => at[i])
  }

  lemma MeetSum(ids: seq<nat>, S: State, a: nat, b: nat)
    requires Shape(ids, S) && CanMeet(ids, S, a, b)
    ensures Sum(Ints(Meet(ids, S, a, b).at)) == Sum(Ints(S.at)) + 2
  {
    var one := S.at[a := S.at[a] + 1];
    SumPoint(Ints(S.at), Ints(one), a);
    SumPoint(Ints(one), Ints(Meet(ids, S, a, b).at), b);
  }

  lemma {:induction false} SumConstant(v: seq<int>, c: int)
    requires forall k :: 0 <= k < |v| ==> v[k] <= c
    ensures Sum(v) <= |v| * c
    ensures Sum(v) == |v| * c <==> forall k :: 0 <= k < |v| ==> v[k] == c
    decreases |v|
  {
    if v != [] {
      var last := |v| - 1;
      SumConstant(v[..last], c);
      assert |v| * c == last * c + c;
      assert (forall k :: 0 <= k < last ==> v[..last][k] == c) <==> (forall k :: 0 <= k < last ==> v[k] == c);
    }
  }

  lemma {:induction false} SumZero(n: nat)
    ensures Sum(Ints(Initial(n).at)) == 0
  {
    SumConstant(Ints(Initial(n).at), 0);
  }

  lemma {:induction false} RunCount(ids: seq<nat>, run: seq<State>, meets: seq<(nat, nat)>, k: nat)
    requires Ascending(ids) && IsRun(ids, run, meets) && k < |run|
    ensures Inv(ids, run[k]) && Sum(Ints(run[k].at)) == 2 * k
    decreases k
  {
    hide Inv, CanMeet, Meet, Initial, Sum, Ints;
    if k == 0 {
      InitialInv(ids);
      SumZero(|ids|);
    } else {
      RunCount(ids, run, meets, k - 1);
      MeetInv(ids, run[k - 1], meets[k - 1].0, meets[k - 1].1);
      MeetSum(ids, run[k - 1], meets[k - 1].0, meets[k - 1].1);
    }
  }

  /**
   Whatever order the nodes come in, setting up the mesh never gets stuck: a state of a run
   is final exactly when n(n-1)/2 pairs have met, no run is longer, and before that some
   pair can always meet.
   */
  lemma MeshCompletes(ids: seq<nat>, run: seq<State>, meets: seq<(nat, nat)>, k: nat)
    requires Ascending(ids) && IsRun(ids, run, meets) && k < |run|
    ensures 2 * k <= |ids| * (|ids| - 1)
    ensures Done(ids, run[k]) <==> 2 * k == |ids| * (|ids| - 1)
    ensures !Done(ids, run[k]) ==> exists a, b :: CanMeet(ids, run[k], a, b)
  {
    hide CanMeet, Meet, Initial, Sum, SocketsOk, Callers;
    RunCount(ids, run, meets, k);
    var at := run[k].at;
    forall a | 0 <= a < |ids| ensures Ints(at)[a] <= |ids| - 1 {
      assert Counted(at, a);
    }
    SumConstant(Ints(at), |ids| - 1);
    assert forall a :: 0 <= a < |ids| ==> Ints(at)[a] == at[a];
    if !Done(ids, run[k]) {
      NoDeadlock(ids, run[k]);
    }
  }

  /** When it is done, every node has a socket for exactly the other ids, and each leads to that node. */
  lemma MeshConnectsAll(ids: seq<nat>, run: seq<State>, meets: seq<(nat, nat)>, k: nat, a: nat)
    requires Ascending(ids) && IsRun(ids, run, meets) && k < |run| && a < |ids| && Done(ids, run[k])
    ensures forall x :: x in run[k].sockets[a] <==> x in ids && x != ids[a]
    ensures forall x :: x in run[k].sockets[a] ==> run[k].sockets[a][x] == x
  {
    hide CanMeet, Meet, Initial, Sum, Callers, Counted;
    RunCount(ids, run, meets, k);
    assert SocketsOk(ids, run[k], a);
    forall x | x in ids && x != ids[a] ensures x in run[k].sockets[a] {
      var p :| 0 <= p < |ids| && ids[p] == x;
      assert Linked(run[k].at, a, p);
    }
  }

  // ---------------------------------------------------------------- what one node ends up with

  /** A node has got through to id by trying the ids below its own: that id itself answered. */
  ghost predicate Reached(me: nat, ids: seq<nat>, replies: seq<Reply>, x: nat)
    requires |ids| == |replies|
  {
    exists i :: 0 <= i < |ids| && ids[i] == x < me && replies[i] == Peer(x)
  }

  /** Or id came to it while it was waiting for one of the ids above its own. */
  ghost predicate Came(me: nat, ids: seq<nat>, replies: seq<Reply>, x: nat)
    requires |ids| == |replies|
  {
    exists i :: 0 <= i < |ids| && ids[i] > me && replies[i] == Peer(x)
  }

  /** An attempt succeeds exactly if there is another node to try, a peer answers, and one that is connected to gives the id it should have. */
  lemma AttemptSucceedsIff(me: nat, other: nat, sockets: Sockets, reply: Reply)
    ensures Connected(me, other, sockets, reply).0 <==> other != me && reply.Peer? && (other < me ==> reply.id == other)
    ensures Connected(me, other, sockets, reply).0 ==> Connected(me, other, sockets, reply).1 == sockets[reply.id := reply.id]
    ensures !Connected(me, other, sockets, reply).0 ==> sockets - {other} == Connected(me, other, sockets, reply).1 - {other}
  {
  }

  /**
   Whatever the network answers, a node that starts with no sockets ends up with a socket
   for exactly the lower ids that answered as themselves and the ids that came to it, each
   leading to that very node.
   */
  lemma {:induction false} EstablishedExactly(me: nat, ids: seq<nat>, replies: seq<Reply>)
    requires Ascending(ids) && |ids| == |replies|
    ensures var sockets := Established(me, ids, replies, map[]);
            && (forall x :: x in sockets <==> Reached(me, ids, replies, x) || Came(me, ids, replies, x))
            && forall x :: x in sockets ==> sockets[x] == x
    decreases |ids|
  {
    hide Reached, Came, Connected;
    if ids == [] {
      forall x ensures !Reached(me, ids, replies, x) && !Came(me, ids, replies, x) {
        NobodyTried(me, ids, replies, x);
      }
    } else {
      var last := |ids| - 1;
      var front, before := ids[..last], replies[..last];
      EstablishedExactly(me, front, before);
      if ids[last] < me {
        LowerFirst(me, ids, replies);
      }
      AttemptAdds(me, ids[last], Established(me, front, before, map[]), replies[last]);
      forall x ensures x in Established(me, ids, replies, map[]) <==> Reached(me, ids, replies, x) || Came(me, ids, replies, x) {
        ReachedLast(me, ids, replies, x);
      }
    }
  }

  lemma NobodyTried(me: nat, ids: seq<nat>, replies: seq<Reply>, x: nat)
    requires |ids| == |replies| == 0
    ensures !Reached(me, ids, replies, x) && !Came(me, ids, replies, x)
  {
  }

  /** An attempt at an id that is not connected yet adds at most the peer it meets. */
  lemma AttemptAdds(me: nat, other: nat, sockets: Sockets, reply: Reply)
    requires (forall x :: x in sockets ==> sockets[x] == x) && (other < me ==> other !in sockets)
    ensures var after := Connected(me, other, sockets, reply).1;
            && (forall x :: x in after ==> after[x] == x)
            && forall x: nat :: x in after <==> x in sockets || (other == x < me && reply == Peer(x)) || (other > me && reply == Peer(x))
  {
  }

  lemma ReachedLast(me: nat, ids: seq<nat>, replies: seq<Reply>, x: nat)
    requires |ids| == |replies| > 0
    ensures var last := |ids| - 1;
            && (Reached(me, ids, replies, x) <==> Reached(me, ids[..last], replies[..last], x) || (ids[last] == x < me && replies[last] == Peer(x)))
            && (Came(me, ids, replies, x) <==> Came(me, ids[..last], replies[..last], x) || (ids[last] > me && replies[last] == Peer(x)))
  {
    var last := |ids| - 1;
    var front, before := ids[..last], replies[..last];
    if Reached(me, front, before, x) {
      var i :| 0 <= i < last && front[i] == x < me && before[i] == Peer(x);
      assert ids[i] == x && replies[i] == Peer(x);
    }
    if Came(me, front, before, x) {
      var i :| 0 <= i < last && front[i] > me && before[i] == Peer(x);
      assert ids[i] > me && replies[i] == Peer(x);
    }
    if Reached(me, ids, replies, x) {
      var i :| 0 <= i < |ids| && ids[i] == x < me && replies[i] == Peer(x);
      assert i < last ==> front[i] == x && before[i] == Peer(x);
    }
    if Came(me, ids, replies, x) {
      var i :| 0 <= i < |ids| && ids[i] > me && replies[i] == Peer(x);
      assert i < last ==> front[i] > me && before[i] == Peer(x);
    }
  }

  /** While a node still tries lower ids it has met none of them twice, and nobody has come yet. */
  lemma LowerFirst(me: nat, ids: seq<nat>, replies: seq<Reply>)
    requires Ascending(ids) && |ids| == |replies| > 0 && ids[|ids| - 1] < me
    ensures var last := |ids| - 1;
            forall x :: !Came(me, ids[..last], replies[..last], x) && (Reached(me, ids[..last], replies[..last], x) ==> x != ids[last])
  {
  }

  function PeerIds(replies: seq<Reply>): (ids: seq<nat>)
    ensures |ids| == |replies| && forall i :: 0 <= i < |ids| && replies[i].Peer? ==> replies[i] == Peer(ids[i])
  {
    if replies == [] then []
    else PeerIds(replies[..|replies| - 1]) + [if replies[|replies| - 1].Peer? then replies[|replies| - 1].id else 0]
  }

  function Elements(s: seq<nat>): set<nat> {
    set x | x in s
  }

  lemma {:induction false} ElementCount(s: seq<nat>)
    requires forall i, j :: 0 <= i < j < |s| ==> s[i] != s[j]
    ensures |Elements(s)| == |s|
    decreases |s|
  {
    if s != [] {
      var front, x := s[..|s| - 1], s[|s| - 1];
      ElementCount(front);
      assert Elements(s) == Elements(front) + {x};
      assert x !in front;
    }
  }

  /** As many distinct callers as there are higher ids are all of them. */
  lemma EveryoneComes(higher: seq<nat>, callers: seq<nat>, x: nat)
    requires |callers| == |higher| && x in higher && forall i :: 0 <= i < |callers| ==> callers[i] in higher
    requires forall i, j :: 0 <= i < j < |higher| ==> higher[i] != higher[j] && callers[i] != callers[j]
    ensures x in callers
  {
    ElementCount(higher);
    ElementCount(callers);
    if x !in callers {
      assert x in Elements(higher) && x !in Elements(callers);
      SmallerSet(Elements(callers), Elements(higher));
    }
  }

  lemma HigherCome(me: nat, ids: seq<nat>, replies: seq<Reply>, m: nat, x: nat)
    requires Ascending(ids) && |ids| == |replies| && m < |ids| && ids[m] == me && x in ids[m + 1..]
    requires forall i :: m < i < |ids| ==> replies[i].Peer? && replies[i].id in ids[m + 1..]
    requires forall i, j :: m < i < j < |ids| ==> replies[i] != replies[j]
    ensures Came(me, ids, replies, x)
  {
    var higher := ids[m + 1..];
    var callers := PeerIds(replies[m + 1..]);
    forall i | 0 <= i < |higher| ensures callers[i] in higher && replies[m + 1 + i] == Peer(callers[i]) {
      assert replies[m + 1..][i] == Peer(callers[i]);
    }
    EveryoneComes(higher, callers, x);
    var i :| 0 <= i < |callers| && callers[i] == x;
    assert replies[m + 1 + i] == Peer(x) && ids[m + 1 + i] > me;
  }

  /** If every lower id answers as itself, and each of the higher ones comes once, a node has a socket for exactly the others. */
  lemma AllAnswerAllConnected(me: nat, ids: seq<nat>, replies: seq<Reply>, m: nat)
    requires Ascending(ids) && |ids| == |replies| && m < |ids| && ids[m] == me
    requires forall i :: 0 <= i < m ==> replies[i] == Peer(ids[i])
    requires forall i :: m < i < |ids| ==> replies[i].Peer? && replies[i].id in ids[m + 1..]
    requires forall i, j :: m < i < j < |ids| ==> replies[i] != replies[j]
    ensures forall x :: x in Established(me, ids, replies, map[]) <==> x in ids && x != me
  {
    hide Established, Reached, Came;
    EstablishedExactly(me, ids, replies);
    forall x ensures Reached(me, ids, replies, x) || Came(me, ids, replies, x) <==> x in ids && x != me {
      OthersConnect(me, ids, replies, m, x);
    }
  }

  lemma OthersConnect(me: nat, ids: seq<nat>, replies: seq<Reply>, m: nat, x: nat)
    requires Ascending(ids) && |ids| == |replies| && m < |ids| && ids[m] == me
    requires forall i :: 0 <= i < m ==> replies[i] == Peer(ids[i])
    requires forall i :: m < i < |ids| ==> replies[i].Peer? && replies[i].id in ids[m + 1..]
    requires forall i, j :: m < i < j < |ids| ==> replies[i] != replies[j]
    ensures Reached(me, ids, replies, x) || Came(me, ids, replies, x) <==> x in ids && x != me
  {
    hide Ascending, Reached, Came;
    if x in ids && x != me {
      var i :| 0 <= i < |ids| && ids[i] == x;
      SortedPlace(me, ids, m, i);
      if i > m {
        assert ids[m + 1..][i - m - 1] == x;
        HigherCome(me, ids, replies, m, x);
      } else {
        LowerReached(me, ids, replies, i);
      }
    }
    if Came(me, ids, replies, x) {
      var i := CallerOf(me, ids, replies, x);
      SortedPlace(me, ids, m, i);
      assert x in ids[m + 1..];
      var j :| 0 <= j < |ids[m + 1..]| && ids[m + 1..][j] == x;
      SortedPlace(me, ids, m, m + 1 + j);
    }
    if Reached(me, ids, replies, x) {
      ReachedListed(me, ids, replies, x);
    }
  }

  lemma SortedPlace(me: nat, ids: seq<nat>, m: nat, i: nat)
    requires Ascending(ids) && m < |ids| && ids[m] == me && i < |ids|
    ensures (i < m <==> ids[i] < me) && (i > m <==> ids[i] > me)
  {
  }

  lemma LowerReached(me: nat, ids: seq<nat>, replies: seq<Reply>, i: nat)
    requires |ids| == |replies| && i < |ids| && ids[i] < me && replies[i] == Peer(ids[i])
    ensures Reached(me, ids, replies, ids[i])
  {
  }

  lemma CallerOf(me: nat, ids: seq<nat>, replies: seq<Reply>, x: nat) returns (i: nat)
    requires |ids| == |replies| && Came(me, ids, replies, x)
    ensures i < |ids| && ids[i] > me && replies[i] == Peer(x)
  {
    i :| 0 <= i < |ids| && ids[i] > me && replies[i] == Peer(x);
  }

  lemma ReachedListed(me: nat, ids: seq<nat>, replies: seq<Reply>, x: nat)
    requires |ids| == |replies| && Reached(me, ids, replies, x)
    ensures x in ids && x < me
  {
  }

  // ---------------------------------------------------------------- all nodes together do what each does alone

  /** How far node a has got in the list of all ids, its own included. */
  function Place(at: seq<nat>, a: nat): nat
    requires a < |at|
  {
    if at[a] < a then at[a] else at[a] + 1
  }

  /** Node a has what its own loop over the ids would have given it, for some answers of the network. */
  ghost predicate AsAlone(ids: seq<nat>, S: State, a: nat)
    requires Shape(ids, S) && a < |ids|
  {
    && Place(S.at, a) <= |ids|
    && exists replies: seq<Reply> :: AsIf(ids, S, a, replies)
  }

  ghost predicate AsIf(ids: seq<nat>, S: State, a: nat, replies: seq<Reply>)
    requires Shape(ids, S) && a < |ids| && Place(S.at, a) <= |ids|
  {
    |replies| == Place(S.at, a) && Established(ids[a], ids[..Place(S.at, a)], replies, map[]) == S.sockets[a]
  }

  lemma EstablishedMore(me: nat, ids: seq<nat>, k: nat, replies: seq<Reply>, reply: Reply)
    requires k == |replies| < |ids|
    ensures Established(me, ids[..k + 1], replies + [reply], map[])
         == Connected(me, ids[k], Established(me, ids[..k], replies, map[]), reply).1
  {
    assert ids[..k + 1][..k] == ids[..k] && (replies + [reply])[..k] == replies;
  }

  lemma InitialAlone(ids: seq<nat>, a: nat)
    requires a < |ids|
    ensures AsAlone(ids, Initial(|ids|), a)
  {
    var S := Initial(|ids|);
    if a == 0 {
      EstablishedMore(ids[0], ids, 0, [], Down);
      assert ids[..0] == [] && [] + [Down] == [Down];
      assert AsIf(ids, S, a, [Down]);
    } else {
      assert ids[..0] == [];
      assert AsIf(ids, S, a, []);
    }
  }

  /** One more answer, and the node's own place passed over when it comes to it. */
  lemma AloneStep(ids: seq<nat>, S: State, S': State, a: nat, peer: nat)
    requires Shape(ids, S) && Shape(ids, S') && a < |ids| && AsAlone(ids, S, a) && S.at[a] < |ids| - 1
    requires S'.at[a] == S.at[a] + 1
    requires S'.sockets[a] == Connected(ids[a], ids[Other(a, S.at[a])], S.sockets[a], Peer(peer)).1
    ensures AsAlone(ids, S', a)
  {
    hide Connected;
    var replies :| AsIf(ids, S, a, replies);
    var k := Place(S.at, a);
    EstablishedMore(ids[a], ids, k, replies, Peer(peer));
    var more := replies + [Peer(peer)];
    if S'.at[a] == a {
      EstablishedMore(ids[a], ids, k + 1, more, Down);
      OwnPlace(ids[a], S'.sockets[a], Down);
      assert AsIf(ids, S', a, more + [Down]);
    } else {
      assert AsIf(ids, S', a, more);
    }
  }

  lemma OwnPlace(me: nat, sockets: Sockets, reply: Reply)
    ensures Connected(me, me, sockets, reply).1 == sockets
  {
  }

  lemma MeetAlone(ids: seq<nat>, S: State, a: nat, b: nat, p: nat)
    requires Shape(ids, S) && CanMeet(ids, S, a, b) && p < |ids| && AsAlone(ids, S, p)
    ensures AsAlone(ids, Meet(ids, S, a, b), p)
  {
    hide Connected, AsAlone;
    var S' := Meet(ids, S, a, b);
    if p == a {
      AloneStep(ids, S, S', p, ids[b]);
    } else if p == b {
      AloneStep(ids, S, S', p, ids[a]);
    } else {
      AloneSame(ids, S, S', p);
    }
  }

  lemma AloneSame(ids: seq<nat>, S: State, S': State, p: nat)
    requires Shape(ids, S) && Shape(ids, S') && p < |ids| && AsAlone(ids, S, p)
    requires S'.at[p] == S.at[p] && S'.sockets[p] == S.sockets[p]
    ensures AsAlone(ids, S', p)
  {
    hide Established;
    var replies :| AsIf(ids, S, p, replies);
    assert AsIf(ids, S', p, replies);
  }

  lemma {:induction false} RunAlone(ids: seq<nat>, run: seq<State>, meets: seq<(nat, nat)>, k: nat, a: nat)
    requires IsRun(ids, run, meets) && k < |run| && a < |ids|
    ensures AsAlone(ids, run[k], a)
    decreases k
  {
    hide AsAlone, CanMeet, Meet, Initial;
    if k == 0 {
      InitialAlone(ids, a);
    } else {
      RunAlone(ids, run, meets, k - 1, a);
      MeetAlone(ids, run[k - 1], meets[k - 1].0, meets[k - 1].1, a);
    }
  }

  /**
   When the mesh is set up, each node's sockets are those its own loop over the ids makes
   of what the network has answered it.
   */
  lemma MeshIsEveryLoop(ids: seq<nat>, run: seq<State>, meets: seq<(nat, nat)>, k: nat, a: nat)
    requires IsRun(ids, run, meets) && k < |run| && a < |ids| && Done(ids, run[k])
    ensures exists replies :: |replies| == |ids| && Established(ids[a], ids, replies, map[]) == run[k].sockets[a]
  {
    hide Established, CanMeet, Meet, Initial;
    RunAlone(ids, run, meets, k, a);
    var replies :| AsIf(ids, run[k], a, replies);
    assert ids[..|ids|] == ids;
  }
}
