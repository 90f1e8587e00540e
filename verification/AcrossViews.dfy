/**
 A client's messages at the other members, over one change of view and over a chain of them:
 exactly when each is delivered once and in order, and what happens otherwise.
 */
module AcrossViews {
  import opened Collections
  import opened Numbering
  import opened SharedTable
  import opened Messages
  import opened GroupSpec
  import opened MemberInvariant
  import opened MemberSteps
  import opened Multicast
  import opened MulticastInv
  import opened MulticastRuns
  import opened Delivery
  import opened OwnStream

  // ---------------------------------------------------------------- what one member delivers of another's messages

  /** The messages of sender s that member k has delivered. */
  function From(S: System, s: nat, k: nat): seq<Message>
    requires k < |S.nodes|
  {
    OwnMessages(s, S.nodes[k].log)
  }

  lemma SenderTurns(c: Config, S: System, s: nat, k: nat)
    requires Inv(c, S) && s < c.n && k < c.n
    ensures WellShaped(c, S) && -1 <= OwnRow(c, S, k).nReceived[s] < |Expand(S.sent[s])|
    ensures S.got[k][s] <= |S.sent[s]| && OwnRow(c, S, k).nReceived[s] + 1 == |Expand(S.sent[s][..S.got[k][s]])|
    ensures forall p :: Received(OwnRow(c, S, k).nReceived, p) ==> Slot(c.n, S.sent, p).sender == SenderOf(c.n, p)
    ensures Indexed(s, S.sent[s])
  {
    hide WindowsOk, TableInv, Shape, View, TransitOk, RowOk, CurrentOk, Received, Slot, LogOk, FiledOk, Expand, Indexed, StreamOk;
    assert MemberInv(c.n, k, S.nodes[k], OwnRow(c, S, k), S.sent, S.got[k], S.busy[k]);
    RowOkShape(c.n, OwnRow(c, S, k));
    ExpandPrefix(S.sent[s], S.got[k][s]);
    forall p | Received(OwnRow(c, S, k).nReceived, p) ensures Slot(c.n, S.sent, p).sender == SenderOf(c.n, p) {
      SlotNumber(c, S, k, p);
    }
    assert StreamOk(s, S.nodes[s], S.sent[s], S.accepted[s]);
    SentIndexed(s, S.nodes[s], S.sent[s], S.accepted[s]);
  }

  /** Of the numbers up to the end of the trim, a member has received the first turns of sender s, up to its capped count. */
  lemma TurnsCapped(v: seq<int>, g: seq<int>, s: nat)
    requires |v| == |g| > 0 && s < |v| && v[s] >= -1 && EndOfTrim(|g|, g) >= -1
    ensures TurnsUpto(v, s, EndOfTrim(|g|, g)) == Capped(v, g, s) + 1
  {
    hide TurnsUpto, SeqNo, TrimEnd, IndexOf;
    var end, c := EndOfTrim(|g|, g), Capped(v, g, s);
    EndOfTrimCap(|g|, end, s);
    CapBound(|g|, s, c + 1, end);
    TurnsAreFirst(v, s, end, c + 1);
    if c >= 0 {
      CapBound(|g|, s, c, end);
      TurnsAreFirst(v, s, end, c);
    }
  }

  /** After cleanup k has delivered of s's messages those in the first turns of s's stream, as its capped count says. */
  lemma CleanedFrom(c: Config, S: System, s: nat, k: nat)
    requires Inv(c, S) && s < c.n && k < c.n && OwnRow(c, S, k).globalMinReady
    ensures WellShaped(c, S)
    ensures var t := Capped(OwnRow(c, S, k).nReceived, OwnRow(c, S, k).globalMin, s) + 1;
            0 <= t <= |Expand(S.sent[s])| && From(S, s, k) == OwnMessages(s, Expand(S.sent[s])[..t])
  {
    hide Inv, Shape, View, Slots, ReceivedUpto, Received, Slot, OwnMessages, Expand, TurnsUpto, Capped, TrimEnd, Indexed, SenderOf;
    InvShape(c, S);
    SenderTurns(c, S, s, k);
    CleanedLog(c, S, k);
    LogIsSlots(c, S, k);
    DeliveredLow(c.n, OwnRow(c, S, k));
    var v, g := OwnRow(c, S, k).nReceived, OwnRow(c, S, k).globalMin;
    TurnsCapped(v, g, s);
    OwnUpto(c.n, v, S.sent, s, EndOfTrim(c.n, g));
  }

  /** A count that stops short stops before one of the sender's messages, not among the turns it skips. */
  lemma ShortOfMessage(s: nat, ms: seq<Message>, a: nat, t: nat)
    requires Indexed(s, ms) && a <= |ms| && |Expand(ms[..a])| < t <= |Expand(ms)|
    ensures OwnMessages(s, Expand(ms)[..|Expand(ms[..a])|]) == ms[..a] && a < |ms|
    ensures ms[..a + 1] <= OwnMessages(s, Expand(ms)[..t])
  {
    hide Indexed, Expand, OwnMessages;
    var turns := Expand(ms);
    ExpandPrefix(ms, a);
    assert ms[..|ms|] == ms;
    assert turns[..|Expand(ms[..a])|] == Expand(ms[..a]);
    IndexedPrefix(s, ms, a);
    OwnInExpand(s, ms[..a]);
    ExpandAt(ms, a);
    HeadOfTurn(ms[a]);
    var p := |Expand(ms[..a])|;
    assert turns[p] == ms[a];
    assert turns[..t] == (turns[..p] + [ms[a]]) + turns[p + 1..t];
    IndexedHere(s, ms, a);
    OwnSingle(s, ms[a]);
    OwnMessagesConcat(s, turns[..p], [ms[a]]);
    OwnMessagesConcat(s, turns[..p] + [ms[a]], turns[p + 1..t]);
    assert ms[..a] + [ms[a]] == ms[..a + 1];
  }

  lemma HeadOfTurn(m: Message)
    ensures |Turn(m)| > 0 && Turn(m)[0] == m
  {
    TurnAt(m, 0);
  }

  lemma IndexedHere(s: nat, ms: seq<Message>, k: nat)
    requires Indexed(s, ms) && k < |ms|
    ensures ms[k].size > 0 && ms[k].sender == s
  {
    hide Expand;
  }

  lemma ShorterFrom(c: Config, S: System, s: nat, j: nat, k: nat)
    requires Inv(c, S) && s < c.n && j < c.n && k < c.n && WellShaped(c, S)
    requires OwnRow(c, S, j).globalMinReady && OwnRow(c, S, k).globalMinReady
    requires OwnRow(c, S, j).globalMin == OwnRow(c, S, k).globalMin
    requires Capped(OwnRow(c, S, j).nReceived, OwnRow(c, S, j).globalMin, s)
           < Capped(OwnRow(c, S, k).nReceived, OwnRow(c, S, j).globalMin, s)
    ensures From(S, s, j) < From(S, s, k)
  {
    hide Inv, Shape, View, OwnMessages, Expand, Indexed, Received, Slot, TrimEnd, IndexOf;
    CleanedFrom(c, S, s, j);
    CleanedFrom(c, S, s, k);
    SenderTurns(c, S, s, j);
    var a := S.got[j][s];
    var t := Capped(OwnRow(c, S, k).nReceived, OwnRow(c, S, j).globalMin, s) + 1;
    assert Capped(OwnRow(c, S, j).nReceived, OwnRow(c, S, j).globalMin, s) == OwnRow(c, S, j).nReceived[s];
    ShortOfMessage(s, S.sent[s], a, t);
    assert From(S, s, j) == S.sent[s][..a] && S.sent[s][..a] < S.sent[s][..a + 1];
  }

  /**
   One change of view, exactly.  Take a sender s and a member k that have both cleaned up
   with the same trim.  What k has delivered of s's messages, followed by what s will send
   again in the next view, is everything s's client has sent, in order, if and only if k and
   s have received equally many of s's turns up to the end of the trim.  If k has received
   fewer, k misses what s alone delivered, for good; if more, k has delivered messages that
   s will send it a second time.
   */
  lemma CarriedExactlyIff(c: Config, S: System, s: nat, k: nat)
    requires Inv(c, S) && s < c.n && k < c.n && WellShaped(c, S)
    requires OwnRow(c, S, s).globalMinReady && OwnRow(c, S, k).globalMinReady
    requires OwnRow(c, S, s).globalMin == OwnRow(c, S, k).globalMin
    ensures var g := OwnRow(c, S, s).globalMin;
            var here, there := Capped(OwnRow(c, S, s).nReceived, g, s), Capped(OwnRow(c, S, k).nReceived, g, s);
            && (From(S, s, k) + Unsent(S.nodes[s], s) == S.accepted[s] <==> there == here)
            && (there < here ==> From(S, s, k) < From(S, s, s))
            && (there > here ==> From(S, s, s) < From(S, s, k) <= S.accepted[s])
  {
    hide Inv, Shape, View, OwnMessages, Expand, Indexed, Unsent, Capped;
    OwnStreamConserved(c, S, s);
    CleanedFrom(c, S, s, s);
    CleanedFrom(c, S, s, k);
    var g := OwnRow(c, S, s).globalMin;
    var here, there := Capped(OwnRow(c, S, s).nReceived, g, s), Capped(OwnRow(c, S, k).nReceived, g, s);
    assert |From(S, s, s)| + |Unsent(S.nodes[s], s)| == |S.accepted[s]|;
    if there < here {
      ShorterFrom(c, S, s, k, s);
    } else if there > here {
      ShorterFrom(c, S, s, s, k);
      FromAccepted(c, S, s, k);
    }
  }

  /** Whatever any member has delivered of s's messages, at any time, is the first of what s's client has sent. */
  lemma FromAccepted(c: Config, S: System, s: nat, k: nat)
    requires Inv(c, S) && s < c.n && k < c.n && WellShaped(c, S)
    ensures From(S, s, k) <= S.sent[s] <= S.accepted[s]
  {
    hide WindowsOk, MembersOk, TableInv, Shape, View, OwnMessages, Expand, Indexed, Received, Slot, Slots, ReceivedUpto, Top, RowOk, TurnsUpto;
    SenderTurns(c, S, s, k);
    LogIsSlots(c, S, k);
    TopLow(c.n, OwnRow(c, S, k));
    var v, turns := OwnRow(c, S, k).nReceived, Expand(S.sent[s]);
    var t := TurnsUpto(v, s, Top(c.n, OwnRow(c, S, k)));
    OwnUpto(c.n, v, S.sent, s, Top(c.n, OwnRow(c, S, k)));
    OwnInExpand(s, S.sent[s]);
    OwnMessagesConcat(s, turns[..t], turns[t..]);
    assert turns == turns[..t] + turns[t..];
    assert StreamOk(s, S.nodes[s], S.sent[s], S.accepted[s]);
  }

  // ---------------------------------------------------------------- a chain of views

  /** One view of a chain: a run of it, and the ranks of the sender and of the receiver that are followed. */
  datatype Stage = Stage(c: Config, run: seq<System>, steps: seq<Step>, s: nat, k: nat)

  ghost predicate StageOk(v: Stage) {
    IsRun(v.c, v.run, v.steps) && v.s < v.c.n && v.k < v.c.n
  }

  ghost function End(v: Stage): System
    requires StageOk(v)
  {
    v.run[|v.steps|]
  }

  /** Each view of the sender's starts with the engine that took over from the one before. */
  ghost predicate Chain(stages: seq<Stage>) {
    && AllOk(stages)
    && forall i {:trigger stages[i]} :: 0 < i < |stages| ==> Follows(stages[i - 1], stages[i])
  }

  ghost predicate AllOk(stages: seq<Stage>) {
    forall i :: 0 <= i < |stages| ==> StageOk(stages[i])
  }

  ghost predicate Follows(v: Stage, w: Stage) {
    && StageOk(v) && StageOk(w)
    && exists created :: w.run[0].nodes[w.s] == NextEngine(w.c, w.s, End(v).nodes[v.s], v.s, created)
  }

  /** At the end of the view both have cleaned up with one trim, and have received equally many of the sender's turns within it. */
  ghost predicate EvenEnd(v: Stage)
    requires StageOk(v) && Inv(v.c, End(v))
  {
    var S := End(v);
    InvShape(v.c, S);
    && OwnRow(v.c, S, v.s).globalMinReady && OwnRow(v.c, S, v.k).globalMinReady
    && OwnRow(v.c, S, v.s).globalMin == OwnRow(v.c, S, v.k).globalMin
    && Capped(OwnRow(v.c, S, v.s).nReceived, OwnRow(v.c, S, v.s).globalMin, v.s)
       == Capped(OwnRow(v.c, S, v.k).nReceived, OwnRow(v.c, S, v.s).globalMin, v.s)
  }

  /** The messages as the client made them, without the numbers a view gives them. */
  function Said(ms: seq<Message>): seq<Message> {
    seq(|ms|, i requires 0 <= i < |ms| => ms[i].(sender := 0, index := 0))
  }

  lemma SaidConcat(a: seq<Message>, b: seq<Message>)
    ensures Said(a + b) == Said(a) + Said(b)
  {
  }

  lemma StageInv(v: Stage)
    requires StageOk(v)
    ensures v.run != [] && Inv(v.c, End(v)) && WellShaped(v.c, End(v)) && WellShaped(v.c, v.run[0])
    ensures v.s < |v.run[0].accepted| == |v.run[0].nodes| && v.s < |End(v).accepted| == |End(v).nodes| && v.k < |End(v).nodes|
    ensures v.run[0].accepted[v.s] == v.run[0].nodes[v.s].pendingSends <= End(v).accepted[v.s]
  {
    hide Inv, WellShaped, InitialMember, RunStep;
    RunInv(v.c, v.run, v.steps, |v.steps|);
    RunLater(v.c, v.run, v.steps, 0, |v.steps|);
    StageShapes(v);
  }

  lemma StageShapes(v: Stage)
    requires StageOk(v) && WellShaped(v.c, v.run[0]) && WellShaped(v.c, End(v)) && Later(v.c, v.run[0], End(v))
    ensures v.s < |v.run[0].accepted| == |v.run[0].nodes| && v.s < |End(v).accepted| == |End(v).nodes| && v.k < |End(v).nodes|
    ensures v.run[0].accepted[v.s] == v.run[0].nodes[v.s].pendingSends <= End(v).accepted[v.s]
  {
    hide InitialMember, RunStep, Shape, View;
  }

  /** What the sender's client asks to send in this view, after what it carries over. */
  ghost function Fresh(v: Stage): seq<Message>
    requires StageOk(v)
  {
    StageInv(v);
    End(v).accepted[v.s][|v.run[0].accepted[v.s]|..]
  }

  /** All that is queued or sent of the sender's own in this view. */
  ghost function Queued(v: Stage): seq<Message>
    requires StageOk(v)
  {
    StageInv(v);
    End(v).accepted[v.s]
  }

  /** What the receiver delivers of the sender's in this view. */
  ghost function GivenIn(v: Stage): seq<Message>
    requires StageOk(v)
  {
    StageInv(v);
    From(End(v), v.s, v.k)
  }

  /** All the client has asked to send, from the queue of the first view on. */
  ghost function Wanted(stages: seq<Stage>): seq<Message>
    requires AllOk(stages) && stages != []
    decreases |stages|
  {
    var last := |stages| - 1;
    if last == 0 then Said(Queued(stages[0])) else Wanted(stages[..last]) + Said(Fresh(stages[last]))
  }

  /** All the receiver has delivered of it, view by view. */
  ghost function Given(stages: seq<Stage>): seq<Message>
    requires AllOk(stages)
    decreases |stages|
  {
    if stages == [] then [] else Given(stages[..|stages| - 1]) + Said(GivenIn(stages[|stages| - 1]))
  }

  lemma SaidReindex(rank: nat, ms: seq<Message>)
    requires forall m :: m in ms ==> m.size > 0
    ensures Said(Reindex(rank, 0, ms)) == Said(ms)
  {
    ReindexIndexed(rank, ms);
  }

  /** The next view starts with what was left unsent. */
  lemma StartsWithUnsent(v: Stage, w: Stage)
    requires Follows(v, w)
    ensures Inv(v.c, End(v)) && WellShaped(w.c, w.run[0]) && v.s < |End(v).nodes|
    ensures Said(w.run[0].accepted[w.s]) == Said(Unsent(End(v).nodes[v.s], v.s))
  {
    hide Inv, StageOk, Unsent, Reindex, IndexAfter, WellShaped;
    StageInv(v);
    StageInv(w);
    InvShape(v.c, End(v));
    StageNodes(v);
    CarriedContent(v.c, End(v), v.s);
    SaidReindex(w.s, Unsent(End(v).nodes[v.s], v.s));
  }

  lemma StageNodes(v: Stage)
    requires StageOk(v) && WellShaped(v.c, End(v))
    ensures v.s < |End(v).nodes| == |End(v).accepted| == v.c.n && v.k < v.c.n
  {
    hide IsRun;
  }

  lemma StageEven(v: Stage)
    requires StageOk(v) && Inv(v.c, End(v)) && EvenEnd(v)
    ensures v.s < |End(v).nodes| == |End(v).accepted| && v.k < |End(v).nodes|
    ensures From(End(v), v.s, v.k) + Unsent(End(v).nodes[v.s], v.s) == End(v).accepted[v.s]
  {
    hide IsRun, Inv, Capped, Unsent, OwnMessages, Shape, View;
    InvShape(v.c, End(v));
    CarriedExactlyIff(v.c, End(v), v.s, v.k);
  }

  /**
   Over any chain of views that both survive, if at the end of each the receiver has as many
   of the sender's turns within the trim as the sender has, then what it has delivered of
   the sender's messages, and what the sender still owes, is all that the sender's client
   has ever sent: each message once, in order, none missing, whatever view it went out in.
   */
  lemma {:induction false} ChainDelivers(stages: seq<Stage>)
    requires Chain(stages) && stages != []
    requires forall i :: 0 <= i < |stages| ==> Inv(stages[i].c, End(stages[i])) && EvenEnd(stages[i])
    ensures var v := stages[|stages| - 1];
            v.s < |End(v).nodes| && Given(stages) + Said(Unsent(End(v).nodes[v.s], v.s)) == Wanted(stages)
    decreases |stages|
  {
    hide Inv, StageOk, Unsent, From, EvenEnd, Said, WellShaped, Follows;
    var last := |stages| - 1;
    var v := stages[last];
    StageInv(v);
    StageEven(v);
    SaidConcat(From(End(v), v.s, v.k), Unsent(End(v).nodes[v.s], v.s));
    var front := stages[..last];
    if last == 0 {
      assert Given(front) == [];
    } else {
      assert Chain(front);
      ChainDelivers(front);
      var u := stages[last - 1];
      assert u == front[|front| - 1];
      StartsWithUnsent(u, v);
      var carried := v.run[0].accepted[v.s];
      assert Queued(v) == carried + Fresh(v);
      SaidConcat(carried, Fresh(v));
      var given, now, rest := Given(front), Said(From(End(v), v.s, v.k)), Said(Unsent(End(v).nodes[v.s], v.s));
      assert (given + now) + rest == given + (now + rest);
      assert Wanted(stages) == (given + Said(carried)) + Said(Fresh(v));
      assert given + (Said(carried) + Said(Fresh(v))) == (given + Said(carried)) + Said(Fresh(v));
    }
  }
}
