/**
 What a client said is what the group hears.  A client's calls are kept as two lists of
 their own, the positions it was granted and the payloads it sent; its messages, wherever
 they are, are the first with the second written into them.
 */
module ClientWords {
  import opened Collections
  import opened Numbering
  import opened SharedTable
  import opened Messages
  import opened GroupSpec
  import opened MemberInvariant
  import opened MemberSteps
  import opened Multicast
  import opened MulticastInv
  import opened Buffers
  import opened MulticastRuns
  import opened Delivery
  import opened OwnStream
  import opened AcrossViews

  // ---------------------------------------------------------------- what a client says

  /** What a position is for: the size of the whole message, the turns to skip after it, and the kind of send. */
  datatype Ask = Ask(size: nat, pause: nat, cooked: bool)

  /** A message without the number a view gives it. */
  datatype Word = Word(ask: Ask, payload: seq<byte>)

  function AskOf(m: Message): Ask {
    Ask(m.size, m.body.pause, m.body.cooked)
  }

  function WordOf(m: Message): Word {
    Word(AskOf(m), m.body.payload)
  }

  function Words(ms: seq<Message>): (w: seq<Word>)
    ensures |w| == |ms|
  {
    seq(|ms|, i requires 0 <= i < |ms| => WordOf(ms[i]))
  }

  /** The positions granted to member j's client: 9 bytes are added for the header, and 0 asks for the largest message. */
  function Asks(maxMsgSize: nat, j: nat, steps: seq<Step>): seq<Ask> {
    if steps == [] then []
    else
      Asks(maxMsgSize, j, steps[..|steps| - 1]) +
      match steps[|steps| - 1]
      case AskPosition(i, size, pause, cooked) =>
        if i == j then [Ask(if size == 0 then maxMsgSize else size + 9, pause, cooked)] else []
      case _ => []
  }

  /** The payloads member j's client has sent. */
  function Payloads(j: nat, steps: seq<Step>): seq<seq<byte>> {
    if steps == [] then []
    else
      Payloads(j, steps[..|steps| - 1]) +
      match steps[|steps| - 1]
      case ClientSend(i, payload) => if i == j then [payload] else []
      case _ => []
  }

  /** Each payload written into the position granted for it; a last position may be waiting for its payload. */
  function Spoken(asks: seq<Ask>, payloads: seq<seq<byte>>): seq<Word>
    requires |payloads| <= |asks|
  {
    seq(|payloads|, i requires 0 <= i < |payloads| => Word(asks[i], payloads[i]))
  }

  lemma WordsConcat(a: seq<Message>, b: seq<Message>)
    ensures Words(a + b) == Words(a) + Words(b)
  {
  }

  lemma AsksStep(maxMsgSize: nat, j: nat, steps: seq<Step>, k: nat)
    requires k < |steps|
    ensures Asks(maxMsgSize, j, steps[..k + 1]) == Asks(maxMsgSize, j, steps[..k]) + Asks(maxMsgSize, j, [steps[k]])
    ensures Payloads(j, steps[..k + 1]) == Payloads(j, steps[..k]) + Payloads(j, [steps[k]])
  {
    assert steps[..k + 1][..k] == steps[..k];
    assert [steps[k]][..0] == [];
  }

  // ---------------------------------------------------------------- one step

  /** What the client has been granted and has not sent yet. */
  function InHand(x: Node): seq<Ask> {
    match x.nextSend
    case None => []
    case Some(m) => [AskOf(m)]
  }

  lemma {:induction false} DeliverRangeHeld(x: Node, lo: int, hi: int)
    ensures DeliverRange(x, lo, hi).nextSend == x.nextSend
    decreases hi - lo
  {
    if lo <= hi {
      DeliverRangeHeld(if lo in x.locallyStable then DeliverNo(x, lo) else x, lo + 1, hi);
    }
  }

  /** Only the client's own calls touch what it has said. */
  lemma OthersSayNothing(c: Config, S: System, step: Step, j: nat)
    requires WellShaped(c, S) && Offered(c, S, step) && AssertsHold(c, S, step) && j < c.n
    requires WellShaped(c, Next(c, S, step))
    requires !((step.AskPosition? || step.ClientSend?) && step.j == j)
    ensures Next(c, S, step).accepted[j] == S.accepted[j] && Next(c, S, step).nodes[j].nextSend == S.nodes[j].nextSend
  {
    hide Shape, View, CanReceive, CanGetPosition, ShouldSend, CanDeliver, Publish, HandOver, DeliverRange, TrimEnd, FileSkips,
         LeaderTrim, GetPosition;
    if step.LeaderCleanup? || step.FollowerCleanup? {
      var x, row := S.nodes[step.j], OwnRow(c, S, step.j);
      var g := if step.LeaderCleanup? then LeaderTrim(c.n, TableOf(c, S, step.j))
               else TableOf(c, S, step.j)[step.leader].globalMin;
      DeliverRangeHeld(x, row.deliveredNum, TrimEnd(c.n, row.deliveredNum, g));
    }
  }

  /** A position that is granted is the one the client asked for. */
  lemma AskGranted(c: Config, S: System, step: Step)
    requires WellShaped(c, S) && Offered(c, S, step) && step.AskPosition?
    ensures AssertsHold(c, S, step) && step.j < c.n && InHand(S.nodes[step.j]) == []
    ensures var S' := Next(c, S, step);
            && |S'.accepted| == |S'.nodes| == c.n && S'.accepted == S.accepted
            && InHand(S'.nodes[step.j]) == Asks(c.maxMsgSize, step.j, [step])
  {
    hide Shape, View, WindowOpen;
    assert [step][..0] == [];
  }

  /** A message that is sent is the position granted last, with the client's payload in it. */
  lemma SendSaid(c: Config, S: System, step: Step)
    requires WellShaped(c, S) && Offered(c, S, step) && step.ClientSend?
    ensures AssertsHold(c, S, step) && step.j < c.n && |InHand(S.nodes[step.j])| == 1
    ensures var S', j := Next(c, S, step), step.j;
            && |S'.accepted| == |S'.nodes| == c.n && InHand(S'.nodes[j]) == []
            && Words(S'.accepted[j]) == Words(S.accepted[j]) + [Word(InHand(S.nodes[j])[0], step.payload)]
            && S.accepted[j] <= S'.accepted[j] && |S'.accepted[j]| == |S.accepted[j]| + 1
  {
    hide Shape, View, WindowOpen;
  }

  // ---------------------------------------------------------------- every run

  /** All positions the client has had in the run, the one it came with first. */
  function AllAsks(c: Config, j: nat, start: System, steps: seq<Step>): seq<Ask>
    requires j < |start.nodes|
  {
    InHand(start.nodes[j]) + Asks(c.maxMsgSize, j, steps)
  }

  /** All that the client has said: what it came with, then what it has sent. */
  function Speech(c: Config, j: nat, start: System, steps: seq<Step>): seq<Word>
    requires j < |start.nodes| && |Payloads(j, steps)| <= |AllAsks(c, j, start, steps)|
  {
    Words(start.nodes[j].pendingSends) + Spoken(AllAsks(c, j, start, steps), Payloads(j, steps))
  }

  /** The messages accepted from member j's client say what the client said, and what it holds it was granted last. */
  ghost predicate Heeded(c: Config, start: System, steps: seq<Step>, S: System, j: nat) {
    && j < |S.accepted| && j < |S.nodes| && j < |start.nodes|
    && |Payloads(j, steps)| <= |AllAsks(c, j, start, steps)|
    && AllAsks(c, j, start, steps)[|Payloads(j, steps)|..] == InHand(S.nodes[j])
    && Words(S.accepted[j]) == Speech(c, j, start, steps)
  }

  lemma SpokenMore(asks: seq<Ask>, payloads: seq<seq<byte>>, a: seq<Ask>, p: seq<seq<byte>>)
    requires |payloads| <= |asks| && |payloads| + |p| <= |asks| + |a|
    ensures |p| == 0 ==> Spoken(asks + a, payloads + p) == Spoken(asks, payloads)
    ensures |p| == 1 && a == [] ==> Spoken(asks + a, payloads + p) == Spoken(asks, payloads) + [Word(asks[|payloads|], p[0])]
  {
  }

  lemma HeededStep(c: Config, start: System, steps: seq<Step>, k: nat, S: System, j: nat)
    requires WellShaped(c, S) && k < |steps| && Offered(c, S, steps[k]) && AssertsHold(c, S, steps[k]) && WellShaped(c, Next(c, S, steps[k]))
    requires j < c.n && Heeded(c, start, steps[..k], S, j)
    ensures Heeded(c, start, steps[..k + 1], Next(c, S, steps[k]), j)
  {
    hide Offered, AssertsHold, Next, Shape, Asks, Payloads, Words, Spoken;
    var step, S' := steps[k], Next(c, S, steps[k]);
    AsksStep(c.maxMsgSize, j, steps, k);
    var asks, payloads := AllAsks(c, j, start, steps[..k]), Payloads(j, steps[..k]);
    var a, p := Asks(c.maxMsgSize, j, [step]), Payloads(j, [step]);
    SilentStep(c.maxMsgSize, j, step);
    assert AllAsks(c, j, start, steps[..k + 1]) == asks + a;
    if step.AskPosition? && step.j == j {
      AskGranted(c, S, step);
    } else if step.ClientSend? && step.j == j {
      SendSaid(c, S, step);
      assert asks[|payloads|] == InHand(S.nodes[j])[0];
    } else {
      OthersSayNothing(c, S, step, j);
    }
    SpokenMore(asks, payloads, a, p);
    assert (asks + a)[|payloads + p|..] == InHand(S'.nodes[j]);
    var carried, said := Words(start.nodes[j].pendingSends), Spoken(asks, payloads);
    if p != [] {
      assert carried + (said + [Word(asks[|payloads|], p[0])]) == (carried + said) + [Word(asks[|payloads|], p[0])];
    }
  }

  lemma SilentStep(maxMsgSize: nat, j: nat, step: Step)
    ensures !(step.AskPosition? && step.j == j) ==> Asks(maxMsgSize, j, [step]) == []
    ensures step.AskPosition? && step.j == j ==> |Asks(maxMsgSize, j, [step])| == 1
    ensures Payloads(j, [step]) == if step.ClientSend? && step.j == j then [step.payload] else []
  {
    assert [step][..0] == [];
  }

  lemma HeededStart(c: Config, S: System, j: nat)
    requires Init(c, S) && j < c.n
    ensures Heeded(c, S, [], S, j)
  {
    hide InitialMember, InitialTable;
    assert Spoken(AllAsks(c, j, S, []), []) == [];
  }

  /** In every run the messages of a client say, in order, what it has said. */
  lemma {:induction false} RunHeeded(c: Config, run: seq<System>, steps: seq<Step>, k: nat, j: nat)
    requires IsRun(c, run, steps) && k < |run| && j < c.n
    ensures Heeded(c, run[0], steps[..k], run[k], j)
    decreases k
  {
    hide Inv, Init, WellShaped, Offered, AssertsHold, Next, Heeded;
    if k == 0 {
      assert steps[..0] == [];
      HeededStart(c, run[0], j);
    } else {
      RunHeeded(c, run, steps, k - 1, j);
      RunInv(c, run, steps, k - 1);
      HeededStep(c, run[0], steps, k - 1, run[k - 1], j);
    }
  }

  /** Indices in the stream follow the turns the client asked to skip. */
  lemma SkipsAsAsked(c: Config, S: System, j: nat, i: nat)
    requires Inv(c, S) && j < c.n && i + 1 < |S.accepted[j]|
    ensures S.accepted[j][i + 1].index == S.accepted[j][i].index + 1 + Words(S.accepted[j])[i].ask.pause
  {
    hide MembersOk, WindowsOk, TableInv, Shape, View, Indexed;
    assert StreamOk(j, S.nodes[j], S.sent[j], S.accepted[j]);
    StreamStep(j, Stream(S, j), i);
  }

  /**
   What is said is what is heard.  At any moment of any run, the messages any member k has
   delivered of member j's are the first of those j's client has had accepted, and j's own
   deliveries with what it still owes are all of them.  What they say, size, turns to skip,
   kind and payload, is exactly what the client said in its calls, in order; and each has
   an index as much higher than the one before as the client asked for turns to be skipped.
   */
  lemma SaidIsHeard(c: Config, run: seq<System>, steps: seq<Step>, a: nat, j: nat, k: nat)
    requires IsRun(c, run, steps) && a < |run| && j < c.n && k < c.n
    ensures WellShaped(c, run[a]) && j < |run[0].nodes|
    ensures From(run[a], j, k) <= run[a].accepted[j]
    ensures From(run[a], j, j) + Unsent(run[a].nodes[j], j) == run[a].accepted[j]
    ensures |Payloads(j, steps[..a])| <= |AllAsks(c, j, run[0], steps[..a])|
    ensures Words(run[a].accepted[j]) == Speech(c, j, run[0], steps[..a])
    ensures forall i :: 0 <= i < |run[a].accepted[j]| - 1 ==>
              run[a].accepted[j][i + 1].index == run[a].accepted[j][i].index + 1 + Speech(c, j, run[0], steps[..a])[i].ask.pause
  {
    hide Inv, Shape, View, Unsent, OwnMessages, Speech, Words, IsRun;
    IsRunLength(c, run, steps);
    RunInv(c, run, steps, a);
    InvShape(c, run[a]);
    RunHeeded(c, run, steps, a, j);
    FromAccepted(c, run[a], j, k);
    OwnStreamConserved(c, run[a], j);
    forall i | 0 <= i < |run[a].accepted[j]| - 1
      ensures run[a].accepted[j][i + 1].index == run[a].accepted[j][i].index + 1 + Speech(c, j, run[0], steps[..a])[i].ask.pause
    {
      SkipsAsAsked(c, run[a], j, i);
    }
  }

  // ---------------------------------------------------------------- a chain of views

  /** The positions granted in all the views, and the payloads sent in them. */
  ghost function ChainAsks(stages: seq<Stage>): seq<Ask> {
    if stages == [] then []
    else
      var v := stages[|stages| - 1];
      ChainAsks(stages[..|stages| - 1]) + Asks(v.c.maxMsgSize, v.s, v.steps)
  }

  ghost function ChainPayloads(stages: seq<Stage>): seq<seq<byte>> {
    if stages == [] then []
    else
      var v := stages[|stages| - 1];
      ChainPayloads(stages[..|stages| - 1]) + Payloads(v.s, v.steps)
  }

  /** Renumbered for the next view, a message says the same. */
  lemma HeldAcross(v: Stage, w: Stage)
    requires Follows(v, w)
    ensures v.s < |End(v).nodes| && w.run != [] && w.s < |w.run[0].nodes| && InHand(w.run[0].nodes[w.s]) == InHand(End(v).nodes[v.s])
  {
    hide Inv, Unsent, Reindex, IndexAfter, WellShaped, IsRun, OthersCount;
    StageInv(v);
    StageInv(w);
    var x := End(v).nodes[v.s];
    if x.nextSend.Some? {
      ReindexOne(w.s, IndexAfter(0, Unsent(x, v.s)), x.nextSend.value);
    }
  }

  lemma SaidSame(ms: seq<Message>)
    ensures Words(Said(ms)) == Words(ms)
  {
  }

  lemma StageHeeded(v: Stage)
    requires StageOk(v)
    ensures v.run != [] && Heeded(v.c, v.run[0], v.steps, End(v), v.s)
  {
    hide Heeded;
    assert v.steps[..|v.steps|] == v.steps;
    RunHeeded(v.c, v.run, v.steps, |v.steps|, v.s);
  }

  /** What is fresh in a view: each payload sent in it, in the position held over or granted for it. */
  lemma FreshWords(v: Stage)
    requires StageOk(v)
    ensures v.run != [] && v.s < |v.run[0].nodes| && v.s < |End(v).nodes|
    ensures var asks, payloads := AllAsks(v.c, v.s, v.run[0], v.steps), Payloads(v.s, v.steps);
            && |payloads| <= |asks| && Words(Fresh(v)) == Spoken(asks, payloads) && asks[|payloads|..] == InHand(End(v).nodes[v.s])
            && Words(Queued(v)) == Words(v.run[0].nodes[v.s].pendingSends) + Spoken(asks, payloads)
  {
    hide IsRun, Inv;
    StageInv(v);
    StageHeeded(v);
    var carried := v.run[0].accepted[v.s];
    assert Queued(v) == carried + Fresh(v);
    WordsConcat(carried, Fresh(v));
    assert Words(Fresh(v)) == Words(Queued(v))[|carried|..];
  }

  lemma ChainFront(stages: seq<Stage>)
    requires Chain(stages) && |stages| > 1
    ensures var front := stages[..|stages| - 1];
            Chain(front) && front[0] == stages[0] && front[|front| - 1] == stages[|stages| - 2]
  {
    hide StageOk, Follows;
  }

  lemma ChainGrows(stages: seq<Stage>)
    requires AllOk(stages) && stages != []
    ensures var front, v := stages[..|stages| - 1], stages[|stages| - 1];
            && AllOk(front) && StageOk(v)
            && Wanted(stages) == (if front == [] then Said(Queued(v)) else Wanted(front) + Said(Fresh(v)))
            && ChainAsks(stages) == ChainAsks(front) + Asks(v.c.maxMsgSize, v.s, v.steps)
            && ChainPayloads(stages) == ChainPayloads(front) + Payloads(v.s, v.steps)
  {
    hide StageOk, Fresh, Queued, Said, Asks, Payloads;
  }

  lemma ChainOfNone()
    ensures ChainAsks([]) == [] && ChainPayloads([]) == []
  {
  }

  lemma SpeechGrows(before: seq<Word>, asks: seq<Ask>, payloads: seq<seq<byte>>, a: seq<Ask>, p: seq<seq<byte>>, news: seq<Word>)
    requires |payloads| <= |asks| && |p| <= |asks[|payloads|..] + a| && news == Spoken(asks[|payloads|..] + a, p)
    ensures |payloads + p| <= |asks + a| && (asks + a)[|payloads + p|..] == (asks[|payloads|..] + a)[|p|..]
    ensures before + Spoken(asks + a, payloads + p) == (before + Spoken(asks, payloads)) + news
  {
  }

  /**
   Over any chain of views: all that a client ever has accepted says what it came with into
   the first, and then its payloads, in order, in the positions it was granted, whichever
   view each was granted and filled in.
   */
  lemma {:induction false} ChainWords(stages: seq<Stage>)
    requires Chain(stages) && stages != []
    ensures var u, v := stages[0], stages[|stages| - 1];
            && u.run != [] && u.s < |u.run[0].nodes| && v.s < |End(v).nodes|
            && var asks, payloads := InHand(u.run[0].nodes[u.s]) + ChainAsks(stages), ChainPayloads(stages);
               && |payloads| <= |asks| && asks[|payloads|..] == InHand(End(v).nodes[v.s])
               && Words(Wanted(stages)) == Words(u.run[0].nodes[u.s].pendingSends) + Spoken(asks, payloads)
    decreases |stages|
  {
    hide StageOk, Words, Spoken, Follows, Said, Asks, Payloads, InHand, End, Fresh, Queued, Wanted, ChainAsks, ChainPayloads, Inv, WellShaped;
    var last := |stages| - 1;
    ChainGrows(stages);
    var front, v := stages[..last], stages[last];
    FreshWords(v);
    if last == 0 {
      ChainOfNone();
      SaidSame(Queued(v));
      assert [] + Asks(v.c.maxMsgSize, v.s, v.steps) == Asks(v.c.maxMsgSize, v.s, v.steps);
      assert [] + Payloads(v.s, v.steps) == Payloads(v.s, v.steps);
    } else {
      ChainFront(stages);
      ChainWords(front);
      HeldAcross(stages[last - 1], v);
      var u := stages[0];
      var asks, payloads := InHand(u.run[0].nodes[u.s]) + ChainAsks(front), ChainPayloads(front);
      var a, p := Asks(v.c.maxMsgSize, v.s, v.steps), Payloads(v.s, v.steps);
      assert InHand(u.run[0].nodes[u.s]) + ChainAsks(stages) == asks + a;
      WordsConcat(Wanted(front), Said(Fresh(v)));
      SaidSame(Fresh(v));
      SpeechGrows(Words(u.run[0].nodes[u.s].pendingSends), asks, payloads, a, p, Words(Fresh(v)));
    }
  }

  /** So with even ends, what the receiver has been given and the sender still owes is, word for word, what the client said. */
  lemma ChainSaysAll(stages: seq<Stage>)
    requires Chain(stages) && stages != []
    requires forall i :: 0 <= i < |stages| ==> Inv(stages[i].c, End(stages[i])) && EvenEnd(stages[i])
    ensures var u, v := stages[0], stages[|stages| - 1];
            && u.run != [] && u.s < |u.run[0].nodes| && v.s < |End(v).nodes|
            && var asks, payloads := InHand(u.run[0].nodes[u.s]) + ChainAsks(stages), ChainPayloads(stages);
               && |payloads| <= |asks|
               && Words(Given(stages)) + Words(Unsent(End(v).nodes[v.s], v.s))
                  == Words(u.run[0].nodes[u.s].pendingSends) + Spoken(asks, payloads)
  {
    hide Inv, StageOk, Unsent, Follows, EvenEnd, Spoken, Words, Given, Wanted, Said, ChainAsks, ChainPayloads;
    ChainWords(stages);
    ChainDelivers(stages);
    var v := stages[|stages| - 1];
    var owed := Unsent(End(v).nodes[v.s], v.s);
    WordsConcat(Given(stages), Said(owed));
    SaidSame(owed);
  }
}
