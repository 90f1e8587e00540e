/**
 Remote calls as bytes: the destination list and the call frame a sender builds, what a
 receiver reads back from them, and the reply that returns to the caller.
 */
module Framing {
  import opened Messages
  import opened Bytes

  /** How one argument or result is turned into bytes.  `holds` says which values are of its type. */
  datatype Codec<!V> = Codec(holds: V -> bool, toBytes: V -> seq<byte>, fromBytes: seq<byte> -> V)

  /** A value is read back whatever follows it. */
  ghost predicate SelfDelimiting<V(!new)>(k: Codec<V>) {
    forall a, rest :: k.holds(a) ==> k.fromBytes(k.toBytes(a) + rest) == a
  }

  ghost predicate AllSelfDelimiting<V(!new)>(ks: seq<Codec<V>>) {
    forall i :: 0 <= i < |ks| ==> SelfDelimiting(ks[i])
  }

  predicate Typed<V>(ks: seq<Codec<V>>, args: seq<V>) {
    |ks| == |args| && forall i :: 0 <= i < |ks| ==> ks[i].holds(args[i])
  }

  // ---------------------------------------------------------------- arguments

  /** serialize_one: each argument after the one before it. */
  function Serialize<V>(ks: seq<Codec<V>>, args: seq<V>): seq<byte>
    requires |ks| == |args|
  {
    if ks == [] then [] else ks[0].toBytes(args[0]) + Serialize(ks[1..], args[1..])
  }

  /** _deserialize: read one argument, skip as many bytes as it takes, and go on.  None if that runs past the end. */
  function Deserialize<V>(ks: seq<Codec<V>>, buf: seq<byte>): Option<seq<V>>
    decreases |ks|
  {
    if ks == [] then Some([])
    else
      var a := ks[0].fromBytes(buf);
      var size := |ks[0].toBytes(a)|;
      if size > |buf| then None
      else
        match Deserialize(ks[1..], buf[size..])
        case None => None
        case Some(rest) => Some([a] + rest)
  }

  lemma {:induction false} ArgumentsRoundTrip<V(!new)>(ks: seq<Codec<V>>, args: seq<V>, rest: seq<byte>)
    requires AllSelfDelimiting(ks) && Typed(ks, args)
    ensures Deserialize(ks, Serialize(ks, args) + rest) == Some(args)
    decreases |ks|
  {
    if ks != [] {
      var a, more := args[0], Serialize(ks[1..], args[1..]);
      var buf := Serialize(ks, args) + rest;
      var first := ks[0].toBytes(a);
      assert buf == first + (more + rest);
      assert SelfDelimiting(ks[0]) && ks[0].holds(a);
      assert buf[|first|..] == more + rest;
      ArgumentsRoundTrip(ks[1..], args[1..], rest);
      assert [a] + args[1..] == args;
    }
  }

  /** Each argument lies between those before it and those after it. */
  lemma {:induction false} ArgumentsInOrder<V>(ks: seq<Codec<V>>, args: seq<V>, i: nat)
    requires |ks| == |args| && i < |args|
    ensures Serialize(ks, args) == Serialize(ks[..i], args[..i]) + ks[i].toBytes(args[i]) + Serialize(ks[i + 1..], args[i + 1..])
    decreases i
  {
    if i == 0 {
      assert ks[..0] == [] && args[..0] == [];
    } else {
      ArgumentsInOrder(ks[1..], args[1..], i - 1);
      assert ks[1..][..i - 1] == ks[1..i] == ks[..i][1..] && args[1..][..i - 1] == args[1..i] == args[..i][1..];
      assert ks[1..][i..] == ks[i + 1..] && args[1..][i..] == args[i + 1..];
      FourParts(ks[0].toBytes(args[0]), Serialize(ks[1..i], args[1..i]), ks[i].toBytes(args[i]), Serialize(ks[i + 1..], args[i + 1..]));
    }
  }

  lemma FourParts(a: seq<byte>, b: seq<byte>, c: seq<byte>, d: seq<byte>)
    ensures a + (b + c + d) == (a + b) + c + d
  {
  }

  // ---------------------------------------------------------------- headers

  /** header_space: size, operation, sender. */
  const HEADER_SPACE := 3 * WORD

  /** populate_header in front of a body. */
  function Framed(op: nat, from: nat, body: seq<byte>): seq<byte> {
    Word(|body|) + Word(op) + Word(from) + body
  }

  datatype Header = Header(size: nat, op: nat, from: nat)

  /** retrieve_header. */
  function Retrieve(buf: seq<byte>): Option<Header> {
    if |buf| < HEADER_SPACE then None
    else Some(Header(ReadLe(buf, 0, WORD), ReadLe(buf, WORD, WORD), ReadLe(buf, 2 * WORD, WORD)))
  }

  lemma HeaderRoundTrip(op: nat, from: nat, body: seq<byte>, rest: seq<byte>)
    requires IsWord(op) && IsWord(from) && IsWord(|body|)
    ensures Retrieve(Framed(op, from, body) + rest) == Some(Header(|body|, op, from))
    ensures (Framed(op, from, body) + rest)[HEADER_SPACE..] == body + rest
  {
    hide Le, FromLe, Pow256, ReadLe;
    var buf := Framed(op, from, body) + rest;
    var size, what, who := Word(|body|), Word(op), Word(from);
    assert buf == size + what + who + body + rest;
    ThreeWords(size, what, who, body + rest);
    assert buf == size + what + who + (body + rest);
    ReadBack([], |body|, WORD, what + who + (body + rest));
    ReadBack(size, op, WORD, who + (body + rest));
    ReadBack(size + what, from, WORD, body + rest);
  }

  lemma ThreeWords(a: seq<byte>, b: seq<byte>, c: seq<byte>, rest: seq<byte>)
    requires |a| == |b| == |c| == WORD
    ensures a + b + c + rest == [] + a + (b + c + rest) == a + b + (c + rest)
    ensures (a + b + c + rest)[HEADER_SPACE..] == rest
    ensures |a + b + c + rest| >= HEADER_SPACE
  {
  }

  // ---------------------------------------------------------------- destinations

  function NodeList(nodes: seq<nat>): (b: seq<byte>)
    ensures |b| == NODE_ID * |nodes|
  {
    if nodes == [] then [] else NodeList(nodes[..|nodes| - 1]) + Le(nodes[|nodes| - 1], NODE_ID)
  }

  function Destinations(nodes: seq<nat>): seq<byte> {
    Word(|nodes|) + NodeList(nodes)
  }

  /** The first k node ids after the count. */
  function ReadNodes(buf: seq<byte>, k: nat): seq<nat>
    requires WORD + NODE_ID * k <= |buf|
  {
    if k == 0 then [] else ReadNodes(buf, k - 1) + [ReadLe(buf, WORD + NODE_ID * (k - 1), NODE_ID)]
  }

  lemma {:induction false} NodesRoundTrip(nodes: seq<nat>, count: nat, rest: seq<byte>)
    requires forall i :: 0 <= i < |nodes| ==> IsNodeId(nodes[i])
    ensures ReadNodes(Word(count) + NodeList(nodes) + rest, |nodes|) == nodes
    decreases |nodes|
  {
    hide Le, FromLe, ReadLe, Pow256;
    if nodes != [] {
      var front, last := nodes[..|nodes| - 1], nodes[|nodes| - 1];
      var tail := Le(last, NODE_ID) + rest;
      var buf := Word(count) + NodeList(nodes) + rest;
      assert buf == Word(count) + NodeList(front) + tail;
      NodesRoundTrip(front, count, tail);
      ReadBack(Word(count) + NodeList(front), last, NODE_ID, rest);
      assert buf == Word(count) + NodeList(front) + Le(last, NODE_ID) + rest;
    }
  }

  // ---------------------------------------------------------------- a call

  datatype Call<V> = Call(op: nat, from: nat, invocation: nat, args: seq<V>)

  predicate CallFits<V>(c: Call<V>, body: seq<byte>) {
    IsWord(c.op) && IsWord(c.from) && IsWord(c.invocation) && IsWord(|body|)
  }

  function CallBody<V>(ks: seq<Codec<V>>, c: Call<V>): seq<byte>
    requires |ks| == |c.args|
  {
    Word(c.invocation) + Serialize(ks, c.args)
  }

  function CallFrame<V>(ks: seq<Codec<V>>, c: Call<V>): seq<byte>
    requires |ks| == |c.args|
  {
    Framed(c.op, c.from, CallBody(ks, c))
  }

  /** handle_receive: the header, the invocation id, and the arguments. */
  function ReadCall<V>(ks: seq<Codec<V>>, buf: seq<byte>): Option<Call<V>> {
    match Retrieve(buf)
    case None => None
    case Some(h) =>
      if |buf| < HEADER_SPACE + WORD then None
      else
        match Deserialize(ks, buf[HEADER_SPACE + WORD..])
        case None => None
        case Some(args) => Some(Call(h.op, h.from, ReadLe(buf, HEADER_SPACE, WORD), args))
  }

  lemma CallRoundTrip<V(!new)>(ks: seq<Codec<V>>, c: Call<V>, rest: seq<byte>)
    requires AllSelfDelimiting(ks) && Typed(ks, c.args) && CallFits(c, CallBody(ks, c))
    ensures ReadCall(ks, CallFrame(ks, c) + rest) == Some(c)
  {
    hide Framed, Serialize, Retrieve, Deserialize;
    var body, args := CallBody(ks, c), Serialize(ks, c.args);
    var buf := CallFrame(ks, c) + rest;
    HeaderRoundTrip(c.op, c.from, body, rest);
    FrameSize(c.op, c.from, body);
    ReadBack([], c.invocation, WORD, args + rest);
    var after := buf[HEADER_SPACE..];
    assert after == [] + Word(c.invocation) + (args + rest);
    assert buf[HEADER_SPACE..HEADER_SPACE + WORD] == after[0..WORD];
    assert buf[HEADER_SPACE + WORD..] == after[WORD..] == args + rest;
    ArgumentsRoundTrip(ks, c.args, rest);
  }

  lemma FrameSize(op: nat, from: nat, body: seq<byte>)
    ensures |Framed(op, from, body)| == HEADER_SPACE + |body|
  {
  }

  // ---------------------------------------------------------------- a cooked message

  /** The packed header in front of every multicast payload. */
  const MESSAGE_HEADER := 9

  function Payload<V>(nodes: seq<nat>, ks: seq<Codec<V>>, c: Call<V>): seq<byte>
    requires |ks| == |c.args|
  {
    Destinations(nodes) + CallFrame(ks, c)
  }

  /** What a member does with a cooked payload: the destinations it read, and the call if it is for it. */
  datatype Cooked<V> = Cooked(dests: seq<nat>, call: Option<Call<V>>)

  function ReadCooked<V>(me: nat, ks: seq<Codec<V>>, buf: seq<byte>): Option<Cooked<V>> {
    if |buf| < WORD then None
    else
      var count := ReadLe(buf, 0, WORD);
      if |buf| < WORD + NODE_ID * count then None
      else
        var dests := ReadNodes(buf, count);
        if me in dests || count == 0 then
          match ReadCall(ks, buf[WORD + NODE_ID * count..])
          case None => None
          case Some(c) => Some(Cooked(dests, Some(c)))
        else
          Some(Cooked(dests, None))
  }

  /**
   Where everything in a call lies: four words of eight bytes -- how many bytes follow the
   header, the operation, the sender and the invocation id -- and behind them the arguments.
   */
  lemma CallLayout<V>(ks: seq<Codec<V>>, c: Call<V>)
    requires |ks| == |c.args| && CallFits(c, CallBody(ks, c))
    ensures var frame := CallFrame(ks, c);
            && |frame| >= 32 && ReadLe(frame, 0, 8) == |frame| - 24
            && ReadLe(frame, 8, 8) == c.op && ReadLe(frame, 16, 8) == c.from && ReadLe(frame, 24, 8) == c.invocation
            && frame[32..] == Serialize(ks, c.args)
  {
    hide Serialize, Le, FromLe, Pow256;
    var args, body, frame := Serialize(ks, c.args), CallBody(ks, c), CallFrame(ks, c);
    HeaderRoundTrip(c.op, c.from, body, []);
    assert frame + [] == frame;
    ReadBack(Word(|body|) + Word(c.op) + Word(c.from), c.invocation, WORD, args);
    assert frame == Word(|body|) + Word(c.op) + Word(c.from) + Word(c.invocation) + args;
  }

  /** Where everything in a cooked payload lies: the count, four bytes for each node, and the call. */
  lemma PayloadLayout<V>(nodes: seq<nat>, ks: seq<Codec<V>>, c: Call<V>, i: nat)
    requires |ks| == |c.args| && IsWord(|nodes|)
    requires i < |nodes| && IsNodeId(nodes[i])
    ensures var p := Payload(nodes, ks, c);
            && |p| == 8 + 4 * |nodes| + |CallFrame(ks, c)| && ReadLe(p, 0, 8) == |nodes|
            && ReadLe(p, 8 + 4 * i, 4) == nodes[i] && p[8 + 4 * |nodes|..] == CallFrame(ks, c)
  {
    hide CallFrame, NodeList, Le, FromLe, Pow256;
    var frame, p := CallFrame(ks, c), Payload(nodes, ks, c);
    ReadBack([], |nodes|, WORD, NodeList(nodes) + frame);
    assert p == [] + Word(|nodes|) + (NodeList(nodes) + frame);
    NodeAt(nodes, i);
    LeRoundTrip(nodes[i], NODE_ID);
    assert p[8 + 4 * i..8 + 4 * i + 4] == NodeList(nodes)[4 * i..4 * i + 4];
  }

  lemma {:induction false} NodeAt(nodes: seq<nat>, i: nat)
    requires i < |nodes|
    ensures NodeList(nodes)[NODE_ID * i..NODE_ID * i + NODE_ID] == Le(nodes[i], NODE_ID)
    decreases |nodes|
  {
    hide Le;
    var front := nodes[..|nodes| - 1];
    if i < |front| {
      NodeAt(front, i);
      assert NodeList(nodes)[..NODE_ID * |front|] == NodeList(front);
      assert NodeList(nodes)[NODE_ID * i..NODE_ID * i + NODE_ID] == NodeList(front)[NODE_ID * i..NODE_ID * i + NODE_ID];
    }
  }

  /**
   A cooked payload, in a buffer with anything after it, is read back by every member: the
   same destinations, and by exactly those members it is for, the same operation, sender,
   invocation id and arguments.
   */
  lemma CookedRoundTrip<V(!new)>(me: nat, nodes: seq<nat>, ks: seq<Codec<V>>, c: Call<V>, rest: seq<byte>)
    requires AllSelfDelimiting(ks) && Typed(ks, c.args) && CallFits(c, CallBody(ks, c))
    requires IsWord(|nodes|) && forall i :: 0 <= i < |nodes| ==> IsNodeId(nodes[i])
    ensures ReadCooked(me, ks, Payload(nodes, ks, c) + rest)
         == Some(Cooked(nodes, if me in nodes || nodes == [] then Some(c) else None))
  {
    hide CallFrame, ReadCall, NodeList, ReadNodes, CallFits, CallBody, Le, FromLe, ReadLe, Pow256;
    var frame := CallFrame(ks, c) + rest;
    var buf := Payload(nodes, ks, c) + rest;
    ReadBack([], |nodes|, WORD, NodeList(nodes) + frame);
    assert buf == [] + Word(|nodes|) + (NodeList(nodes) + frame);
    assert buf == Word(|nodes|) + NodeList(nodes) + frame;
    NodesRoundTrip(nodes, |nodes|, frame);
    assert buf[WORD + NODE_ID * |nodes|..] == frame;
    CallRoundTrip(ks, c, rest);
  }

  // ---------------------------------------------------------------- does it fit?

  /** size_t arithmetic. */
  function Wrap(n: int): nat {
    n % Pow256(WORD)
  }

  /** The room derechoCallerSend thinks is left after the destinations. */
  function RoomLeft(maxMsgSize: nat, count: nat): nat {
    Wrap(maxMsgSize - MESSAGE_HEADER - WORD - NODE_ID * count)
  }

  /**
   The sender's check is right unless the destination list alone overruns the message: then
   the subtraction wraps around and the check lets the frame through.
   */
  lemma CheckIsRightIff(maxMsgSize: nat, count: nat, frameSize: nat)
    requires maxMsgSize < 0x1_0000_0000 && count < 0x1_0000_0000 && frameSize < 0x1_0000_0000
    ensures (frameSize <= RoomLeft(maxMsgSize, count)) == (9 + 8 + 4 * count + frameSize <= maxMsgSize)
       <==> 9 + 8 + 4 * count <= maxMsgSize
  {
    PowerLimits();
  }

  /** derechoCallerSend: the destinations one by one, then the frame if there is room for it. */
  method DerechoCallerSend<V>(maxMsgSize: nat, nodes: seq<nat>, ks: seq<Codec<V>>, c: Call<V>) returns (buf: Option<seq<byte>>)
    requires |ks| == |c.args| && maxMsgSize >= MESSAGE_HEADER
    ensures buf == if |CallFrame(ks, c)| <= RoomLeft(maxMsgSize, |nodes|) then Some(Payload(nodes, ks, c)) else None
  {
    hide CallFrame;
    var out := Word(|nodes|);
    var i := 0;
    while i < |nodes|
      invariant 0 <= i <= |nodes|
      invariant out == Word(|nodes|) + NodeList(nodes[..i])
    {
      assert nodes[..i + 1][..i] == nodes[..i];
      out := out + Le(nodes[i], NODE_ID);
      i := i + 1;
    }
    assert nodes[..i] == nodes;
    var frame := CallFrame(ks, c);
    if |frame| <= RoomLeft(maxMsgSize, |nodes|) {
      return Some(out + frame);
    }
    return None;
  }

  /** deliver_message on a cooked payload: walk the destinations, then hand the frame over if it is for this member. */
  method DeliverCooked<V>(me: nat, ks: seq<Codec<V>>, buf: seq<byte>) returns (r: Option<Cooked<V>>)
    ensures r == ReadCooked(me, ks, buf)
  {
    if |buf| < WORD {
      return None;
    }
    var count := ReadLe(buf, 0, WORD);
    if |buf| < WORD + NODE_ID * count {
      return None;
    }
    var at, i, inDest := WORD, 0, false;
    var dests: seq<nat> := [];
    while i < count
      invariant 0 <= i <= count && at == WORD + NODE_ID * i
      invariant dests == ReadNodes(buf, i)
      invariant inDest <==> me in dests
    {
      var n := ReadLe(buf, at, NODE_ID);
      at := at + NODE_ID;
      dests := dests + [n];
      if n == me {
        inDest := true;
      }
      i := i + 1;
    }
    if inDest || count == 0 {
      var call := ReadCall(ks, buf[at..]);
      return if call.Some? then Some(Cooked(dests, call)) else None;
    }
    return Some(Cooked(dests, None));
  }

  // ---------------------------------------------------------------- replies

  /** What a call brings back from one node: its result, or that it threw. */
  datatype Result<V> = Value(value: V) | Thrown

  function ReplyBody<V>(k: Codec<V>, invocation: nat, r: Result<V>): seq<byte> {
    match r
    case Value(v) => [0] + Word(invocation) + k.toBytes(v)
    case Thrown => [1] + Word(invocation)
  }

  datatype Reply<V> = Reply(op: nat, from: nat, invocation: nat, result: Result<V>)

  function ReplyFrame<V>(k: Codec<V>, r: Reply<V>): seq<byte> {
    Framed(r.op, r.from, ReplyBody(k, r.invocation, r.result))
  }

  /** receive_response, behind its header. */
  function ReadReply<V>(k: Codec<V>, buf: seq<byte>): Option<Reply<V>> {
    match Retrieve(buf)
    case None => None
    case Some(h) =>
      if |buf| < HEADER_SPACE + 1 + WORD then None
      else
        var result := if buf[HEADER_SPACE] != 0 then Thrown else Value(k.fromBytes(buf[HEADER_SPACE + 1 + WORD..]));
        Some(Reply(h.op, h.from, ReadLe(buf, HEADER_SPACE + 1, WORD), result))
  }

  lemma ReplyRoundTrip<V(!new)>(k: Codec<V>, r: Reply<V>, rest: seq<byte>)
    requires SelfDelimiting(k) && (r.result.Value? ==> k.holds(r.result.value))
    requires IsWord(r.op) && IsWord(r.from) && IsWord(r.invocation) && IsWord(|ReplyBody(k, r.invocation, r.result)|)
    ensures ReadReply(k, ReplyFrame(k, r) + rest) == Some(r)
  {
    hide Framed, Retrieve, Le, FromLe, Pow256;
    var body := ReplyBody(k, r.invocation, r.result);
    var buf := ReplyFrame(k, r) + rest;
    HeaderRoundTrip(r.op, r.from, body, rest);
    FrameSize(r.op, r.from, body);
    var flag := body[..1];
    var tail := body[1 + WORD..] + rest;
    var after := buf[HEADER_SPACE..];
    assert after == flag + Word(r.invocation) + tail;
    ReadBack(flag, r.invocation, WORD, tail);
    assert buf[HEADER_SPACE + 1..HEADER_SPACE + 1 + WORD] == after[1..1 + WORD];
    assert buf[HEADER_SPACE + 1 + WORD..] == after[1 + WORD..] == tail;
    assert buf[HEADER_SPACE] == after[0];
    if r.result.Value? {
      assert body[1 + WORD..] == k.toBytes(r.result.value);
    }
  }

  /** A reply says behind its header whether the call threw, and then which invocation it answers. */
  lemma ReplyLayout<V>(k: Codec<V>, r: Reply<V>)
    requires IsWord(r.op) && IsWord(r.from) && IsWord(r.invocation) && IsWord(|ReplyBody(k, r.invocation, r.result)|)
    ensures var frame := ReplyFrame(k, r);
            && |frame| >= 33 && ReadLe(frame, 0, 8) == |frame| - 24
            && ReadLe(frame, 8, 8) == r.op && ReadLe(frame, 16, 8) == r.from && ReadLe(frame, 25, 8) == r.invocation
            && (frame[24] == if r.result.Thrown? then 1 else 0)
            && (if r.result.Thrown? then |frame| == 33 else frame[33..] == k.toBytes(r.result.value))
  {
    hide Le, FromLe, Pow256;
    var body, frame := ReplyBody(k, r.invocation, r.result), ReplyFrame(k, r);
    HeaderRoundTrip(r.op, r.from, body, []);
    assert frame + [] == frame;
    var flag := body[..1];
    var value := body[1 + WORD..];
    ReadBack(Word(|body|) + Word(r.op) + Word(r.from) + flag, r.invocation, WORD, value);
    assert frame == Word(|body|) + Word(r.op) + Word(r.from) + flag + Word(r.invocation) + value;
  }

  // ---------------------------------------------------------------- from call to recorded result

  /** The program's function; None when it throws. */
  type Fun<!V> = seq<V> -> Option<V>

  function Outcome<V>(f: Fun<V>, args: seq<V>): Result<V> {
    match f(args)
    case Some(v) => Value(v)
    case None => Thrown
  }

  /** receive_call: the reply frame a receiver sends for the call it read. */
  function Answer<V>(k: Codec<V>, f: Fun<V>, replyOp: nat, me: nat, c: Call<V>): seq<byte> {
    ReplyFrame(k, Reply(replyOp, me, c.invocation, Outcome(f, c.args)))
  }

  /** The caller's results so far: per invocation, per node. */
  type Results<V> = map<nat, map<nat, Result<V>>>

  function Recorded<V>(ret: Results<V>, r: Reply<V>): Results<V>
    requires r.invocation in ret
  {
    var answers: map<nat, Result<V>> := ret[r.invocation][r.from := r.result];
    ret[r.invocation := answers]
  }

  /** The results after replies have come in, one after the other. */
  function RecordedAll<V>(ret: Results<V>, rs: seq<Reply<V>>): (ret': Results<V>)
    requires forall i :: 0 <= i < |rs| ==> rs[i].invocation in ret
    ensures ret'.Keys == ret.Keys
    decreases |rs|
  {
    if rs == [] then ret else Recorded(RecordedAll(ret, rs[..|rs| - 1]), rs[|rs| - 1])
  }

  predicate From<V>(r: Reply<V>, inv: nat, node: nat) {
    r.invocation == inv && r.from == node
  }

  /** Reply i is the node's last to the invocation; -1 if there is none. */
  ghost predicate LastFrom<V>(rs: seq<Reply<V>>, inv: nat, node: nat, i: int) {
    -1 <= i < |rs| && (i >= 0 ==> From(rs[i], inv, node)) && forall j :: i < j < |rs| ==> !From(rs[j], inv, node)
  }

  /** What a node has answered to an invocation, if anything. */
  function AnswerOf<V>(ret: Results<V>, inv: nat, node: nat): Option<Result<V>>
    requires inv in ret
  {
    if node in ret[inv] then Some(ret[inv][node]) else None
  }

  lemma OneAnswerKept<V>(ret: Results<V>, r: Reply<V>, inv: nat, node: nat)
    requires r.invocation in ret && inv in ret
    ensures AnswerOf(Recorded(ret, r), inv, node) == if From(r, inv, node) then Some(r.result) else AnswerOf(ret, inv, node)
  {
  }

  /**
   However the replies of nodes come in, mixed with those to other invocations, the caller
   ends with the last one of each node that replied, with what it had from each node that did
   not, and with nothing else.
   */
  lemma {:induction false} AnswersKept<V>(ret: Results<V>, rs: seq<Reply<V>>, inv: nat, node: nat, i: int)
    requires forall j :: 0 <= j < |rs| ==> rs[j].invocation in ret
    requires inv in ret && LastFrom(rs, inv, node, i)
    ensures AnswerOf(RecordedAll(ret, rs), inv, node)
         == if i >= 0 then Some(rs[i].result) else AnswerOf(ret, inv, node)
    decreases |rs|
  {
    hide Recorded, AnswerOf;
    if rs != [] {
      var n := |rs| - 1;
      OneAnswerKept(RecordedAll(ret, rs[..n]), rs[n], inv, node);
      if i < n {
        assert LastFrom(rs[..n], inv, node, i);
        AnswersKept(ret, rs[..n], inv, node, i);
      }
    }
  }

  class RemoteInvocable<V(==)> {
    const argCodecs: seq<Codec<V>>
    const resultCodec: Codec<V>
    const f: Fun<V>
    const invokeOp: nat
    const replyOp: nat
    var ret: Results<V>

    constructor (args: seq<Codec<V>>, result: Codec<V>, fun: Fun<V>, invoke: nat, reply: nat)
      ensures ret == map[] && argCodecs == args && resultCodec == result && f == fun && invokeOp == invoke && replyOp == reply
    {
      argCodecs, resultCodec, f, invokeOp, replyOp, ret := args, result, fun, invoke, reply, map[];
    }

    /** Send: the frame, and an empty place for the results of this invocation. */
    method Send(from: nat, invocation: nat, args: seq<V>) returns (frame: seq<byte>)
      requires |args| == |argCodecs| && invocation !in ret
      modifies this
      ensures frame == CallFrame(argCodecs, Call(invokeOp, from, invocation, args))
      ensures ret == old(ret)[invocation := map[]]
    {
      frame := CallFrame(argCodecs, Call(invokeOp, from, invocation, args));
      ret := ret[invocation := map[]];
    }

    /** receive_call. */
    method ReceiveCall(me: nat, buf: seq<byte>) returns (reply: Option<seq<byte>>)
      ensures reply == match ReadCall(argCodecs, buf)
                       case None => None
                       case Some(c) => Some(Answer(resultCodec, f, replyOp, me, c))
    {
      var c := ReadCall(argCodecs, buf);
      if c.None? {
        return None;
      }
      var result := f(c.value.args);
      if result.Some? {
        return Some(ReplyFrame(resultCodec, Reply(replyOp, me, c.value.invocation, Value(result.value))));
      }
      return Some(ReplyFrame(resultCodec, Reply(replyOp, me, c.value.invocation, Thrown)));
    }

    /** receive_response: record what the node answered; the invocation must be one this object sent. */
    method ReceiveResponse(buf: seq<byte>)
      requires ReadReply(resultCodec, buf).Some? && ReadReply(resultCodec, buf).value.invocation in ret
      modifies this
      ensures ret == Recorded(old(ret), ReadReply(resultCodec, buf).value)
    {
      var r := ReadReply(resultCodec, buf).value;
      var answers: map<nat, Result<V>> := ret[r.invocation][r.from := r.result];
      ret := ret[r.invocation := answers];
    }
  }

  /**
   End to end: a member the call is for reads it from the message, runs the function on the
   very arguments sent, and the caller, reading its reply, gets under the same invocation and
   that member's id what the function returned, or that it threw.
   */
  lemma CallBringsBackResult<V(!new)>(ks: seq<Codec<V>>, k: Codec<V>, f: Fun<V>, replyOp: nat,
                                      me: nat, nodes: seq<nat>, c: Call<V>, rest: seq<byte>, rest': seq<byte>)
    requires AllSelfDelimiting(ks) && Typed(ks, c.args) && CallFits(c, CallBody(ks, c))
    requires IsWord(|nodes|) && forall i :: 0 <= i < |nodes| ==> IsNodeId(nodes[i])
    requires SelfDelimiting(k) && (f(c.args).Some? ==> k.holds(f(c.args).value))
    requires IsWord(replyOp) && IsWord(me) && IsWord(|ReplyBody(k, c.invocation, Outcome(f, c.args))|)
    requires me in nodes || nodes == []
    ensures var seen := ReadCooked(me, ks, Payload(nodes, ks, c) + rest);
            && seen.Some? && seen.value.call.Some?
            && ReadReply(k, Answer(k, f, replyOp, me, seen.value.call.value) + rest')
               == Some(Reply(replyOp, me, c.invocation, Outcome(f, c.args)))
  {
    hide ReadCooked, Payload, ReadReply, ReplyFrame, CallBody, ReplyBody;
    CookedRoundTrip(me, nodes, ks, c, rest);
    ReplyRoundTrip(k, Reply(replyOp, me, c.invocation, Outcome(f, c.args)), rest');
  }
}
