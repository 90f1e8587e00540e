/** One member's multicast engine as the object the program runs: fields, queues and loops. */
module DerechoGroupEngine {
  import opened Collections
  import opened Numbering
  import opened SharedTable
  import opened Messages
  import opened GroupSpec

  lemma FirstMinUnique(v: seq<int>, a: nat)
    requires |v| > 0 && a < |v| && v[a] == Min(v)
    requires forall k :: 0 <= k < a ==> v[k] > Min(v)
    ensures a == FirstMin(v)
  {
  }

  lemma MinUnique(v: seq<int>, m: int)
    requires |v| > 0
    requires forall k :: 0 <= k < |v| ==> m <= v[k]
    requires exists k :: 0 <= k < |v| && v[k] == m
    ensures m == Min(v)
  {
  }

  /** std::min_element: the least value and the first place it stands. */
  method MinElement(v: seq<int>) returns (m: int, a: nat)
    requires |v| > 0
    ensures m == Min(v) && a == FirstMin(v)
  {
    m, a := v[0], 0;
    for k := 1 to |v|
      invariant a < k && v[a] == m
      invariant forall i :: 0 <= i < k ==> m <= v[i]
      invariant forall i :: 0 <= i < a ==> v[i] > m
    {
      if v[k] < m {
        m, a := v[k], k;
      }
    }
    MinUnique(v, m);
    FirstMinUnique(v, a);
  }

  /** The receive handler's new seq_num, from the first least count. */
  method InOrderPrefix(counts: seq<int>) returns (newSeqNum: int)
    requires |counts| > 0
    ensures newSeqNum == PrefixEnd(counts)
  {
    var least, minIndex := MinElement(counts);
    newSeqNum := (least + 1) * |counts| + minIndex - 1;
  }

  /** The first of the filed messages, and what the rest contribute. */
  lemma AscendingStep(ls: map<int, Message>, rank: nat)
    requires ls != map[]
    ensures var m, rest := ls[Least(ls)], Ascending(ls - {Least(ls)});
            OwnMessages(rank, Ascending(ls))
              == (if m.size > 0 && m.sender == rank then [m] else []) + OwnMessages(rank, rest)
            && OthersCount(rank, Ascending(ls))
              == (if m.size > 0 && m.sender != rank then 1 else 0) + OthersCount(rank, rest)
  {
    var m, rest := ls[Least(ls)], Ascending(ls - {Least(ls)});
    RemoveKey(ls, Least(ls));
    assert ([m] + rest)[1..] == rest;
  }

  lemma TakeOverNothing(rank: int, oldRank: int)
    ensures Reindex(rank, 0, []) == [] && IndexAfter(0, []) == 0
    ensures Ascending(map[]) == [] && OwnMessages(oldRank, []) == [] && OthersCount(oldRank, []) == 0
  {
  }

  class DerechoGroup {
    const config: Config
    const memberIndex: nat

    var sst: Sst

    var rdmcGroupsCreated: bool
    var threadShutdown: bool
    var futureMessageIndex: int
    var nextSend: Option<Message>
    var pendingSends: seq<Message>
    var currentSend: Option<Message>
    var currentReceives: map<int, Message>
    var locallyStableMessages: map<int, Message>
    var freeMessageBuffers: nat
    var totalMessageBuffers: nat
    /** The messages handed to deliver_message so far. */
    var log: seq<Message>

    ghost predicate Valid()
      reads this
    {
      config.n > 0 && memberIndex < config.n && SstShape(config.n, sst)
    }

    /** The engine's state as a value. */
    function State(): Node
      reads this
    {
      Node(rdmcGroupsCreated, threadShutdown, futureMessageIndex, nextSend, pendingSends, currentSend,
           currentReceives, locallyStableMessages, freeMessageBuffers, totalMessageBuffers, log)
    }

    /** A first view: nothing sent or received, a window of buffers for every member. */
    constructor (c: Config, me: nat, buffers: nat, created: bool)
      requires c.n > 0 && me < c.n
      ensures Valid() && config == c && memberIndex == me
      ensures State() == InitialNode(created, Max(buffers, c.window * c.n))
      ensures sst == seq(c.n, i => InitialRow(c.n))
    {
      config, memberIndex := c, me;
      rdmcGroupsCreated, threadShutdown, futureMessageIndex := created, false, 0;
      nextSend, pendingSends, currentSend, currentReceives, locallyStableMessages := None, [], None, map[], map[];
      log := [];
      sst := seq(c.n, i => InitialRow(c.n));
      var free := buffers;
      while free < c.window * c.n
        invariant free == buffers || free <= c.window * c.n
        invariant free >= buffers
      {
        free := free + 1;
      }
      freeMessageBuffers, totalMessageBuffers := free, free;
    }

    /**
     The next view's engine, taking over from the engine of the old view: buffers are
     reclaimed, and the own messages not yet delivered are queued again under new indices.
     The old engine is left stopped and empty.
     */
    constructor FromOld(c: Config, me: nat, from: DerechoGroup, created: bool)
      requires c.n > 0 && me < c.n && from.Valid()
      modifies from
      ensures Valid() && config == c && memberIndex == me
      ensures State() == NextEngine(c, me, old(from.State()), from.memberIndex, created)
      ensures sst == seq(c.n, i => InitialRow(c.n))
      ensures from.threadShutdown && from.currentReceives == from.locallyStableMessages == map[] && from.pendingSends == []
      ensures from.sst == old(from.sst)
    {
      hide Ascending, OwnMessages, OthersCount, Reindex, IndexAfter;
      config, memberIndex := c, me;
      rdmcGroupsCreated, threadShutdown, futureMessageIndex := created, false, 0;
      nextSend, pendingSends, currentSend, currentReceives, locallyStableMessages := None, [], None, map[], map[];
      log := [];
      sst := seq(c.n, i => InitialRow(c.n));
      freeMessageBuffers, totalMessageBuffers := from.freeMessageBuffers, from.totalMessageBuffers;
      new;
      from.Wedge();
      GrowBuffers();
      TakeOverTables(from);
      RequeueSends(from, OwnMessages(from.memberIndex, Ascending(old(from.locallyStableMessages))));
      TakeOverNext(from);
    }

    /** The old engine's two message maps are emptied into the new one. */
    method TakeOverTables(from: DerechoGroup)
      requires this != from && pendingSends == [] && futureMessageIndex == 0
      modifies `freeMessageBuffers, `pendingSends, `futureMessageIndex, from`currentReceives, from`locallyStableMessages
      ensures from.currentReceives == from.locallyStableMessages == map[]
      ensures var filed := Ascending(old(from.locallyStableMessages));
              && pendingSends == Reindex(memberIndex, 0, OwnMessages(from.memberIndex, filed))
              && futureMessageIndex == IndexAfter(0, OwnMessages(from.memberIndex, filed))
              && freeMessageBuffers
                 == old(freeMessageBuffers) + old(|from.currentReceives|) + OthersCount(from.memberIndex, filed)
    {
      hide Ascending, OwnMessages, OthersCount, Reindex, IndexAfter;
      ReclaimReceives(from.currentReceives);
      from.currentReceives := map[];
      TakeOverStable(from.locallyStableMessages, from.memberIndex);
      from.locallyStableMessages := map[];
    }

    /** The message being sent and the ones waiting go to the end of the new queue, in order. */
    method RequeueSends(from: DerechoGroup, ghost requeued: seq<Message>)
      requires this != from
      requires pendingSends == Reindex(memberIndex, 0, requeued) && futureMessageIndex == IndexAfter(0, requeued)
      modifies `futureMessageIndex, `pendingSends, from`pendingSends
      ensures from.pendingSends == []
      ensures var all := requeued + OneOrNone(from.currentSend) + old(from.pendingSends);
              pendingSends == Reindex(memberIndex, 0, all) && futureMessageIndex == IndexAfter(0, all)
    {
      hide Reindex, IndexAfter;
      ghost var done := requeued;
      assert requeued + [] == requeued;
      if from.currentSend.Some? {
        Requeue(from.currentSend.value, done);
        done := done + [from.currentSend.value];
      }
      ghost var start := done;
      while from.pendingSends != []
        invariant done + from.pendingSends == start + old(from.pendingSends)
        invariant pendingSends == Reindex(memberIndex, 0, done) && futureMessageIndex == IndexAfter(0, done)
        decreases |from.pendingSends|
      {
        Requeue(from.pendingSends[0], done);
        done := done + [from.pendingSends[0]];
        from.pendingSends := from.pendingSends[1..];
      }
      assert done + [] == done;
    }

    /** A message the client was still filling keeps its place after all the others. */
    method TakeOverNext(from: DerechoGroup)
      modifies `futureMessageIndex, `nextSend
      ensures var held := OneOrNone(from.nextSend);
              futureMessageIndex == IndexAfter(old(futureMessageIndex), held)
              && nextSend == if held == [] then old(nextSend) else Some(Reindex(memberIndex, old(futureMessageIndex), held)[0])
    {
      if from.nextSend.Some? {
        ReindexOne(memberIndex, futureMessageIndex, from.nextSend.value);
        var msg := ConvertMsg(from.nextSend.value);
        nextSend := Some(msg);
      }
    }

    /** convert_msg: the same message, numbered for this group. */
    method ConvertMsg(msg: Message) returns (converted: Message)
      modifies `futureMessageIndex
      ensures converted == msg.(sender := memberIndex, index := old(futureMessageIndex))
      ensures futureMessageIndex == old(futureMessageIndex) + 1 + msg.body.pause
    {
      converted := msg.(sender := memberIndex, index := futureMessageIndex);
      futureMessageIndex := futureMessageIndex + 1;
      futureMessageIndex := futureMessageIndex + msg.body.pause;
    }

    method Requeue(msg: Message, ghost requeued: seq<Message>)
      requires pendingSends == Reindex(memberIndex, 0, requeued) && futureMessageIndex == IndexAfter(0, requeued)
      modifies `futureMessageIndex, `pendingSends
      ensures pendingSends == Reindex(memberIndex, 0, requeued + [msg])
      ensures futureMessageIndex == IndexAfter(0, requeued + [msg])
    {
      var converted := ConvertMsg(msg);
      pendingSends := pendingSends + [converted];
      ReindexConcat(memberIndex, 0, requeued, [msg]);
      IndexAfterConcat(0, requeued, [msg]);
      ReindexOne(memberIndex, IndexAfter(0, requeued), msg);
    }

    /** More buffers if the group has grown. */
    method GrowBuffers()
      modifies `freeMessageBuffers, `totalMessageBuffers
      ensures totalMessageBuffers == Max(old(totalMessageBuffers), config.window * config.n)
      ensures freeMessageBuffers - totalMessageBuffers == old(freeMessageBuffers - totalMessageBuffers)
    {
      while totalMessageBuffers < config.window * config.n
        invariant totalMessageBuffers == old(totalMessageBuffers) || totalMessageBuffers <= config.window * config.n
        invariant totalMessageBuffers >= old(totalMessageBuffers)
        invariant freeMessageBuffers - totalMessageBuffers == old(freeMessageBuffers - totalMessageBuffers)
      {
        freeMessageBuffers := freeMessageBuffers + 1;
        totalMessageBuffers := totalMessageBuffers + 1;
      }
    }

    /** The buffers of messages whose receipt was under way are free again. */
    method ReclaimReceives(receives: map<int, Message>)
      modifies `freeMessageBuffers
      ensures freeMessageBuffers == old(freeMessageBuffers) + |receives|
    {
      var remaining := receives;
      while remaining != map[]
        invariant freeMessageBuffers + |remaining| == old(freeMessageBuffers) + |receives|
        decreases |remaining|
      {
        LeastExists(remaining);
        var k :| k in remaining && forall q :: q in remaining ==> k <= q;
        RemoveKey(remaining, k);
        freeMessageBuffers := freeMessageBuffers + 1;
        remaining := remaining - {k};
      }
    }

    /** Undelivered messages, lowest number first: own ones are sent again, others' buffers reclaimed. */
    method TakeOverStable(stable: map<int, Message>, oldRank: nat)
      requires pendingSends == [] && futureMessageIndex == 0
      modifies `freeMessageBuffers, `pendingSends, `futureMessageIndex
      ensures pendingSends == Reindex(memberIndex, 0, OwnMessages(oldRank, Ascending(stable)))
      ensures futureMessageIndex == IndexAfter(0, OwnMessages(oldRank, Ascending(stable)))
      ensures freeMessageBuffers == old(freeMessageBuffers) + OthersCount(oldRank, Ascending(stable))
    {
      hide Reindex, IndexAfter, Ascending, OwnMessages, OthersCount;
      TakeOverNothing(memberIndex, oldRank);
      var remaining := stable;
      ghost var own: seq<Message> := [];
      assert own + OwnMessages(oldRank, Ascending(stable)) == OwnMessages(oldRank, Ascending(stable));
      while remaining != map[]
        invariant pendingSends == Reindex(memberIndex, 0, own) && futureMessageIndex == IndexAfter(0, own)
        invariant own + OwnMessages(oldRank, Ascending(remaining)) == OwnMessages(oldRank, Ascending(stable))
        invariant freeMessageBuffers + OthersCount(oldRank, Ascending(remaining))
               == old(freeMessageBuffers) + OthersCount(oldRank, Ascending(stable))
        decreases |remaining|
      {
        LeastExists(remaining);
        var k :| k in remaining && forall q :: q in remaining ==> k <= q;
        RemoveKey(remaining, k);
        var msg := remaining[k];
        AscendingStep(remaining, oldRank);
        if msg.size != 0 {
          if msg.sender == oldRank {
            Requeue(msg, own);
            own := own + [msg];
            assert own + OwnMessages(oldRank, Ascending(remaining - {k}))
                == own[..|own| - 1] + ([msg] + OwnMessages(oldRank, Ascending(remaining - {k})));
          } else {
            freeMessageBuffers := freeMessageBuffers + 1;
          }
        }
        remaining := remaining - {k};
      }
      assert own + [] == own;
    }

    // -------------------------------------------------------------- sending

    method WindowIsOpen(index: int) returns (open: bool)
      requires Valid()
      ensures open <==> WindowOpen(config, memberIndex, sst, index)
    {
      var i := 0;
      while i < config.n
        invariant 0 <= i <= config.n
        invariant forall k :: 0 <= k < i ==> sst[k].deliveredNum >= SeqNo(config.n, memberIndex, index - config.window)
      {
        if sst[i].deliveredNum < (index - config.window) * config.n + memberIndex {
          return false;
        }
        i := i + 1;
      }
      return true;
    }

    /**
     get_position: granted only inside the window and while a buffer is free.  Granted again
     before send, it drops the message it had handed out, and with it that message's buffer.
     */
    method GetPosition(payloadSize: nat, pauseSendingTurns: nat, cookedSend: bool) returns (granted: bool)
      requires Valid()
      modifies this
      ensures Valid() && sst == old(sst)
      ensures granted <==> old(CanGetPosition(config, memberIndex, State(), sst, payloadSize))
      ensures granted ==>
                State() == GroupSpec.GetPosition(config, memberIndex, old(State()), payloadSize, pauseSendingTurns, cookedSend)
      ensures !granted ==> State() == old(State())
    {
      if !rdmcGroupsCreated {
        return false;
      }
      var msgSize := payloadSize + HEADER_SIZE;
      if payloadSize == 0 {
        msgSize := config.maxMsgSize;
      }
      if msgSize > config.maxMsgSize {
        return false;
      }
      var open := WindowIsOpen(futureMessageIndex);
      if !open || threadShutdown || freeMessageBuffers == 0 {
        return false;
      }
      freeMessageBuffers := freeMessageBuffers - 1;
      nextSend := Some(Message(memberIndex, futureMessageIndex, msgSize, Body(pauseSendingTurns, cookedSend, [])));
      futureMessageIndex := futureMessageIndex + pauseSendingTurns + 1;
      return true;
    }

    /** send: queues the message get_position handed out, as the client has filled it. */
    method Send(payload: seq<byte>) returns (accepted: bool)
      requires Valid() && nextSend.Some?
      modifies this
      ensures Valid() && sst == old(sst)
      ensures accepted <==> old(CanSend(State()))
      ensures State() == if accepted then GroupSpec.Send(old(State()), payload) else old(State())
    {
      if threadShutdown || !rdmcGroupsCreated {
        return false;
      }
      pendingSends := pendingSends + [Filled(nextSend.value, payload)];
      nextSend := None;
      return true;
    }

    /** One turn of send_loop: if the next message may go, it becomes the current one and goes to RDMC. */
    method SendIfReady() returns (sent: Option<Message>)
      requires Valid()
      modifies this
      ensures Valid() && sst == old(sst)
      ensures sent.Some? <==> old(!threadShutdown && ShouldSend(config, memberIndex, State(), sst))
      ensures sent.Some? ==> sent == Some(old(pendingSends)[0]) && State() == StartSend(old(State()))
      ensures sent.None? ==> State() == old(State())
    {
      if threadShutdown || !rdmcGroupsCreated || pendingSends == [] {
        return None;
      }
      var msg := pendingSends[0];
      if sst[memberIndex].nReceived[memberIndex] < msg.index - 1 {
        return None;
      }
      var open := WindowIsOpen(msg.index);
      if !open {
        return None;
      }
      currentSend := Some(msg);
      pendingSends := pendingSends[1..];
      return Some(msg);
    }

    // -------------------------------------------------------------- receiving

    method ReceiveDestination(groupnum: nat, length: nat)
      requires Valid() && groupnum < config.n && freeMessageBuffers > 0
      modifies this
      ensures Valid() && sst == old(sst)
      ensures State() == GroupSpec.ReceiveDestination(config, memberIndex, old(State()), sst, groupnum, length)
    {
      var index := sst[memberIndex].nReceived[groupnum] + 1;
      freeMessageBuffers := freeMessageBuffers - 1;
      currentReceives := currentReceives[index * config.n + groupnum := Message(groupnum, index, length, BLANK)];
    }

    /** Adds an empty message, and counts one more, for each turn the sender is skipping after `first`. */
    method FileSkippedTurns(groupnum: nat, first: int, pause: nat, received: seq<int>) returns (counts: seq<int>)
      requires groupnum < |received| && received[groupnum] == first
      modifies `locallyStableMessages
      ensures locallyStableMessages == FileSkips(config.n, old(locallyStableMessages), groupnum, first, pause)
      ensures counts == received[groupnum := first + pause]
    {
      counts := received;
      var index := first;
      var sequenceNumber := index * config.n + groupnum;
      var j := 0;
      while j < pause
        invariant 0 <= j <= pause
        invariant index == first + j && sequenceNumber == SeqNo(config.n, groupnum, index)
        invariant counts == received[groupnum := first + j]
        invariant locallyStableMessages == FileSkips(config.n, old(locallyStableMessages), groupnum, first, j)
      {
        index := index + 1;
        sequenceNumber := sequenceNumber + config.n;
        counts := counts[groupnum := counts[groupnum] + 1];
        locallyStableMessages := locallyStableMessages[sequenceNumber := Skipped(groupnum, index)];
        j := j + 1;
      }
    }

    /** Moves the arrived message to the stable map: plain assignment for an own one, emplace otherwise. */
    method FileArrived(groupnum: nat, sequenceNumber: int, body: Body)
      requires Valid() && groupnum < config.n && sequenceNumber == NextNo(config, memberIndex, sst, groupnum)
      requires CanReceive(config, memberIndex, State(), sst, groupnum)
      modifies `locallyStableMessages, `currentSend, `currentReceives
      ensures locallyStableMessages == FileMessage(old(locallyStableMessages), groupnum == memberIndex, sequenceNumber,
                                         Arrived(config, memberIndex, old(State()), sst, groupnum, body))
      ensures currentSend == if groupnum == memberIndex then None else old(currentSend)
      ensures currentReceives == if groupnum == memberIndex then old(currentReceives)
                                 else old(currentReceives) - {sequenceNumber}
    {
      if groupnum == memberIndex {
        locallyStableMessages := locallyStableMessages[sequenceNumber := currentSend.value];
        currentSend := None;
      } else {
        var message := currentReceives[sequenceNumber].(body := body);
        if sequenceNumber !in locallyStableMessages {
          locallyStableMessages := locallyStableMessages[sequenceNumber := message];
        }
        currentReceives := currentReceives - {sequenceNumber};
      }
    }

    method ReceiveHandler(groupnum: nat, body: Body)
      requires Valid() && groupnum < config.n
      requires CanReceive(config, memberIndex, State(), sst, groupnum)
      modifies this
      ensures Valid()
      ensures State() == GroupSpec.ReceiveHandler(config, memberIndex, old(State()), old(sst), groupnum, body)
      ensures sst == old(sst)[memberIndex := AfterReceive(old(sst)[memberIndex],
                       CountsAfter(old(sst), memberIndex, groupnum, body.pause))]
    {
      hide PrefixEnd, FileSkips, FileMessage;
      var row := sst[memberIndex];
      var index := row.nReceived[groupnum] + 1;
      FileArrived(groupnum, index * config.n + groupnum, body);
      var counts := FileSkippedTurns(groupnum, index, body.pause, row.nReceived[groupnum := index]);
      assert counts == CountsAfter(sst, memberIndex, groupnum, body.pause);
      var newSeqNum := InOrderPrefix(counts);
      if newSeqNum > row.seqNum {
        sst := sst[memberIndex := row.(nReceived := counts, seqNum := newSeqNum)];
      } else {
        sst := sst[memberIndex := row.(nReceived := counts)];
      }
    }

    // -------------------------------------------------------------- triggers

    method StabilityTrigger()
      requires Valid()
      modifies `sst
      ensures Valid()
      ensures sst == old(sst)[memberIndex := AfterStability(old(sst), memberIndex)]
    {
      var minSeqNum := sst[0].seqNum;
      var i := 0;
      while i < config.n
        invariant 0 <= i <= config.n
        invariant forall k :: 0 <= k < i ==> minSeqNum <= sst[k].seqNum
        invariant exists k :: 0 <= k < config.n && sst[k].seqNum == minSeqNum
        invariant minSeqNum <= sst[0].seqNum
      {
        if sst[i].seqNum < minSeqNum {
          minSeqNum := sst[i].seqNum;
        }
        i := i + 1;
      }
      var k :| 0 <= k < config.n && sst[k].seqNum == minSeqNum;
      assert SeqNums(sst)[k] == minSeqNum;
      MinUnique(SeqNums(sst), minSeqNum);
      if minSeqNum > sst[memberIndex].stableNum {
        sst := sst[memberIndex := sst[memberIndex].(stableNum := minSeqNum)];
      }
    }

    method DeliverMessage(msg: Message)
      modifies `freeMessageBuffers, `log
      ensures State() == GroupSpec.DeliverMessage(old(State()), msg)
    {
      log := log + [msg];
      if msg.size > 0 {
        freeMessageBuffers := freeMessageBuffers + 1;
      }
    }

    method MinStableNum() returns (least: int)
      requires Valid()
      ensures least == Min(StableNums(sst))
    {
      least := sst[0].stableNum;
      var i := 0;
      while i < config.n
        invariant 0 <= i <= config.n
        invariant forall k :: 0 <= k < i ==> least <= sst[k].stableNum
        invariant exists k :: 0 <= k < config.n && sst[k].stableNum == least
        invariant least <= sst[0].stableNum
      {
        if sst[i].stableNum < least {
          least := sst[i].stableNum;
        }
        i := i + 1;
      }
      var k :| 0 <= k < config.n && sst[k].stableNum == least;
      assert StableNums(sst)[k] == least;
      MinUnique(StableNums(sst), least);
    }

    method DeliveryTrigger()
      requires Valid()
      modifies this
      ensures Valid()
      ensures old(CanDeliver(State(), sst)) ==>
                var q := old(Least(locallyStableMessages));
                State() == DeliverNo(old(State()), q)
                && sst == old(sst)[memberIndex := old(sst)[memberIndex].(deliveredNum := q)]
      ensures !old(CanDeliver(State(), sst)) ==> State() == old(State()) && sst == old(sst)
    {
      hide StableNums, Min;
      var minStableNum := MinStableNum();
      if locallyStableMessages != map[] {
        LeastExists(locallyStableMessages);
        var leastUndelivered :| leastUndelivered in locallyStableMessages
          && forall q :: q in locallyStableMessages ==> leastUndelivered <= q;
        if leastUndelivered <= minStableNum {
          DeliverMessage(locallyStableMessages[leastUndelivered]);
          sst := sst[memberIndex := sst[memberIndex].(deliveredNum := leastUndelivered)];
          locallyStableMessages := locallyStableMessages - {leastUndelivered};
        }
      }
    }

    // -------------------------------------------------------------- the end of a view

    /** deliver_messages_upto: everything filed up to the highest number the trim names. */
    method DeliverMessagesUpto(maxIndices: seq<int>)
      requires Valid() && |maxIndices| == config.n
      modifies this
      ensures Valid() && sst == old(sst)
      ensures State() == DeliverUpto(config, old(State()), sst[memberIndex].deliveredNum, maxIndices)
    {
      var current := sst[memberIndex].deliveredNum;
      var maxSeqNum := current;
      var sender := 0;
      while sender < |maxIndices|
        invariant 0 <= sender <= |maxIndices|
        invariant maxSeqNum == TrimEnd(config.n, current, maxIndices[..sender])
      {
        assert maxIndices[..sender + 1][..sender] == maxIndices[..sender];
        maxSeqNum := Max(maxSeqNum, maxIndices[sender] * config.n + sender);
        sender := sender + 1;
      }
      assert maxIndices[..sender] == maxIndices;
      ghost var was := State();
      var seqNum := current;
      while seqNum <= maxSeqNum
        invariant current <= seqNum <= maxSeqNum + 1
        invariant sst == old(sst)
        invariant DeliverRange(was, current, maxSeqNum) == DeliverRange(State(), seqNum, maxSeqNum)
        decreases maxSeqNum - seqNum
      {
        if seqNum in locallyStableMessages {
          DeliverMessage(locallyStableMessages[seqNum]);
          locallyStableMessages := locallyStableMessages - {seqNum};
        }
        seqNum := seqNum + 1;
      }
    }

    /** The engine stops sending and receiving; it says nothing of it in its row. */
    method Wedge()
      modifies `threadShutdown
      ensures State() == old(State()).(shutdown := true)
    {
      threadShutdown := true;
    }
  }
}
