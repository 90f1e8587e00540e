/** The message log: a data file, a metadata file with one record a message, and recovery of the tail. */
module LogFiles {
  import opened Messages

  /** A message to be logged, named by its view, sender and index. */
  datatype Entry = Entry(data: seq<byte>, view: nat, sender: nat, index: nat, cooked: bool)

  datatype Record = Record(view: nat, sender: nat, index: nat, offset: nat, length: nat, cooked: bool)

  // ---------------------------------------------------------------- what a list of messages looks like on disk

  function Data(ms: seq<Entry>): seq<byte> {
    if ms == [] then [] else Data(ms[..|ms| - 1]) + ms[|ms| - 1].data
  }

  function RecordOf(m: Entry, offset: nat): Record {
    Record(m.view, m.sender, m.index, offset, |m.data|, m.cooked)
  }

  function Records(ms: seq<Entry>): (r: seq<Record>)
    ensures |r| == |ms|
  {
    if ms == [] then []
    else Records(ms[..|ms| - 1]) + [RecordOf(ms[|ms| - 1], |Data(ms[..|ms| - 1])|)]
  }

  lemma DataAppend(ms: seq<Entry>, m: Entry)
    ensures Data(ms + [m]) == Data(ms) + m.data
    ensures Records(ms + [m]) == Records(ms) + [RecordOf(m, |Data(ms)|)]
  {
    assert (ms + [m])[..|ms|] == ms;
  }

  lemma {:induction false} DataPrefix(ms: seq<Entry>, k: nat)
    requires k <= |ms|
    ensures Data(ms[..k]) <= Data(ms) && Records(ms[..k]) <= Records(ms)
    decreases |ms|
  {
    if k < |ms| {
      var front := ms[..|ms| - 1];
      DataPrefix(front, k);
      assert front[..k] == ms[..k];
    } else {
      assert ms[..k] == ms;
    }
  }

  /** Record k describes message k: its offset is the length of all data before it. */
  lemma RecordAt(ms: seq<Entry>, k: nat)
    requires k < |ms|
    ensures Records(ms)[k] == RecordOf(ms[k], |Data(ms[..k])|)
    ensures Data(ms[..k + 1]) == Data(ms[..k]) + ms[k].data
  {
    assert ms[..k + 1][..k] == ms[..k];
    DataPrefix(ms, k + 1);
  }

  /** Slicing the data file by record k gives message k. */
  lemma SliceIsMessage(ms: seq<Entry>, k: nat)
    requires k < |ms|
    ensures var r := Records(ms)[k];
            r.offset + r.length <= |Data(ms)| && Data(ms)[r.offset..r.offset + r.length] == ms[k].data
  {
    RecordAt(ms, k);
    DataPrefix(ms, k);
    DataPrefix(ms, k + 1);
  }

  // ---------------------------------------------------------------- the writer

  class FileWriter {
    /** What the data file held when it was opened, and the two files since then. */
    const found: seq<byte>
    var data: seq<byte>
    var metadata: seq<Record>
    var currentOffset: nat
    var pendingWrites: seq<Entry>
    var pendingCallbacks: seq<Entry>
    /** The calls made to message_written_upcall so far. */
    var upcalls: seq<Entry>
    ghost var written: seq<Entry>

    ghost predicate Valid()
      reads this
    {
      && data == found + Data(written) && metadata == Records(written) && currentOffset == |Data(written)|
      && upcalls + pendingCallbacks == written
    }

    constructor (existing: seq<byte>)
      ensures Valid() && found == existing && written == [] && pendingWrites == [] && upcalls == []
    {
      found, data, metadata, currentOffset := existing, existing, [], 0;
      pendingWrites, pendingCallbacks, upcalls, written := [], [], [], [];
    }

    method WriteMessage(m: Entry)
      requires Valid()
      modifies `pendingWrites
      ensures Valid() && pendingWrites == old(pendingWrites) + [m]
    {
      pendingWrites := pendingWrites + [m];
    }

    /** Drain the queue: one record and the data for each message, then its callback is due. */
    method PerformWrites()
      requires Valid()
      modifies `data, `metadata, `currentOffset, `pendingWrites, `pendingCallbacks, `written
      ensures Valid() && pendingWrites == [] && written == old(written) + old(pendingWrites)
    {
      hide Valid, Data, Records;
      while pendingWrites != []
        invariant Valid() && written + pendingWrites == old(written) + old(pendingWrites)
        decreases |pendingWrites|
      {
        WriteFront();
      }
    }

    method WriteFront()
      requires Valid() && pendingWrites != []
      modifies `data, `metadata, `currentOffset, `pendingWrites, `pendingCallbacks, `written
      ensures Valid() && pendingWrites == old(pendingWrites)[1..] && written == old(written) + [old(pendingWrites)[0]]
    {
      hide Data, Records;
      var m := pendingWrites[0];
      pendingWrites := pendingWrites[1..];
      var record := Record(m.view, m.sender, m.index, currentOffset, |m.data|, m.cooked);
      data := data + m.data;
      metadata := metadata + [record];
      currentOffset := currentOffset + |m.data|;
      pendingCallbacks := pendingCallbacks + [m];
      DataAppend(written, m);
      written := written + [m];
    }

    method IssueCallbacks()
      requires Valid()
      modifies `pendingCallbacks, `upcalls
      ensures Valid() && pendingCallbacks == [] && upcalls == written
    {
      while pendingCallbacks != []
        invariant Valid()
        decreases |pendingCallbacks|
      {
        upcalls := upcalls + [pendingCallbacks[0]];
        pendingCallbacks := pendingCallbacks[1..];
      }
    }
  }

  // ---------------------------------------------------------------- runs of the two threads

  /** The writer's queues and files as a value. */
  datatype Writer = Writer(files: seq<Entry>, pendingWrites: seq<Entry>, pendingCallbacks: seq<Entry>, upcalls: seq<Entry>)

  datatype Event = Enqueue(m: Entry) | WriteOne | CallOne

  predicate CanHappen(w: Writer, e: Event) {
    match e
    case Enqueue(_) => true
    case WriteOne => w.pendingWrites != []
    case CallOne => w.pendingCallbacks != []
  }

  function Happen(w: Writer, e: Event): Writer
    requires CanHappen(w, e)
  {
    match e
    case Enqueue(m) => w.(pendingWrites := w.pendingWrites + [m])
    case WriteOne =>
      w.(files := w.files + [w.pendingWrites[0]], pendingWrites := w.pendingWrites[1..],
         pendingCallbacks := w.pendingCallbacks + [w.pendingWrites[0]])
    case CallOne => w.(pendingCallbacks := w.pendingCallbacks[1..], upcalls := w.upcalls + [w.pendingCallbacks[0]])
  }

  predicate Possible(events: seq<Event>)
    decreases |events|, 0
  {
    events == [] ||
    (Possible(events[..|events| - 1]) && CanHappen(Reached(events[..|events| - 1]), events[|events| - 1]))
  }

  function Reached(events: seq<Event>): Writer
    requires Possible(events)
    decreases |events|, 1
  {
    if events == [] then Writer([], [], [], []) else Happen(Reached(events[..|events| - 1]), events[|events| - 1])
  }

  function Enqueued(events: seq<Event>): seq<Entry> {
    if events == [] then []
    else Enqueued(events[..|events| - 1]) + if events[|events| - 1].Enqueue? then [events[|events| - 1].m] else []
  }

  /** However the threads interleave, files and callbacks follow the order in which messages were handed in. */
  lemma {:induction false} OrderKept(events: seq<Event>)
    requires Possible(events)
    ensures var w := Reached(events);
            w.files + w.pendingWrites == Enqueued(events) && w.upcalls + w.pendingCallbacks == w.files
    decreases |events|
  {
    if events != [] {
      OrderKept(events[..|events| - 1]);
    }
  }

  /** Record k bears the names and the flag of the k-th message handed in, and says where its data are. */
  lemma OffsetsFromZero(events: seq<Event>, k: nat)
    requires Possible(events) && k < |Reached(events).files|
    ensures k < |Enqueued(events)|
    ensures var ms, m := Reached(events).files, Enqueued(events)[k]; var r := Records(ms)[k];
            && r.view == m.view && r.sender == m.sender && r.index == m.index && r.cooked == m.cooked
            && r.offset == |Data(Enqueued(events)[..k])| && r.length == |m.data|
            && r.offset + r.length <= |Data(ms)| && Data(ms)[r.offset..r.offset + r.length] == m.data
  {
    OrderKept(events);
    var ms := Reached(events).files;
    RecordAt(ms, k);
    SliceIsMessage(ms, k);
    assert ms[..k] == Enqueued(events)[..k];
  }

  /** More can always be handed in. */
  lemma EnqueuesAnyTime(events: seq<Event>, m: Entry)
    requires Possible(events)
    ensures Possible(events + [Enqueue(m)]) && Enqueued(events + [Enqueue(m)]) == Enqueued(events) + [m]
  {
    assert (events + [Enqueue(m)])[..|events|] == events;
  }

  lemma OneMore(events: seq<Event>, e: Event)
    requires Possible(events) && CanHappen(Reached(events), e) && !e.Enqueue?
    ensures Possible(events + [e]) && Reached(events + [e]) == Happen(Reached(events), e)
    ensures Enqueued(events + [e]) == Enqueued(events)
  {
    assert (events + [e])[..|events|] == events;
  }

  /** At any time the two threads can finish: everything handed in is on disk and has been called back, in order. */
  lemma {:induction false} CanFinish(events: seq<Event>) returns (more: seq<Event>)
    requires Possible(events)
    ensures (forall e :: e in more ==> !e.Enqueue?) && Possible(events + more)
    ensures var w := Reached(events + more); w.files == w.upcalls == Enqueued(events) && w.pendingWrites == w.pendingCallbacks == []
    decreases 2 * |Reached(events).pendingWrites| + |Reached(events).pendingCallbacks|
  {
    hide Enqueued, Possible, Reached;
    OrderKept(events);
    var w := Reached(events);
    if w.pendingWrites == [] && w.pendingCallbacks == [] {
      more := [];
      assert events + [] == events;
    } else {
      var e := if w.pendingWrites != [] then WriteOne else CallOne;
      OneMore(events, e);
      var rest := CanFinish(events + [e]);
      more := [e] + rest;
      assert events + more == (events + [e]) + rest;
    }
  }

  // ---------------------------------------------------------------- the length of the tail

  /** The first record with this name, |records| if there is none. */
  function FindFrom(records: seq<Record>, view: nat, sender: nat, index: nat, k: nat): (i: nat)
    requires k <= |records|
    ensures k <= i <= |records|
    ensures forall j :: k <= j < i ==> !(records[j].view == view && records[j].sender == sender && records[j].index == index)
    ensures i < |records| ==> records[i].view == view && records[i].sender == sender && records[i].index == index
    decreases |records| - k
  {
    if k == |records| || (records[k].view == view && records[k].sender == sender && records[k].index == index) then k
    else FindFrom(records, view, sender, index, k + 1)
  }

  /**
   Where the scan says the target ends.  It starts out standing on (0, 0, 0), so for that
   target it reads nothing; and when it runs off the end it keeps the last record it read.
   */
  function EndOfTarget(records: seq<Record>, view: nat, sender: nat, index: nat): nat {
    if (view, sender, index) == (0, 0, 0) then 0
    else
      var k := FindFrom(records, view, sender, index, 0);
      if k < |records| then records[k].offset + records[k].length
      else if records == [] then 0
      else records[|records| - 1].offset + records[|records| - 1].length
  }

  /** log_tail_length in data mode. */
  method TailLength(records: seq<Record>, fileSize: nat, targetView: nat, targetSender: nat, targetIndex: nat)
    returns (distance: int)
    ensures distance == fileSize - EndOfTarget(records, targetView, targetSender, targetIndex)
  {
    var vid, sender, index := 0, 0, 0;
    var targetOffset, targetSize := 0, 0;
    var at, good := 0, true;
    ghost var goal := FindFrom(records, targetView, targetSender, targetIndex, 0);
    while !(vid == targetView && sender == targetSender && index == targetIndex) && good
      invariant at <= |records| && at <= goal + 1
      invariant at == 0 ==> (vid, sender, index) == (0, 0, 0) && targetOffset + targetSize == 0
      invariant at > 0 ==> (targetView, targetSender, targetIndex) != (0, 0, 0)
      invariant at > 0 ==> (vid, sender, index) == (records[at - 1].view, records[at - 1].sender, records[at - 1].index)
      invariant at > 0 ==> targetOffset + targetSize == records[at - 1].offset + records[at - 1].length
      invariant !good ==> at == |records| && (targetView, targetSender, targetIndex) != (0, 0, 0)
      decreases |records| - at, good
    {
      if at < |records| {
        var record := records[at];
        vid, sender, index := record.view, record.sender, record.index;
        targetOffset, targetSize := record.offset, record.length;
        at := at + 1;
      } else {
        good := false;
      }
    }
    distance := fileSize - (targetOffset + targetSize);
  }

  // ---------------------------------------------------------------- recovery

  /** The target names message k and no other. */
  ghost predicate Names(ms: seq<Entry>, view: nat, sender: nat, index: nat, k: nat) {
    k < |ms| && forall j :: 0 <= j < |ms| ==>
      (ms[j].view == view && ms[j].sender == sender && ms[j].index == index <==> j == k)
  }

  lemma {:induction false} RecordNames(ms: seq<Entry>)
    ensures forall j :: 0 <= j < |ms| ==>
              Records(ms)[j].view == ms[j].view && Records(ms)[j].sender == ms[j].sender && Records(ms)[j].index == ms[j].index
  {
    forall j | 0 <= j < |ms|
      ensures Records(ms)[j].view == ms[j].view && Records(ms)[j].sender == ms[j].sender && Records(ms)[j].index == ms[j].index
    {
      RecordAt(ms, j);
    }
  }

  lemma TargetEnds(ms: seq<Entry>, view: nat, sender: nat, index: nat, k: nat)
    requires Names(ms, view, sender, index, k)
    ensures EndOfTarget(Records(ms), view, sender, index)
         == if (view, sender, index) == (0, 0, 0) then 0 else |Data(ms[..k + 1])|
  {
    RecordNames(ms);
    RecordAt(ms, k);
    var i := FindFrom(Records(ms), view, sender, index, 0);
    assert ms[k].view == view && ms[k].sender == sender && ms[k].index == index;
    assert i == k;
  }

  /** The last `n` bytes of a file. */
  function Tail(data: seq<byte>, n: nat): seq<byte>
    requires n <= |data|
  {
    data[|data| - n..]
  }

  /**
   Recovery.  A log that ends at the target, with the tail of a longer log appended, equals
   the longer log, if and only if the target is not (0, 0, 0) or the log holds no data.
   */
  lemma RecoversIff(ms: seq<Entry>, view: nat, sender: nat, index: nat, k: nat)
    requires Names(ms, view, sender, index, k)
    ensures EndOfTarget(Records(ms), view, sender, index) <= |Data(ms)|
    ensures var tail := |Data(ms)| - EndOfTarget(Records(ms), view, sender, index);
            Data(ms[..k + 1]) + Tail(Data(ms), tail) == Data(ms)
            <==> (view, sender, index) != (0, 0, 0) || Data(ms[..k + 1]) == []
  {
    hide Data, Records, EndOfTarget, Names;
    TargetEnds(ms, view, sender, index, k);
    NamesPlace(ms, view, sender, index, k);
    DataPrefix(ms, k + 1);
    RestoresIff(Data(ms[..k + 1]), Data(ms));
  }

  lemma NamesPlace(ms: seq<Entry>, view: nat, sender: nat, index: nat, k: nat)
    requires Names(ms, view, sender, index, k)
    ensures k < |ms|
  {
  }

  /** What is missing completes a prefix; the whole completes only the empty one. */
  lemma RestoresIff(mine: seq<byte>, all: seq<byte>)
    requires mine <= all
    ensures mine + Tail(all, |all| - |mine|) == all
    ensures mine + Tail(all, |all|) == all <==> mine == []
  {
    assert Tail(all, |all|) == all;
    assert |mine + all| == |mine| + |all|;
  }

  /** A target that is not in the log yields an empty tail, whatever the caller is missing. */
  lemma MissingTargetHasNoTail(ms: seq<Entry>, view: nat, sender: nat, index: nat)
    requires (view, sender, index) != (0, 0, 0)
    requires forall j :: 0 <= j < |ms| ==> !(ms[j].view == view && ms[j].sender == sender && ms[j].index == index)
    ensures EndOfTarget(Records(ms), view, sender, index) == |Data(ms)|
  {
    RecordNames(ms);
    var i := FindFrom(Records(ms), view, sender, index, 0);
    if ms != [] {
      RecordAt(ms, |ms| - 1);
      assert ms[..|ms|] == ms;
    }
  }
}
