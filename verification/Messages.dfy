/** Messages, and the stream of turns a sender's messages occupy in the global order. */
module Messages {

  newtype byte = b: int | 0 <= b < 256

  datatype Option<+T> = None | Some(value: T)

  /** What a message buffer holds: the header fields a receiver reads, and the payload. */
  datatype Body = Body(pause: nat, cooked: bool, payload: seq<byte>)

  datatype Message = Message(sender: int, index: int, size: nat, body: Body)

  const BLANK := Body(0, false, [])

  /** The entry filed for a turn its sender skips. */
  function Skipped(sender: int, index: int): Message {
    Message(sender, index, 0, BLANK)
  }

  function OneOrNone<T>(o: Option<T>): seq<T> {
    if o.Some? then [o.value] else []
  }

  /** The turns one message takes: its own, then the ones its header says to skip. */
  function Turn(m: Message): (t: seq<Message>)
    ensures |t| == m.body.pause + 1
  {
    [m] + seq(m.body.pause, k requires 0 <= k => Skipped(m.sender, m.index + 1 + k))
  }

  lemma TurnAt(m: Message, d: nat)
    requires d <= m.body.pause
    ensures Turn(m)[d] == if d == 0 then m else Skipped(m.sender, m.index + d)
  {
  }

  /** All turns of a stream of messages, one after another. */
  function Expand(ms: seq<Message>): seq<Message> {
    if ms == [] then [] else Expand(ms[..|ms| - 1]) + Turn(ms[|ms| - 1])
  }

  /** A sender's messages carry its rank, are not empty, and sit at the turns before them. */
  ghost predicate Indexed(sender: int, ms: seq<Message>) {
    forall k :: 0 <= k < |ms| ==>
      ms[k].sender == sender && ms[k].size > 0 && ms[k].index == |Expand(ms[..k])|
  }

  lemma ExpandAppend(ms: seq<Message>, m: Message)
    ensures Expand(ms + [m]) == Expand(ms) + Turn(m)
  {
    assert (ms + [m])[..|ms|] == ms;
  }

  lemma {:induction false} ExpandPrefix(ms: seq<Message>, k: nat)
    requires k <= |ms|
    ensures Expand(ms[..k]) <= Expand(ms)
    decreases |ms|
  {
    if k < |ms| {
      var front := ms[..|ms| - 1];
      ExpandPrefix(front, k);
      assert front[..k] == ms[..k];
    } else {
      assert ms[..k] == ms;
    }
  }

  /** The k-th message and its turns sit right after the turns of the first k messages. */
  lemma ExpandAt(ms: seq<Message>, k: nat)
    requires k < |ms|
    ensures Expand(ms[..k + 1]) == Expand(ms[..k]) + Turn(ms[k])
    ensures Expand(ms[..k + 1]) <= Expand(ms)
  {
    assert ms[..k + 1][..k] == ms[..k];
    ExpandPrefix(ms, k + 1);
  }

  lemma IndexedPrefix(sender: int, ms: seq<Message>, k: nat)
    requires k <= |ms| && Indexed(sender, ms)
    ensures Indexed(sender, ms[..k])
  {
    forall i | 0 <= i < k ensures ms[..k][..i] == ms[..i] {
    }
  }

  lemma IndexedAppend(sender: int, ms: seq<Message>, m: Message)
    requires Indexed(sender, ms)
    requires m.sender == sender && m.size > 0 && m.index == |Expand(ms)|
    ensures Indexed(sender, ms + [m])
  {
    var all := ms + [m];
    forall k | 0 <= k < |all| ensures all[k].index == |Expand(all[..k])| {
      if k < |ms| {
        assert all[..k] == ms[..k];
      } else {
        assert all[..k] == ms;
      }
    }
  }

  /** In an indexed stream the entry at turn i says so. */
  lemma {:induction false} TurnNumbers(sender: int, ms: seq<Message>, i: nat)
    requires Indexed(sender, ms) && i < |Expand(ms)|
    ensures Expand(ms)[i].sender == sender && Expand(ms)[i].index == i
    decreases |ms|
  {
    var last := |ms| - 1;
    if i < |Expand(ms[..last])| {
      IndexedPrefix(sender, ms, last);
      TurnNumbers(sender, ms[..last], i);
    } else {
      var m := ms[last];
      assert m.sender == sender && m.index == |Expand(ms[..last])|;
      TurnAt(m, i - m.index);
    }
  }

  /** Messages further down an indexed stream have larger indices, by at least their distance. */
  lemma {:induction false} IndicesGrow(sender: int, ms: seq<Message>, a: nat, b: nat)
    requires Indexed(sender, ms) && a < b < |ms|
    ensures ms[a].index + 1 + ms[a].body.pause <= ms[b].index
  {
    ExpandAt(ms, a);
    ExpandPrefix(ms[..b], a + 1);
    assert ms[..b][..a + 1] == ms[..a + 1];
  }

  /** The entry at turn i of a stream. */
  function SlotAt(ms: seq<Message>, i: int): Message {
    if 0 <= i < |Expand(ms)| then Expand(ms)[i] else Skipped(0, 0)
  }
}
