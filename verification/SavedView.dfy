/**
 Saving views so that a crash cannot lose them: each view is written to a swap file, which
 then replaces the main file; loading takes the newer of the two that is complete.
 */
module SavedView {
  import opened Messages
  import opened Bytes

  /** How a view is turned into bytes and back, and the number it carries. */
  datatype Codec<!V> = Codec(encode: V -> seq<byte>, decode: seq<byte> -> V, vid: V -> int)

  ghost predicate Faithful<V(!new)>(k: Codec<V>) {
    forall v :: k.decode(k.encode(v)) == v && IsWord(|k.encode(v)|)
  }

  datatype Disk = Disk(main: Option<seq<byte>>, swap: Option<seq<byte>>)

  /** How far one persist_view got: not started; cut after some bytes; rename refused; or through. */
  datatype Progress = NotBegun | Cut(bytes: nat) | RenameRefused | Renamed

  function Content<V>(k: Codec<V>, v: V): seq<byte> {
    Word(|k.encode(v)|) + k.encode(v)
  }

  function Least(a: nat, b: nat): nat {
    if a < b then a else b
  }

  function Persisted<V>(k: Codec<V>, d: Disk, v: V, p: Progress): Disk {
    match p
    case NotBegun => d
    case Cut(n) => d.(swap := Some(Content(k, v)[..Least(n, |Content(k, v)|)]))
    case RenameRefused => d.(swap := Some(Content(k, v)))
    case Renamed => Disk(Some(Content(k, v)), None)
  }

  /** What a file holds: the size, then that many bytes; nothing if it is cut short. */
  function ReadFile<V>(k: Codec<V>, file: Option<seq<byte>>): Option<V> {
    if file.None? || |file.value| < WORD then None
    else
      var size := ReadLe(file.value, 0, WORD);
      if |file.value| < WORD + size then None else Some(k.decode(file.value[WORD..WORD + size]))
  }

  function Load<V>(k: Codec<V>, d: Disk): Option<V> {
    var view, swap := ReadFile(k, d.main), ReadFile(k, d.swap);
    if swap.None? || (view.Some? && k.vid(view.value) >= k.vid(swap.value)) then view else swap
  }

  class ViewStore<V> {
    const codec: Codec<V>
    var disk: Disk

    constructor (k: Codec<V>, d: Disk)
      ensures codec == k && disk == d
    {
      codec, disk := k, d;
    }

    /** persist_view: `room` bytes reach the disk before the crash, if any; rename may be refused. */
    method PersistView(view: V, room: Option<nat>, renames: bool)
      modifies this
      ensures disk == Persisted(codec, old(disk), view,
                        if room.Some? then Cut(room.value) else if renames then Renamed else RenameRefused)
    {
      disk := disk.(swap := Some([]));
      var size := Word(|codec.encode(view)|);
      var first := if room.Some? then Least(room.value, |size|) else |size|;
      disk := disk.(swap := Some(disk.swap.value + size[..first]));
      var body := codec.encode(view);
      var second := if room.Some? then Least(room.value - first, |body|) else |body|;
      disk := disk.(swap := Some(disk.swap.value + body[..second]));
      if room.Some? {
        assert disk.swap.value == Content(codec, view)[..Least(room.value, |Content(codec, view)|)];
        return;
      }
      assert disk.swap.value == Content(codec, view);
      if renames {
        disk := Disk(disk.swap, None);
      }
    }

    method ReadSaved(file: Option<seq<byte>>) returns (view: Option<V>)
      ensures view == ReadFile(codec, file)
    {
      view := None;
      if file.Some? && |file.value| >= WORD {
        var size := ReadLe(file.value, 0, WORD);
        if |file.value| >= WORD + size {
          view := Some(codec.decode(file.value[WORD..WORD + size]));
        }
      }
    }

    method LoadView() returns (view: Option<V>)
      ensures view == Load(codec, disk)
    {
      var main := ReadSaved(disk.main);
      var swap := ReadSaved(disk.swap);
      if swap.None? || (main.Some? && codec.vid(main.value) >= codec.vid(swap.value)) {
        return main;
      }
      return swap;
    }
  }

  // ---------------------------------------------------------------- reading what was written

  lemma ReadComplete<V(!new)>(k: Codec<V>, v: V)
    requires Faithful(k)
    ensures ReadFile(k, Some(Content(k, v))) == Some(v)
  {
    var body := k.encode(v);
    assert IsWord(|body|) && k.decode(body) == v;
    ReadBack([], |body|, WORD, body);
    assert [] + Word(|body|) + body == Content(k, v);
    assert Content(k, v)[WORD..WORD + |body|] == body;
  }

  /** A file cut anywhere short of its end reads as nothing. */
  lemma ReadCut<V(!new)>(k: Codec<V>, v: V, n: nat)
    requires Faithful(k) && n < |Content(k, v)|
    ensures ReadFile(k, Some(Content(k, v)[..n])) == None
  {
    var body := k.encode(v);
    assert IsWord(|body|) && k.decode(body) == v;
    if n >= WORD {
      ReadBack([], |body|, WORD, body);
      assert [] + Word(|body|) + body == Content(k, v);
      assert Content(k, v)[..n][0..WORD] == Content(k, v)[0..WORD];
    }
  }

  /** Whatever is on the disk, loading gives one of the whole views there, none of them newer, and the main file's if they are as new. */
  lemma LoadsNewest<V>(k: Codec<V>, d: Disk)
    ensures var main, swap, loaded := ReadFile(k, d.main), ReadFile(k, d.swap), Load(k, d);
            && (loaded.None? <==> main.None? && swap.None?)
            && (loaded == main || loaded == swap)
            && (main.Some? ==> k.vid(loaded.value) >= k.vid(main.value))
            && (swap.Some? ==> k.vid(loaded.value) >= k.vid(swap.value))
            && (main.Some? && swap.Some? && k.vid(main.value) == k.vid(swap.value) ==> loaded == main)
  {
    hide ReadFile;
  }

  // ---------------------------------------------------------------- any sequence of attempts

  datatype Attempt<V> = Attempt(view: V, progress: Progress)

  function After<V>(k: Codec<V>, tries: seq<Attempt<V>>): Disk {
    if tries == [] then Disk(None, None)
    else
      var last := tries[|tries| - 1];
      Persisted(k, After(k, tries[..|tries| - 1]), last.view, last.progress)
  }

  /** The whole view reached the swap file. */
  predicate Completed<V>(k: Codec<V>, t: Attempt<V>) {
    match t.progress
    case NotBegun => false
    case Cut(n) => n >= |Content(k, t.view)|
    case _ => true
  }

  /** The view whose swap write was the last to complete. */
  function LastCompleted<V>(k: Codec<V>, tries: seq<Attempt<V>>): Option<V> {
    if tries == [] then None
    else
      var last := tries[|tries| - 1];
      if Completed(k, last) then Some(last.view) else LastCompleted(k, tries[..|tries| - 1])
  }

  /**
   A later write has cut into the swap file while it still held the only copy of the last
   completed view, because that view's file was never renamed.
   */
  predicate Overwritten<V>(k: Codec<V>, tries: seq<Attempt<V>>) {
    tries != [] &&
    var last := tries[|tries| - 1];
    match last.progress
    case NotBegun => Overwritten(k, tries[..|tries| - 1])
    case Cut(_) => !Completed(k, last) && (Unrenamed(k, tries[..|tries| - 1]) || Overwritten(k, tries[..|tries| - 1]))
    case _ => false
  }

  /** The last completed view is in the swap file, whole. */
  predicate Unrenamed<V>(k: Codec<V>, tries: seq<Attempt<V>>) {
    tries != [] &&
    var last := tries[|tries| - 1];
    match last.progress
    case NotBegun => Unrenamed(k, tries[..|tries| - 1])
    case Cut(_) => Completed(k, last)
    case RenameRefused => true
    case Renamed => false
  }

  ghost predicate Increasing<V>(k: Codec<V>, tries: seq<Attempt<V>>) {
    forall i, j :: 0 <= i < j < |tries| ==> k.vid(tries[i].view) < k.vid(tries[j].view)
  }

  /** The last view whose rename went through. */
  function LastRenamed<V>(k: Codec<V>, tries: seq<Attempt<V>>): Option<V> {
    if tries == [] then None
    else
      var last := tries[|tries| - 1];
      if last.progress.Renamed? then Some(last.view) else LastRenamed(k, tries[..|tries| - 1])
  }

  lemma {:induction false} DiskIs<V(!new)>(k: Codec<V>, tries: seq<Attempt<V>>)
    requires Faithful(k)
    ensures ReadFile(k, After(k, tries).main) == LastRenamed(k, tries)
    ensures ReadFile(k, After(k, tries).swap) == if Unrenamed(k, tries) then LastCompleted(k, tries) else None
    decreases |tries|
  {
    hide ReadFile, Content, Faithful;
    NothingRead(k);
    if tries != [] {
      var last := tries[|tries| - 1];
      DiskIs(k, tries[..|tries| - 1]);
      ReadComplete(k, last.view);
      if last.progress.Cut? {
        if last.progress.bytes < |Content(k, last.view)| {
          ReadCut(k, last.view, last.progress.bytes);
        } else {
          assert Content(k, last.view)[..|Content(k, last.view)|] == Content(k, last.view);
        }
      }
    }
  }

  lemma NothingRead<V>(k: Codec<V>)
    ensures ReadFile(k, None) == None
  {
  }

  /** While the last completed view is not renamed, or has been cut into, the renamed one is older. */
  lemma {:induction false} RenamedIsOlder<V>(k: Codec<V>, tries: seq<Attempt<V>>)
    requires Increasing(k, tries)
    ensures Unrenamed(k, tries) || Overwritten(k, tries) ==>
              LastCompleted(k, tries).Some?
              && (LastRenamed(k, tries).Some? ==> k.vid(LastRenamed(k, tries).value) < k.vid(LastCompleted(k, tries).value))
    ensures !Unrenamed(k, tries) && !Overwritten(k, tries) ==> LastRenamed(k, tries) == LastCompleted(k, tries)
    ensures !(Unrenamed(k, tries) && Overwritten(k, tries))
    decreases |tries|
  {
    if tries != [] {
      var front, last := tries[..|tries| - 1], tries[|tries| - 1];
      assert Increasing(k, front) by {
        forall i, j | 0 <= i < j < |front| ensures k.vid(front[i].view) < k.vid(front[j].view) {
          assert tries[i] == front[i] && tries[j] == front[j];
        }
      }
      RenamedIsOlder(k, front);
      RenamedAmong(k, front);
      if LastRenamed(k, front).Some? {
        var i :| 0 <= i < |front| && front[i].view == LastRenamed(k, front).value;
        assert k.vid(tries[i].view) < k.vid(tries[|tries| - 1].view);
      }
    }
  }

  lemma {:induction false} RenamedAmong<V>(k: Codec<V>, tries: seq<Attempt<V>>)
    ensures LastRenamed(k, tries).Some? ==> exists i :: 0 <= i < |tries| && tries[i].view == LastRenamed(k, tries).value
    decreases |tries|
  {
    if tries != [] {
      var front := tries[..|tries| - 1];
      RenamedAmong(k, front);
      if LastRenamed(k, front).Some? {
        var i :| 0 <= i < |front| && front[i].view == LastRenamed(k, front).value;
        assert tries[i].view == LastRenamed(k, front).value;
      }
      assert tries[|tries| - 1].view == tries[|tries| - 1].view;
    }
  }

  /**
   Crash safety.  After any attempts with increasing view numbers, each cut at any byte,
   before or after its rename, or refused its rename, loading gives the last view whose swap
   write completed, if and only if no later write has cut into a swap file that was still
   waiting for its rename.
   */
  lemma LoadsLastCompletedIff<V(!new)>(k: Codec<V>, tries: seq<Attempt<V>>)
    requires Faithful(k) && Increasing(k, tries)
    ensures Load(k, After(k, tries)) == LastCompleted(k, tries) <==> !Overwritten(k, tries)
  {
    hide ReadFile, Content, Faithful, Increasing, Unrenamed, Overwritten, LastCompleted, LastRenamed, After;
    DiskIs(k, tries);
    RenamedIsOlder(k, tries);
  }

  /** In particular if every write but the last has been renamed: one crash loses nothing. */
  lemma OneCrashIsSafe<V(!new)>(k: Codec<V>, tries: seq<Attempt<V>>)
    requires Faithful(k) && Increasing(k, tries)
    requires forall i :: 0 <= i < |tries| - 1 ==> tries[i].progress.Renamed?
    ensures Load(k, After(k, tries)) == LastCompleted(k, tries)
  {
    LoadsLastCompletedIff(k, tries);
    if |tries| >= 2 {
      var front := tries[..|tries| - 1];
      assert front[|front| - 1] == tries[|tries| - 2];
    }
  }

  /**
   What two mishaps in a row do: a view is renamed, the next is refused its rename, and the
   write of a third is cut short.  The second, the last to be completed, is gone, and the
   first is loaded in its place.
   */
  lemma RefusedThenCut<V(!new)>(k: Codec<V>, v0: V, v1: V, v2: V, n: nat)
    requires Faithful(k) && k.vid(v0) < k.vid(v1) < k.vid(v2) && n < |Content(k, v2)|
    ensures var tries := [Attempt(v0, Renamed), Attempt(v1, RenameRefused), Attempt(v2, Cut(n))];
            && Increasing(k, tries) && Overwritten(k, tries)
            && LastCompleted(k, tries) == Some(v1) && Load(k, After(k, tries)) == Some(v0)
  {
    hide ReadFile, Content, Faithful;
    var one, two := [Attempt(v0, Renamed)], [Attempt(v0, Renamed), Attempt(v1, RenameRefused)];
    var tries := [Attempt(v0, Renamed), Attempt(v1, RenameRefused), Attempt(v2, Cut(n))];
    assert tries[..2] == two && two[..1] == one && one[..0] == [];
    assert LastRenamed(k, one) == Some(v0) && LastRenamed(k, two) == Some(v0);
    DiskIs(k, tries);
  }
}
