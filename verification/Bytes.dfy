/** Numbers laid out in memory, lowest byte first. */
module Bytes {
  import opened Messages

  function Pow256(width: nat): nat {
    if width == 0 then 1 else 256 * Pow256(width - 1)
  }

  function Le(n: nat, width: nat): (b: seq<byte>)
    ensures |b| == width
  {
    if width == 0 then [] else [(n % 256) as byte] + Le(n / 256, width - 1)
  }

  function FromLe(b: seq<byte>): nat {
    if b == [] then 0 else b[0] as nat + 256 * FromLe(b[1..])
  }

  /** A number that fits its width is read back. */
  lemma {:induction false} LeRoundTrip(n: nat, width: nat)
    requires n < Pow256(width)
    ensures FromLe(Le(n, width)) == n
    decreases width
  {
    if width > 0 {
      LeRoundTrip(n / 256, width - 1);
      assert Le(n, width)[1..] == Le(n / 256, width - 1);
    }
  }

  /** sizeof(std::size_t) == sizeof(long) == 8, sizeof(node_id_t) == 4. */
  const WORD := 8
  const NODE_ID := 4

  function Word(n: nat): (b: seq<byte>)
    ensures |b| == WORD
  {
    Le(n, WORD)
  }

  /** The number in the `width` bytes at `at`. */
  function ReadLe(b: seq<byte>, at: nat, width: nat): nat
    requires at + width <= |b|
  {
    FromLe(b[at..at + width])
  }

  predicate IsWord(n: nat) {
    n < Pow256(WORD)
  }

  predicate IsNodeId(n: nat) {
    n < Pow256(NODE_ID)
  }

  /** Byte i counts for 256 to the power i: to change it changes the number by that much for each unit. */
  lemma {:induction false} ByteWeight(b: seq<byte>, i: nat, x: byte)
    requires i < |b|
    ensures FromLe(b[i := x]) == FromLe(b) + (x as int - b[i] as int) * Pow256(i)
    decreases |b|
  {
    if i > 0 {
      ByteWeight(b[1..], i - 1, x);
      assert b[i := x][1..] == b[1..][i - 1 := x];
      Regroup(x as int - b[i] as int, Pow256(i - 1));
    } else {
      assert b[i := x][1..] == b[1..];
    }
  }

  lemma Regroup(d: int, p: int)
    ensures 256 * (d * p) == d * (256 * p)
  {
  }

  /** Words are the 64-bit numbers, and node ids the 32-bit ones. */
  lemma WordRange(n: nat)
    ensures IsWord(n) <==> n < 0x1_0000_0000_0000_0000
    ensures IsNodeId(n) <==> n < 0x1_0000_0000
  {
    PowerLimits();
  }

  lemma PowerLimits()
    ensures Pow256(4) == 0x1_0000_0000 && Pow256(8) == 0x1_0000_0000_0000_0000
  {
    assert Pow256(2) == 0x1_0000;
    assert Pow256(4) == 0x1_0000 * Pow256(2);
    assert Pow256(6) == 0x1_0000 * Pow256(4);
    assert Pow256(8) == 0x1_0000 * Pow256(6);
  }

  lemma ReadBack(before: seq<byte>, n: nat, width: nat, after: seq<byte>)
    requires n < Pow256(width)
    ensures ReadLe(before + Le(n, width) + after, |before|, width) == n
  {
    LeRoundTrip(n, width);
    assert (before + Le(n, width) + after)[|before|..|before| + width] == Le(n, width);
  }
}
