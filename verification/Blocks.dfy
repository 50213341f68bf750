/** Byte memory and the block arithmetic of a DMA transfer. */
module Blocks {

  newtype byte = x: int | 0 <= x < 256

  /** Size of one shared segment: DMA_SIZE megabytes. */
  const SHM_SIZE: nat := 64 * 1024 * 1024

  /** Number of whole blocks of a transfer; block NumBlocks(size) is the last, partial one. */
  function NumBlocks(size: nat): nat {
    size / SHM_SIZE
  }

  function Offset(i: nat): nat {
    i * SHM_SIZE
  }

  /** Bytes of payload in block i. */
  function Len(size: nat, i: nat): nat {
    if i < NumBlocks(size) then SHM_SIZE else size % SHM_SIZE
  }

  /** The last block is rounded up to a multiple of 4 before it is handed to the DMA engine. */
  function Padded(rest: nat): nat {
    if rest % 4 != 0 then rest + (4 - rest % 4) else rest
  }

  function DmaLen(size: nat, i: nat): nat {
    if i < NumBlocks(size) then SHM_SIZE else Padded(size % SHM_SIZE)
  }

  /** Memory with bytes b stored at address at; a store that does not fit changes nothing. */
  function Put(m: seq<byte>, at: nat, b: seq<byte>): (r: seq<byte>)
    ensures |r| == |m|
  {
    if at + |b| <= |m| then m[..at] + b + m[at + |b|..] else m
  }

  function Get(m: seq<byte>, at: nat, n: nat): seq<byte> {
    if at + n <= |m| then m[at..at + n] else []
  }

  /** The operating system hands out a new segment filled with zeros. */
  function NewSegment(): (r: seq<byte>)
    ensures |r| == SHM_SIZE
  {
    seq(SHM_SIZE, _ => 0)
  }

  /** Block i of a payload p. */
  function Block(p: seq<byte>, i: nat): seq<byte> {
    Get(p, Offset(i), Len(|p|, i))
  }

  /** The blocks tile the payload: every offset is in range, each block ends where the next begins,
      the last one ends at the end, and the padded length never exceeds the segment. */
  lemma BlocksTile(size: nat, i: nat)
    requires i <= NumBlocks(size)
    ensures Offset(i) + Len(size, i) <= size
    ensures i < NumBlocks(size) ==> Offset(i) + Len(size, i) == Offset(i + 1)
    ensures i == NumBlocks(size) ==> Offset(i) + Len(size, i) == size
    ensures Len(size, i) <= DmaLen(size, i) <= SHM_SIZE
    ensures DmaLen(size, i) < Len(size, i) + 4
  {
    assert size == NumBlocks(size) * SHM_SIZE + size % SHM_SIZE;
  }

  /** The length handed to the DMA engine is the least multiple of 4 that holds the block, whatever its size. */
  lemma PaddedExactly(size: nat, i: nat, n: nat)
    ensures DmaLen(size, i) % 4 == 0
    ensures n % 4 == 0 && Len(size, i) <= n <==> n % 4 == 0 && DmaLen(size, i) <= n
  {
    assert SHM_SIZE % 4 == 0;
  }

  /** Two adjacent stores are one store of the concatenation. */
  lemma PutPut(m: seq<byte>, at: nat, a: seq<byte>, b: seq<byte>)
    requires at + |a| + |b| <= |m|
    ensures Put(Put(m, at, a), at + |a|, b) == Put(m, at, a + b)
  {
  }

  /** Storing block i after the blocks before it extends the stored prefix. */
  lemma PutBlock(m: seq<byte>, at: nat, p: seq<byte>, i: nat)
    requires i <= NumBlocks(|p|) && at + |p| <= |m|
    ensures Offset(i) <= |p|
    ensures Offset(i) + |Block(p, i)| <= |p|
    ensures Put(Put(m, at, p[..Offset(i)]), at + Offset(i), Block(p, i)) == Put(m, at, p[..Offset(i) + |Block(p, i)|])
  {
    BlocksTile(|p|, i);
    PutPut(m, at, p[..Offset(i)], Block(p, i));
    var e := Offset(i) + Len(|p|, i);
    assert p[..Offset(i)] + Block(p, i) == p[..e];
    assert p[..|p|] == p;
  }

  /** A block of a payload is a block of the memory the payload lies in. */
  lemma GetGet(m: seq<byte>, at: nat, n: nat, o: nat, l: nat)
    requires at + n <= |m| && o + l <= n
    ensures Get(Get(m, at, n), o, l) == Get(m, at + o, l)
  {
    forall k | 0 <= k < l ensures Get(Get(m, at, n), o, l)[k] == Get(m, at + o, l)[k] {
      assert m[at..at + n][o + k] == m[at + o + k];
    }
  }
}
