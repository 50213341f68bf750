/** The copy loops of a DMA transfer on arrays: the helper of the client and the helper of the server, block by block,
    each round in the order that the start and finish messages impose. */
module DmaCopy {
  import opened Blocks

  method Memcpy(dst: array<byte>, at: nat, src: array<byte>, from: nat, n: nat)
    requires dst != src && at + n <= dst.Length && from + n <= src.Length
    modifies dst
    ensures dst[..] == Put(old(dst[..]), at, src[from..from + n])
  {
    ghost var before := dst[..];
    for k := 0 to n
      invariant forall j :: 0 <= j < dst.Length ==>
                  dst[j] == if at <= j < at + k then src[from + (j - at)] else before[j]
    {
      dst[at + k] := src[from + k];
    }
    var bytes := src[from..from + n];
    forall j | 0 <= j < dst.Length ensures dst[j] == Put(before, at, bytes)[j] {
      assert at <= j < at + n ==> bytes[j - at] == src[from + (j - at)];
    }
  }

  /** The DMA engine moves whole words between a segment and the server's buffer. */
  method Post(dst: array<byte>, src: array<byte>, n: nat)
    requires dst != src && n % 4 == 0 && n <= dst.Length && n <= src.Length
    modifies dst
    ensures dst[..] == Put(old(dst[..]), 0, src[0..n])
  {
    Memcpy(dst, 0, src, 0, n);
  }

  /** A block that goes through the segment and the server's buffer arrives as it was, padding or not. */
  lemma Through(block: seq<byte>, shm: seq<byte>, buf: seq<byte>, padded: nat)
    requires |block| <= padded <= |shm| == |buf|
    ensures var staged := Put(shm, 0, block);
            var moved := Put(buf, 0, staged[0..padded]);
            moved[0..|block|] == block
  {
  }

  /** One block from src to dst through the segment and the server's buffer. */
  method MoveBlock(src: array<byte>, from: nat, shm: array<byte>, buf: array<byte>, dst: array<byte>, at: nat,
                   len: nat, dmaLen: nat, ghost block: seq<byte>)
    requires src != shm && shm != buf && buf != dst && dst != src && dst != shm && src != buf
    requires from + len <= src.Length && at + len <= dst.Length && len <= dmaLen <= shm.Length == buf.Length
    requires block == src[from..from + len] && dmaLen % 4 == 0
    modifies shm, buf, dst
    ensures dst[..] == Put(old(dst[..]), at, block)
  {
    Through(block, shm[..], buf[..], dmaLen);
    Memcpy(shm, 0, src, from, len);
    assert shm[..][0..dmaLen] == shm[0..dmaLen];
    Post(buf, shm, dmaLen);
    assert buf[..][0..len] == buf[0..len];
    Memcpy(dst, at, buf, 0, len);
  }

  /** Block i of the payload lies in the source. */
  lemma BlockIs(s: seq<byte>, from: nat, p: seq<byte>, i: nat, block: seq<byte>)
    requires from + |p| <= |s| && p == s[from..from + |p|] && i <= NumBlocks(|p|) && block == Block(p, i)
    ensures Offset(i) + Len(|p|, i) <= |p| && |block| == Len(|p|, i)
    ensures block == s[from + Offset(i)..from + Offset(i) + Len(|p|, i)]
  {
    BlocksTile(|p|, i);
    GetGet(s, from, |p|, Offset(i), Len(|p|, i));
  }

  /** The whole of block i, wherever the payload lies in src. */
  lemma BlockInArray(src: array<byte>, from: nat, p: seq<byte>, i: nat)
    requires from + |p| <= src.Length && p == src[from..from + |p|] && i <= NumBlocks(|p|)
    ensures Offset(i) + Len(|p|, i) <= |p|
    ensures Block(p, i) == src[from + Offset(i)..from + Offset(i) + Len(|p|, i)]
  {
    var s := src[..];
    assert p == s[from..from + |p|];
    BlockIs(s, from, p, i, Block(p, i));
    assert s[from + Offset(i)..from + Offset(i) + Len(|p|, i)] == src[from + Offset(i)..from + Offset(i) + Len(|p|, i)];
  }

  lemma NextBlock(before: seq<byte>, at: nat, p: seq<byte>, i: nat, done: nat, len: nat)
    requires i <= NumBlocks(|p|) && at + |p| <= |before| && done == Offset(i) && len == Len(|p|, i)
    ensures done + len <= |p|
    ensures Put(Put(before, at, p[..done]), at + done, Block(p, i)) == Put(before, at, p[..done + len])
  {
    BlocksTile(|p|, i);
    PutBlock(before, at, p, i);
  }

  /** A segment holds whole words. */
  lemma WordsFit(len: nat, dmaLen: nat)
    requires len <= SHM_SIZE && dmaLen % 4 == 0 && len <= dmaLen < len + 4
    ensures dmaLen <= SHM_SIZE
  {
  }

  /** One round of the helpers: block i follows the blocks before it. */
  method Round(src: array<byte>, from: nat, shm: array<byte>, buf: array<byte>, dst: array<byte>, at: nat,
               done: nat, len: nat, dmaLen: nat, ghost p: seq<byte>, ghost before: seq<byte>, ghost i: nat)
    requires src != shm && shm != buf && buf != dst && dst != src && dst != shm && src != buf
    requires from + |p| <= src.Length && p == src[from..from + |p|] && shm.Length == buf.Length == SHM_SIZE
    requires i <= NumBlocks(|p|) && done == Offset(i) && len == Len(|p|, i)
    requires dmaLen % 4 == 0 && len <= dmaLen < len + 4
    requires done <= |p| && at + |p| <= |before| && dst[..] == Put(before, at, p[..done])
    modifies shm, buf, dst
    ensures done + len <= |p| && dst[..] == Put(before, at, p[..done + len])
  {
    BlocksTile(|p|, i);
    BlockInArray(src, from, p, i);
    WordsFit(len, dmaLen);
    NextBlock(before, at, p, i, done, len);
    MoveBlock(src, from + done, shm, buf, dst, at + done, len, dmaLen, Block(p, i));
  }

  /** The loop over the whole blocks. */
  method WholeBlocks(src: array<byte>, from: nat, shm: array<byte>, buf: array<byte>, dst: array<byte>, at: nat,
                     numBlock: nat, ghost p: seq<byte>, ghost before: seq<byte>) returns (done: nat)
    requires src != shm && shm != buf && buf != dst && dst != src && dst != shm && src != buf
    requires from + |p| <= src.Length && p == src[from..from + |p|] && shm.Length == buf.Length == SHM_SIZE
    requires numBlock == NumBlocks(|p|) && at + |p| <= |before| && dst[..] == before
    modifies shm, buf, dst
    ensures done == Offset(numBlock) <= |p| && dst[..] == Put(before, at, p[..done])
  {
    done := 0;
    assert Put(before, at, p[..0]) == before;
    for i := 0 to numBlock
      invariant done == Offset(i) <= |p| && dst[..] == Put(before, at, p[..done])
    {
      BlocksTile(|p|, i);
      Round(src, from, shm, buf, dst, at, done, SHM_SIZE, SHM_SIZE, p, before, i);
      done := done + SHM_SIZE;
    }
  }

  /** exrpc_rawsend_dma_helper with read_dma_helper, or, the other way round, write_dma_helper with
      exrpc_rawrecv_dma_helper: size bytes are copied and nothing else of dst changes. */
  method Transfer(src: array<byte>, from: nat, size: nat, shm: array<byte>, buf: array<byte>, dst: array<byte>, at: nat)
    requires src != shm && shm != buf && buf != dst && dst != src && dst != shm && src != buf
    requires from + size <= src.Length && at + size <= dst.Length && shm.Length == buf.Length == SHM_SIZE
    modifies shm, buf, dst
    ensures dst[..] == Put(old(dst[..]), at, old(src[from..from + size]))
  {
    ghost var before, p := dst[..], src[from..from + size];
    var numBlock := size / SHM_SIZE;
    var done := WholeBlocks(src, from, shm, buf, dst, at, numBlock, p, before);
    var rest := size - SHM_SIZE * numBlock;
    var rest2 := if rest % 4 != 0 then rest + (4 - rest % 4) else rest;
    BlocksTile(size, numBlock);
    Round(src, from, shm, buf, dst, at, done, rest, rest2, p, before, numBlock);
    assert p[..size] == p;
  }
}
