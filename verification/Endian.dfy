/** 64-bit counts in network byte order: swap64, myhtonll and myntohll, and the bytes of a word in memory. */
module Endian {

  type octet = bv8

  function Swap64(val: bv64): bv64 {
    ((val >> 56) & 0x00000000000000FF) |
    ((val >> 40) & 0x000000000000FF00) |
    ((val >> 24) & 0x0000000000FF0000) |
    ((val >>  8) & 0x00000000FF000000) |
    ((val <<  8) & 0x000000FF00000000) |
    ((val << 24) & 0x0000FF0000000000) |
    ((val << 40) & 0x00FF000000000000) |
    ((val << 56) & 0xFF00000000000000)
  }

  /** The machine a process runs on. */
  datatype Host = LittleEndian | BigEndian

  function MyHtonll(h: Host, a: bv64): bv64 {
    if h.BigEndian? then a else Swap64(a)
  }

  function MyNtohll(h: Host, a: bv64): bv64 {
    MyHtonll(h, a)
  }

  // ----- words in memory -----

  /** The octets of a word, least significant first. */
  function Octets(v: bv64): (b: seq<octet>)
    ensures |b| == 8
  {
    [(v & 0xFF) as bv8, ((v >> 8) & 0xFF) as bv8, ((v >> 16) & 0xFF) as bv8, ((v >> 24) & 0xFF) as bv8,
     ((v >> 32) & 0xFF) as bv8, ((v >> 40) & 0xFF) as bv8, ((v >> 48) & 0xFF) as bv8, ((v >> 56) & 0xFF) as bv8]
  }

  function FromOctets(b: seq<octet>): bv64
    requires |b| == 8
  {
    (b[0] as bv64) | ((b[1] as bv64) << 8) | ((b[2] as bv64) << 16) | ((b[3] as bv64) << 24)
    | ((b[4] as bv64) << 32) | ((b[5] as bv64) << 40) | ((b[6] as bv64) << 48) | ((b[7] as bv64) << 56)
  }

  function Reverse8(b: seq<octet>): (r: seq<octet>)
    requires |b| == 8
    ensures |r| == 8
  {
    [b[7], b[6], b[5], b[4], b[3], b[2], b[1], b[0]]
  }

  /** What a host stores for a word, in address order. */
  function Store(h: Host, v: bv64): (b: seq<octet>)
    ensures |b| == 8
  {
    if h.BigEndian? then Reverse8(Octets(v)) else Octets(v)
  }

  function Load(h: Host, b: seq<octet>): bv64
    requires |b| == 8
  {
    FromOctets(if h.BigEndian? then Reverse8(b) else b)
  }

  lemma SwapTwice(v: bv64)
    ensures Swap64(Swap64(v)) == v
  {
  }

  lemma OctetsOfWord(v: bv64)
    ensures FromOctets(Octets(v)) == v
  {
  }

  lemma WordOfOctets(b: seq<octet>)
    requires |b| == 8
    ensures Octets(FromOctets(b)) == b
  {
    WordOf(b[0], b[1], b[2], b[3], b[4], b[5], b[6], b[7]);
    assert b == [b[0], b[1], b[2], b[3], b[4], b[5], b[6], b[7]];
  }

  lemma WordOf(b0: octet, b1: octet, b2: octet, b3: octet, b4: octet, b5: octet, b6: octet, b7: octet)
    ensures Octets(FromOctets([b0, b1, b2, b3, b4, b5, b6, b7])) == [b0, b1, b2, b3, b4, b5, b6, b7]
  {
  }

  lemma SwapReverses(v: bv64)
    ensures Octets(Swap64(v)) == Reverse8(Octets(v))
  {
  }

  /** Every host puts a word on the wire most significant octet first, and loads it back, whoever sent it. */
  lemma NetworkOrder(h: Host, g: Host, v: bv64)
    ensures Store(h, MyHtonll(h, v)) == Reverse8(Octets(v))
    ensures MyNtohll(g, Load(g, Store(h, MyHtonll(h, v)))) == v
  {
    SwapReverses(v);
    SwapTwice(v);
    OctetsOfWord(v);
    OctetsOfWord(Swap64(v));
  }

  // ----- numbers -----

  /** The octet with value n. */
  function Octet(n: nat): octet
    requires n < 256
  {
    if n == 0 then 0 else Octet(n - 1) + 1
  }

  /** The k low digits of n in base 256, least significant first. */
  function Digits(n: nat, k: nat): (d: seq<octet>)
    ensures |d| == k
  {
    if k == 0 then [] else [Octet(n % 256)] + Digits(n / 256, k - 1)
  }

  function Number(d: seq<octet>): nat {
    if d == [] then 0 else d[0] as nat + 256 * Number(d[1..])
  }

  function Pow256(k: nat): nat {
    if k == 0 then 1 else 256 * Pow256(k - 1)
  }

  lemma Successor(b: octet)
    requires b != 255
    ensures (b + 1) as nat == b as nat + 1
  {
  }

  lemma {:induction false} OctetValue(n: nat)
    requires n < 256
    ensures Octet(n) as nat == n
  {
    if n > 0 {
      OctetValue(n - 1);
      Successor(Octet(n - 1));
    }
  }

  lemma {:induction false} NumberOfDigits(n: nat, k: nat)
    requires n < Pow256(k)
    ensures Number(Digits(n, k)) == n
  {
    if k > 0 {
      OctetValue(n % 256);
      NumberOfDigits(n / 256, k - 1);
      assert ([Octet(n % 256)] + Digits(n / 256, k - 1))[1..] == Digits(n / 256, k - 1);
    }
  }

  /** The 64-bit word with value n, n modulo 2^64. */
  function Word64(n: nat): bv64 {
    FromOctets(Digits(n, 8))
  }

  function Value64(v: bv64): nat {
    Number(Octets(v))
  }

  lemma ValueOfWord(n: nat)
    requires n < Pow256(8)
    ensures Value64(Word64(n)) == n
  {
    NumberOfDigits(n, 8);
    WordOfOctets(Digits(n, 8));
  }
}
