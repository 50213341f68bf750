/** The order of singular values: reversing s and the columns of U and V in place leaves U * diag(s) * V^T unchanged. */
module Svd {

  // ----- positions in a column-major block -----

  function Pos(c: nat, j: nat, nrow: nat): nat {
    c * nrow + j
  }

  lemma PosOrder(c: nat, j: nat, d: nat, k: nat, nrow: nat)
    requires c < d && j < nrow
    ensures Pos(c, j, nrow) < Pos(d, k, nrow)
  {
    assert (c + 1) * nrow <= d * nrow;
  }

  lemma PosInRange(c: nat, j: nat, nrow: nat, ncol: nat)
    requires c < ncol && j < nrow
    ensures Pos(c, j, nrow) < nrow * ncol
  {
    PosOrder(c, j, ncol, 0, nrow);
  }

  lemma PosUnique(c: nat, j: nat, d: nat, k: nat, nrow: nat)
    requires j < nrow && k < nrow && Pos(c, j, nrow) == Pos(d, k, nrow)
    ensures c == d && j == k
  {
    if c < d {
      PosOrder(c, j, d, k, nrow);
    } else if d < c {
      PosOrder(d, k, c, j, nrow);
    }
  }

  lemma PosOf(x: nat, nrow: nat, ncol: nat) returns (c: nat, j: nat)
    requires x < nrow * ncol
    ensures c < ncol && j < nrow && x == Pos(c, j, nrow)
  {
    c, j := x / nrow, x % nrow;
    assert c >= ncol ==> c * nrow >= ncol * nrow;
  }

  predicate Shaped(val: seq<real>, nrow: nat, ncol: nat) {
    |val| == nrow * ncol
  }

  function Elem(val: seq<real>, c: nat, j: nat, nrow: nat, ncol: nat): real
    requires Shaped(val, nrow, ncol) && c < ncol && j < nrow
  {
    PosInRange(c, j, nrow, ncol);
    val[Pos(c, j, nrow)]
  }

  /** Block after has the columns of block before in the opposite order. */
  predicate Mirrored(after: seq<real>, before: seq<real>, nrow: nat, ncol: nat) {
    && Shaped(after, nrow, ncol) && Shaped(before, nrow, ncol)
    && forall c: nat, j: nat :: c < ncol && j < nrow ==>
        Elem(after, c, j, nrow, ncol) == Elem(before, ncol - 1 - c, j, nrow, ncol)
  }

  /** Rearranging twice gives the block back, for every number of columns. */
  lemma MirroredTwice(a: seq<real>, b: seq<real>, d: seq<real>, nrow: nat, ncol: nat)
    requires Mirrored(b, a, nrow, ncol) && Mirrored(d, b, nrow, ncol)
    ensures d == a
  {
    forall x | 0 <= x < |a| ensures d[x] == a[x] {
      var c, j := PosOf(x, nrow, ncol);
      assert Elem(d, c, j, nrow, ncol) == Elem(b, ncol - 1 - c, j, nrow, ncol) == Elem(a, c, j, nrow, ncol);
    }
  }

  function Reversed(s: seq<real>): (r: seq<real>)
    ensures |r| == |s|
    ensures forall k :: 0 <= k < |s| ==> r[k] == s[|s| - 1 - k]
  {
    if s == [] then [] else Reversed(s[1..]) + [s[0]]
  }

  // ----- the loops -----

  method RearrangeVector(vec: array<real>)
    modifies vec
    ensures vec[..] == Reversed(old(vec[..]))
  {
    var size := vec.Length;
    for i := 0 to size / 2
      invariant forall k :: 0 <= k < i ==> vec[k] == old(vec[size - 1 - k]) && vec[size - 1 - k] == old(vec[k])
      invariant forall k :: i <= k < size - i ==> vec[k] == old(vec[k])
    {
      vec[i], vec[size - i - 1] := vec[size - i - 1], vec[i];
    }
    ghost var before := old(vec[..]);
    forall k | 0 <= k < size ensures vec[k] == before[size - 1 - k] {
      if size - size / 2 <= k {
        assert vec[size - 1 - (size - 1 - k)] == old(vec[size - 1 - k]);
      }
    }
  }

  /** Column c has been swapped once i pairs of columns and the first rows of the next pair are done. */
  predicate Swapped(c: nat, j: nat, i: nat, rows: nat, ncol: nat) {
    c < i || c + i >= ncol || (j < rows && (c == i || c + i + 1 == ncol))
  }

  predicate Right(now: seq<real>, before: seq<real>, nrow: nat, ncol: nat, i: nat, rows: nat, c: nat, j: nat)
    requires Shaped(now, nrow, ncol) && Shaped(before, nrow, ncol) && c < ncol && j < nrow
  {
    Elem(now, c, j, nrow, ncol) == Elem(before, if Swapped(c, j, i, rows, ncol) then ncol - 1 - c else c, j, nrow, ncol)
  }

  /** State of the two nested loops. */
  predicate SwappedSoFar(now: seq<real>, before: seq<real>, nrow: nat, ncol: nat, i: nat, rows: nat) {
    && Shaped(now, nrow, ncol) && Shaped(before, nrow, ncol)
    && forall c: nat, j: nat :: c < ncol && j < nrow ==> Right(now, before, nrow, ncol, i, rows, c, j)
  }

  lemma SwapOne(now: seq<real>, before: seq<real>, next: seq<real>, nrow: nat, ncol: nat, i: nat, j: nat)
    requires i < ncol / 2 && j < nrow && SwappedSoFar(now, before, nrow, ncol, i, j)
    requires Pos(i, j, nrow) < |now| && Pos(ncol - 1 - i, j, nrow) < |now|
    requires var x, y := Pos(i, j, nrow), Pos(ncol - 1 - i, j, nrow); next == now[x := now[y]][y := now[x]]
    ensures SwappedSoFar(next, before, nrow, ncol, i, j + 1)
  {
    assert Right(now, before, nrow, ncol, i, j, i, j) && Right(now, before, nrow, ncol, i, j, ncol - 1 - i, j);
    var rows := j + 1;
    forall c: nat, r: nat | c < ncol && r < nrow ensures Right(next, before, nrow, ncol, i, rows, c, r) {
      PosInRange(c, r, nrow, ncol);
      assert Right(now, before, nrow, ncol, i, j, c, r);
      if Pos(c, r, nrow) == Pos(i, j, nrow) {
        PosUnique(c, r, i, j, nrow);
      } else if Pos(c, r, nrow) == Pos(ncol - 1 - i, j, nrow) {
        PosUnique(c, r, ncol - 1 - i, j, nrow);
      }
    }
  }

  lemma NextPair(now: seq<real>, before: seq<real>, nrow: nat, ncol: nat, i: nat)
    requires i < ncol / 2 && SwappedSoFar(now, before, nrow, ncol, i, nrow)
    ensures SwappedSoFar(now, before, nrow, ncol, i + 1, 0)
  {
    var pairs := i + 1;
    forall c: nat, j: nat | c < ncol && j < nrow ensures Right(now, before, nrow, ncol, pairs, 0, c, j) {
      assert Right(now, before, nrow, ncol, i, nrow, c, j);
    }
  }

  lemma AllPairs(now: seq<real>, before: seq<real>, nrow: nat, ncol: nat)
    requires SwappedSoFar(now, before, nrow, ncol, ncol / 2, 0)
    ensures Mirrored(now, before, nrow, ncol)
  {
    forall c: nat, j: nat | c < ncol && j < nrow
      ensures Elem(now, c, j, nrow, ncol) == Elem(before, ncol - 1 - c, j, nrow, ncol)
    {
      assert Right(now, before, nrow, ncol, ncol / 2, 0, c, j);
    }
  }

  method RearrangeColmajor(val: array<real>, nrow: nat, ncol: nat)
    requires Shaped(val[..], nrow, ncol)
    modifies val
    ensures Mirrored(val[..], old(val[..]), nrow, ncol)
  {
    ghost var before := val[..];
    for i := 0 to ncol / 2
      invariant SwappedSoFar(val[..], before, nrow, ncol, i, 0)
    {
      for j := 0 to nrow
        invariant SwappedSoFar(val[..], before, nrow, ncol, i, j)
      {
        PosInRange(i, j, nrow, ncol);
        PosInRange(ncol - 1 - i, j, nrow, ncol);
        var i1 := i * nrow + j;
        var i2 := (ncol - i - 1) * nrow + j;
        ghost var now := val[..];
        var temp := val[i1];
        val[i1] := val[i2];
        val[i2] := temp;
        SwapOne(now, before, val[..], nrow, ncol, i, j);
      }
      NextPair(val[..], before, nrow, ncol, i);
    }
    AllPairs(val[..], before, nrow, ncol);
  }

  // ----- a matrix whose rows are spread over nodes -----

  predicate AllShaped(blocks: seq<array<real>>, nrows: seq<nat>, ncol: nat)
    reads blocks
  {
    && |blocks| == |nrows|
    && (forall p, q :: 0 <= p < q < |blocks| ==> blocks[p] != blocks[q])
    && forall p :: 0 <= p < |blocks| ==> Shaped(blocks[p][..], nrows[p], ncol)
  }

  method RearrangeBlocks(blocks: seq<array<real>>, nrows: seq<nat>, ncol: nat)
    requires AllShaped(blocks, nrows, ncol)
    modifies blocks
    ensures AllShaped(blocks, nrows, ncol)
    ensures forall p :: 0 <= p < |blocks| ==> Mirrored(blocks[p][..], old(blocks[p][..]), nrows[p], ncol)
  {
    for p := 0 to |blocks|
      invariant AllShaped(blocks, nrows, ncol)
      invariant forall q :: 0 <= q < p ==> Mirrored(blocks[q][..], old(blocks[q][..]), nrows[q], ncol)
      invariant forall q :: p <= q < |blocks| ==> blocks[q][..] == old(blocks[q][..])
    {
      RearrangeColmajor(blocks[p], nrows[p], ncol);
    }
  }

  // ----- the product -----

  /** The first n terms of element (j, k) of U * diag(s) * V^T, row j lying in block u and row k in block v. */
  function Partial(u: seq<real>, nu: nat, j: nat, s: seq<real>, v: seq<real>, nv: nat, k: nat, n: nat): real
    requires Shaped(u, nu, |s|) && Shaped(v, nv, |s|) && j < nu && k < nv && n <= |s|
  {
    if n == 0 then 0.0
    else Partial(u, nu, j, s, v, nv, k, n - 1) + Elem(u, n - 1, j, nu, |s|) * s[n - 1] * Elem(v, n - 1, k, nv, |s|)
  }

  function Product(u: seq<real>, nu: nat, j: nat, s: seq<real>, v: seq<real>, nv: nat, k: nat): real
    requires Shaped(u, nu, |s|) && Shaped(v, nv, |s|) && j < nu && k < nv
  {
    Partial(u, nu, j, s, v, nv, k, |s|)
  }

  /** The first n terms of the rearranged product are the last n terms of the original one. */
  lemma {:induction false} TermsReversed(u: seq<real>, u': seq<real>, nu: nat, j: nat, s: seq<real>, s': seq<real>,
                                         v: seq<real>, v': seq<real>, nv: nat, k: nat, n: nat)
    requires s' == Reversed(s) && Mirrored(u', u, nu, |s|) && Mirrored(v', v, nv, |s|)
    requires j < nu && k < nv && n <= |s|
    ensures Partial(u', nu, j, s', v', nv, k, n) + Partial(u, nu, j, s, v, nv, k, |s| - n) ==
            Product(u, nu, j, s, v, nv, k)
  {
    if n > 0 {
      TermsReversed(u, u', nu, j, s, s', v, v', nv, k, n - 1);
      assert s'[n - 1] == s[|s| - n];
      assert Elem(u', n - 1, j, nu, |s|) == Elem(u, |s| - n, j, nu, |s|);
      assert Elem(v', n - 1, k, nv, |s|) == Elem(v, |s| - n, k, nv, |s|);
    }
  }

  /** Every element of the product is what it was. */
  lemma ProductKept(u: seq<real>, u': seq<real>, nu: nat, j: nat, s: seq<real>, s': seq<real>,
                    v: seq<real>, v': seq<real>, nv: nat, k: nat)
    requires s' == Reversed(s) && Mirrored(u', u, nu, |s|) && Mirrored(v', v, nv, |s|) && j < nu && k < nv
    ensures Product(u', nu, j, s', v', nv, k) == Product(u, nu, j, s, v, nv, k)
  {
    TermsReversed(u, u', nu, j, s, s', v, v', nv, k, |s|);
  }

  method RearrangeSvdOutput(s: array<real>, u: seq<array<real>>, uRows: seq<nat>, v: seq<array<real>>, vRows: seq<nat>)
    requires AllShaped(u, uRows, s.Length) && AllShaped(v, vRows, s.Length)
    requires s !in u && s !in v && forall p, q :: 0 <= p < |u| && 0 <= q < |v| ==> u[p] != v[q]
    modifies s, u, v
    ensures AllShaped(u, uRows, s.Length) && AllShaped(v, vRows, s.Length)
    ensures s[..] == Reversed(old(s[..]))
    ensures forall p :: 0 <= p < |u| ==> Mirrored(u[p][..], old(u[p][..]), uRows[p], s.Length)
    ensures forall q :: 0 <= q < |v| ==> Mirrored(v[q][..], old(v[q][..]), vRows[q], s.Length)
    ensures forall p, q, j: nat, k: nat :: 0 <= p < |u| && 0 <= q < |v| && j < uRows[p] && k < vRows[q] ==>
              Product(u[p][..], uRows[p], j, s[..], v[q][..], vRows[q], k) ==
              old(Product(u[p][..], uRows[p], j, s[..], v[q][..], vRows[q], k))
  {
    RearrangeVector(s);
    RearrangeBlocks(u, uRows, s.Length);
    RearrangeBlocks(v, vRows, s.Length);
    forall p, q, j: nat, k: nat | 0 <= p < |u| && 0 <= q < |v| && j < uRows[p] && k < vRows[q]
      ensures Product(u[p][..], uRows[p], j, s[..], v[q][..], vRows[q], k) ==
              old(Product(u[p][..], uRows[p], j, s[..], v[q][..], vRows[q], k))
    {
      ProductKept(old(u[p][..]), u[p][..], uRows[p], j, old(s[..]), s[..], old(v[q][..]), v[q][..], vRows[q], k);
    }
  }

  /** Two outputs whose blocks are mirror images of each other. */
  predicate AllMirrored(after: seq<seq<real>>, before: seq<seq<real>>, nrows: seq<nat>, ncol: nat) {
    && |after| == |before| == |nrows|
    && forall p :: 0 <= p < |before| ==> Mirrored(after[p], before[p], nrows[p], ncol)
  }

  lemma BlocksTwice(a: seq<seq<real>>, b: seq<seq<real>>, d: seq<seq<real>>, nrows: seq<nat>, ncol: nat)
    requires AllMirrored(b, a, nrows, ncol) && AllMirrored(d, b, nrows, ncol)
    ensures d == a
  {
    forall p | 0 <= p < |a| ensures d[p] == a[p] {
      MirroredTwice(a[p], b[p], d[p], nrows[p], ncol);
    }
  }

  /** Rearranging the whole output twice is the identity. */
  lemma RearrangedTwice(s: seq<real>, s1: seq<real>, s2: seq<real>,
                        u: seq<seq<real>>, u1: seq<seq<real>>, u2: seq<seq<real>>, uRows: seq<nat>,
                        v: seq<seq<real>>, v1: seq<seq<real>>, v2: seq<seq<real>>, vRows: seq<nat>)
    requires s1 == Reversed(s) && AllMirrored(u1, u, uRows, |s|) && AllMirrored(v1, v, vRows, |s|)
    requires s2 == Reversed(s1) && AllMirrored(u2, u1, uRows, |s|) && AllMirrored(v2, v1, vRows, |s|)
    ensures s2 == s && u2 == u && v2 == v
  {
    BlocksTwice(u, u1, u2, uRows, |s|);
    BlocksTwice(v, v1, v2, vRows, |s|);
  }
}
