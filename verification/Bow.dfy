/** convert_bow_data: bag-of-words triples become a sparse matrix through a dense window of documents. */
module Bow {
  import opened CrsMatrix
  import opened Sequences

  // ----- appending one matrix to another -----

  function Rebased(off: seq<nat>, base: nat): (r: seq<nat>)
    ensures |r| == |off|
  {
    if off == [] then [] else Rebased(off[..|off| - 1], base) + [off[|off| - 1] + base]
  }

  lemma {:induction false} RebasedAt(off: seq<nat>, base: nat, k: nat)
    requires k < |off|
    ensures Rebased(off, base)[k] == off[k] + base
  {
    if k < |off| - 1 {
      RebasedAt(off[..|off| - 1], base, k);
    }
  }

  /** The vectors after m2 has been appended. */
  function Appended(m1: Matrix, m2: Matrix): Crs {
    Crs(m1.idx + m2.idx, m1.val + m2.val, m1.off + Rebased(m2.off[1..], |m1.idx|), m1.cols)
  }

  lemma RebasedNext(off: seq<nat>, x: nat, base: nat)
    ensures Rebased(off + [x], base) == Rebased(off, base) + [x + base]
  {
    assert (off + [x])[..|off|] == off;
  }

  lemma RisingNext(s: seq<nat>, x: nat)
    requires Rising(s) && (s == [] || s[|s| - 1] <= x)
    ensures Rising(s + [x])
  {
    assert (s + [x])[..|s|] == s;
  }

  /** The last offset of those joined so far. */
  lemma RebasedLast(a: seq<nat>, off: seq<nat>, base: nat)
    requires a != [] && a[|a| - 1] == base && off != [] && off[0] == 0
    ensures var s := a + Rebased(off[1..], base); s[|s| - 1] == off[|off| - 1] + base
  {
    if |off| > 1 {
      RebasedAt(off[1..], base, |off| - 2);
    }
  }

  lemma {:induction false} RisingJoin(a: seq<nat>, off: seq<nat>, base: nat)
    requires a != [] && Rising(a) && a[|a| - 1] == base && off != [] && off[0] == 0 && Rising(off)
    ensures Rising(a + Rebased(off[1..], base))
  {
    if |off| == 1 {
      assert a + Rebased(off[1..], base) == a;
    } else {
      var n := |off| - 1;
      var front := off[..n];
      RisingJoin(a, front, base);
      assert off == front + [off[n]] && off[1..] == front[1..] + [off[n]];
      RebasedNext(front[1..], off[n], base);
      RebasedLast(a, front, base);
      RisingNext(a + Rebased(front[1..], base), off[n] + base);
      Regroup(a, Rebased(front[1..], base), [off[n] + base]);
    }
  }

  lemma AppendedOffset(m1: Matrix, m2: Matrix, k: nat)
    requires k < |m2.off|
    ensures Appended(m1, m2).off[|m1.off| - 1 + k] == |m1.idx| + m2.off[k]
  {
    if k > 0 {
      RebasedAt(m2.off[1..], |m1.idx|, k - 1);
    }
  }

  lemma RangeJoin(a: seq<nat>, b: seq<nat>, n: nat)
    requires InRange(a, n) && InRange(b, n)
    ensures InRange(a + b, n)
  {
  }

  lemma AppendedForm(m1: Matrix, m2: Matrix)
    requires m1.cols == m2.cols
    ensures WellFormed(Appended(m1, m2))
  {
    RisingJoin(m1.off, m2.off, |m1.idx|);
    RangeJoin(m1.idx, m2.idx, m1.cols);
    AppendedOffset(m1, m2, |m2.off| - 1);
  }

  lemma {:induction false} PartOfSecond(m1: Matrix, m2: Matrix, lo: nat, hi: nat)
    requires lo <= hi <= |m2.idx|
    ensures Part(Appended(m1, m2), |m1.idx| + lo, |m1.idx| + hi) == Part(m2, lo, hi)
    decreases hi
  {
    if lo < hi {
      PartOfSecond(m1, m2, lo, hi - 1);
    }
  }

  /** Row k of the second matrix is row k of the appended part. */
  lemma RowOfSecond(m1: Matrix, m2: Matrix, k: nat)
    requires WellFormed(Appended(m1, m2)) && k + 1 < |m2.off|
    ensures Row(Appended(m1, m2), |m1.off| - 1 + k) == Row(m2, k)
  {
    AppendedOffset(m1, m2, k);
    AppendedOffset(m1, m2, k + 1);
    RowBounds(m2, k);
    PartOfSecond(m1, m2, m2.off[k], m2.off[k + 1]);
  }

  lemma RowOfFirst(m1: Matrix, m2: Matrix, r: nat)
    requires WellFormed(Appended(m1, m2)) && r + 1 < |m1.off|
    ensures Row(Appended(m1, m2), r) == Row(m1, r)
  {
    RowBounds(m1, r);
    PartOfLonger(m1, m2.idx, m2.val, Appended(m1, m2).off, m1.off[r], m1.off[r + 1]);
  }

  /** p has the rows of m1 followed by the rows of m2. */
  predicate RowsJoined(p: Matrix, m1: Matrix, m2: Matrix) {
    && |p.off| + 1 == |m1.off| + |m2.off|
    && (forall r :: 0 <= r < |m1.off| - 1 ==> Row(p, r) == Row(m1, r))
    && (forall k :: 0 <= k < |m2.off| - 1 ==> Row(p, |m1.off| - 1 + k) == Row(m2, k))
  }

  lemma AppendedRows(m1: Matrix, m2: Matrix)
    requires m1.cols == m2.cols
    ensures WellFormed(Appended(m1, m2)) && RowsJoined(Appended(m1, m2), m1, m2)
  {
    AppendedForm(m1, m2);
    forall r | 0 <= r < |m1.off| - 1 ensures Row(Appended(m1, m2), r) == Row(m1, r) {
      RowOfFirst(m1, m2, r);
    }
    forall k | 0 <= k < |m2.off| - 1 ensures Row(Appended(m1, m2), |m1.off| - 1 + k) == Row(m2, k) {
      RowOfSecond(m1, m2, k);
    }
  }

  lemma NextRebased(before: seq<nat>, off: seq<nat>, r: nat, base: nat)
    requires 1 <= r < |off|
    ensures before + Rebased(off[1..r + 1], base) == before + Rebased(off[1..r], base) + [off[r] + base]
  {
    RebasedNext(off[1..r], off[r], base);
    assert off[1..r + 1] == off[1..r] + [off[r]];
    Regroup(before, Rebased(off[1..r], base), [off[r] + base]);
  }

  /** A sparse matrix that grows in place. */
  class SparseMatrix {
    var idx: seq<nat>
    var val: seq<int>
    var off: seq<nat>
    const cols: nat

    ghost predicate Valid()
      reads this
    {
      WellFormed(Crs(idx, val, off, cols))
    }

    function Contents(): Matrix
      requires Valid()
      reads this
    {
      Crs(idx, val, off, cols)
    }

    constructor (cols: nat)
      ensures Valid() && Contents() == Crs([], [], [0], cols)
    {
      this.cols := cols;
      idx, val, off := [], [], [0];
    }

    method Assign(m: Matrix)
      requires m.cols == cols
      modifies this
      ensures Valid() && Contents() == m
    {
      idx, val, off := m.idx, m.val, m.off;
    }

    method AppendElements(m2: Matrix)
      modifies this`idx, this`val
      ensures idx == old(idx) + m2.idx && val == old(val) + m2.val
    {
      for i := 0 to |m2.idx|
        invariant idx == old(idx) + m2.idx[..i] && val == old(val) + m2.val[..i]
      {
        idx := idx + [m2.idx[i]];
        val := val + [m2.val[i]];
      }
    }

    method AppendOffsets(m2: Matrix)
      requires off != []
      modifies this`off
      ensures off == old(off) + Rebased(m2.off[1..], old(off)[|old(off)| - 1])
    {
      var currElement := off[|off| - 1];
      for r := 1 to |m2.off|
        invariant off == old(off) + Rebased(m2.off[1..r], currElement)
      {
        NextRebased(old(off), m2.off, r, currElement);
        off := off + [m2.off[r] + currElement];
      }
      assert m2.off[1..|m2.off|] == m2.off[1..];
    }

    /** append_crs_matrix: the rows of m2 follow the rows so far. */
    method Append(m2: Matrix)
      requires Valid() && m2.cols == cols
      modifies this
      ensures Valid() && RowsJoined(Contents(), old(Contents()), m2)
    {
      AppendedRows(Contents(), m2);
      AppendElements(m2);
      AppendOffsets(m2);
    }
  }
}
