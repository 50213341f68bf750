/** Local compressed-row matrices: rows by offsets, and appending rows. */
module CrsMatrix {

  /** One stored element of a row: column id and value. */
  datatype Entry = Entry(col: nat, val: int)

  /** A local compressed-row matrix: row r holds the elements from off[r] up to off[r+1]. */
  datatype Crs = Crs(idx: seq<nat>, val: seq<int>, off: seq<nat>, cols: nat)

  /** Offsets never go down. */
  predicate Rising(off: seq<nat>) {
    var n := |off| - 1;
    n <= 0 || (off[n - 1] <= off[n] && Rising(off[..n]))
  }

  lemma {:induction false} RisingAt(off: seq<nat>, r: nat, s: nat)
    requires Rising(off) && r <= s < |off|
    ensures off[r] <= off[s]
  {
    var n := |off| - 1;
    if s < n {
      RisingAt(off[..n], r, s);
    } else if r < n {
      RisingAt(off[..n], r, n - 1);
    }
  }

  predicate InRange(s: seq<nat>, n: nat) {
    forall k :: 0 <= k < |s| ==> s[k] < n
  }

  predicate WellFormed(m: Crs) {
    && |m.off| > 0 && m.off[0] == 0 && m.off[|m.off| - 1] == |m.idx| == |m.val|
    && Rising(m.off) && InRange(m.idx, m.cols)
  }

  type Matrix = m: Crs | WellFormed(m) witness Crs([], [], [0], 0)

  /** The elements of row r are all there. */
  lemma RowBounds(m: Matrix, r: nat)
    requires r < |m.off| - 1
    ensures m.off[r] <= m.off[r + 1] <= |m.idx|
  {
    RisingAt(m.off, r, r + 1);
    RisingAt(m.off, r + 1, |m.off| - 1);
  }

  function Part(m: Crs, lo: nat, hi: nat): seq<Entry>
    requires lo <= hi <= |m.idx| && |m.idx| == |m.val|
    decreases hi
  {
    if lo == hi then [] else Part(m, lo, hi - 1) + [Entry(m.idx[hi - 1], m.val[hi - 1])]
  }

  function Row(m: Matrix, r: nat): seq<Entry>
    requires r < |m.off| - 1
  {
    RowBounds(m, r);
    Part(m, m.off[r], m.off[r + 1])
  }

  /** The first n rows. */
  function RowsUpTo(m: Matrix, n: nat): (rows: seq<seq<Entry>>)
    requires n < |m.off|
    ensures |rows| == n
  {
    if n == 0 then [] else RowsUpTo(m, n - 1) + [Row(m, n - 1)]
  }

  function Rows(m: Matrix): seq<seq<Entry>> {
    RowsUpTo(m, |m.off| - 1)
  }

  // ----- building a matrix row by row -----

  function Cols(row: seq<Entry>): (r: seq<nat>)
    ensures |r| == |row|
  {
    if row == [] then [] else Cols(row[..|row| - 1]) + [row[|row| - 1].col]
  }

  function Vals(row: seq<Entry>): (r: seq<int>)
    ensures |r| == |row|
  {
    if row == [] then [] else Vals(row[..|row| - 1]) + [row[|row| - 1].val]
  }

  lemma ColsNext(row: seq<Entry>, e: Entry)
    ensures Cols(row + [e]) == Cols(row) + [e.col]
    ensures Vals(row + [e]) == Vals(row) + [e.val]
  {
    assert (row + [e])[..|row|] == row;
  }

  function Push(m: Matrix, row: seq<Entry>): Crs {
    Crs(m.idx + Cols(row), m.val + Vals(row), m.off + [|row| + m.off[|m.off| - 1]], m.cols)
  }

  predicate ColsBelow(row: seq<Entry>, cols: nat) {
    forall k :: 0 <= k < |row| ==> row[k].col < cols
  }

  lemma {:induction false} ColsInRange(row: seq<Entry>, cols: nat)
    requires ColsBelow(row, cols)
    ensures InRange(Cols(row), cols)
  {
    if row != [] {
      ColsInRange(row[..|row| - 1], cols);
    }
  }

  lemma PushForm(m: Matrix, row: seq<Entry>)
    requires ColsBelow(row, m.cols)
    ensures WellFormed(Push(m, row))
  {
    ColsInRange(row, m.cols);
    assert Push(m, row).off[..|m.off|] == m.off;
  }

  lemma {:induction false} PartOfLonger(m: Crs, idx: seq<nat>, val: seq<int>, off: seq<nat>, lo: nat, hi: nat)
    requires lo <= hi <= |m.idx| == |m.val| && |idx| == |val|
    ensures Part(Crs(m.idx + idx, m.val + val, off, m.cols), lo, hi) == Part(m, lo, hi)
    decreases hi
  {
    if lo < hi {
      PartOfLonger(m, idx, val, off, lo, hi - 1);
    }
  }

  lemma {:induction false} PartOfPushed(m: Matrix, row: seq<Entry>, k: nat)
    requires k <= |row|
    ensures Part(Push(m, row), |m.idx|, |m.idx| + k) == row[..k]
    decreases k
  {
    if k > 0 {
      PartOfPushed(m, row, k - 1);
      ColsAt(row, k - 1);
      assert row[..k] == row[..k - 1] + [row[k - 1]];
    }
  }

  lemma {:induction false} ColsAt(row: seq<Entry>, k: nat)
    requires k < |row|
    ensures Entry(Cols(row)[k], Vals(row)[k]) == row[k]
  {
    if k < |row| - 1 {
      ColsAt(row[..|row| - 1], k);
    }
  }

  lemma {:induction false} RowsOfPushed(m: Matrix, row: seq<Entry>, n: nat)
    requires WellFormed(Push(m, row)) && n < |m.off|
    ensures RowsUpTo(Push(m, row), n) == RowsUpTo(m, n)
  {
    if n > 0 {
      RowsOfPushed(m, row, n - 1);
      RowBounds(m, n - 1);
      PartOfLonger(m, Cols(row), Vals(row), Push(m, row).off, m.off[n - 1], m.off[n]);
    }
  }

  /** Appending a row to the three vectors appends it to the matrix. */
  lemma PushRow(m: Matrix, row: seq<Entry>)
    requires ColsBelow(row, m.cols)
    ensures WellFormed(Push(m, row)) && Rows(Push(m, row)) == Rows(m) + [row]
  {
    PushForm(m, row);
    var n := |m.off| - 1;
    RowsOfPushed(m, row, n);
    PartOfPushed(m, row, |row|);
    assert row[..|row|] == row;
  }
}
