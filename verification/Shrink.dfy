/** shrink_mat: rare words and short articles leave a document-term matrix, and what stays keeps its meaning.
    Specification functions and their laws. */
module Shrink {
  import opened CrsMatrix

  /** A negative int compared as size_t is a very large number. */
  const SIZE_MAX: nat := 0xFFFF_FFFF_FFFF_FFFF

  function SizeT(n: int): nat {
    n % (SIZE_MAX + 1)
  }

  /** A threshold below zero is above every count that a machine can hold, any other is what it says. */
  lemma ThresholdIs(n: int, count: nat)
    requires -0x8000_0000 <= n < 0x8000_0000 && count <= SIZE_MAX - 0x8000_0000
    ensures count < SizeT(n) <==> n < 0 || count < n
  {
    if n < 0 {
      assert n % (SIZE_MAX + 1) == n + SIZE_MAX + 1;
    } else {
      assert n % (SIZE_MAX + 1) == n;
    }
  }

  // ----- what the tool promises -----

  /** Elements of a row with column w. */
  function RowCount(row: seq<Entry>, w: nat): nat {
    if row == [] then 0
    else RowCount(row[..|row| - 1], w) + if row[|row| - 1].col == w then 1 else 0
  }

  function Count(rows: seq<seq<Entry>>, w: nat): nat {
    if rows == [] then 0 else Count(rows[..|rows| - 1], w) + RowCount(rows[|rows| - 1], w)
  }

  /** Strictly increasing: every element is below the next one. */
  predicate Increasing(s: seq<nat>) {
    s == [] || (InRange(s[..|s| - 1], s[|s| - 1]) && Increasing(s[..|s| - 1]))
  }

  /** A list of ids or row numbers to leave out. */
  type Ids = s: seq<nat> | Increasing(s) witness []

  lemma IncreasingNext(s: seq<nat>, x: nat)
    requires Increasing(s) && InRange(s, x)
    ensures Increasing(s + [x])
  {
    assert (s + [x])[..|s|] == s;
  }

  lemma {:induction false} IncreasingAt(s: seq<nat>, i: nat, j: nat)
    requires Increasing(s) && i < j < |s|
    ensures s[i] < s[j]
  {
    var n := |s| - 1;
    if j < n {
      IncreasingAt(s[..n], i, j);
    } else {
      assert s[..n][i] == s[i];
    }
  }

  /** The elements of a row that stay. */
  function Keep(row: seq<Entry>, removed: Ids): seq<Entry> {
    if row == [] then []
    else
      var e := row[|row| - 1];
      Keep(row[..|row| - 1], removed) + if e.col in removed then [] else [e]
  }

  /** How many removed ids are below w; removed ids are in increasing order. */
  function Below(removed: Ids, w: nat): nat {
    if removed == [] then 0
    else Below(removed[..|removed| - 1], w) + if removed[|removed| - 1] < w then 1 else 0
  }

  /** The id of a kept word after the removal. */
  function NewId(removed: Ids, w: nat): nat
  {
    BelowBound(removed, w);
    w - Below(removed, w)
  }

  function Renumber(row: seq<Entry>, removed: Ids): (r: seq<Entry>)
    ensures |r| == |row|
  {
    if row == [] then []
    else
      var e := row[|row| - 1];
      Renumber(row[..|row| - 1], removed) + [Entry(NewId(removed, e.col), e.val)]
  }

  /** What becomes of one row: it stays, with new ids, if at least least elements are left. */
  function RowOut(row: seq<Entry>, removed: Ids, least: nat): seq<seq<Entry>>
  {
    if |Keep(row, removed)| < least then [] else [Renumber(Keep(row, removed), removed)]
  }

  function Shrunk(rows: seq<seq<Entry>>, removed: Ids, least: nat): seq<seq<Entry>>
  {
    if rows == [] then []
    else Shrunk(rows[..|rows| - 1], removed, least) + RowOut(rows[|rows| - 1], removed, least)
  }

  /** short lists, in strictly increasing order, the numbers of exactly those rows that do not stay. */
  predicate ShortRows(short: Ids, rows: seq<seq<Entry>>, removed: Ids, least: nat) {
    && InRange(short, |rows|)
    && forall r :: 0 <= r < |rows| ==> (r in short <==> |Keep(rows[r], removed)| < least)
  }

  /** What stays of a list of labels. */
  function Compact<T>(labels: seq<T>, removed: Ids): seq<T> {
    if labels == [] then []
    else
      var n := |labels| - 1;
      Compact(labels[..n], removed) + if n in removed then [] else [labels[n]]
  }

  // ----- ids and labels -----

  lemma {:induction false} BelowBound(removed: Ids, w: nat)
    ensures Below(removed, w) <= w && Below(removed, w) <= |removed|
    ensures forall k :: 0 <= k < |removed| ==> (removed[k] < w <==> k < Below(removed, w))
  {
    if removed != [] {
      var n := |removed| - 1;
      BelowBound(removed[..n], w);
      assert forall k :: 0 <= k < n ==> removed[..n][k] == removed[k];
      IncreasingBound(removed, n);
    }
  }

  lemma {:induction false} IncreasingBound(s: seq<nat>, k: nat)
    requires Increasing(s) && k < |s|
    ensures k <= s[k]
  {
    if k > 0 {
      IncreasingBound(s, k - 1);
      IncreasingAt(s, k - 1, k);
    }
  }

  /** Going past w, the count goes up by one exactly if w is removed. */
  lemma BelowNext(removed: Ids, w: nat)
    ensures Below(removed, w + 1) == Below(removed, w) + if w in removed then 1 else 0
    ensures w in removed <==> Below(removed, w) < |removed| && removed[Below(removed, w)] == w
  {
    BelowBound(removed, w);
    BelowBound(removed, w + 1);
    var b := Below(removed, w);
    assert b < |removed| ==> w <= removed[b];
    if b + 1 < |removed| { IncreasingAt(removed, b, b + 1); }
    var b' := Below(removed, w + 1);
    assert b' < |removed| ==> w + 1 <= removed[b'];
    if w in removed {
      var k :| 0 <= k < |removed| && removed[k] == w;
      assert b <= k < b';
    }
  }

  /** Every removed id in range has been passed at n. */
  lemma BelowAll(removed: Ids, n: nat)
    requires InRange(removed, n)
    ensures Below(removed, n) == |removed| <= n
  {
    BelowBound(removed, n);
  }

  /** New ids keep the order of kept words. */
  lemma {:induction false} NewIdOrder(removed: Ids, v: nat, w: nat)
    requires v < w && v !in removed
    ensures NewId(removed, v) < NewId(removed, w)
  {
    BelowNext(removed, w - 1);
    if v < w - 1 {
      NewIdOrder(removed, v, w - 1);
    }
  }

  /** Every id up to the number of kept words is the new id of one of them. */
  lemma {:induction false} NewIdOnto(removed: Ids, n: nat, k: nat) returns (w: nat)
    requires k < NewId(removed, n)
    ensures w < n && w !in removed && NewId(removed, w) == k
    decreases n
  {
    BelowNext(removed, n - 1);
    if n - 1 !in removed && NewId(removed, n - 1) == k {
      w := n - 1;
    } else {
      w := NewIdOnto(removed, n - 1, k);
    }
  }

  /** Some kept word below n has the new id k. */
  predicate HasId(removed: Ids, n: nat, k: nat)
  {
    exists w: nat :: w < n && w !in removed && NewId(removed, w) == k
  }

  /** The ids of kept words become exactly 0, 1, ..., k - 1, in the same order. */
  lemma IdsBijective(removed: Ids, n: nat)
    requires InRange(removed, n)
    ensures forall v: nat, w: nat :: v < w < n && v !in removed ==> NewId(removed, v) < NewId(removed, w)
    ensures forall w: nat :: w < n && w !in removed ==> NewId(removed, w) < n - |removed|
    ensures forall k: nat :: k < n - |removed| ==> HasId(removed, n, k)
  {
    BelowAll(removed, n);
    forall v: nat, w: nat | v < w < n && v !in removed ensures NewId(removed, v) < NewId(removed, w) {
      NewIdOrder(removed, v, w);
    }
    forall w: nat | w < n && w !in removed ensures NewId(removed, w) < n - |removed| {
      NewIdOrder(removed, w, n);
    }
    forall k: nat | k < n - |removed| ensures HasId(removed, n, k) {
      var w := NewIdOnto(removed, n, k);
    }
  }

  lemma {:induction false} CompactLength<T>(labels: seq<T>, removed: Ids)
    ensures |Compact(labels, removed)| == NewId(removed, |labels|)
  {
    if labels == [] {
      BelowBound(removed, 0);
    } else {
      CompactLength(labels[..|labels| - 1], removed);
      BelowNext(removed, |labels| - 1);
    }
  }

  /** A kept word carries its label along to its new id. */
  lemma {:induction false} CompactAt<T>(labels: seq<T>, removed: Ids, w: nat)
    requires w < |labels| && w !in removed
    ensures NewId(removed, w) < |Compact(labels, removed)|
    ensures Compact(labels, removed)[NewId(removed, w)] == labels[w]
  {
    var n := |labels| - 1;
    CompactLength(labels[..n], removed);
    CompactLength(labels, removed);
    if w < n {
      CompactAt(labels[..n], removed, w);
    }
  }

  lemma {:induction false} KeepFrom(row: seq<Entry>, removed: Ids, k: nat)
    requires k < |Keep(row, removed)|
    ensures Keep(row, removed)[k].col !in removed && Keep(row, removed)[k] in row
  {
    var n := |row| - 1;
    if k < |Keep(row[..n], removed)| {
      KeepFrom(row[..n], removed, k);
    }
  }

  lemma {:induction false} RenumberAt(row: seq<Entry>, removed: Ids, k: nat)
    requires k < |row|
    ensures Renumber(row, removed)[k] == Entry(NewId(removed, row[k].col), row[k].val)
  {
    if k < |row| - 1 {
      RenumberAt(row[..|row| - 1], removed, k);
    }
  }

  /** There is only one such list. */
  lemma {:induction false} ShortRowsUnique(s: Ids, t: Ids, rows: seq<seq<Entry>>, removed: Ids, least: nat)
    requires ShortRows(s, rows, removed, least) && ShortRows(t, rows, removed, least)
    ensures s == t
  {
    SameMembers(s, t);
  }

  lemma {:induction false} SameMembers(s: Ids, t: Ids)
    requires forall x :: x in s <==> x in t
    ensures s == t
  {
    assert s == [] || s[0] in s;
    assert t == [] || t[0] in t;
    if s != [] && t != [] {
      var x, y := s[|s| - 1], t[|t| - 1];
      assert x in t && y in s;
      assert x == y;
      var s', t' := s[..|s| - 1], t[..|t| - 1];
      forall z ensures z in s' <==> z in t' {
        assert z in s <==> z in s' || z == x;
        assert z in t <==> z in t' || z == x;
        assert x !in s' && x !in t';
      }
      SameMembers(s', t');
    }
  }

  // ----- one more row -----

  lemma CountNext(rows: seq<seq<Entry>>, row: seq<Entry>, w: nat)
    ensures Count(rows + [row], w) == Count(rows, w) + RowCount(row, w)
  {
    assert (rows + [row])[..|rows|] == rows;
  }

  lemma ShrunkNext(rows: seq<seq<Entry>>, row: seq<Entry>, removed: Ids, least: nat)
    ensures Shrunk(rows + [row], removed, least) == Shrunk(rows, removed, least) + RowOut(row, removed, least)
  {
    assert (rows + [row])[..|rows|] == rows;
  }

  // ----- several nodes -----

  predicate Fit(parts: seq<Matrix>, cols: nat) {
    forall p :: 0 <= p < |parts| ==> parts[p].cols == cols
  }

  /** All rows of a matrix whose rows are spread over nodes. */
  function AllRows(parts: seq<Matrix>): seq<seq<Entry>> {
    if parts == [] then [] else AllRows(parts[..|parts| - 1]) + Rows(parts[|parts| - 1])
  }

  lemma {:induction false} CountAppend(a: seq<seq<Entry>>, b: seq<seq<Entry>>, w: nat)
    ensures Count(a + b, w) == Count(a, w) + Count(b, w)
  {
    if b == [] {
      assert a + b == a;
    } else {
      var n := |b| - 1;
      assert a + b == a + b[..n] + [b[n]];
      CountAppend(a, b[..n], w);
      CountNext(a + b[..n], b[n], w);
    }
  }

  /** Shrinking the nodes one by one shrinks the whole. */
  lemma {:induction false} ShrunkAppend(a: seq<seq<Entry>>, b: seq<seq<Entry>>, removed: Ids, least: nat)
    ensures Shrunk(a + b, removed, least) == Shrunk(a, removed, least) + Shrunk(b, removed, least)
  {
    if b == [] {
      assert a + b == a;
    } else {
      var n := |b| - 1;
      assert a + b == a + b[..n] + [b[n]];
      ShrunkAppend(a, b[..n], removed, least);
      ShrunkNext(a + b[..n], b[n], removed, least);
    }
  }
}
