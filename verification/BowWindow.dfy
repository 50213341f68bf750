/** The windowed conversion loop of convert_bow_data against the direct conversion of each document. */
module BowWindow {
  import opened Bow
  import opened CrsMatrix
  import opened Multiples

  /** A line of the input with zero-based ids. */
  datatype Triple = Triple(doc: nat, word: nat, count: int)

  // ----- direct conversion -----

  function Zeros(voc: nat): (z: seq<int>)
    ensures |z| == voc
  {
    if voc == 0 then [] else Zeros(voc - 1) + [0]
  }

  /** Document d as a dense row: the last count given for each word, 0 for the others. */
  function DenseRow(ts: seq<Triple>, d: nat, voc: nat): (row: seq<int>)
    ensures |row| == voc
  {
    if ts == [] then Zeros(voc)
    else
      var t := ts[|ts| - 1];
      var row := DenseRow(ts[..|ts| - 1], d, voc);
      if t.doc == d && t.word < voc then row[t.word := t.count] else row
  }

  /** The non-zero elements of a dense row, by column. */
  function SparseRow(dense: seq<int>): seq<Entry> {
    if dense == [] then []
    else
      var n := |dense| - 1;
      SparseRow(dense[..n]) + if dense[n] != 0 then [Entry(n, dense[n])] else []
  }

  function Direct(ts: seq<Triple>, d: nat, voc: nat): seq<Entry> {
    SparseRow(DenseRow(ts, d, voc))
  }

  lemma DenseNext(ts: seq<Triple>, t: Triple, d: nat, voc: nat)
    ensures DenseRow(ts + [t], d, voc) ==
            if t.doc == d && t.word < voc then DenseRow(ts, d, voc)[t.word := t.count] else DenseRow(ts, d, voc)
  {
    assert (ts + [t])[..|ts|] == ts;
  }

  predicate AllBefore(ts: seq<Triple>, d: nat) {
    forall i :: 0 <= i < |ts| ==> ts[i].doc < d
  }

  lemma {:induction false} DenseUntouched(ts: seq<Triple>, d: nat, voc: nat)
    requires AllBefore(ts, d)
    ensures DenseRow(ts, d, voc) == Zeros(voc)
  {
    if ts != [] {
      DenseUntouched(ts[..|ts| - 1], d, voc);
    }
  }

  lemma {:induction false} SparseBelow(dense: seq<int>)
    ensures ColsBelow(SparseRow(dense), |dense|)
  {
    if dense != [] {
      SparseBelow(dense[..|dense| - 1]);
    }
  }

  /** The columns of a sparse row increase strictly. */
  lemma {:induction false} SparseSorted(dense: seq<int>, i: nat, j: nat)
    requires i < j < |SparseRow(dense)|
    ensures SparseRow(dense)[i].col < SparseRow(dense)[j].col
  {
    var n := |dense| - 1;
    SparseBelow(dense[..n]);
    if j < |SparseRow(dense[..n])| {
      SparseSorted(dense[..n], i, j);
    }
  }

  /** A sparse row lists exactly the non-zero elements. */
  lemma {:induction false} SparseMembers(dense: seq<int>, e: Entry)
    ensures e in SparseRow(dense) <==> e.col < |dense| && dense[e.col] == e.val && e.val != 0
  {
    if dense != [] {
      SparseMembers(dense[..|dense| - 1], e);
    }
  }

  /** Every (document, word) pair occurs once. */
  predicate DistinctPairs(ts: seq<Triple>) {
    forall i, j :: 0 <= i < j < |ts| ==> ts[i].doc != ts[j].doc || ts[i].word != ts[j].word
  }

  /** With distinct pairs, element w of row d is the count of the triple (d, w), if there is one. */
  lemma {:induction false} DenseIs(ts: seq<Triple>, d: nat, voc: nat, w: nat, k: nat)
    requires DistinctPairs(ts) && w < voc && k < |ts| && ts[k].doc == d && ts[k].word == w
    ensures DenseRow(ts, d, voc)[w] == ts[k].count
  {
    var n := |ts| - 1;
    if k < n {
      DenseIs(ts[..n], d, voc, w, k);
    }
  }

  lemma {:induction false} DenseIsNot(ts: seq<Triple>, d: nat, voc: nat, w: nat)
    requires w < voc && forall i :: 0 <= i < |ts| ==> ts[i].doc != d || ts[i].word != w
    ensures DenseRow(ts, d, voc)[w] == 0
  {
    if ts == [] {
      ZeroAt(voc, w);
    } else {
      DenseIsNot(ts[..|ts| - 1], d, voc, w);
    }
  }

  lemma {:induction false} ZeroAt(voc: nat, w: nat)
    requires w < voc
    ensures Zeros(voc)[w] == 0
  {
    if w < voc - 1 {
      ZeroAt(voc - 1, w);
    }
  }

  /** With distinct pairs, ids in range and positive counts, row d holds exactly the words and counts of document d. */
  lemma DirectHolds(ts: seq<Triple>, d: nat, voc: nat, w: nat, c: int)
    requires DistinctPairs(ts) && forall i :: 0 <= i < |ts| ==> ts[i].word < voc && ts[i].count > 0
    ensures Entry(w, c) in Direct(ts, d, voc) <==> Triple(d, w, c) in ts
  {
    SparseMembers(DenseRow(ts, d, voc), Entry(w, c));
    if w < voc {
      if k :| 0 <= k < |ts| && ts[k].doc == d && ts[k].word == w {
        DenseIs(ts, d, voc, w, k);
        assert ts[k] in ts;
      } else {
        DenseIsNot(ts, d, voc, w);
      }
    }
  }

  // ----- to_crs -----

  function ToCrs(rows: seq<seq<int>>, voc: nat): (m: Matrix)
    requires forall r :: 0 <= r < |rows| ==> |rows[r]| == voc
    ensures m.cols == voc && |m.off| == |rows| + 1
  {
    if rows == [] then Crs([], [], [0], voc)
    else
      var n := |rows| - 1;
      var m := ToCrs(rows[..n], voc);
      SparseBelow(rows[n]);
      PushForm(m, SparseRow(rows[n]));
      Push(m, SparseRow(rows[n]))
  }

  lemma {:induction false} ToCrsRow(rows: seq<seq<int>>, voc: nat, r: nat)
    requires (forall k :: 0 <= k < |rows| ==> |rows[k]| == voc) && r < |rows|
    ensures Row(ToCrs(rows, voc), r) == SparseRow(rows[r])
  {
    var n := |rows| - 1;
    var m := ToCrs(rows[..n], voc);
    SparseBelow(rows[n]);
    PushForm(m, SparseRow(rows[n]));
    if r < n {
      ToCrsRow(rows[..n], voc, r);
      PushedRow(m, SparseRow(rows[n]), r);
    } else {
      PushedLast(m, SparseRow(rows[n]));
    }
  }

  lemma PushedRow(m: Matrix, row: seq<Entry>, r: nat)
    requires WellFormed(Push(m, row)) && r < |m.off| - 1
    ensures Row(Push(m, row), r) == Row(m, r)
  {
    RowBounds(m, r);
    PartOfLonger(m, Cols(row), Vals(row), Push(m, row).off, m.off[r], m.off[r + 1]);
  }

  lemma PushedLast(m: Matrix, row: seq<Entry>)
    requires WellFormed(Push(m, row))
    ensures Row(Push(m, row), |m.off| - 1) == row
  {
    PartOfPushed(m, row, |row|);
    assert row[..|row|] == row;
  }

  // ----- the window -----

  function Min(a: int, b: int): int {
    if a < b then a else b
  }

  predicate Uniform(rows: seq<seq<int>>, voc: nat) {
    forall r :: 0 <= r < |rows| ==> |rows[r]| == voc
  }

  /** Row r of the window holds document base + r, as far as the window reaches. */
  predicate Window(rows: seq<seq<int>>, base: nat, n: nat, ts: seq<Triple>, voc: nat) {
    forall r :: 0 <= r < n && r < |rows| ==> rows[r] == DenseRow(ts, base + r, voc)
  }

  /** Row d of a sparse matrix is the direct conversion of document d, for the first n documents. */
  predicate Converted(m: Matrix, n: nat, ts: seq<Triple>, voc: nat) {
    |m.off| == n + 1 && forall d :: 0 <= d < n ==> Row(m, d) == Direct(ts, d, voc)
  }

  /** The next triple is about the last document or the one after it. */
  predicate Follows(ts: seq<Triple>, t: Triple) {
    if ts == [] then t.doc == 0 else ts[|ts| - 1].doc <= t.doc <= ts[|ts| - 1].doc + 1
  }

  /** Documents are consecutive, non-empty and in order. */
  predicate InOrder(ts: seq<Triple>) {
    ts == [] || (Follows(ts[..|ts| - 1], ts[|ts| - 1]) && InOrder(ts[..|ts| - 1]))
  }

  /** The last document so far. */
  function Last(ts: seq<Triple>): int {
    if ts == [] then -1 else ts[|ts| - 1].doc
  }

  lemma {:induction false} LastIsLargest(ts: seq<Triple>)
    requires InOrder(ts)
    ensures AllBefore(ts, Last(ts) + 1)
  {
    if ts != [] {
      LastIsLargest(ts[..|ts| - 1]);
    }
  }

  lemma ConvertedStays(m: Matrix, n: nat, ts: seq<Triple>, t: Triple, voc: nat)
    requires Converted(m, n, ts, voc) && t.doc >= n
    ensures Converted(m, n, ts + [t], voc)
  {
    forall d | 0 <= d < n ensures Row(m, d) == Direct(ts + [t], d, voc) {
      DenseNext(ts, t, d, voc);
    }
  }

  lemma WindowPut(rows: seq<seq<int>>, base: nat, n: nat, ts: seq<Triple>, t: Triple, voc: nat)
    requires Uniform(rows, voc) && Window(rows, base, n, ts, voc)
    requires base <= t.doc < base + |rows| && t.word < voc
    ensures var i := t.doc - base; var next := rows[i := rows[i][t.word := t.count]];
            Uniform(next, voc) && Window(next, base, n, ts + [t], voc)
  {
    var i := t.doc - base;
    var next := rows[i := rows[i][t.word := t.count]];
    forall r | 0 <= r < n && r < |next| ensures next[r] == DenseRow(ts + [t], base + r, voc) {
      DenseNext(ts, t, base + r, voc);
    }
  }

  function Blank(n: nat, voc: nat): (rows: seq<seq<int>>)
    ensures |rows| == n && Uniform(rows, voc) && forall r :: 0 <= r < n ==> rows[r] == Zeros(voc)
  {
    if n == 0 then [] else Blank(n - 1, voc) + [Zeros(voc)]
  }

  lemma WindowBlank(base: nat, size: nat, n: nat, ts: seq<Triple>, voc: nat)
    requires AllBefore(ts, base)
    ensures Window(Blank(size, voc), base, n, ts, voc)
  {
    forall r | 0 <= r < n && r < size ensures Blank(size, voc)[r] == DenseRow(ts, base + r, voc) {
      DenseUntouched(ts, base + r, voc);
    }
  }

  /** Row k of a converted window is the direct conversion of document base + k. */
  predicate ConvertedFrom(w: Matrix, base: nat, n: nat, ts: seq<Triple>, voc: nat) {
    |w.off| == n + 1 && forall k :: 0 <= k < n ==> Row(w, k) == Direct(ts, base + k, voc)
  }

  lemma WindowConverts(base: nat, rows: seq<seq<int>>, n: nat, ts: seq<Triple>, voc: nat)
    requires Uniform(rows, voc) && Window(rows, base, n, ts, voc) && n == |rows|
    ensures ConvertedFrom(ToCrs(rows, voc), base, n, ts, voc)
  {
    forall k | 0 <= k < n ensures Row(ToCrs(rows, voc), k) == Direct(ts, base + k, voc) {
      ToCrsRow(rows, voc, k);
      assert rows[k] == DenseRow(ts, base + k, voc);
    }
  }

  /** The first window is all there is. */
  lemma WindowAlone(w: Matrix, n: nat, ts: seq<Triple>, voc: nat)
    requires ConvertedFrom(w, 0, n, ts, voc)
    ensures Converted(w, n, ts, voc)
  {
  }

  predicate RowIs(m: Matrix, base: nat, k: nat, ts: seq<Triple>, voc: nat) {
    base + k < |m.off| - 1 && Row(m, base + k) == Direct(ts, base + k, voc)
  }

  lemma EarlierRow(p: Matrix, m: Matrix, w: Matrix, base: nat, ts: seq<Triple>, voc: nat, d: nat)
    requires Converted(m, base, ts, voc) && RowsJoined(p, m, w) && d < base && |w.off| > 0
    ensures RowIs(p, 0, d, ts, voc)
  {
    assert Row(p, d) == Row(m, d);
  }

  lemma LaterRow(p: Matrix, m: Matrix, w: Matrix, base: nat, n: nat, ts: seq<Triple>, voc: nat, k: nat)
    requires |m.off| == base + 1 && ConvertedFrom(w, base, n, ts, voc) && RowsJoined(p, m, w) && k < n
    ensures RowIs(p, base, k, ts, voc)
  {
    var r := |m.off| - 1 + k;
    assert r == base + k;
    assert Row(p, r) == Row(w, k);
    assert Row(w, k) == Direct(ts, base + k, voc);
  }

  /** A window appended to what is converted so far converts the documents of the window. */
  lemma WindowAppended(p: Matrix, m: Matrix, w: Matrix, base: nat, n: nat, ts: seq<Triple>, voc: nat)
    requires Converted(m, base, ts, voc) && ConvertedFrom(w, base, n, ts, voc) && RowsJoined(p, m, w)
    ensures Converted(p, base + n, ts, voc)
  {
    forall d: nat | d < base ensures RowIs(p, 0, d, ts, voc) {
      EarlierRow(p, m, w, base, ts, voc, d);
    }
    forall k: nat | k < n ensures RowIs(p, base, k, ts, voc) {
      LaterRow(p, m, w, base, n, ts, voc, k);
    }
    forall d | 0 <= d < base + n ensures Row(p, d) == Direct(ts, d, voc) {
      if d < base {
        assert RowIs(p, 0, d, ts, voc);
      } else {
        assert base + (d - base) == d;
        assert RowIs(p, base, d - base, ts, voc);
      }
    }
  }

  lemma PartOfWindow(rows: seq<seq<int>>, base: nat, n: nat, ts: seq<Triple>, voc: nat)
    requires Uniform(rows, voc) && Window(rows, base, n, ts, voc) && n <= |rows|
    ensures Uniform(rows[..n], voc) && Window(rows[..n], base, n, ts, voc)
  {
  }

  /** One half of the data, training or test: the dense window, the sparse matrix so far, and the counters.
      seen is history: the triples put in so far. */
  class Half {
    const total: nat
    const voc: nat
    const window: nat
    const capacity: nat
    const sparse: SparseMatrix
    var rows: seq<seq<int>>
    var left: nat
    var loops: nat
    ghost var seen: seq<Triple>

    function Base(): nat
      requires loops > 0
      reads this`loops
    {
      Multiple(loops - 1, window)
    }

    ghost predicate Counters()
      reads this`rows, this`left, this`loops, this`seen
    {
      && loops > 0 && Base() < total && left == Min(total - Base(), window) && window > 0
      && Uniform(rows, voc) && |rows| == (if loops == 1 then capacity else left)
      && (loops > 1 ==> window <= capacity)
      && InOrder(seen) && Last(seen) < total
      && Base() - 1 <= Last(seen) < Base() + window && Last(seen) - Base() < |rows|
    }

    /** Between two lines the last document lies in the window. */
    ghost predicate Settled()
      requires loops > 0
      reads this`loops, this`seen
    {
      seen == [] || Base() <= Last(seen)
    }

    ghost predicate Valid()
      reads this, sparse
    {
      && Counters() && sparse.Valid() && sparse.cols == voc
      && Window(rows, Base(), left, seen, voc)
      && Converted(sparse.Contents(), Base(), seen, voc)
    }

    constructor (total: nat, voc: nat, window: nat, capacity: nat)
      requires total > 0 && window > 0
      ensures Valid() && Settled() && fresh(sparse) && seen == []
      ensures this.total == total && this.voc == voc && this.window == window && this.capacity == capacity
    {
      this.total, this.voc, this.window, this.capacity := total, voc, window, capacity;
      sparse := new SparseMatrix(voc);
      rows := Blank(capacity, voc);
      left := Min(total, window);
      loops := 1;
      seen := [];
      new;
      WindowBlank(0, capacity, left, [], voc);
    }

    /** to_crs on the window, kept or appended. */
    method Flush()
      requires Valid() && left <= |rows|
      modifies sparse
      ensures sparse.Valid() && Converted(sparse.Contents(), Base() + left, seen, voc)
    {
      ghost var before := sparse.Contents();
      var part := rows[..left];
      PartOfWindow(rows, Base(), left, seen, voc);
      var tmp := ToCrs(part, voc);
      WindowConverts(Base(), part, left, seen, voc);
      if loops == 1 {
        WindowAlone(tmp, left, seen, voc);
        sparse.Assign(tmp);
      } else {
        sparse.Append(tmp);
        WindowAppended(sparse.Contents(), before, tmp, Base(), left, seen, voc);
      }
    }

    /** One line of the input: it goes into the window, or the window is flushed and the next one begins. The answer
        is false if the element lies outside the buffer. */
    method Put(t: Triple) returns (ok: bool)
      requires Valid() && Settled() && Follows(seen, t) && t.doc < total && t.word < voc
      modifies this, sparse
      ensures ok ==> Valid() && Settled() && seen == old(seen) + [t]
      ensures ok || capacity < Min(total, window)
    {
      MultipleIsProduct(loops, window);
      MultipleIsProduct(loops - 1, window);
      if t.doc < window * loops {
        ok := PutInside(t, t.doc - (loops - 1) * window);
      } else {
        var docIdx := t.doc - loops * window;
        Advance(total - window * loops);
        ok := PutInside(t, docIdx);
      }
    }

    method PutInside(t: Triple, docIdx: nat) returns (ok: bool)
      requires Valid() && Follows(seen, t) && t.doc < total && t.word < voc
      requires t.doc == Base() + docIdx && docIdx < window
      modifies this`rows, this`seen
      ensures ok ==> Valid() && Settled() && seen == old(seen) + [t]
      ensures ok || capacity < Min(total, window)
    {
      ok := docIdx < |rows|;
      if ok {
        WindowPut(rows, Base(), left, seen, t, voc);
        ConvertedStays(sparse.Contents(), Base(), seen, t, voc);
        assert (seen + [t])[..|seen|] == seen;
        rows := rows[docIdx := rows[docIdx][t.word := t.count]];
        seen := seen + [t];
      }
    }

    /** The next window, after the current one is full; remaining documents are still to come. */
    method Advance(remaining: nat)
      requires Valid() && Last(seen) == Base() + window - 1 && Base() + window + remaining == total && remaining > 0
      modifies this, sparse
      ensures Valid() && seen == old(seen) && Base() == old(Base()) + window
    {
      Flush();
      LastIsLargest(seen);
      left := Min(remaining, window);
      WindowBlank(Base() + window, left, left, seen, voc);
      rows := Blank(left, voc);
      loops := loops + 1;
    }

    /** After the last line: every document is converted. */
    method Finish()
      requires Valid() && Last(seen) == total - 1
      modifies sparse
      ensures sparse.Valid() && Converted(sparse.Contents(), total, seen, voc)
      ensures capacity >= Min(total, window)
    {
      Flush();
    }
  }

  // ----- the main loop -----

  /** The triples of the test half, and those of the training half with documents counted from its first one. */
  function TestPart(ts: seq<Triple>, test: nat): seq<Triple> {
    if ts == [] then []
    else TestPart(ts[..|ts| - 1], test) + if ts[|ts| - 1].doc < test then [ts[|ts| - 1]] else []
  }

  function TrainPart(ts: seq<Triple>, test: nat): seq<Triple> {
    if ts == [] then []
    else
      var t := ts[|ts| - 1];
      TrainPart(ts[..|ts| - 1], test) + if t.doc < test then [] else [Triple(t.doc - test, t.word, t.count)]
  }

  lemma PartsNext(ts: seq<Triple>, t: Triple, test: nat)
    ensures TestPart(ts + [t], test) == TestPart(ts, test) + if t.doc < test then [t] else []
    ensures TrainPart(ts + [t], test) ==
            TrainPart(ts, test) + if t.doc < test then [] else [Triple(t.doc - test, t.word, t.count)]
  {
    assert (ts + [t])[..|ts|] == ts;
  }

  /** The last document of each half follows from the last document of all. */
  lemma {:induction false} PartsLast(ts: seq<Triple>, test: nat)
    requires InOrder(ts)
    ensures Last(TestPart(ts, test)) == Min(Last(ts), test - 1)
    ensures Last(TrainPart(ts, test)) == if Last(ts) < test then -1 else Last(ts) - test
  {
    if ts != [] {
      var n := |ts| - 1;
      PartsLast(ts[..n], test);
      PartsNext(ts[..n], ts[n], test);
      assert ts == ts[..n] + [ts[n]];
    }
  }

  lemma PartsFollow(ts: seq<Triple>, t: Triple, test: nat)
    requires InOrder(ts) && Follows(ts, t)
    ensures t.doc < test ==> Follows(TestPart(ts, test), t)
    ensures t.doc >= test ==> Follows(TrainPart(ts, test), Triple(t.doc - test, t.word, t.count))
  {
    PartsLast(ts, test);
  }

  /** The input as the format promises it: consecutive documents in order, all of them present, word ids in range. */
  predicate ValidInput(ts: seq<Triple>, docs: nat, voc: nat) {
    InOrder(ts) && Last(ts) == docs - 1 && forall i :: 0 <= i < |ts| ==> ts[i].word < voc
  }

  lemma {:induction false} OrderedFront(ts: seq<Triple>, i: nat)
    requires InOrder(ts) && i < |ts|
    ensures InOrder(ts[..i]) && Follows(ts[..i], ts[i]) && ts[i].doc <= Last(ts)
  {
    var n := |ts| - 1;
    if i < n {
      OrderedFront(ts[..n], i);
      assert ts[..n][..i] == ts[..i];
    } else {
      assert ts[..n] == ts[..i];
    }
  }

  /** The element goes to the training half. */
  method PutTrain(train: Half, t: Triple, test: nat, ghost ts: seq<Triple>)
    requires train.Valid() && train.Settled() && train.capacity >= Min(train.total, train.window)
    requires train.seen == TrainPart(ts, test) && InOrder(ts) && Follows(ts, t)
    requires test <= t.doc < test + train.total && t.word < train.voc
    modifies train, train.sparse
    ensures train.Valid() && train.Settled() && train.seen == TrainPart(ts + [t], test)
  {
    PartsFollow(ts, t, test);
    PartsNext(ts, t, test);
    var ok := train.Put(Triple(t.doc - test, t.word, t.count));
  }

  /** The element goes to the test half. */
  method PutTest(tests: Half, t: Triple, ghost ts: seq<Triple>) returns (ok: bool)
    requires tests.Valid() && tests.Settled()
    requires tests.seen == TestPart(ts, tests.total) && InOrder(ts) && Follows(ts, t)
    requires t.doc < tests.total && t.word < tests.voc
    modifies tests, tests.sparse
    ensures ok ==> tests.Valid() && tests.Settled() && tests.seen == TestPart(ts + [t], tests.total)
    ensures ok || tests.capacity < Min(tests.total, tests.window)
  {
    PartsFollow(ts, t, tests.total);
    PartsNext(ts, t, tests.total);
    ok := tests.Put(t);
  }

  /** Both halves after the lines ts. */
  ghost predicate Both(train: Half, tests: Half, ts: seq<Triple>, test: nat)
    reads train, train.sparse, tests, tests.sparse
  {
    && train.Valid() && train.Settled() && train.seen == TrainPart(ts, test)
    && tests.Valid() && tests.Settled() && (test > 0 ==> tests.seen == TestPart(ts, test))
  }

  /** One line goes to one half. */
  method Dispatch(train: Half, tests: Half, t: Triple, test: nat, ghost ts: seq<Triple>) returns (ok: bool)
    requires train != tests && train.sparse != tests.sparse && Both(train, tests, ts, test)
    requires train.capacity >= Min(train.total, train.window) && (test > 0 ==> tests.total == test)
    requires InOrder(ts) && Follows(ts, t) && t.doc < test + train.total && t.word < train.voc == tests.voc
    modifies train, train.sparse, tests, tests.sparse
    ensures ok ==> Both(train, tests, ts + [t], test)
    ensures ok || (test > 0 && tests.capacity < Min(test, tests.window))
  {
    PartsNext(ts, t, test);
    if t.doc < test {
      ok := PutTest(tests, t, ts);
    } else {
      PutTrain(train, t, test, ts);
      ok := true;
    }
  }

  method PutAll(train: Half, tests: Half, ts: seq<Triple>, docs: nat, test: nat) returns (ok: bool)
    requires train != tests && train.sparse != tests.sparse && Both(train, tests, [], test)
    requires train.capacity >= Min(train.total, train.window) && (test > 0 ==> tests.total == test)
    requires train.total + test == docs && train.voc == tests.voc && ValidInput(ts, docs, train.voc)
    modifies train, train.sparse, tests, tests.sparse
    ensures ok ==> Both(train, tests, ts, test)
    ensures ok || (test > 0 && tests.capacity < Min(test, tests.window))
  {
    for i := 0 to |ts|
      invariant Both(train, tests, ts[..i], test)
    {
      OrderedFront(ts, i);
      assert ts[..i + 1] == ts[..i] + [ts[i]];
      ok := Dispatch(train, tests, ts[i], test, ts[..i]);
      if !ok {
        return;
      }
    }
    assert ts[..|ts|] == ts;
    ok := true;
  }

  datatype Output = Output(train: Matrix, test: Matrix) | OutOfBounds

  /** The direct conversion of every document of a half. */
  predicate Exact(m: Matrix, n: nat, ts: seq<Triple>, voc: nat) {
    m.cols == voc && Converted(m, n, ts, voc)
  }

  /** The last flush of a half. */
  method Close(half: Half, ghost ts: seq<Triple>) returns (m: Matrix)
    requires half.Valid() && half.seen == ts && Last(ts) == half.total - 1
    modifies half.sparse
    ensures Exact(m, half.total, ts, half.voc) && half.capacity >= Min(half.total, half.window)
  {
    half.Finish();
    m := half.sparse.Contents();
  }

  /** The last flushes. */
  method CloseBoth(train: Half, tests: Half, ghost ts: seq<Triple>, test: nat) returns (out: Output)
    requires train != tests && train.sparse != tests.sparse && Both(train, tests, ts, test) && InOrder(ts)
    requires Last(ts) == test + train.total - 1 && train.total > 0 && (test > 0 ==> tests.total == test)
    modifies train.sparse, tests.sparse
    ensures out.Output? && Exact(out.train, train.total, TrainPart(ts, test), train.voc)
    ensures test > 0 ==>
              Exact(out.test, test, TestPart(ts, test), tests.voc) && tests.capacity >= Min(test, tests.window)
  {
    PartsLast(ts, test);
    var trainOut := Close(train, TrainPart(ts, test));
    var testOut: Matrix := Crs([], [], [0], 0);
    if test > 0 {
      testOut := Close(tests, TestPart(ts, test));
    }
    out := Output(trainOut, testOut);
  }

  /** The whole tool: on a valid input it stays inside its buffers exactly if the first test window is no longer than
      the first training window, by whose length the test buffer is allocated; then both outputs are the direct
      conversions of their documents. */
  method Convert(ts: seq<Triple>, docs: nat, test: nat, voc: nat, window: nat) returns (out: Output)
    requires test < docs && window > 0 && ValidInput(ts, docs, voc)
    ensures out.Output? <==> test == 0 || Min(test, window) <= Min(docs - test, window)
    ensures out.Output? ==> Exact(out.train, docs - test, TrainPart(ts, test), voc)
    ensures out.Output? && test > 0 ==> Exact(out.test, test, TestPart(ts, test), voc)
  {
    var leftTrain := Min(docs - test, window);
    var train := new Half(docs - test, voc, window, leftTrain);
    var tests := new Half(if test > 0 then test else 1, voc, window, leftTrain);
    var ok := PutAll(train, tests, ts, docs, test);
    if ok {
      out := CloseBoth(train, tests, ts, test);
    } else {
      out := OutOfBounds;
    }
  }

  /** The first test documents are the test half, the others, numbered from 0, the training half. */
  lemma {:induction false} PartMembers(ts: seq<Triple>, test: nat, d: nat, w: nat, c: int)
    ensures Triple(d, w, c) in TestPart(ts, test) <==> d < test && Triple(d, w, c) in ts
    ensures Triple(d, w, c) in TrainPart(ts, test) <==> Triple(d + test, w, c) in ts
  {
    if ts != [] {
      var n := |ts| - 1;
      PartMembers(ts[..n], test, d, w, c);
      assert ts == ts[..n] + [ts[n]];
    }
  }

  /** A list of lines in which every document has each of its words once, with a positive count and an id in range. */
  predicate CleanInput(ts: seq<Triple>, voc: nat) {
    DistinctPairs(ts) && forall i :: 0 <= i < |ts| ==> ts[i].word < voc && ts[i].count > 0
  }

  lemma PairsBefore(ts: seq<Triple>, t: Triple)
    requires DistinctPairs(ts) && forall c :: Triple(t.doc, t.word, c) !in ts
    ensures DistinctPairs(ts + [t])
  {
    forall i | 0 <= i < |ts| ensures ts[i].doc != t.doc || ts[i].word != t.word {
      assert ts[i] in ts && ts[i] == Triple(ts[i].doc, ts[i].word, ts[i].count);
    }
  }

  lemma LastPairNew(ts: seq<Triple>, c: int)
    requires DistinctPairs(ts) && ts != []
    ensures Triple(ts[|ts| - 1].doc, ts[|ts| - 1].word, c) !in ts[..|ts| - 1]
  {
  }

  lemma {:induction false} TestClean(ts: seq<Triple>, test: nat, voc: nat)
    requires CleanInput(ts, voc)
    ensures CleanInput(TestPart(ts, test), voc)
  {
    if ts != [] {
      var n := |ts| - 1;
      var t := ts[n];
      TestClean(ts[..n], test, voc);
      if t.doc < test {
        forall c ensures Triple(t.doc, t.word, c) !in TestPart(ts[..n], test) {
          LastPairNew(ts, c);
          PartMembers(ts[..n], test, t.doc, t.word, c);
        }
        PairsBefore(TestPart(ts[..n], test), t);
      }
    }
  }

  lemma {:induction false} TrainClean(ts: seq<Triple>, test: nat, voc: nat)
    requires CleanInput(ts, voc)
    ensures CleanInput(TrainPart(ts, test), voc)
  {
    if ts != [] {
      var n := |ts| - 1;
      TrainClean(ts[..n], test, voc);
      if ts[n].doc >= test {
        var moved := Triple(ts[n].doc - test, ts[n].word, ts[n].count);
        forall c ensures Triple(moved.doc, moved.word, c) !in TrainPart(ts[..n], test) {
          LastPairNew(ts, c);
          PartMembers(ts[..n], test, moved.doc, moved.word, c);
        }
        PairsBefore(TrainPart(ts[..n], test), moved);
      }
    }
  }

  /** What the two output matrices say: row d of the one holds the words and counts of document d, row d of the other
      those of document test + d. */
  lemma OutputHolds(train: Matrix, tests: Matrix, ts: seq<Triple>, docs: nat, test: nat, voc: nat,
                    d: nat, w: nat, c: int)
    requires test <= docs && CleanInput(ts, voc)
    requires Exact(train, docs - test, TrainPart(ts, test), voc) && Exact(tests, test, TestPart(ts, test), voc)
    ensures d < docs - test ==> (Entry(w, c) in Row(train, d) <==> Triple(d + test, w, c) in ts)
    ensures d < test ==> (Entry(w, c) in Row(tests, d) <==> Triple(d, w, c) in ts)
  {
    TestClean(ts, test, voc);
    TrainClean(ts, test, voc);
    PartMembers(ts, test, d, w, c);
    DirectHolds(TrainPart(ts, test), d, voc, w, c);
    DirectHolds(TestPart(ts, test), d, voc, w, c);
  }

  /** Three documents, two of them for the test half, with a window of two: the training half has only one. */
  const MOSTLY_TEST := [Triple(0, 0, 1), Triple(1, 0, 1), Triple(2, 0, 1)]

  lemma OrderedNext(ts: seq<Triple>, t: Triple)
    requires InOrder(ts) && Follows(ts, t)
    ensures InOrder(ts + [t])
  {
    assert (ts + [t])[..|ts|] == ts;
  }

  lemma MostlyTestValid()
    ensures ValidInput(MOSTLY_TEST, 3, 1)
  {
    OrderedNext([], Triple(0, 0, 1));
    OrderedNext([] + [Triple(0, 0, 1)], Triple(1, 0, 1));
    OrderedNext([] + [Triple(0, 0, 1)] + [Triple(1, 0, 1)], Triple(2, 0, 1));
    assert MOSTLY_TEST == [] + [Triple(0, 0, 1)] + [Triple(1, 0, 1)] + [Triple(2, 0, 1)];
  }

  /** A valid input with which the tool writes past the end of its test buffer. */
  method Overrun() returns (out: Output)
    ensures out.OutOfBounds?
  {
    MostlyTestValid();
    out := Convert(MOSTLY_TEST, 3, 2, 1, 2);
  }
}
