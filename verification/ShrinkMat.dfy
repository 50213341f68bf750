/** The loops of shrink_mat, and the meaning of the whole tool on a matrix spread over nodes. */
module ShrinkMat {
  import opened CrsMatrix
  import opened Sequences
  import opened Shrink

  // ----- counting words -----

  lemma CountElement(m: Matrix, lo: nat, c: nat, w: nat)
    requires lo <= c < |m.idx| && |m.idx| == |m.val|
    ensures RowCount(Part(m, lo, c + 1), w) == RowCount(Part(m, lo, c), w) + if m.idx[c] == w then 1 else 0
  {
    assert Part(m, lo, c + 1)[..|Part(m, lo, c)|] == Part(m, lo, c);
  }

  /** The inner loop: one row. */
  method CountRow(m: Matrix, lo: nat, hi: nat, counts: seq<nat>) returns (ret: seq<nat>)
    requires lo <= hi <= |m.idx| == |m.val| && InRange(m.idx, |counts|)
    ensures |ret| == |counts|
    ensures forall w :: 0 <= w < |counts| ==> ret[w] == counts[w] + RowCount(Part(m, lo, hi), w)
  {
    ret := counts;
    for c := lo to hi
      invariant |ret| == |counts|
      invariant forall w :: 0 <= w < |counts| ==> ret[w] == counts[w] + RowCount(Part(m, lo, c), w)
    {
      forall w: nat { CountElement(m, lo, c, w); }
      ret := ret[m.idx[c] := ret[m.idx[c]] + 1];
    }
  }

  method EachWordCount(m: Matrix) returns (ret: seq<nat>)
    ensures |ret| == m.cols
    ensures forall w :: 0 <= w < m.cols ==> ret[w] == Count(Rows(m), w)
  {
    ret := seq(m.cols, _ => 0);
    for r := 0 to |m.off| - 1
      invariant |ret| == m.cols
      invariant forall w :: 0 <= w < m.cols ==> ret[w] == Count(RowsUpTo(m, r), w)
    {
      RowBounds(m, r);
      forall w: nat { CountNext(RowsUpTo(m, r), Row(m, r), w); }
      ret := CountRow(m, m.off[r], m.off[r + 1], ret);
    }
  }

  method ReduceWordCount(l: seq<nat>, r: seq<nat>) returns (ret: seq<nat>)
    requires |l| <= |r|
    ensures |ret| == |l| && forall i :: 0 <= i < |l| ==> ret[i] == l[i] + r[i]
  {
    ret := seq(|l|, _ => 0);
    for i := 0 to |l|
      invariant |ret| == |l| && forall k :: 0 <= k < i ==> ret[k] == l[k] + r[k]
    {
      ret := ret[i := l[i] + r[i]];
    }
  }

  /** The order in which the counts of neighbouring nodes are combined: any tree over the nodes. */
  datatype Order = Node(m: Matrix) | Both(left: Order, right: Order)

  function Nodes(t: Order): seq<Matrix> {
    match t
    case Node(m) => [m]
    case Both(l, r) => Nodes(l) + Nodes(r)
  }

  lemma FitParts(a: seq<Matrix>, b: seq<Matrix>, cols: nat)
    requires Fit(a + b, cols)
    ensures Fit(a, cols) && Fit(b, cols)
  {
    assert forall p :: 0 <= p < |a| ==> (a + b)[p] == a[p];
    assert forall p :: 0 <= p < |b| ==> (a + b)[|a| + p] == b[p];
  }

  lemma AllRowsNext(a: seq<Matrix>, m: Matrix)
    ensures AllRows(a + [m]) == AllRows(a) + Rows(m)
  {
    assert (a + [m])[..|a|] == a;
  }

  lemma {:induction false} AllRowsAppend(a: seq<Matrix>, b: seq<Matrix>)
    ensures AllRows(a + b) == AllRows(a) + AllRows(b)
  {
    if b == [] {
      assert a + b == a;
    } else {
      var n := |b| - 1;
      Regroup(a, b[..n], [b[n]]);
      assert b == b[..n] + [b[n]];
      AllRowsAppend(a, b[..n]);
      AllRowsNext(a + b[..n], b[n]);
      Regroup(AllRows(a), AllRows(b[..n]), Rows(b[n]));
    }
  }

  /** The reduced counts are the counts of the whole matrix, whatever the split over nodes and the order of
      reduction. */
  method GlobalWordCount(t: Order, cols: nat) returns (ret: seq<nat>)
    requires Fit(Nodes(t), cols)
    ensures |ret| == cols && forall w :: 0 <= w < cols ==> ret[w] == Count(AllRows(Nodes(t)), w)
    decreases t
  {
    match t
    case Node(m) =>
      assert Nodes(t)[0] == m;
      ret := EachWordCount(m);
      AllRowsNext([], m);
      assert [] + [m] == Nodes(t) && AllRows([]) + Rows(m) == Rows(m);
    case Both(l, r) =>
      FitParts(Nodes(l), Nodes(r), cols);
      var a := GlobalWordCount(l, cols);
      var b := GlobalWordCount(r, cols);
      ret := ReduceWordCount(a, b);
      AllRowsAppend(Nodes(l), Nodes(r));
      forall w | 0 <= w < cols ensures ret[w] == Count(AllRows(Nodes(t)), w) {
        CountAppend(AllRows(Nodes(l)), AllRows(Nodes(r)), w);
      }
  }

  /** The removed words: those used less often than the threshold. */
  predicate RareSoFar(removed: Ids, counts: seq<nat>, used: nat, i: nat)
    requires i <= |counts|
  {
    InRange(removed, i) && forall w :: 0 <= w < i ==> (w in removed <==> counts[w] < used)
  }

  lemma RareAdd(removed: Ids, counts: seq<nat>, used: nat, i: nat)
    requires i < |counts| && RareSoFar(removed, counts, used, i) && counts[i] < used
    ensures Increasing(removed + [i]) && RareSoFar(removed + [i], counts, used, i + 1)
  {
    IncreasingNext(removed, i);
  }

  method WordsToRemove(counts: seq<nat>, used: nat) returns (removed: Ids)
    ensures RareSoFar(removed, counts, used, |counts|)
  {
    removed := [];
    for i := 0 to |counts|
      invariant RareSoFar(removed, counts, used, i)
    {
      if counts[i] < used {
        RareAdd(removed, counts, used, i);
        removed := removed + [i];
      }
    }
  }

  // ----- one node -----

  /** New id of each column, with SIZE_MAX, the value of -1 as size_t, for a removed one. */
  predicate Changes(change: seq<nat>, removed: Ids)
  {
    forall w :: 0 <= w < |change| ==> change[w] == if w in removed then SIZE_MAX else NewId(removed, w)
  }

  method IdChange(cols: nat, removed: Ids) returns (change: seq<nat>)
    ensures |change| == cols && Changes(change, removed)
  {
    change := [];
    var removeIdx, currentIdx := 0, 0;
    BelowBound(removed, 0);
    for i := 0 to cols
      invariant |change| == i
      invariant removeIdx == Below(removed, i) && currentIdx == NewId(removed, i)
      invariant Changes(change, removed)
    {
      BelowNext(removed, i);
      if removeIdx < |removed| && i == removed[removeIdx] {
        change := change + [SIZE_MAX];
        removeIdx := removeIdx + 1;
      } else {
        change := change + [currentIdx];
        currentIdx := currentIdx + 1;
      }
    }
  }

  /** The loops that drop the labels of removed words and removed articles. */
  method CompactLabels<T>(labels: seq<T>, removed: Ids) returns (kept: seq<T>)
    ensures kept == Compact(labels, removed)
  {
    kept := [];
    var removeIdx := 0;
    BelowBound(removed, 0);
    for i := 0 to |labels|
      invariant removeIdx == Below(removed, i)
      invariant kept == Compact(labels[..i], removed)
    {
      BelowNext(removed, i);
      assert labels[..i + 1][..i] == labels[..i];
      if removeIdx < |removed| && i == removed[removeIdx] {
        removeIdx := removeIdx + 1;
      } else {
        kept := kept + [labels[i]];
      }
    }
    assert labels[..|labels|] == labels;
  }

  lemma KeepElement(m: Matrix, lo: nat, c: nat, removed: Ids)
    requires lo <= c < |m.idx| && |m.idx| == |m.val|
    ensures Keep(Part(m, lo, c + 1), removed) ==
            Keep(Part(m, lo, c), removed) + if m.idx[c] in removed then [] else [Entry(m.idx[c], m.val[c])]
  {
    assert Part(m, lo, c + 1)[..|Part(m, lo, c)|] == Part(m, lo, c);
  }

  lemma RenumberNext(row: seq<Entry>, e: Entry, removed: Ids)
    ensures Renumber(row + [e], removed) == Renumber(row, removed) + [Entry(NewId(removed, e.col), e.val)]
  {
    assert (row + [e])[..|row|] == row;
  }

  /** The number of kept words of one row. */
  method CountKept(m: Matrix, lo: nat, hi: nat, removed: Ids) returns (wordCount: nat)
    requires |m.idx| == |m.val| && lo <= hi <= |m.idx|
    ensures wordCount == |Keep(Part(m, lo, hi), removed)|
  {
    wordCount := 0;
    for c := lo to hi
      invariant wordCount == |Keep(Part(m, lo, c), removed)|
    {
      KeepElement(m, lo, c, removed);
      if m.idx[c] !in removed {
        wordCount := wordCount + 1;
      }
    }
  }

  /** What one more element of a row adds to the rewritten row. */
  lemma RewriteNext(m: Matrix, lo: nat, c: nat, removed: Ids, change: seq<nat>)
    requires lo <= c < |m.idx| && InRange(m.idx, |change|) && Changes(change, removed)
    ensures var row := Renumber(Keep(Part(m, lo, c), removed), removed);
            var more := Renumber(Keep(Part(m, lo, c + 1), removed), removed);
            if m.idx[c] in removed then more == row
            else Cols(more) == Cols(row) + [change[m.idx[c]]] && Vals(more) == Vals(row) + [m.val[c]]
  {
    KeepElement(m, lo, c, removed);
    var row := Keep(Part(m, lo, c), removed);
    if m.idx[c] in removed {
      assert row + [] == row;
    } else {
      RenumberNext(row, Entry(m.idx[c], m.val[c]), removed);
      ColsNext(Renumber(row, removed), Entry(NewId(removed, m.idx[c]), m.val[c]));
    }
  }

  /** The kept words of one row with their new ids. */
  method RewriteRow(m: Matrix, lo: nat, hi: nat, removed: Ids, change: seq<nat>) returns (idx: seq<nat>, val: seq<int>)
    requires lo <= hi <= |m.idx| && InRange(m.idx, |change|) && Changes(change, removed)
    ensures var row := Renumber(Keep(Part(m, lo, hi), removed), removed); idx == Cols(row) && val == Vals(row)
  {
    idx, val := [], [];
    for c := lo to hi
      invariant var row := Renumber(Keep(Part(m, lo, c), removed), removed); idx == Cols(row) && val == Vals(row)
    {
      RewriteNext(m, lo, c, removed, change);
      if m.idx[c] !in removed {
        idx := idx + [change[m.idx[c]]];
        val := val + [m.val[c]];
      }
    }
  }

  /** The renumbered columns fit the smaller matrix; in particular the value standing for -1 is never among them. */
  lemma RenumberedBelow(row: seq<Entry>, cols: nat, removed: Ids)
    requires ColsBelow(row, cols) && InRange(removed, cols)
    ensures |removed| <= cols && ColsBelow(Renumber(Keep(row, removed), removed), cols - |removed|)
    ensures var out := Renumber(Keep(row, removed), removed);
            cols <= SIZE_MAX ==> forall k :: 0 <= k < |out| ==> out[k].col != SIZE_MAX
  {
    BelowAll(removed, cols);
    var kept := Keep(row, removed);
    forall k | 0 <= k < |kept| ensures Renumber(kept, removed)[k].col < cols - |removed| {
      KeepFrom(row, removed, k);
      RenumberAt(kept, removed, k);
      NewIdOrder(removed, kept[k].col, cols);
    }
  }

  lemma {:induction false} RowBelow(m: Matrix, lo: nat, hi: nat)
    requires lo <= hi <= |m.idx| == |m.val| && InRange(m.idx, m.cols)
    ensures ColsBelow(Part(m, lo, hi), m.cols)
    decreases hi
  {
    if lo < hi {
      RowBelow(m, lo, hi - 1);
    }
  }

  lemma ShortAdd(short: Ids, rows: seq<seq<Entry>>, row: seq<Entry>, removed: Ids, least: nat)
    requires ShortRows(short, rows, removed, least) && |Keep(row, removed)| < least
    ensures Increasing(short + [|rows|]) && ShortRows(short + [|rows|], rows + [row], removed, least)
  {
    IncreasingNext(short, |rows|);
  }

  lemma ShortSkip(short: Ids, rows: seq<seq<Entry>>, row: seq<Entry>, removed: Ids, least: nat)
    requires ShortRows(short, rows, removed, least) && |Keep(row, removed)| >= least
    ensures ShortRows(short, rows + [row], removed, least)
  {
  }

  /** An article that is long enough is appended, without the removed words and with the new ids. */
  lemma RowStays(m: Matrix, r: nat, ret: Matrix, removed: Ids, least: nat)
    requires r + 1 < |m.off| && |Keep(Row(m, r), removed)| >= least
    requires InRange(removed, m.cols) && ret.cols + |removed| == m.cols
    requires Rows(ret) == Shrunk(RowsUpTo(m, r), removed, least)
    ensures var out := Push(ret, Renumber(Keep(Row(m, r), removed), removed));
            WellFormed(out) && Rows(out) == Shrunk(RowsUpTo(m, r + 1), removed, least)
  {
    RowBounds(m, r);
    RowBelow(m, m.off[r], m.off[r + 1]);
    RenumberedBelow(Row(m, r), m.cols, removed);
    PushRow(ret, Renumber(Keep(Row(m, r), removed), removed));
    ShrunkNext(RowsUpTo(m, r), Row(m, r), removed, least);
  }

  lemma RowLeaves(m: Matrix, r: nat, removed: Ids, least: nat)
    requires r + 1 < |m.off| && |Keep(Row(m, r), removed)| < least
    ensures Shrunk(RowsUpTo(m, r + 1), removed, least) == Shrunk(RowsUpTo(m, r), removed, least)
  {
    ShrunkNext(RowsUpTo(m, r), Row(m, r), removed, least);
  }

  method AppendRow(m: Matrix, idx: seq<nat>, val: seq<int>, ghost row: seq<Entry>) returns (ret: Crs)
    requires idx == Cols(row) && val == Vals(row)
    ensures ret == Push(m, row)
  {
    ret := Crs(m.idx + idx, m.val + val, m.off + [|idx| + m.off[|m.off| - 1]], m.cols);
  }

  /** Round r of the loop over the rows: the row is appended or its number is noted. */
  method ShrinkRow(m: Matrix, r: nat, removed: Ids, change: seq<nat>, least: nat, before: Matrix)
    returns (ret: Matrix, short: bool)
    requires |change| == m.cols && Changes(change, removed) && InRange(removed, m.cols)
    requires r + 1 < |m.off| && before.cols + |removed| == m.cols
    requires Rows(before) == Shrunk(RowsUpTo(m, r), removed, least)
    ensures short <==> |Keep(Row(m, r), removed)| < least
    ensures ret.cols == before.cols && Rows(ret) == Shrunk(RowsUpTo(m, r + 1), removed, least)
  {
    RowBounds(m, r);
    var wordCount := CountKept(m, m.off[r], m.off[r + 1], removed);
    short := wordCount < least;
    if short {
      RowLeaves(m, r, removed, least);
      ret := before;
    } else {
      RowStays(m, r, before, removed, least);
      var idx, val := RewriteRow(m, m.off[r], m.off[r + 1], removed, change);
      ret := AppendRow(before, idx, val, Renumber(Keep(Row(m, r), removed), removed));
    }
  }

  method NoteRow(short: bool, removedArticle: Ids, m: Matrix, r: nat, ghost removed: Ids, ghost least: nat)
    returns (more: Ids)
    requires r + 1 < |m.off| && (short <==> |Keep(Row(m, r), removed)| < least)
    requires ShortRows(removedArticle, RowsUpTo(m, r), removed, least)
    ensures ShortRows(more, RowsUpTo(m, r + 1), removed, least)
  {
    more := removedArticle;
    if short {
      ShortAdd(removedArticle, RowsUpTo(m, r), Row(m, r), removed, least);
      more := more + [r];
    } else {
      ShortSkip(removedArticle, RowsUpTo(m, r), Row(m, r), removed, least);
    }
  }

  lemma NoRowsYet(m: Matrix, ret: Matrix, removed: Ids, least: nat)
    requires |ret.off| == 1
    ensures Rows(ret) == Shrunk(RowsUpTo(m, 0), removed, least) && ShortRows([], RowsUpTo(m, 0), removed, least)
  {
  }

  /** What one node does with its rows. */
  method ShrinkLocal(m: Matrix, removed: Ids, least: nat) returns (ret: Matrix, removedArticle: Ids)
    requires InRange(removed, m.cols)
    ensures ret.cols + |removed| == m.cols
    ensures Rows(ret) == Shrunk(Rows(m), removed, least)
    ensures ShortRows(removedArticle, Rows(m), removed, least)
  {
    var change := IdChange(m.cols, removed);
    BelowAll(removed, m.cols);
    ret, removedArticle := Crs([], [], [0], m.cols - |removed|), [];
    NoRowsYet(m, ret, removed, least);
    for r := 0 to |m.off| - 1
      invariant ret.cols + |removed| == m.cols && Rows(ret) == Shrunk(RowsUpTo(m, r), removed, least)
      invariant ShortRows(removedArticle, RowsUpTo(m, r), removed, least)
    {
      var short;
      ret, short := ShrinkRow(m, r, removed, change, least, ret);
      removedArticle := NoteRow(short, removedArticle, m, r, removed, least);
    }
  }

  // ----- all nodes -----

  predicate LocalShort(local: seq<Ids>, parts: seq<Matrix>, removed: Ids, least: nat) {
    |local| == |parts| && forall p :: 0 <= p < |parts| ==> ShortRows(local[p], Rows(parts[p]), removed, least)
  }

  lemma AllRowsUpTo(parts: seq<Matrix>, i: nat)
    requires i < |parts|
    ensures AllRows(parts[..i + 1]) == AllRows(parts[..i]) + Rows(parts[i])
  {
    assert parts[..i + 1] == parts[..i] + [parts[i]];
    AllRowsNext(parts[..i], parts[i]);
  }

  /** more is merged followed by local, offset rows further down. */
  predicate Joined(merged: seq<nat>, local: seq<nat>, more: seq<nat>, offset: nat) {
    && |more| == |merged| + |local|
    && (forall k :: 0 <= k < |merged| ==> more[k] == merged[k])
    && (forall k :: 0 <= k < |local| ==> more[|merged| + k] == local[k] + offset)
  }

  /** The inner loop: the removed articles of one node, as row numbers of the whole matrix. */
  method ShiftRemoved(merged: seq<nat>, local: seq<nat>, offset: nat) returns (more: seq<nat>)
    ensures Joined(merged, local, more, offset)
  {
    more := merged;
    for j := 0 to |local|
      invariant |more| == |merged| + j
      invariant forall k :: 0 <= k < |merged| ==> more[k] == merged[k]
      invariant forall k :: 0 <= k < j ==> more[|merged| + k] == local[k] + offset
    {
      more := more + [local[j] + offset];
    }
  }

  lemma {:induction false} IncreasingJoin(merged: Ids, local: Ids, more: seq<nat>, offset: nat, n: nat)
    requires Joined(merged, local, more, offset) && InRange(merged, offset) && n <= |local|
    ensures Increasing(more[..|merged| + n])
  {
    if n == 0 {
      assert more[..|merged|] == merged;
    } else {
      IncreasingJoin(merged, local, more, offset, n - 1);
      var k := |merged| + (n - 1);
      assert more[k] == local[n - 1] + offset;
      forall i | 0 <= i < k ensures more[..k][i] < more[k] {
        if i < |merged| {
          assert more[i] == merged[i] < offset;
        } else {
          IncreasingAt(local, i - |merged|, n - 1);
          assert more[|merged| + (i - |merged|)] == local[i - |merged|] + offset;
        }
      }
      IncreasingNext(more[..k], more[k]);
      assert more[..k + 1] == more[..k] + [more[k]];
    }
  }

  lemma InMerged(merged: seq<nat>, local: seq<nat>, more: seq<nat>, offset: nat, r: nat)
    requires Joined(merged, local, more, offset) && InRange(merged, offset)
    ensures r in more <==> if r < offset then r in merged else r - offset in local
  {
    if r in more {
      var k :| 0 <= k < |more| && more[k] == r;
      if k >= |merged| { assert more[|merged| + (k - |merged|)] == local[k - |merged|] + offset; }
    }
    if r in merged {
      var k :| 0 <= k < |merged| && merged[k] == r;
      assert more[k] == r;
    }
    if r >= offset && r - offset in local {
      var k :| 0 <= k < |local| && local[k] == r - offset;
      assert more[|merged| + k] == r;
    }
  }

  lemma MergedAt(merged: Ids, local: Ids, more: seq<nat>, a: seq<seq<Entry>>, b: seq<seq<Entry>>,
                 removed: Ids, least: nat, r: nat)
    requires ShortRows(merged, a, removed, least) && ShortRows(local, b, removed, least) && r < |a + b|
    requires r in more <==> if r < |a| then r in merged else r - |a| in local
    ensures r in more <==> |Keep((a + b)[r], removed)| < least
  {
    if r < |a| {
      assert (a + b)[r] == a[r];
    } else {
      assert (a + b)[r] == b[r - |a|];
    }
  }

  lemma MergedShort(merged: Ids, local: Ids, more: seq<nat>, a: seq<seq<Entry>>, b: seq<seq<Entry>>,
                    removed: Ids, least: nat)
    requires ShortRows(merged, a, removed, least) && ShortRows(local, b, removed, least)
    requires Joined(merged, local, more, |a|)
    ensures Increasing(more) && ShortRows(more, a + b, removed, least)
  {
    IncreasingJoin(merged, local, more, |a|, |local|);
    assert more[..|more|] == more;
    forall k | 0 <= k < |more| ensures more[k] < |a + b| {
      if k >= |merged| { assert more[|merged| + (k - |merged|)] == local[k - |merged|] + |a|; }
    }
    forall r: nat | r < |a + b| ensures r in more <==> |Keep((a + b)[r], removed)| < least {
      InMerged(merged, local, more, |a|, r);
      MergedAt(merged, local, more, a, b, removed, least, r);
    }
  }

  /** The removed articles of all nodes, as row numbers of the whole matrix. */
  method MergeRemoved(local: seq<Ids>, parts: seq<Matrix>, ghost removed: Ids, ghost least: nat) returns (merged: Ids)
    requires LocalShort(local, parts, removed, least)
    ensures ShortRows(merged, AllRows(parts), removed, least)
  {
    merged := [];
    var offset := 0;
    for i := 0 to |local|
      invariant ShortRows(merged, AllRows(parts[..i]), removed, least)
      invariant offset == |AllRows(parts[..i])|
    {
      AllRowsUpTo(parts, i);
      var more := ShiftRemoved(merged, local[i], offset);
      MergedShort(merged, local[i], more, AllRows(parts[..i]), Rows(parts[i]), removed, least);
      merged := more;
      offset := offset + (|parts[i].off| - 1);
    }
    assert parts[..|parts|] == parts;
  }

  // ----- what the tool means -----

  datatype Fact = Fact(article: string, word: string, val: int)

  predicate AllBelow(rows: seq<seq<Entry>>, cols: nat) {
    forall r :: 0 <= r < |rows| ==> ColsBelow(rows[r], cols)
  }

  /** The elements of a row under the names of its article and of its words. */
  function RowFacts(article: string, row: seq<Entry>, dictionary: seq<string>): seq<Fact>
    requires ColsBelow(row, |dictionary|)
  {
    if row == [] then []
    else
      var e := row[|row| - 1];
      RowFacts(article, row[..|row| - 1], dictionary) + [Fact(article, dictionary[e.col], e.val)]
  }

  /** What a labelled matrix says, in order. */
  function Facts(articles: seq<string>, rows: seq<seq<Entry>>, dictionary: seq<string>): seq<Fact>
    requires |articles| == |rows| && AllBelow(rows, |dictionary|)
  {
    if rows == [] then []
    else
      var n := |rows| - 1;
      Facts(articles[..n], rows[..n], dictionary) + RowFacts(articles[n], rows[n], dictionary)
  }

  /** The elements of a row whose word is used often enough in the whole matrix. */
  function Frequent(row: seq<Entry>, all: seq<seq<Entry>>, used: nat, cols: nat): (kept: seq<Entry>)
    requires ColsBelow(row, cols)
    ensures ColsBelow(kept, cols)
  {
    if row == [] then []
    else
      var e := row[|row| - 1];
      Frequent(row[..|row| - 1], all, used, cols) + if Count(all, e.col) < used then [] else [e]
  }

  /** The facts the tool promises to keep: those about frequent words, in articles that have enough of them. */
  function Promised(articles: seq<string>, rows: seq<seq<Entry>>, dictionary: seq<string>, all: seq<seq<Entry>>,
                          used: nat, least: nat): seq<Fact>
    requires |articles| == |rows| && AllBelow(rows, |dictionary|)
  {
    if rows == [] then []
    else
      var n := |rows| - 1;
      var row := Frequent(rows[n], all, used, |dictionary|);
      Promised(articles[..n], rows[..n], dictionary, all, used, least)
      + if |row| < least then [] else RowFacts(articles[n], row, dictionary)
  }

  /** The removed words are exactly the rare ones. */
  predicate Rare(removed: Ids, all: seq<seq<Entry>>, used: nat, cols: nat) {
    && InRange(removed, cols)
    && forall w :: 0 <= w < cols ==> (w in removed <==> Count(all, w) < used)
  }

  lemma {:induction false} KeepIsFrequent(row: seq<Entry>, removed: Ids, all: seq<seq<Entry>>, used: nat, cols: nat)
    requires Rare(removed, all, used, cols) && ColsBelow(row, cols)
    ensures Keep(row, removed) == Frequent(row, all, used, cols)
  {
    if row != [] {
      KeepIsFrequent(row[..|row| - 1], removed, all, used, cols);
    }
  }

  /** A renumbered row says the same under the compacted dictionary. */
  lemma {:induction false} RowMeaning(article: string, row: seq<Entry>, dictionary: seq<string>, removed: Ids)
    requires ColsBelow(row, |dictionary|)
    requires forall k :: 0 <= k < |row| ==> row[k].col !in removed
    ensures ColsBelow(Renumber(row, removed), |Compact(dictionary, removed)|)
    ensures RowFacts(article, Renumber(row, removed), Compact(dictionary, removed)) ==
            RowFacts(article, row, dictionary)
  {
    if row != [] {
      RowMeaning(article, row[..|row| - 1], dictionary, removed);
      CompactAt(dictionary, removed, row[|row| - 1].col);
      var front := Renumber(row[..|row| - 1], removed);
      assert Renumber(row, removed)[..|front|] == front;
    }
  }

  lemma FactsNext(articles: seq<string>, rows: seq<seq<Entry>>, article: string, row: seq<Entry>,
                  dictionary: seq<string>)
    requires |articles| == |rows| && AllBelow(rows, |dictionary|) && ColsBelow(row, |dictionary|)
    ensures AllBelow(rows + [row], |dictionary|)
    ensures Facts(articles + [article], rows + [row], dictionary) ==
            Facts(articles, rows, dictionary) + RowFacts(article, row, dictionary)
  {
    assert (rows + [row])[..|rows|] == rows && (articles + [article])[..|articles|] == articles;
  }

  /** The numbers of the rows that do not stay, among the rows given. */
  predicate Shorts(short: Ids, rows: seq<seq<Entry>>, removed: Ids, least: nat) {
    forall r :: 0 <= r < |rows| ==> (r in short <==> |Keep(rows[r], removed)| < least)
  }

  /** The kept words of a row fit the compacted dictionary and say the same under it. */
  lemma KeptMeaning(article: string, row: seq<Entry>, dictionary: seq<string>, removed: Ids,
                    all: seq<seq<Entry>>, used: nat)
    requires Rare(removed, all, used, |dictionary|) && ColsBelow(row, |dictionary|)
    ensures var kept := Renumber(Keep(row, removed), removed);
            && ColsBelow(kept, |Compact(dictionary, removed)|)
            && RowFacts(article, kept, Compact(dictionary, removed)) ==
               RowFacts(article, Frequent(row, all, used, |dictionary|), dictionary)
  {
    var kept := Keep(row, removed);
    KeepIsFrequent(row, removed, all, used, |dictionary|);
    forall k | 0 <= k < |kept| ensures kept[k].col !in removed { KeepFrom(row, removed, k); }
    RowMeaning(article, kept, dictionary, removed);
  }

  /** There is one label for each row of the output. */
  lemma {:induction false} LabelsFit(articles: seq<string>, rows: seq<seq<Entry>>, removed: Ids, short: Ids, least: nat)
    requires |articles| == |rows| && Shorts(short, rows, removed, least)
    ensures |Compact(articles, short)| == |Shrunk(rows, removed, least)|
  {
    if rows != [] {
      var n := |rows| - 1;
      assert n in short <==> |Keep(rows[n], removed)| < least;
      ShortsFront(short, rows, removed, least);
      LabelsFit(articles[..n], rows[..n], removed, short, least);
    }
  }

  lemma ShortsFront(short: Ids, rows: seq<seq<Entry>>, removed: Ids, least: nat)
    requires rows != [] && Shorts(short, rows, removed, least)
    ensures Shorts(short, rows[..|rows| - 1], removed, least)
  {
  }

  lemma BelowNextRow(rows: seq<seq<Entry>>, row: seq<Entry>, removed: Ids, least: nat, cols: nat)
    requires AllBelow(rows, cols) && ColsBelow(Renumber(Keep(row, removed), removed), cols)
    ensures AllBelow(rows + RowOut(row, removed, least), cols)
  {
  }

  /** Every column of the output has a word. */
  lemma {:induction false} ColumnsFit(rows: seq<seq<Entry>>, dictionary: seq<string>, all: seq<seq<Entry>>,
                                      removed: Ids, used: nat, least: nat)
    requires AllBelow(rows, |dictionary|) && Rare(removed, all, used, |dictionary|)
    ensures AllBelow(Shrunk(rows, removed, least), |Compact(dictionary, removed)|)
  {
    if rows != [] {
      var n := |rows| - 1;
      ColumnsFit(rows[..n], dictionary, all, removed, used, least);
      KeptMeaning("", rows[n], dictionary, removed, all, used);
      BelowNextRow(Shrunk(rows[..n], removed, least), rows[n], removed, least, |Compact(dictionary, removed)|);
    }
  }

  lemma OutputFits(articles: seq<string>, rows: seq<seq<Entry>>, dictionary: seq<string>, all: seq<seq<Entry>>,
                   removed: Ids, short: Ids, used: nat, least: nat)
    requires |articles| == |rows| && AllBelow(rows, |dictionary|)
    requires Rare(removed, all, used, |dictionary|) && Shorts(short, rows, removed, least)
    ensures |Compact(articles, short)| == |Shrunk(rows, removed, least)|
    ensures AllBelow(Shrunk(rows, removed, least), |Compact(dictionary, removed)|)
  {
    LabelsFit(articles, rows, removed, short, least);
    ColumnsFit(rows, dictionary, all, removed, used, least);
  }

  lemma FactsOut(articles: seq<string>, rows: seq<seq<Entry>>, article: string, row: seq<Entry>,
                 dictionary: seq<string>, removed: Ids, least: nat)
    requires |articles| == |rows| && AllBelow(rows, |dictionary|)
    requires ColsBelow(Renumber(Keep(row, removed), removed), |dictionary|)
    ensures var arts := articles + if |Keep(row, removed)| < least then [] else [article];
            var out := rows + RowOut(row, removed, least);
            && |arts| == |out| && AllBelow(out, |dictionary|)
            && Facts(arts, out, dictionary) == Facts(articles, rows, dictionary)
               + if |Keep(row, removed)| < least then []
                 else RowFacts(article, Renumber(Keep(row, removed), removed), dictionary)
  {
    if |Keep(row, removed)| < least {
      assert articles + [] == articles && rows + [] == rows;
    } else {
      FactsNext(articles, rows, article, Renumber(Keep(row, removed), removed), dictionary);
    }
  }

  /** The output says exactly what was promised: in order, the facts about frequent words in long enough articles. */
  lemma {:induction false} ShrinkMeaning(articles: seq<string>, rows: seq<seq<Entry>>, dictionary: seq<string>,
                                         all: seq<seq<Entry>>, removed: Ids, short: Ids, used: nat, least: nat)
    requires |articles| == |rows| && AllBelow(rows, |dictionary|)
    requires Rare(removed, all, used, |dictionary|) && Shorts(short, rows, removed, least)
    requires |Compact(articles, short)| == |Shrunk(rows, removed, least)|
    requires AllBelow(Shrunk(rows, removed, least), |Compact(dictionary, removed)|)
    ensures Facts(Compact(articles, short), Shrunk(rows, removed, least), Compact(dictionary, removed)) ==
            Promised(articles, rows, dictionary, all, used, least)
  {
    if rows != [] {
      var n := |rows| - 1;
      var dict := Compact(dictionary, removed);
      OutputFits(articles[..n], rows[..n], dictionary, all, removed, short, used, least);
      ShrinkMeaning(articles[..n], rows[..n], dictionary, all, removed, short, used, least);
      KeepIsFrequent(rows[n], removed, all, used, |dictionary|);
      KeptMeaning(articles[n], rows[n], dictionary, removed, all, used);
      FactsOut(Compact(articles[..n], short), Shrunk(rows[..n], removed, least), articles[n], rows[n],
               dict, removed, least);
    }
  }

  lemma {:induction false} RowsBelow(m: Matrix, n: nat)
    requires n < |m.off|
    ensures AllBelow(RowsUpTo(m, n), m.cols)
  {
    if n > 0 {
      RowsBelow(m, n - 1);
      RowBounds(m, n - 1);
      RowBelow(m, m.off[n - 1], m.off[n]);
    }
  }

  lemma {:induction false} AllRowsBelow(parts: seq<Matrix>, cols: nat)
    requires Fit(parts, cols)
    ensures AllBelow(AllRows(parts), cols)
  {
    if parts != [] {
      AllRowsBelow(parts[..|parts| - 1], cols);
      var m := parts[|parts| - 1];
      RowsBelow(m, |m.off| - 1);
    }
  }

  lemma ShrinkAllNext(out: seq<Matrix>, ret: Matrix, parts: seq<Matrix>, p: nat, removed: Ids, least: nat)
    requires p < |parts|
    requires AllRows(out) == Shrunk(AllRows(parts[..p]), removed, least)
    requires Rows(ret) == Shrunk(Rows(parts[p]), removed, least)
    ensures AllRows(out + [ret]) == Shrunk(AllRows(parts[..p + 1]), removed, least)
  {
    AllRowsUpTo(parts, p);
    AllRowsNext(out, ret);
    ShrunkAppend(AllRows(parts[..p]), Rows(parts[p]), removed, least);
  }

  lemma LocalShortNext(local: seq<Ids>, short: Ids, parts: seq<Matrix>, p: nat, removed: Ids, least: nat)
    requires p < |parts| && LocalShort(local, parts[..p], removed, least)
    requires ShortRows(short, Rows(parts[p]), removed, least)
    ensures LocalShort(local + [short], parts[..p + 1], removed, least)
  {
  }

  /** What is known once these nodes have shrunk their rows. */
  predicate ShrunkParts(out: seq<Matrix>, local: seq<Ids>, parts: seq<Matrix>, cols: nat, removed: Ids, least: nat) {
    && Fit(out, cols)
    && AllRows(out) == Shrunk(AllRows(parts), removed, least)
    && LocalShort(local, parts, removed, least)
  }

  lemma ShrunkNone(parts: seq<Matrix>, cols: nat, removed: Ids, least: nat)
    requires parts == []
    ensures ShrunkParts([], [], parts, cols, removed, least)
  {
  }

  lemma ShrunkNextPart(out: seq<Matrix>, ret: Matrix, local: seq<Ids>, short: Ids, parts: seq<Matrix>, p: nat,
                       cols: nat, removed: Ids, least: nat)
    requires p < |parts| && ShrunkParts(out, local, parts[..p], cols, removed, least) && ret.cols == cols
    requires Rows(ret) == Shrunk(Rows(parts[p]), removed, least) && ShortRows(short, Rows(parts[p]), removed, least)
    ensures ShrunkParts(out + [ret], local + [short], parts[..p + 1], cols, removed, least)
  {
    ShrinkAllNext(out, ret, parts, p, removed, least);
    LocalShortNext(local, short, parts, p, removed, least);
  }

  /** Every node shrinks its own rows; together that is the shrunk whole. */
  method ShrinkAll(parts: seq<Matrix>, cols: nat, removed: Ids, least: nat)
    returns (out: seq<Matrix>, local: seq<Ids>)
    requires Fit(parts, cols) && InRange(removed, cols)
    ensures |removed| <= cols && ShrunkParts(out, local, parts, cols - |removed|, removed, least)
  {
    BelowAll(removed, cols);
    ShrunkNone(parts[..0], cols - |removed|, removed, least);
    out, local := [], [];
    for p := 0 to |parts|
      invariant ShrunkParts(out, local, parts[..p], cols - |removed|, removed, least)
    {
      var ret, short := ShrinkLocal(parts[p], removed, least);
      ShrunkNextPart(out, ret, local, short, parts, p, cols - |removed|, removed, least);
      out, local := out + [ret], local + [short];
    }
    assert parts[..|parts|] == parts;
  }

  /** The whole tool, from the files to the files: whatever the split over nodes and the order of reduction, the
      output is a well-formed labelled matrix that says exactly what was promised about the input. The thresholds are
      compared as size_t, so a negative one is a huge one. */
  method ShrinkMatrix(t: Order, dictionary: seq<string>, articles: seq<string>, minUsed: int, minLength: int)
    returns (out: seq<Matrix>, dict: seq<string>, arts: seq<string>)
    requires Fit(Nodes(t), |dictionary|) && |articles| == |AllRows(Nodes(t))|
    ensures AllBelow(AllRows(Nodes(t)), |dictionary|)
    ensures Fit(out, |dict|) && |arts| == |AllRows(out)| && AllBelow(AllRows(out), |dict|)
    ensures Facts(arts, AllRows(out), dict) ==
            Promised(articles, AllRows(Nodes(t)), dictionary, AllRows(Nodes(t)),
                     SizeT(minUsed), SizeT(minLength))
  {
    ghost var cols, rows := |dictionary|, AllRows(Nodes(t));
    var counts := GlobalWordCount(t, |dictionary|);
    var removed := WordsToRemove(counts, SizeT(minUsed));
    var local;
    out, local := ShrinkAll(Nodes(t), |dictionary|, removed, SizeT(minLength));
    dict := CompactLabels(dictionary, removed);
    var short := MergeRemoved(local, Nodes(t), removed, SizeT(minLength));
    arts := CompactLabels(articles, short);
    CompactLength(dictionary, removed);
    BelowAll(removed, cols);
    AllRowsBelow(Nodes(t), cols);
    OutputFits(articles, rows, dictionary, rows, removed, short, SizeT(minUsed), SizeT(minLength));
    ShrinkMeaning(articles, rows, dictionary, rows, removed, short, SizeT(minUsed), SizeT(minLength));
  }
}
