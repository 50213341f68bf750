/** Fixed-width strings: each occupies itemsize elements and is padded with zeros; the word table finds the strings
    again from the positions of the non-zero elements. */
module Words {
  import opened Multiples

  /** A table of words: word i is chars[starts[i]..starts[i] + lens[i]]. */
  datatype Words = Words(chars: seq<int>, starts: seq<nat>, lens: seq<nat>)

  datatype Result<T> = Ok(value: T) | Failed

  /** The positions of non-zero elements among the first n, in increasing order. */
  function NonZeroUpTo(bytes: seq<int>, n: nat): seq<nat>
    requires n <= |bytes|
  {
    if n == 0 then [] else NonZeroUpTo(bytes, n - 1) + if bytes[n - 1] != 0 then [n - 1] else []
  }

  /** The first index whose value is not less than x, or the length if there is none. */
  function LowerBound(sorted: seq<nat>, x: nat): (k: nat)
    ensures k <= |sorted|
  {
    if sorted == [] then 0
    else if sorted[|sorted| - 1] < x then |sorted|
    else LowerBound(sorted[..|sorted| - 1], x)
  }

  function CountNonZero(s: seq<int>): nat {
    if s == [] then 0 else CountNonZero(s[..|s| - 1]) + if s[|s| - 1] != 0 then 1 else 0
  }

  function Slot(bytes: seq<int>, itemsize: nat, i: nat): seq<int>
    requires Multiple(i + 1, itemsize) <= |bytes|
  {
    bytes[Multiple(i, itemsize)..Multiple(i + 1, itemsize)]
  }

  function Word(w: Words, i: nat): seq<int>
    requires i < |w.starts| == |w.lens| && w.starts[i] + w.lens[i] <= |w.chars|
  {
    w.chars[w.starts[i]..w.starts[i] + w.lens[i]]
  }

  /** The positions below x come first, so lower_bound counts them. */
  lemma {:induction false} LowerBoundCounts(bytes: seq<int>, n: nat, x: nat)
    requires x <= n <= |bytes|
    ensures LowerBound(NonZeroUpTo(bytes, n), x) == |NonZeroUpTo(bytes, x)|
  {
    if x == n {
      LowerBoundAbove(bytes, n, n);
    } else {
      LowerBoundCounts(bytes, n - 1, x);
      LowerBoundLast(NonZeroUpTo(bytes, n - 1), n - 1, x);
      assert NonZeroUpTo(bytes, n) == NonZeroUpTo(bytes, n - 1) + if bytes[n - 1] != 0 then [n - 1] else [];
      assert NonZeroUpTo(bytes, n - 1) + [] == NonZeroUpTo(bytes, n - 1);
    }
  }

  lemma LowerBoundLast(sorted: seq<nat>, last: nat, x: nat)
    requires x <= last
    ensures LowerBound(sorted + [last], x) == LowerBound(sorted, x)
  {
    assert (sorted + [last])[..|sorted|] == sorted;
  }

  lemma {:induction false} LowerBoundAbove(bytes: seq<int>, n: nat, x: nat)
    requires n <= |bytes| && n <= x
    ensures LowerBound(NonZeroUpTo(bytes, n), x) == |NonZeroUpTo(bytes, n)|
  {
    if n > 0 && bytes[n - 1] == 0 {
      LowerBoundAbove(bytes, n - 1, x);
    }
  }

  lemma {:induction false} PositionsBetween(bytes: seq<int>, lo: nat, hi: nat)
    requires lo <= hi <= |bytes|
    ensures |NonZeroUpTo(bytes, hi)| == |NonZeroUpTo(bytes, lo)| + CountNonZero(bytes[lo..hi])
    decreases hi
  {
    if lo < hi {
      PositionsBetween(bytes, lo, hi - 1);
      assert bytes[lo..hi][..hi - lo - 1] == bytes[lo..hi - 1];
    }
  }

  lemma {:induction false} CountAtMost(s: seq<int>)
    ensures CountNonZero(s) <= |s|
  {
    if s != [] {
      CountAtMost(s[..|s| - 1]);
    }
  }

  predicate StartOk(starts: seq<nat>, itemsize: nat, i: nat)
    requires i < |starts|
  {
    starts[i] == Multiple(i, itemsize)
  }

  predicate LenOk(lens: seq<nat>, bytes: seq<int>, itemsize: nat, n: nat, i: nat)
    requires |bytes| == Multiple(n, itemsize) && i < |lens| && i < n
  {
    MultipleOrder(i, n, itemsize);
    lens[i] == CountNonZero(Slot(bytes, itemsize, i))
  }

  predicate Starts(starts: seq<nat>, itemsize: nat) {
    forall i :: 0 <= i < |starts| ==> StartOk(starts, itemsize, i)
  }

  lemma StartsNext(starts: seq<nat>, itemsize: nat, i: nat)
    requires Starts(starts, itemsize) && |starts| == i
    ensures Starts(starts + [Multiple(i, itemsize)], itemsize)
  {
    forall k | 0 <= k <= i ensures StartOk(starts + [Multiple(i, itemsize)], itemsize, k) {
      assert k < i ==> StartOk(starts, itemsize, k);
    }
  }

  /** What the table says: word i starts with slot i and is as long as the slot has non-zero elements. */
  predicate Describes(w: Words, bytes: seq<int>, itemsize: nat, n: nat) {
    && w.chars == bytes && |bytes| == Multiple(n, itemsize) && |w.starts| == |w.lens| == n
    && Starts(w.starts, itemsize)
    && (forall i :: 0 <= i < n ==> LenOk(w.lens, bytes, itemsize, n, i))
  }

  method CreateWords(bytes: seq<int>, itemsize: nat) returns (r: Result<Words>)
    requires itemsize > 0
    ensures r.Ok? <==> |bytes| % itemsize == 0
    ensures r.Ok? ==> Describes(r.value, bytes, itemsize, |bytes| / itemsize)
  {
    if |bytes| % itemsize != 0 {
      return Failed;
    }
    var n := |bytes| / itemsize;
    MultipleIsProduct(n, itemsize);
    var nonZeroPos := NonZeroUpTo(bytes, |bytes|);
    var starts: seq<nat> := [];
    for i := 0 to n + 1
      invariant |starts| == i && Starts(starts, itemsize)
    {
      MultipleIsProduct(i, itemsize);
      StartsNext(starts, itemsize, i);
      starts := starts + [i * itemsize];
    }
    var targetPos := LowerBounds(nonZeroPos, starts);
    var lens := Lengths(targetPos, starts, bytes, itemsize, n);
    forall i | 0 <= i < n ensures StartOk(starts[..n], itemsize, i) {
      assert StartOk(starts, itemsize, i);
    }
    r := Ok(Words(bytes, starts[..n], lens));
  }

  method LowerBounds(sorted: seq<nat>, xs: seq<nat>) returns (pos: seq<nat>)
    ensures |pos| == |xs| && forall k :: 0 <= k < |xs| ==> pos[k] == LowerBound(sorted, xs[k])
  {
    pos := [];
    for i := 0 to |xs|
      invariant |pos| == i && forall k :: 0 <= k < i ==> pos[k] == LowerBound(sorted, xs[k])
    {
      pos := pos + [LowerBound(sorted, xs[i])];
    }
  }

  method Lengths(targetPos: seq<nat>, starts: seq<nat>, bytes: seq<int>, itemsize: nat, n: nat) returns (lens: seq<nat>)
    requires |bytes| == Multiple(n, itemsize) && |targetPos| == |starts| == n + 1
    requires Starts(starts, itemsize)
    requires forall k :: 0 <= k <= n ==> targetPos[k] == LowerBound(NonZeroUpTo(bytes, |bytes|), starts[k])
    ensures |lens| == n && forall i :: 0 <= i < n ==> LenOk(lens, bytes, itemsize, n, i)
  {
    lens := [];
    for i := 0 to n
      invariant |lens| == i && forall k :: 0 <= k < i ==> LenOk(lens, bytes, itemsize, n, k)
    {
      LensAreCounts(bytes, itemsize, n, i);
      assert StartOk(starts, itemsize, i) && StartOk(starts, itemsize, i + 1);
      ghost var before := lens;
      lens := lens + [targetPos[i + 1] - targetPos[i]];
      forall k | 0 <= k < i ensures LenOk(lens, bytes, itemsize, n, k) {
        assert LenOk(before, bytes, itemsize, n, k);
      }
    }
  }

  lemma LensAreCounts(bytes: seq<int>, itemsize: nat, n: nat, i: nat)
    requires |bytes| == Multiple(n, itemsize) && i < n
    ensures Multiple(i + 1, itemsize) <= |bytes|
    ensures LowerBound(NonZeroUpTo(bytes, |bytes|), Multiple(i + 1, itemsize)) ==
            LowerBound(NonZeroUpTo(bytes, |bytes|), Multiple(i, itemsize)) + CountNonZero(Slot(bytes, itemsize, i))
  {
    MultipleOrder(i, n, itemsize);
    LowerBoundCounts(bytes, |bytes|, Multiple(i, itemsize));
    LowerBoundCounts(bytes, |bytes|, Multiple(i + 1, itemsize));
    PositionsBetween(bytes, Multiple(i, itemsize), Multiple(i + 1, itemsize));
  }

  // ----- what the words are -----

  /** Every word stays inside its slot. */
  lemma InsideSlot(w: Words, bytes: seq<int>, itemsize: nat, n: nat, i: nat)
    requires Describes(w, bytes, itemsize, n) && i < n
    ensures w.starts[i] == Multiple(i, itemsize) && w.starts[i] + w.lens[i] <= Multiple(i + 1, itemsize) <= |bytes|
  {
    MultipleOrder(i, n, itemsize);
    assert StartOk(w.starts, itemsize, i) && LenOk(w.lens, bytes, itemsize, n, i);
    CountAtMost(Slot(bytes, itemsize, i));
  }

  function Sum(s: seq<nat>): nat {
    if s == [] then 0 else Sum(s[..|s| - 1]) + s[|s| - 1]
  }

  /** Together the words are as long as there are non-zero elements. */
  lemma {:induction false} LensSum(w: Words, bytes: seq<int>, itemsize: nat, n: nat, k: nat)
    requires Describes(w, bytes, itemsize, n) && k <= n
    ensures Multiple(k, itemsize) <= |bytes| && Sum(w.lens[..k]) == CountNonZero(bytes[..Multiple(k, itemsize)])
  {
    if k == 0 {
      assert bytes[..Multiple(0, itemsize)] == [];
    } else {
      LensSum(w, bytes, itemsize, n, k - 1);
      MultipleOrder(k - 1, n, itemsize);
      assert LenOk(w.lens, bytes, itemsize, n, k - 1);
      assert w.lens[..k][..k - 1] == w.lens[..k - 1];
      CountSplit(bytes[..Multiple(k, itemsize)], Multiple(k - 1, itemsize));
      assert bytes[..Multiple(k, itemsize)][..Multiple(k - 1, itemsize)] == bytes[..Multiple(k - 1, itemsize)];
      assert bytes[..Multiple(k, itemsize)][Multiple(k - 1, itemsize)..] == Slot(bytes, itemsize, k - 1);
    }
  }

  lemma {:induction false} CountSplit(s: seq<int>, k: nat)
    requires k <= |s|
    ensures CountNonZero(s) == CountNonZero(s[..k]) + CountNonZero(s[k..])
  {
    if k == |s| {
      assert s[..k] == s;
    } else {
      var n := |s| - 1;
      CountSplit(s[..n], k);
      assert s[..n][..k] == s[..k] && s[..n][k..] == s[k..][..n - k];
    }
  }

  predicate ZeroFree(s: seq<int>) {
    forall k :: 0 <= k < |s| ==> s[k] != 0
  }

  predicate AllZero(s: seq<int>) {
    forall k :: 0 <= k < |s| ==> s[k] == 0
  }

  lemma {:induction false} CountZeroFree(s: seq<int>)
    requires ZeroFree(s)
    ensures CountNonZero(s) == |s|
  {
    if s != [] {
      CountZeroFree(s[..|s| - 1]);
    }
  }

  lemma {:induction false} CountAllZero(s: seq<int>)
    requires AllZero(s)
    ensures CountNonZero(s) == 0
  {
    if s != [] {
      CountAllZero(s[..|s| - 1]);
    }
  }

  lemma {:induction false} NoCount(s: seq<int>)
    requires CountNonZero(s) == 0
    ensures AllZero(s)
  {
    if s != [] {
      NoCount(s[..|s| - 1]);
    }
  }

  /** A slot that holds a zero-free string padded with zeros: its non-zero elements come first. */
  predicate Padded(slot: seq<int>, text: seq<int>) {
    && text <= slot && ZeroFree(text) && AllZero(slot[|text|..])
  }

  lemma SliceSlice(s: seq<int>, lo: nat, hi: nat, len: nat)
    requires lo <= hi <= |s| && lo + len <= hi
    ensures s[lo..hi][..len] == s[lo..lo + len]
  {
  }

  lemma PrefixIsText(slot: seq<int>, text: seq<int>)
    requires ZeroFree(text)
    ensures CountNonZero(slot) <= |slot|
    ensures slot[..CountNonZero(slot)] == text <==> Padded(slot, text)
  {
    CountAtMost(slot);
    CountZeroFree(text);
    var len := CountNonZero(slot);
    if slot[..len] == text {
      CountSplit(slot, len);
      NoCount(slot[len..]);
    }
    if Padded(slot, text) {
      CountSplit(slot, |text|);
      assert slot[..|text|] == text;
      CountAllZero(slot[|text|..]);
    }
  }

  /** Decoding gives back exactly the string that was padded; and a word is a zero-free string only if its slot was
      such a padded string, so interior zeros are the one way to lose content. */
  lemma DecodesExactly(w: Words, bytes: seq<int>, itemsize: nat, n: nat, i: nat, text: seq<int>)
    requires Describes(w, bytes, itemsize, n) && i < n && ZeroFree(text)
    ensures Multiple(i + 1, itemsize) <= |bytes| && w.starts[i] + w.lens[i] <= |bytes|
    ensures Word(w, i) == text <==> Padded(Slot(bytes, itemsize, i), text)
  {
    InsideSlot(w, bytes, itemsize, n, i);
    assert LenOk(w.lens, bytes, itemsize, n, i);
    SliceSlice(bytes, w.starts[i], w.starts[i] + itemsize, w.lens[i]);
    PrefixIsText(Slot(bytes, itemsize, i), text);
  }

  /** If every slot is a padded string, the words are those strings. */
  lemma DecodesAll(w: Words, bytes: seq<int>, itemsize: nat, texts: seq<seq<int>>)
    requires Describes(w, bytes, itemsize, |texts|)
    requires forall i :: 0 <= i < |texts| ==> ZeroFree(texts[i]) && |texts[i]| <= itemsize
    requires bytes == Layout(texts, itemsize)
    ensures forall i :: 0 <= i < |texts| ==> w.starts[i] + w.lens[i] <= |w.chars| && Word(w, i) == texts[i]
  {
    forall i | 0 <= i < |texts| ensures w.starts[i] + w.lens[i] <= |w.chars| && Word(w, i) == texts[i] {
      LayoutSlot(texts, itemsize, i);
      DecodesExactly(w, bytes, itemsize, |texts|, i, texts[i]);
    }
  }

  function Zeros(n: nat): (z: seq<int>)
    ensures |z| == n && AllZero(z)
  {
    if n == 0 then [] else Zeros(n - 1) + [0]
  }

  /** The strings one after the other, each padded with zeros to itemsize. */
  function Layout(texts: seq<seq<int>>, itemsize: nat): (b: seq<int>)
    requires forall i :: 0 <= i < |texts| ==> |texts[i]| <= itemsize
    ensures |b| == Multiple(|texts|, itemsize)
  {
    if texts == [] then []
    else
      var t := texts[|texts| - 1];
        Layout(texts[..|texts| - 1], itemsize) + t + Zeros(itemsize - |t|)
  }

  lemma {:induction false} LayoutSlot(texts: seq<seq<int>>, itemsize: nat, i: nat)
    requires (forall k :: 0 <= k < |texts| ==> ZeroFree(texts[k]) && |texts[k]| <= itemsize) && i < |texts|
    ensures Multiple(i + 1, itemsize) <= |Layout(texts, itemsize)|
    ensures Padded(Slot(Layout(texts, itemsize), itemsize, i), texts[i])
  {
    var n := |texts| - 1;
    MultipleOrder(i, |texts|, itemsize);
    var front := Layout(texts[..n], itemsize);
    var last := texts[n] + Zeros(itemsize - |texts[n]|);
    assert Layout(texts, itemsize) == front + last;
    if i < n {
      MultipleOrder(i, n, itemsize);
      LayoutSlot(texts[..n], itemsize, i);
      FrontSlice(front, last, Multiple(i, itemsize), Multiple(i + 1, itemsize));
    } else {
      assert (front + last)[|front|..] == last;
    }
  }

  lemma FrontSlice(a: seq<int>, b: seq<int>, lo: nat, hi: nat)
    requires lo <= hi <= |a|
    ensures (a + b)[lo..hi] == a[lo..hi]
  {
  }
}
