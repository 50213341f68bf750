/** Strings as the C++ library orders them, strictly sorted lists of them, and what is built from such lists. */
module Strings {

  /** Lexicographic order. */
  predicate Less(a: string, b: string) {
    b != [] && (a == [] || a[0] < b[0] || (a[0] == b[0] && Less(a[1..], b[1..])))
  }

  /** The first difference decides, by the smaller character, and a string comes after its own front. */
  lemma {:induction false} LessFirst(p: string, x: char, y: char, a: string, b: string)
    ensures Less(p, p + [x] + a) && !Less(p + [x] + a, p)
    ensures x != y ==> (Less(p + [x] + a, p + [y] + b) <==> x < y)
  {
    if p == [] {
      assert p + [x] + a == [x] + a && p + [y] + b == [y] + b;
    } else {
      LessFirst(p[1..], x, y, a, b);
      assert (p + [x] + a)[1..] == p[1..] + [x] + a && (p + [y] + b)[1..] == p[1..] + [y] + b;
    }
  }

  lemma {:induction false} LessTotal(a: string, b: string)
    ensures Less(a, b) || a == b || Less(b, a)
    ensures !(Less(a, b) && Less(b, a)) && !Less(a, a)
    decreases |a|
  {
    if a != [] && b != [] && a[0] == b[0] {
      LessTotal(a[1..], b[1..]);
      assert a == [a[0]] + a[1..] && b == [b[0]] + b[1..];
    }
    if a != [] {
      LessTotal(a[1..], a[1..]);
    }
  }

  lemma {:induction false} LessTransitive(a: string, b: string, c: string)
    requires Less(a, b) && Less(b, c)
    ensures Less(a, c)
    decreases |b|
  {
    if a != [] && a[0] == b[0] == c[0] {
      LessTransitive(a[1..], b[1..], c[1..]);
    }
  }

  predicate AllAfter(x: string, s: seq<string>) {
    forall k :: 0 <= k < |s| ==> Less(x, s[k])
  }

  /** Strictly sorted: no duplicates. */
  predicate Sorted(s: seq<string>) {
    s == [] || (AllAfter(s[0], s[1..]) && Sorted(s[1..]))
  }

  lemma {:induction false} SortedAt(s: seq<string>, i: nat, j: nat)
    requires Sorted(s) && i < j < |s|
    ensures Less(s[i], s[j])
  {
    if i == 0 {
      assert s[1..][j - 1] == s[j];
    } else {
      SortedAt(s[1..], i - 1, j - 1);
    }
  }

  lemma AfterTransitive(x: string, y: string, s: seq<string>)
    requires Less(x, y) && AllAfter(y, s)
    ensures AllAfter(x, s)
  {
    forall k | 0 <= k < |s| ensures Less(x, s[k]) {
      LessTransitive(x, y, s[k]);
    }
  }

  lemma NotAfterItself(x: string, s: seq<string>)
    requires AllAfter(x, s)
    ensures x !in s
  {
    LessTotal(x, x);
  }

  /** Two strictly sorted lists with the same members are the same list. */
  lemma {:induction false} SortedUnique(s: seq<string>, t: seq<string>)
    requires Sorted(s) && Sorted(t) && forall x :: x in s <==> x in t
    ensures s == t
  {
    assert s == [] || s[0] in s;
    assert t == [] || t[0] in t;
    if s != [] && t != [] {
      HeadsAgree(s, t);
      forall x ensures x in s[1..] <==> x in t[1..] {
        TailMembers(s, x);
        TailMembers(t, x);
      }
      SortedUnique(s[1..], t[1..]);
    }
  }

  lemma TailMembers(s: seq<string>, x: string)
    requires Sorted(s) && s != []
    ensures x in s[1..] <==> x in s && x != s[0]
  {
    NotAfterItself(s[0], s[1..]);
    assert s == [s[0]] + s[1..];
  }

  lemma HeadsAgree(s: seq<string>, t: seq<string>)
    requires Sorted(s) && Sorted(t) && s != [] && t != [] && s[0] in t && t[0] in s
    ensures s[0] == t[0]
  {
    TailMembers(s, t[0]);
    TailMembers(t, s[0]);
    LessTotal(s[0], t[0]);
  }

  // ----- set_union -----

  /** The two-pointer merge of the library, on two sorted ranges. */
  function SetUnion(l: seq<string>, r: seq<string>): seq<string>
    decreases |l| + |r|
  {
    if l == [] then r
    else if r == [] then l
    else if Less(l[0], r[0]) then [l[0]] + SetUnion(l[1..], r)
    else if Less(r[0], l[0]) then [r[0]] + SetUnion(l, r[1..])
    else [l[0]] + SetUnion(l[1..], r[1..])
  }

  lemma {:induction false} UnionMembers(l: seq<string>, r: seq<string>, x: string)
    ensures x in SetUnion(l, r) <==> x in l || x in r
    decreases |l| + |r|
  {
    if l != [] && r != [] {
      assert l == [l[0]] + l[1..] && r == [r[0]] + r[1..];
      if Less(l[0], r[0]) {
        UnionMembers(l[1..], r, x);
      } else if Less(r[0], l[0]) {
        UnionMembers(l, r[1..], x);
      } else {
        LessTotal(l[0], r[0]);
        UnionMembers(l[1..], r[1..], x);
      }
    }
  }

  lemma AllAfterUnion(x: string, l: seq<string>, r: seq<string>)
    requires AllAfter(x, l) && AllAfter(x, r)
    ensures AllAfter(x, SetUnion(l, r))
  {
    var u := SetUnion(l, r);
    forall k | 0 <= k < |u| ensures Less(x, u[k]) {
      UnionMembers(l, r, u[k]);
      assert u[k] in u;
    }
  }

  lemma {:induction false} UnionSorted(l: seq<string>, r: seq<string>)
    requires Sorted(l) && Sorted(r)
    ensures Sorted(SetUnion(l, r))
    decreases |l| + |r|
  {
    if l != [] && r != [] {
      LessTotal(l[0], r[0]);
      if Less(l[0], r[0]) {
        UnionSorted(l[1..], r);
        AfterTransitive(l[0], r[0], r[1..]);
        assert r == [r[0]] + r[1..];
        AllAfterUnion(l[0], l[1..], r);
      } else if Less(r[0], l[0]) {
        UnionSorted(l, r[1..]);
        AfterTransitive(r[0], l[0], l[1..]);
        assert l == [l[0]] + l[1..];
        AllAfterUnion(r[0], l, r[1..]);
      } else {
        UnionSorted(l[1..], r[1..]);
        AllAfterUnion(l[0], l[1..], r[1..]);
      }
    }
  }

  /** std::set: inserting one string. */
  function Insert(s: seq<string>, w: string): seq<string> {
    SetUnion(s, [w])
  }

  lemma InsertKeeps(s: seq<string>, w: string)
    requires Sorted(s)
    ensures Sorted(Insert(s, w))
  {
    UnionSorted(s, [w]);
  }

  // ----- lower_bound -----

  /** The first index whose string is not less than w, or the length. */
  function LowerBound(s: seq<string>, w: string): (k: nat)
    ensures k <= |s|
  {
    if s == [] || !Less(s[0], w) then 0 else 1 + LowerBound(s[1..], w)
  }

  /** lower_bound finds every string of a sorted list. */
  lemma {:induction false} LowerBoundFinds(s: seq<string>, w: string)
    requires Sorted(s) && w in s
    ensures LowerBound(s, w) < |s| && s[LowerBound(s, w)] == w
  {
    TailMembers(s, w);
    LessTotal(s[0], w);
    if w != s[0] {
      var k :| 0 <= k < |s[1..]| && s[1..][k] == w;
      assert Less(s[0], w);
      LowerBoundFinds(s[1..], w);
    }
  }

  /** It keeps the order. */
  lemma LowerBoundOrder(s: seq<string>, v: string, w: string)
    requires Sorted(s) && v in s && w in s && Less(v, w)
    ensures LowerBound(s, v) < LowerBound(s, w)
  {
    LowerBoundFinds(s, v);
    LowerBoundFinds(s, w);
    var i, j := LowerBound(s, v), LowerBound(s, w);
    LessTotal(v, w);
    if j < i {
      SortedAt(s, j, i);
    }
  }
}
