/** Laws of sequences that several proofs need. */
module Sequences {

  /** Concatenation may be regrouped. */
  lemma Regroup<T>(a: seq<T>, b: seq<T>, c: seq<T>)
    ensures (a + b) + c == a + (b + c)
  {
  }

  /** What is written by the first one or two of three writes is a front of the whole. */
  lemma ThreeParts<T>(before: seq<T>, a: seq<T>, b: seq<T>, c: seq<T>)
    ensures before + (a + b + c) == before + a + b + c
    ensures before + a <= before + a + b <= before + a + b + c
  {
  }

  lemma HeadMiddleTail<T>(x: T, a: seq<T>, b: seq<T>)
    ensures var s := [x] + a + b;
            |s| == 1 + |a| + |b| && s[0] == x && s[1..1 + |a|] == a && s[1 + |a|..] == b
  {
  }

  lemma HeadFirst<T>(a: seq<T>, b: seq<T>)
    requires a != []
    ensures a + b == [a[0]] + (a[1..] + b)
  {
  }

  /** One more element at the end of a queue, seen from its head. */
  lemma OneMore<T>(q: seq<T>, x: T)
    ensures q == [] ==> q + [x] == [x] && (q + [x])[1..] == [] && [x][1..] == []
    ensures q != [] ==> (q + [x])[0] == q[0] && (q + [x])[1..] == q[1..] + [x]
  {
  }

  lemma PrefixOfLonger<T>(a: seq<T>, b: seq<T>, c: seq<T>)
    requires a <= b
    ensures a <= b + c
  {
  }

  /** What is left of a longer sequence. */
  lemma RestOfLonger<T>(a: seq<T>, b: seq<T>, n: nat)
    requires n <= |a|
    ensures (a + b)[n..] == a[n..] + b
  {
  }

  lemma RestOfRest<T>(a: seq<T>, m: nat, n: nat)
    requires m + n <= |a|
    ensures a[m..][n..] == a[m + n..]
  {
  }

  lemma NoMore<T>(a: seq<T>)
    ensures a + [] == a
  {
  }

  // ----- what is written for a sequence of pairs -----

  /** What w makes of the first n pairs, one after the other. */
  function Joined<A, B, T>(w: (A, B) -> seq<T>, a: seq<A>, b: seq<B>, n: nat): seq<T>
    requires n <= |b| <= |a|
  {
    if n == 0 then [] else Joined(w, a, b, n - 1) + w(a[n - 1], b[n - 1])
  }

  /** Later pairs do not change it. */
  lemma {:induction false} JoinedOfLonger<A, B, T>(w: (A, B) -> seq<T>, a: seq<A>, b: seq<B>,
                                                   a': seq<A>, b': seq<B>, n: nat)
    requires n <= |b| <= |a| && |b'| <= |a'| && a <= a' && b <= b'
    ensures Joined(w, a', b', n) == Joined(w, a, b, n)
  {
    if n > 0 {
      JoinedOfLonger(w, a, b, a', b', n - 1);
    }
  }

  lemma {:induction false} JoinedGrows<A, B, T>(w: (A, B) -> seq<T>, a: seq<A>, b: seq<B>, m: nat, n: nat)
    requires m <= n <= |b| <= |a|
    ensures Joined(w, a, b, m) <= Joined(w, a, b, n)
    decreases n
  {
    if m < n {
      JoinedGrows(w, a, b, m, n - 1);
      PrefixOfLonger(Joined(w, a, b, m), Joined(w, a, b, n - 1), w(a[n - 1], b[n - 1]));
    }
  }

  lemma {:induction false} JoinedMoves<A, B, T>(w: (A, B) -> seq<T>, a: seq<A>, b: seq<B>, m: nat, n: nat)
    requires m < n <= |b| <= |a| && |w(a[m], b[m])| > 0
    ensures |Joined(w, a, b, m)| < |Joined(w, a, b, n)|
    decreases n
  {
    if m < n - 1 {
      JoinedMoves(w, a, b, m, n - 1);
    }
  }
}
