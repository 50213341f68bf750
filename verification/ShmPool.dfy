/** The pool of shared segments as the client keeps it: get_shm and return_shm. */
module ShmPool {
  import opened Transport

  /** What the operating system answers when a segment is created: its id, or a failure of open, ftok or shmget. */
  datatype Created = NewId(id: int) | CreateFailed

  datatype Got = Shm(id: int) | NoShm

  /** What the other threads do while dma_buf_list_lock is given up: the free segments they leave, the ids they add to
      the clean-up list, and the verdicts they record; neither of those two lists ever loses an entry. */
  datatype Turns = Turns(bufs: seq<int>, cleanup: seq<int>, verdicts: map<(Node, int), bool>)

  /** The ids of dma_buf_list, the recorded verdicts, the ids to remove at exit, and whether the handlers that remove
      them have been asked for. A segment's address goes with its id. */
  class Pool {
    var bufs: seq<int>
    var usable: map<(Node, int), bool>
    var cleanup: seq<int>
    var needCleanup: bool

    constructor ()
      ensures bufs == [] && usable == map[] && cleanup == [] && !needCleanup
    {
      bufs, usable, cleanup, needCleanup := [], map[], [], false;
    }

    /** The search for a segment known usable for n. */
    method FindUsable(n: Node) returns (i: nat)
      ensures i <= |bufs|
      ensures forall j :: 0 <= j < i ==> !KnownUsable(usable, n, bufs[j])
      ensures i < |bufs| ==> KnownUsable(usable, n, bufs[i])
    {
      i := 0;
      while i < |bufs|
        invariant i <= |bufs| && forall j :: 0 <= j < i ==> !KnownUsable(usable, n, bufs[j])
      {
        if (n, bufs[i]) in usable && usable[(n, bufs[i])] {
          break;
        }
        i := i + 1;
      }
    }

    /** A free segment leaves the pool: the first one known usable for n, or else the last one. */
    method Take(n: Node) returns (id: int)
      requires bufs != []
      modifies this`bufs
      ensures var k := PickIndex(old(bufs), usable, n);
              id == old(bufs)[k] && bufs == old(bufs)[..k] + old(bufs)[k + 1..]
      ensures (exists j :: 0 <= j < |old(bufs)| && KnownUsable(usable, n, old(bufs)[j])) ==> KnownUsable(usable, n, id)
      ensures multiset(old(bufs)) == multiset(bufs) + multiset{id}
    {
      var i := FindUsable(n);
      PickIs(bufs, usable, n, i, 0);
      if i < |bufs| {
        id := bufs[i];
        TakeOut(bufs, i);
        bufs := bufs[..i] + bufs[i + 1..];
      } else {
        id := bufs[|bufs| - 1];
        TakeOut(bufs, |bufs| - 1);
        assert bufs[|bufs|..] == [] && bufs[..|bufs| - 1] + [] == bufs[..|bufs| - 1];
        bufs := bufs[..|bufs| - 1];
      }
    }

    /** The lock is given up and taken again. */
    method Meanwhile(others: Turns)
      modifies this
      ensures bufs == others.bufs && cleanup == old(cleanup) + others.cleanup
      ensures usable == others.verdicts + old(usable) && needCleanup == old(needCleanup)
    {
      bufs, cleanup, usable := others.bufs, cleanup + others.cleanup, others.verdicts + usable;
    }

    /** get_shm: a free segment if there is one, otherwise a new one; no segment if the handlers cannot be installed,
        the segment cannot be created or it cannot be attached. While it creates a segment others use the pool; what
        they do to it stays, and the new segment is on the clean-up list whatever happens afterwards. */
    method GetShm(n: Node, handlers: bool, created: Created, attached: bool, others: Turns) returns (r: Got)
      modifies this
      ensures needCleanup
      ensures !old(needCleanup) && !handlers ==>
                r == NoShm && bufs == old(bufs) && cleanup == old(cleanup) && usable == old(usable)
      ensures (old(needCleanup) || handlers) && old(bufs) != [] ==>
                && (var k := PickIndex(old(bufs), usable, n);
                    r == Shm(old(bufs)[k]) && bufs == old(bufs)[..k] + old(bufs)[k + 1..])
                && cleanup == old(cleanup) && usable == old(usable)
                && multiset(old(bufs)) == multiset(bufs) + multiset{r.id}
      ensures (old(needCleanup) || handlers) && old(bufs) == [] ==>
                && r == (if created.NewId? && attached then Shm(created.id) else NoShm)
                && bufs == others.bufs && usable == others.verdicts + old(usable)
                && cleanup == old(cleanup) + others.cleanup + if created.NewId? then [created.id] else []
    {
      if !needCleanup {
        needCleanup := true;
        if !handlers {
          return NoShm;
        }
      }
      if |bufs| == 0 {
        Meanwhile(others);
        if created.CreateFailed? {
          return NoShm;
        }
        cleanup := cleanup + [created.id];
        r := if attached then Shm(created.id) else NoShm;
      } else {
        var id := Take(n);
        r := Shm(id);
      }
    }

    method ReturnShm(id: int)
      modifies this`bufs
      ensures bufs == old(bufs) + [id]
    {
      bufs := bufs + [id];
    }
  }

  lemma TakeOut(s: seq<int>, k: nat)
    requires k < |s|
    ensures multiset(s) == multiset(s[..k] + s[k + 1..]) + multiset{s[k]}
  {
    assert s == s[..k] + [s[k]] + s[k + 1..];
  }

  /** The result of the search determines the choice of the step in which a segment is picked. */
  lemma {:induction false} PickIs(pool: seq<int>, usable: map<(Node, int), bool>, n: Node, i: nat, from: nat)
    requires pool != [] && from <= i <= |pool|
    requires forall j :: 0 <= j < i ==> !KnownUsable(usable, n, pool[j])
    requires i < |pool| ==> KnownUsable(usable, n, pool[i])
    ensures PickFrom(pool, usable, n, from) == if i < |pool| then i else |pool| - 1
    decreases i - from
  {
    if from < i {
      PickIs(pool, usable, n, i, from + 1);
    }
  }
}
