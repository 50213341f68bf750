/** Serving requests: the pool of accepted connections, and a worker that serves a given number of requests. */
module Service {

  /** A request, told apart by what was sent. */
  type Request = seq<int>

  predicate Distinct(s: seq<nat>) {
    forall i, j :: 0 <= i < j < |s| ==> s[i] != s[j]
  }

  /** Requests not yet served on the given connections. */
  function Pending(fds: seq<nat>, streams: map<nat, seq<Request>>): nat
    requires forall fd :: fd in fds ==> fd in streams
  {
    if fds == [] then 0
    else
      assert fds[0] in fds;
      |streams[fds[0]]| + Pending(fds[1..], streams)
  }

  /** The requests served on one connection, in the order of service. */
  function On(served: seq<(nat, Request)>, fd: nat): seq<Request> {
    if served == [] then []
    else On(served[..|served| - 1], fd) + if served[|served| - 1].0 == fd then [served[|served| - 1].1] else []
  }

  lemma OnNext(served: seq<(nat, Request)>, fd: nat, r: Request, other: nat)
    ensures On(served + [(fd, r)], other) == On(served, other) + if fd == other then [r] else []
  {
    assert (served + [(fd, r)])[..|served|] == served;
  }

  lemma {:induction false} PendingSame(fds: seq<nat>, streams: map<nat, seq<Request>>, fd: nat, s: seq<Request>)
    requires (forall x :: x in fds ==> x in streams) && fd !in fds
    ensures Pending(fds, streams[fd := s]) == Pending(fds, streams)
  {
    if fds != [] {
      PendingSame(fds[1..], streams, fd, s);
    }
  }

  lemma DistinctTail(fds: seq<nat>)
    requires Distinct(fds) && fds != []
    ensures Distinct(fds[1..]) && fds[0] !in fds[1..]
  {
    forall i, j | 0 <= i < j < |fds[1..]| ensures fds[1..][i] != fds[1..][j] {
      assert fds[i + 1] != fds[j + 1];
    }
  }

  lemma {:induction false} PendingShrinks(fds: seq<nat>, streams: map<nat, seq<Request>>, fd: nat)
    requires (forall x :: x in fds ==> x in streams) && Distinct(fds) && fd in fds && streams[fd] != []
    ensures Pending(fds, streams[fd := streams[fd][1..]]) == Pending(fds, streams) - 1
  {
    DistinctTail(fds);
    if fds[0] == fd {
      PendingSame(fds[1..], streams, fd, streams[fd][1..]);
    } else {
      PendingShrinks(fds[1..], streams, fd);
    }
  }

  lemma {:induction false} NothingPending(fds: seq<nat>, streams: map<nat, seq<Request>>)
    requires forall x :: x in fds ==> x in streams
    ensures Pending(fds, streams) == 0 <==> forall fd :: fd in fds ==> streams[fd] == []
  {
    if fds != [] {
      NothingPending(fds[1..], streams);
      assert forall fd :: fd in fds <==> fd == fds[0] || fd in fds[1..];
    }
  }

  /** Serving the first request of one connection moves it from what is to come to what has been served. */
  lemma ServedInOrder(served: seq<(nat, Request)>, streams: map<nat, seq<Request>>, fd: nat)
    requires fd in streams && streams[fd] != []
    ensures var served' := served + [(fd, streams[fd][0])]; var streams' := streams[fd := streams[fd][1..]];
            forall x :: x in streams ==> On(served', x) + streams'[x] == On(served, x) + streams[x]
  {
    var served' := served + [(fd, streams[fd][0])];
    var streams' := streams[fd := streams[fd][1..]];
    forall x | x in streams ensures On(served', x) + streams'[x] == On(served, x) + streams[x] {
      OnNext(served, fd, streams[fd][0], x);
    }
  }

  /** What select reports: the watched client connection, the listening socket, and connections of the pool. */
  datatype Selected = Selected(watch: bool, listen: bool, ready: set<nat>)

  /** pool is recv_connection_pool. backlog holds the connections that have been made but not accepted; streams what
      has been and will be sent on each connection and is not served yet. served is history. */
  class Acceptor {
    var pool: seq<nat>
    var backlog: seq<nat>
    var streams: map<nat, seq<Request>>
    var served: seq<(nat, Request)>

    /** Every client connects in order to send something, and a new connection gets a descriptor that is not in use. */
    ghost predicate Valid()
      reads this
    {
      && Distinct(pool + backlog)
      && (forall fd :: fd in pool + backlog ==> fd in streams)
      && (forall fd :: fd in backlog ==> streams[fd] != [])
    }

    ghost function Left(): nat
      requires Valid()
      reads this
    {
      Pending(pool + backlog, streams)
    }

    /** Something is ready, and what is reported ready is. */
    ghost predicate Truthful(s: Selected)
      requires Valid()
      reads this
    {
      && (s.listen ==> backlog != [])
      && (forall fd :: fd in s.ready ==> fd in pool && streams[fd] != [])
      && (s.watch || s.listen || s.ready != {})
    }

    constructor ()
      ensures Valid() && pool == [] && backlog == [] && streams == map[] && served == []
    {
      pool, backlog, streams, served := [], [], map[], [];
    }

    /** accept(2) and push_back. */
    method AcceptNew() returns (fd: nat)
      requires Valid() && backlog != []
      modifies this`pool, this`backlog
      ensures Valid() && pool + backlog == old(pool + backlog) && pool == old(pool) + [fd] && streams[fd] != []
      ensures fd == old(backlog)[0]
    {
      fd := backlog[0];
      ghost var all := pool + backlog;
      pool, backlog := pool + [fd], backlog[1..];
      assert pool + backlog == all;
      assert all[|old(pool)|] == fd;
    }

    /** fd is reported ready, and nothing before it in the pool is. */
    static ghost predicate FirstIn(pool: seq<nat>, ready: set<nat>, fd: nat) {
      exists i :: 0 <= i < |pool| && pool[i] == fd && fd in ready && forall k :: 0 <= k < i ==> pool[k] !in ready
    }

    /** The first connection of the pool that is reported ready. */
    method FirstReady(ready: set<nat>) returns (found: bool, fd: nat)
      ensures found <==> exists i :: 0 <= i < |pool| && pool[i] in ready
      ensures found ==> FirstIn(pool, ready, fd)
    {
      for i := 0 to |pool|
        invariant forall k :: 0 <= k < i ==> pool[k] !in ready
      {
        if pool[i] in ready {
          return true, pool[i];
        }
      }
      found, fd := false, 0;
    }

    /** handle_exrpc_accept_pooled. The answer is false only if the client of the driver has gone. */
    method Accept(fromDriver: bool, s: Selected) returns (ok: bool, fd: nat)
      requires Valid() && Truthful(s) && (!fromDriver ==> !s.watch && (pool == [] ==> backlog != []))
      modifies this`pool, this`backlog
      ensures Valid() && pool + backlog == old(pool + backlog)
      ensures ok <==> !(fromDriver && s.watch)
      ensures ok ==> fd in pool && streams[fd] != []
      ensures ok && (s.listen || (!fromDriver && old(pool) == [])) ==>
                old(backlog) != [] && fd == old(backlog)[0] && pool == old(pool) + [fd]
      ensures !s.listen && (fromDriver || old(pool) != []) ==> pool == old(pool) && (ok ==> FirstIn(pool, s.ready, fd))
      ensures !ok ==> pool == old(pool)
    {
      ok, fd := true, 0;
      if fromDriver && s.watch {
        ok := false;
      } else if !fromDriver && |pool| == 0 {
        fd := AcceptNew();
      } else if s.listen {
        fd := AcceptNew();
      } else {
        assert s.ready != {};
        ghost var one :| one in s.ready;
        assert one in pool;
        ok, fd := FirstReady(s.ready);
      }
    }

    /** handle_exrpc_process reads one request from the connection and serves it. */
    method Process(fd: nat)
      requires Valid() && fd in pool && streams[fd] != []
      modifies this`streams, this`served
      ensures Valid() && Left() == old(Left()) - 1
      ensures served == old(served) + [(fd, old(streams)[fd][0])]
      ensures streams == old(streams)[fd := old(streams)[fd][1..]]
    {
      PendingShrinks(pool + backlog, streams, fd);
      InOnePart(pool, backlog, fd);
      served := served + [(fd, streams[fd][0])];
      streams := streams[fd := streams[fd][1..]];
    }

    lemma SomethingWaits()
      requires Valid() && Left() > 0
      ensures backlog != [] || exists fd :: fd in pool && streams[fd] != []
    {
      NothingPending(pool + backlog, streams);
      var fd :| fd in pool + backlog && streams[fd] != [];
      assert fd in pool || fd in backlog;
    }

    /** What select may report to a worker at this moment: any truthful answer. */
    method Select() returns (s: Selected)
      requires Valid() && Left() > 0
      ensures Truthful(s) && !s.watch
    {
      var waiting := set fd | fd in pool && streams[fd] != [];
      SomethingWaits();
      if backlog == [] {
        ghost var fd :| fd in pool && streams[fd] != [];
        assert fd in waiting;
      }
      var listen: bool, some: set<nat> := *, *;
      listen := listen && backlog != [];
      var ready := some * waiting;
      if !listen && ready == {} {
        ready := waiting;
        listen := ready == {};
      }
      s := Selected(false, listen, ready);
    }

    /** One call of handle_exrpc_onereq by a worker: one request of one connection is served. */
    method OneRequest()
      requires Valid() && Left() > 0
      modifies this
      ensures Valid() && Left() == old(Left()) - 1 && pool + backlog == old(pool + backlog) && old(pool) <= pool
      ensures |served| == old(|served|) + 1 && old(served) <= served && streams.Keys == old(streams.Keys)
      ensures forall fd :: fd in streams ==> On(served, fd) + streams[fd] == old(On(served, fd) + streams[fd])
    {
      var s := Select();
      if |pool| == 0 {
        NoneReady(s);
      }
      var ok, fd := Accept(false, s);
      ServedInOrder(served, streams, fd);
      Process(fd);
    }

    /** With an empty pool something can only be ready in the backlog. */
    lemma NoneReady(s: Selected)
      requires Valid() && Truthful(s) && !s.watch && pool == []
      ensures backlog != []
    {
      assert s.listen || s.ready != {};
    }

    /** The loop of a worker: exactly numRpc requests are served, whatever select reports; on each connection the ones
        served are the first ones sent, each once and in order; accepted connections are in the pool, without
        duplicates; and if that many were sent, nothing is left over. */
    method Serve(numRpc: nat)
      requires Valid() && Left() >= numRpc
      modifies this
      ensures Valid() && Left() == old(Left()) - numRpc
      ensures |served| == old(|served|) + numRpc && streams.Keys == old(streams.Keys)
      ensures forall fd :: fd in streams ==> On(served, fd) + streams[fd] == old(On(served, fd) + streams[fd])
      ensures pool + backlog == old(pool + backlog) && old(pool) <= pool
      ensures old(Left()) == numRpc ==> backlog == [] && forall fd :: fd in pool ==> streams[fd] == []
    {
      for j := 0 to numRpc
        invariant Valid() && Left() == old(Left()) - j
        invariant |served| == old(|served|) + j && streams.Keys == old(streams.Keys)
        invariant forall fd :: fd in streams ==> On(served, fd) + streams[fd] == old(On(served, fd) + streams[fd])
        invariant pool + backlog == old(pool + backlog) && old(pool) <= pool
      {
        OneRequest();
      }
      NothingPending(pool + backlog, streams);
      assert backlog != [] ==> backlog[0] in backlog && backlog[0] in pool + backlog;
    }
  }

  lemma InOnePart(pool: seq<nat>, backlog: seq<nat>, fd: nat)
    requires Distinct(pool + backlog) && fd in pool
    ensures fd !in backlog
  {
    var i :| 0 <= i < |pool| && pool[i] == fd;
    forall j | 0 <= j < |backlog| ensures backlog[j] != fd {
      assert (pool + backlog)[i] != (pool + backlog)[|pool| + j];
    }
  }
}
