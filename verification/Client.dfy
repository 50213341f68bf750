/** The client end of a call: who holds the connection's lock, what is written, what is read, and when the lock is
    released. */
module Client {
  import opened Endian
  import opened Framing

  /** What happens on a pooled connection: its lock is taken and released, requests are written, answers are read. */
  datatype Event = Took | Wrote | Read | Released

  datatype Hold = Free | Taken | Disorder

  /** The lock after a history of events; the connection may only be used while the lock is held. */
  function After(log: seq<Event>): Hold {
    if log == [] then Free
    else
      match (After(log[..|log| - 1]), log[|log| - 1])
      case (Free, Took) => Taken
      case (Taken, Wrote) => Taken
      case (Taken, Read) => Taken
      case (Taken, Released) => Free
      case _ => Disorder
  }

  lemma AfterNext(log: seq<Event>, e: Event)
    ensures After(log + [e]) ==
            if e.Took? then if After(log).Free? then Taken else Disorder
            else if After(log).Taken? then if e.Released? then Free else Taken
            else Disorder
  {
    assert (log + [e])[..|log|] == log;
  }

  /** In an orderly history every write and every read lies between a taking of the lock and its release. */
  lemma {:induction false} UsedWhileHeld(log: seq<Event>, i: nat) returns (took: nat)
    requires !After(log).Disorder? && i < |log| && !log[i].Took?
    ensures took < i && log[took].Took? && forall k :: took < k < i ==> log[k].Wrote? || log[k].Read?
  {
    var n := |log| - 1;
    if i < n {
      took := UsedWhileHeld(log[..n], i);
    } else {
      took := LastTaking(log[..n]);
    }
  }

  /** A lock that is held has been taken, and not been released since. */
  lemma {:induction false} LastTaking(log: seq<Event>) returns (took: nat)
    requires After(log).Taken?
    ensures took < |log| && log[took].Took? && forall k :: took < k < |log| ==> log[k].Wrote? || log[k].Read?
  {
    var n := |log| - 1;
    if log[n].Took? {
      took := n;
    } else {
      took := LastTaking(log[..n]);
    }
  }

  /** A pooled connection with its lock, and the history of its use. */
  class Connection {
    const sock: Socket
    var locked: bool
    var log: seq<Event>

    ghost predicate Valid()
      reads this
    {
      After(log) == if locked then Taken else Free
    }

    constructor (sock: Socket)
      ensures Valid() && this.sock == sock && !locked && log == []
    {
      this.sock := sock;
      locked := false;
      log := [];
    }

    /** Taking the lock; the caller waits until it is free. */
    method Lock()
      requires Valid() && !locked
      modifies this
      ensures Valid() && locked && log == old(log) + [Took]
    {
      AfterNext(log, Took);
      locked := true;
      log := log + [Took];
    }

    method Unlock()
      requires Valid() && locked
      modifies this
      ensures Valid() && !locked && log == old(log) + [Released]
    {
      AfterNext(log, Released);
      locked := false;
      log := log + [Released];
    }

    /** The holder of the lock is about to write or read. */
    method Use(e: Event)
      requires Valid() && locked && (e.Wrote? || e.Read?)
      modifies this
      ensures Valid() && locked && log == old(log) + [e]
    {
      AfterNext(log, e);
      log := log + [e];
    }
  }

  /** What a caller gets: the result, the server's exception, an error for a second get, or an I/O error. */
  datatype Outcome = Value(data: seq<octet>) | Exception(what: seq<octet>) | AlreadyGot | Broken

  function OutcomeOf(r: Reply): Outcome {
    if r.caught then Exception(r.data) else Value(r.data)
  }

  /** Exactly the reply at the front of before was read; after is left. */
  predicate ReadExactly(g: Host, before: seq<octet>, after: seq<octet>, o: Outcome) {
    var p := ReadReply(g, before);
    p.Some? && o == OutcomeOf(p.value) && after == p.rest
  }

  predicate ReadOnewayExactly(g: Host, before: seq<octet>, after: seq<octet>, o: Outcome) {
    var p := ReadOneway(g, before);
    p.Some? && o == OutcomeOf(p.value) && after == p.rest
  }

  /** If the reply to this call is at the front of the connection, get returns its result or throws its exception and
      leaves what follows: the client end of the correlation of calls and replies. */
  lemma GetsReply(h: Host, g: Host, r: Reply, rest: seq<octet>, after: seq<octet>, o: Outcome)
    requires Fits(r) && ReadExactly(g, ReplyBytes(h, r) + rest, after, o)
    ensures o == (if r.caught then Exception(r.data) else Value(r.data)) && after == rest
  {
    ReplyBack(h, g, r, rest);
  }

  lemma GetsOnewayReply(h: Host, g: Host, r: Reply, rest: seq<octet>, after: seq<octet>, o: Outcome)
    requires Fits(r) && ReadOnewayExactly(g, OnewayBytes(h, r) + rest, after, o)
    ensures o == (if r.caught then Exception(r.data) else Value([])) && after == rest
  {
    OnewayBack(h, g, r, rest);
  }

  /** send_exrpcreq: the lock is taken before the first octet is written and is still held afterwards. */
  method SendRequest(conn: Connection, c: Codec, call: Call) returns (ok: bool)
    requires conn.Valid() && !conn.locked
    modifies conn, conn.sock`output, conn.sock`failures
    ensures conn.Valid() && conn.locked && conn.log == old(conn.log) + [Took, Wrote]
    ensures ok ==> conn.sock.output == old(conn.sock.output) + CallBytes(c, call)
    ensures old(conn.sock.failures) <= conn.sock.failures && (ok <==> conn.sock.failures == old(conn.sock.failures))
  {
    conn.Lock();
    conn.Use(Wrote);
    ok := conn.sock.SendRequest(c, call);
  }

  class ExrpcResult {
    const conn: Connection
    const host: Host
    var getDone: bool

    constructor (conn: Connection, host: Host)
      ensures this.conn == conn && this.host == host && !getDone
    {
      this.conn := conn;
      this.host := host;
      getDone := false;
    }

    /** The first get reads exactly one reply and then releases the lock once, whether the call succeeded or threw;
        a second get changes nothing. A failed system call, and nothing else, leaves the lock taken. If the reply of a
        server of any byte order is at the front of the connection, its result is what get returns, or its exception
        what get throws. */
    method Get() returns (o: Outcome)
      requires conn.Valid() && (!getDone ==> conn.locked)
      modifies this, conn, conn.sock`input, conn.sock`failures
      ensures conn.Valid()
      ensures old(getDone) ==>
                o == AlreadyGot && getDone && conn.locked == old(conn.locked) && conn.log == old(conn.log)
                && conn.sock.input == old(conn.sock.input)
      ensures !old(getDone) ==> !o.AlreadyGot?
      ensures !old(getDone) && !o.Broken? ==>
                getDone && !conn.locked && conn.log == old(conn.log) + [Read, Released]
                && ReadExactly(host, old(conn.sock.input), conn.sock.input, o)
      ensures !old(getDone) && o.Broken? ==> !getDone && conn.locked && conn.log == old(conn.log) + [Read]
      ensures o.Broken? <==> conn.sock.failures != old(conn.sock.failures)
      ensures forall h, r, rest ::
                !old(getDone) && !o.Broken? && Fits(r) && old(conn.sock.input) == ReplyBytes(h, r) + rest ==>
                  o == (if r.caught then Exception(r.data) else Value(r.data)) && conn.sock.input == rest
    {
      if getDone {
        return AlreadyGot;
      }
      conn.Use(Read);
      var p := conn.sock.ReceiveReply(host);
      if p.Incomplete? {
        return Broken;
      }
      conn.Unlock();
      getDone := true;
      o := OutcomeOf(p.value);
      forall h, r, rest | Fits(r) && old(conn.sock.input) == ReplyBytes(h, r) + rest
        ensures o == (if r.caught then Exception(r.data) else Value(r.data)) && conn.sock.input == rest
      {
        GetsReply(h, host, r, rest, conn.sock.input, o);
      }
    }
  }

  /** send_exrpcreq_oneway: the lock is taken before the request is written, held until the answer is read, and then
      released once, on both paths. */
  method CallOneway(conn: Connection, c: Codec, host: Host, call: Call) returns (o: Outcome)
    requires conn.Valid() && !conn.locked
    modifies conn, conn.sock
    ensures conn.Valid() && !o.AlreadyGot?
    ensures !o.Broken? ==>
              !conn.locked && conn.log == old(conn.log) + [Took, Wrote, Read, Released]
              && conn.sock.output == old(conn.sock.output) + CallBytes(c, call)
              && ReadOnewayExactly(host, old(conn.sock.input), conn.sock.input, o)
    ensures o.Broken? ==>
              conn.locked
              && (conn.log == old(conn.log) + [Took, Wrote] || conn.log == old(conn.log) + [Took, Wrote, Read])
    ensures o.Broken? <==> conn.sock.failures != old(conn.sock.failures)
  {
    var ok := SendRequest(conn, c, call);
    if !ok {
      return Broken;
    }
    conn.Use(Read);
    var p := conn.sock.ReceiveOneway(host);
    if p.Incomplete? {
      return Broken;
    }
    conn.Unlock();
    o := OutcomeOf(p.value);
  }

  /** send_exrpcreq_oneway_noexcept: nothing is read, the lock is released as soon as the request is written. */
  method CallNoExcept(conn: Connection, c: Codec, call: Call) returns (ok: bool)
    requires conn.Valid() && !conn.locked
    modifies conn, conn.sock`output, conn.sock`failures
    ensures conn.Valid() && (ok <==> conn.sock.failures == old(conn.sock.failures))
    ensures ok ==> !conn.locked && conn.log == old(conn.log) + [Took, Wrote, Released]
                   && conn.sock.output == old(conn.sock.output) + CallBytes(c, call)
    ensures !ok ==> conn.locked && conn.log == old(conn.log) + [Took, Wrote]
  {
    ok := SendRequest(conn, c, call);
    if ok {
      conn.Unlock();
    }
  }
}
