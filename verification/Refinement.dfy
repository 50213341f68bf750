/** Seen from outside, every transfer is one atomic copy between client and server memory, and every remote call one
    atomic change of server memory. */
module Refinement {
  import opened Blocks
  import opened Wire
  import opened Transport
  import opened ClientSide
  import opened Invariants
  import opened Segments
  import opened Safety

  /** The memories as a program sees them: one per server, one buffer per client thread. */
  datatype Memory = Memory(remote: map<Node, seq<byte>>, local: map<nat, seq<byte>>)

  /** exrpc_rawsend and exrpc_rawrecv as their names promise, and what a remote call leaves. */
  function Effect(m: Memory, t: nat, op: Op): Memory
    requires t in m.local && op.node in m.remote
  {
    if op.form.RemoteCall? then
      m.(remote := m.remote[op.node := Put(m.remote[op.node], op.form.at, op.form.bytes)])
    else if op.kind == RawSend then
      m.(remote := m.remote[op.node := Put(m.remote[op.node], op.remote, Get(m.local[t], op.local, op.size))])
    else
      m.(local := m.local[t := Put(m.local[t], op.local, Get(m.remote[op.node], op.remote, op.size))])
  }

  /** A server memory under a call still counts as it was when the call got the connection; otherwise the calls that
      have returned count as run. */
  ghost function RemoteOf(s: State, n: Node): seq<byte>
    requires ConnsOk(s) && n in s.servers
  {
    if n in s.conns && s.conns[n].holder != {} then
      var t :| t in s.conns[n].holder; s.threads[t].mem0
    else if n in s.conns then SettledAt(s, n)
    else s.servers[n].mem
  }

  /** The memory of a server with all calls run that it has been sent. */
  function SettledAt(s: State, n: Node): seq<byte>
    requires n in s.servers && n in s.conns
  {
    Settled(s.servers[n].pc, s.servers[n].mem, s.conns[n].c2s)
  }

  function LocalOf(th: Thread): seq<byte> {
    if InCall(th.pc) then th.buf0 else th.buf
  }

  ghost function Seen(s: State): Memory
    requires ConnsOk(s)
  {
    Memory(map n | n in s.servers :: RemoteOf(s, n), map t | t in s.threads :: LocalOf(s.threads[t]))
  }

  lemma HeldRemote(s: State, t: nat)
    requires ConnsOk(s) && t in s.threads && InCall(s.threads[t].pc)
    ensures RemoteOf(s, s.threads[t].op.node) == s.threads[t].mem0
  {
  }

  /** Remote memory r and local buffer l before a call, r' and l' after it. */
  predicate Copied(op: Op, r: seq<byte>, l: seq<byte>, r': seq<byte>, l': seq<byte>) {
    if op.form.RemoteCall? then r' == Put(r, op.form.at, op.form.bytes) && l' == l
    else if op.kind == RawSend then r' == Put(r, op.remote, Get(l, op.local, op.size)) && l' == l
    else l' == Put(l, op.local, Get(r, op.remote, op.size)) && r' == r
  }

  /** When a call is about to return, its bytes are where they belong and nothing else has changed. */
  lemma TransferDone(th: Thread, sv: Server, cn: Conn, seg: seq<byte>)
    requires Session(th, sv, cn, seg) && th.pc.CUnlock?
    ensures Copied(th.op, th.mem0, th.buf0, Settled(sv.pc, sv.mem, cn.c2s), th.buf)
    ensures Awaited(th.op) ==> Settled(sv.pc, sv.mem, cn.c2s) == sv.mem
  {
    var p := Payload(th);
    assert Prefix(p, |p|) == p;
    if th.op.form.RemoteCall? {
      assert Put(th.buf0, th.op.local, []) == th.buf0;
    }
  }

  /** States whose connections, sessions and pool are in order. */
  type Sound = s: State | ConnsOk(s) && SessionsOk(s) && PoolOk(s) ghost witness EMPTY

  const EMPTY := State(map[], map[], map[], map[], map[], Unknown, false, [], map[], [], {}, [], 0, false)

  // ----- one step at a time -----

  /** What a step of thread t means for the memory a program sees. */
  lemma RemoteStep(s: State, s': State, t: nat, n: Node)
    requires ConnsOk(s) && ConnsOk(s') && t in s.threads && n in s.servers
    requires t in s'.threads && s'.threads == s.threads[t := s'.threads[t]] && s'.servers == s.servers
    requires n in s.conns && (n == s.threads[t].op.node ==> !InCall(s.threads[t].pc)) ==>
               n in s'.conns && s'.conns[n] == s.conns[n]
    requires n !in s.conns ==> s.servers[n].pc == SIdle && (n in s'.conns ==> s'.conns[n] == Conn({}, [], []))
    requires n == s.threads[t].op.node ==> !InCall(s.threads[t].pc)
    ensures RemoteOf(s', n) == RemoteOf(s, n)
  {
    if n in s.conns && s.conns[n].holder != {} {
      var u :| u in s.conns[n].holder;
      HeldRemote(s, u);
      HeldRemote(s', u);
    }
  }

  /** What the stepping thread carries along. */
  lemma CarriesAlong(c: Config, s: State, t: nat, ch: Choice)
    requires CanClient(c, s, t, ch)
    ensures var th := s.threads[t]; var th' := ThreadAfter(c, s, t, ch);
            && th'.op == th.op
            && (!th.pc.CLockConn? ==> th'.buf0 == th.buf0 && th'.mem0 == th.mem0)
            && (th.pc.CLockConn? ==> th'.buf0 == th.buf && th'.mem0 == SettledAt(s, th.op.node))
            && (!DoesIo(th.pc) ==> th'.buf == th.buf)
  {
  }

  /** The memory of a node that the stepping thread's call does not concern, or not yet. */
  lemma OtherRemote(c: Config, s: Sound, t: nat, ch: Choice, m: Node)
    requires CanClient(c, s, t, ch) && ConnsOk(ClientStep(c, s, t, ch)) && m in s.servers
    requires m == s.threads[t].op.node ==> !InCall(s.threads[t].pc) && !s.threads[t].pc.CLockConn?
    ensures RemoteOf(ClientStep(c, s, t, ch), m) == RemoteOf(s, m)
  {
    ConnsFrame(c, s, t, ch);
    TablesFrame(c, s, t, ch);
    RemoteStep(s, ClientStep(c, s, t, ch), t, m);
  }

  /** While a call is under way, and when it starts, the memory of its node looks the same. */
  lemma OwnRemote(c: Config, s: Sound, t: nat, ch: Choice)
    requires CanClient(c, s, t, ch) && ConnsOk(ClientStep(c, s, t, ch))
    requires !s.threads[t].pc.CUnlock? && (InCall(s.threads[t].pc) || s.threads[t].pc.CLockConn?)
    ensures var n := s.threads[t].op.node; RemoteOf(ClientStep(c, s, t, ch), n) == RemoteOf(s, n)
  {
    ThreadShape(c, s, t, ch);
    CarriesAlong(c, s, t, ch);
    TablesFrame(c, s, t, ch);
    HeldRemote(ClientStep(c, s, t, ch), t);
    if InCall(s.threads[t].pc) {
      HeldRemote(s, t);
    }
  }

  lemma OwnLocal(c: Config, s: Sound, t: nat, ch: Choice)
    requires CanClient(c, s, t, ch) && !s.threads[t].pc.CUnlock?
    ensures LocalOf(ThreadAfter(c, s, t, ch)) == LocalOf(s.threads[t])
  {
    ThreadShape(c, s, t, ch);
    CarriesAlong(c, s, t, ch);
  }

  lemma SeenSame(s: State, s': State)
    requires ConnsOk(s) && ConnsOk(s') && s'.servers.Keys == s.servers.Keys && s'.threads.Keys == s.threads.Keys
    requires forall m :: m in s.servers ==> RemoteOf(s', m) == RemoteOf(s, m)
    requires forall t :: t in s.threads ==> LocalOf(s'.threads[t]) == LocalOf(s.threads[t])
    ensures Seen(s') == Seen(s)
  {
  }

  lemma StepRemote(c: Config, s: Sound, t: nat, ch: Choice, m: Node)
    requires CanClient(c, s, t, ch) && !s.threads[t].pc.CUnlock?
    requires ConnsOk(ClientStep(c, s, t, ch)) && m in s.servers
    ensures RemoteOf(ClientStep(c, s, t, ch), m) == RemoteOf(s, m)
  {
    if m == s.threads[t].op.node && (InCall(s.threads[t].pc) || s.threads[t].pc.CLockConn?) {
      OwnRemote(c, s, t, ch);
    } else {
      OtherRemote(c, s, t, ch, m);
    }
  }

  lemma StepRemotes(c: Config, s: Sound, s': State, t: nat, ch: Choice)
    requires CanClient(c, s, t, ch) && !s.threads[t].pc.CUnlock?
    requires s' == ClientStep(c, s, t, ch) && ConnsOk(s')
    ensures s'.servers == s.servers && forall m :: m in s.servers ==> RemoteOf(s', m) == RemoteOf(s, m)
  {
    TablesFrame(c, s, t, ch);
    forall m | m in s.servers ensures RemoteOf(s', m) == RemoteOf(s, m) {
      StepRemote(c, s, t, ch, m);
    }
  }

  lemma StepLocals(c: Config, s: Sound, s': State, t: nat, ch: Choice)
    requires CanClient(c, s, t, ch) && !s.threads[t].pc.CUnlock? && s' == ClientStep(c, s, t, ch)
    ensures s'.threads.Keys == s.threads.Keys
    ensures forall u :: u in s.threads ==> LocalOf(s'.threads[u]) == LocalOf(s.threads[u])
  {
    OwnLocal(c, s, t, ch);
  }

  /** Apart from the return of a call, no client step shows. */
  lemma StepUnseen(c: Config, s: Sound, s': State, t: nat, ch: Choice)
    requires CanClient(c, s, t, ch) && !s.threads[t].pc.CUnlock?
    requires s' == ClientStep(c, s, t, ch) && ConnsOk(s')
    ensures Seen(s') == Seen(s)
  {
    StepLocals(c, s, s', t, ch);
    StepRemotes(c, s, s', t, ch);
    SeenSame(s, s');
  }

  /** The memories of the call that returns. */
  lemma UnlockOwn(c: Config, s: Sound, t: nat, ch: Choice)
    requires CanClient(c, s, t, ch) && s.threads[t].pc.CUnlock?
    requires ConnsOk(ClientStep(c, s, t, ch))
    ensures var s' := ClientStep(c, s, t, ch); var th := s.threads[t]; var n := th.op.node;
            && RemoteOf(s, n) == th.mem0 && LocalOf(th) == th.buf0
            && RemoteOf(s', n) == SettledAt(s, n)
            && t in s'.threads && LocalOf(s'.threads[t]) == th.buf
  {
    HeldRemote(s, t);
    ConnsFrame(c, s, t, ch);
    TablesFrame(c, s, t, ch);
  }

  lemma Returning(s: Sound, t: nat)
    requires t in s.threads && s.threads[t].pc.CUnlock?
    ensures var th := s.threads[t];
            && th.op.node in s.servers && th.op.node in s.conns
            && Copied(th.op, th.mem0, th.buf0, SettledAt(s, th.op.node), th.buf)
  {
    var th := s.threads[t];
    TransferDone(th, s.servers[th.op.node], s.conns[th.op.node], SegOf(s, th.id));
  }

  /** They are those of the copy. */
  lemma UnlockBoth(c: Config, s: Sound, s': State, t: nat, ch: Choice)
    requires CanClient(c, s, t, ch) && s.threads[t].pc.CUnlock?
    requires s' == ClientStep(c, s, t, ch) && ConnsOk(s')
    ensures var th := s.threads[t]; var n := th.op.node;
            t in s'.threads && n in s.servers && n in s'.servers
            && Copied(th.op, RemoteOf(s, n), LocalOf(th), RemoteOf(s', n), LocalOf(s'.threads[t]))
  {
    UnlockOwn(c, s, t, ch);
    Returning(s, t);
  }

  /** A call that returns has the effect of one copy, by then visible to everybody. */
  lemma UnlockCopies(c: Config, s: Sound, s': State, t: nat, ch: Choice)
    requires CanClient(c, s, t, ch) && s.threads[t].pc.CUnlock?
    requires s' == ClientStep(c, s, t, ch) && ConnsOk(s')
    ensures Seen(s') == Effect(Seen(s), t, s.threads[t].op)
  {
    var th := s.threads[t];
    var n := th.op.node;
    TablesFrame(c, s, t, ch);
    UnlockBoth(c, s, s', t, ch);
    forall m | m in s.servers && m != n ensures RemoteOf(s', m) == RemoteOf(s, m) {
      OtherRemote(c, s, t, ch, m);
    }
    SeenCopy(s, s', t);
  }

  lemma SeenRemote(s': State, m: Memory)
    requires ConnsOk(s') && m.remote.Keys == s'.servers.Keys
    requires forall n :: n in s'.servers ==> RemoteOf(s', n) == m.remote[n]
    ensures Seen(s').remote == m.remote
  {
  }

  lemma SeenLocal(s': State, m: Memory)
    requires ConnsOk(s') && m.local.Keys == s'.threads.Keys
    requires forall t :: t in s'.threads ==> LocalOf(s'.threads[t]) == m.local[t]
    ensures Seen(s').local == m.local
  {
  }

  lemma EffectRemote(s: State, s': State, t: nat)
    requires ConnsOk(s) && ConnsOk(s') && t in s.threads && s.threads[t].op.node in s.servers && s'.servers == s.servers
    requires t in s'.threads
    requires var th := s.threads[t]; var n := th.op.node;
             && (forall m :: m in s.servers && m != n ==> RemoteOf(s', m) == RemoteOf(s, m))
             && Copied(th.op, RemoteOf(s, n), LocalOf(th), RemoteOf(s', n), LocalOf(s'.threads[t]))
    ensures Seen(s').remote == Effect(Seen(s), t, s.threads[t].op).remote
  {
    SeenRemote(s', Effect(Seen(s), t, s.threads[t].op));
  }

  lemma EffectLocal(s: State, s': State, t: nat)
    requires ConnsOk(s) && ConnsOk(s') && t in s.threads && s.threads[t].op.node in s.servers && s'.servers == s.servers
    requires t in s'.threads && s'.threads == s.threads[t := s'.threads[t]]
    requires var th := s.threads[t]; var n := th.op.node;
             Copied(th.op, RemoteOf(s, n), LocalOf(th), RemoteOf(s', n), LocalOf(s'.threads[t]))
    ensures Seen(s').local == Effect(Seen(s), t, s.threads[t].op).local
  {
    SeenLocal(s', Effect(Seen(s), t, s.threads[t].op));
  }

  /** Putting the pieces of a copy together. */
  lemma SeenCopy(s: State, s': State, t: nat)
    requires ConnsOk(s) && ConnsOk(s') && t in s.threads && s.threads[t].op.node in s.servers
    requires t in s'.threads && s'.threads == s.threads[t := s'.threads[t]] && s'.servers == s.servers
    requires var th := s.threads[t]; var n := th.op.node;
             && (forall m :: m in s.servers && m != n ==> RemoteOf(s', m) == RemoteOf(s, m))
             && Copied(th.op, RemoteOf(s, n), LocalOf(th), RemoteOf(s', n), LocalOf(s'.threads[t]))
    ensures Seen(s') == Effect(Seen(s), t, s.threads[t].op)
  {
    EffectRemote(s, s', t);
    EffectLocal(s, s', t);
  }

  lemma ServeRemote(c: Config, s: Sound, s': State, n: Node, ch: Choice, m: Node)
    requires CanServe(c, s, n) && s' == ServeStep(c, s, n, ch) && ConnsOk(s') && m in s.servers
    ensures m in s'.servers && RemoteOf(s', m) == RemoteOf(s, m)
  {
    ServeFrame(c, s, n, ch);
    if m in s.conns && s.conns[m].holder != {} {
      var t :| t in s.conns[m].holder;
      HeldRemote(s, t);
      HeldRemote(s', t);
    } else if m == n {
      ServedFree(c, s, n, ch);
    }
  }

  lemma ServeRemotes(c: Config, s: Sound, s': State, n: Node, ch: Choice)
    requires CanServe(c, s, n)
    requires s' == ServeStep(c, s, n, ch) && ConnsOk(s')
    ensures s'.servers.Keys == s.servers.Keys && s'.threads == s.threads
    ensures forall m :: m in s.servers ==> RemoteOf(s', m) == RemoteOf(s, m)
  {
    ServeFrame(c, s, n, ch);
    forall m | m in s.servers ensures m in s'.servers && RemoteOf(s', m) == RemoteOf(s, m) {
      ServeRemote(c, s, s', n, ch, m);
    }
  }

  /** A server works in private. */
  lemma ServeUnseen(c: Config, s: Sound, s': State, n: Node, ch: Choice)
    requires CanServe(c, s, n)
    requires s' == ServeStep(c, s, n, ch) && ConnsOk(s')
    ensures Seen(s') == Seen(s)
  {
    ServeRemotes(c, s, s', n, ch);
    SeenSame(s, s');
  }

  lemma BeginRemote(c: Config, s: State, a: Action, m: Node)
    requires ConnsOk(s) && Enabled(c, s, a) && a.Begin? && ConnsOk(Apply(c, s, a)) && m in s.servers
    ensures RemoteOf(Apply(c, s, a), m) == RemoteOf(s, m)
  {
    if m in s.conns && s.conns[m].holder != {} {
      var t :| t in s.conns[m].holder;
      HeldRemote(s, t);
      HeldRemote(Apply(c, s, a), t);
    }
  }

  lemma BeginSeen(c: Config, s: State, a: Action)
    requires ConnsOk(s) && Enabled(c, s, a) && a.Begin? && ConnsOk(Apply(c, s, a))
    ensures Seen(Apply(c, s, a)) == Seen(s).(local := Seen(s).local[a.tid := a.buf])
  {
    BeginRemotes(c, s, a);
    SeenFilled(s, Apply(c, s, a), a.tid, a.buf);
  }

  lemma BeginRemotes(c: Config, s: State, a: Action)
    requires ConnsOk(s) && Enabled(c, s, a) && a.Begin? && ConnsOk(Apply(c, s, a))
    ensures var s' := Apply(c, s, a);
            && s'.servers == s.servers && s'.threads == s.threads[a.tid := s'.threads[a.tid]]
            && LocalOf(s'.threads[a.tid]) == a.buf
            && forall m :: m in s.servers ==> RemoteOf(s', m) == RemoteOf(s, m)
  {
    forall m | m in s.servers ensures RemoteOf(Apply(c, s, a), m) == RemoteOf(s, m) {
      BeginRemote(c, s, a, m);
    }
  }

  lemma SeenFilled(s: State, s': State, t: nat, buf: seq<byte>)
    requires ConnsOk(s) && ConnsOk(s') && s'.servers.Keys == s.servers.Keys && t in s.threads && t in s'.threads
    requires s'.threads == s.threads[t := s'.threads[t]] && LocalOf(s'.threads[t]) == buf
    requires forall m :: m in s.servers ==> RemoteOf(s', m) == RemoteOf(s, m)
    ensures Seen(s') == Seen(s).(local := Seen(s).local[t := buf])
  {
  }

  // ----- whole runs -----

  /** The abstract program: callers fill their own buffers, copy, and change server memory; nothing else happens. */
  datatype Event = Fill(tid: nat, buf: seq<byte>) | Return(tid: nat, op: Op)

  /** What a program can notice of a step: a caller supplies a buffer, or a transfer or a remote call returns. */
  function EventsOf(s: State, a: Action): seq<Event> {
    if a.Begin? then [Fill(a.tid, a.buf)]
    else if a.Client? && a.tid in s.threads && s.threads[a.tid].pc.CUnlock? then [Return(a.tid, s.threads[a.tid].op)]
    else []
  }

  /** Their effects, in the order in which calls return. */
  function Happen(m: Memory, e: Event): Memory {
    match e
    case Fill(t, buf) => m.(local := m.local[t := buf])
    case Return(t, op) => if t in m.local && op.node in m.remote then Effect(m, t, op) else m
  }

  function HappenAll(m: Memory, es: seq<Event>): Memory
    decreases |es|
  {
    if es == [] then m else HappenAll(Happen(m, es[0]), es[1..])
  }

  function RunEvents(c: Config, s: State, run: seq<Action>): seq<Event>
    requires Legal(c, s, run)
    decreases |run|
  {
    if run == [] then [] else EventsOf(s, run[0]) + RunEvents(c, Apply(c, s, run[0]), run[1..])
  }

  lemma HappenOne(m: Memory, e: Event)
    ensures HappenAll(m, [e]) == Happen(m, e)
  {
    assert [e][1..] == [];
  }

  lemma UnlockRefines(c: Config, s: Sound, s': State, t: nat, ch: Choice)
    requires CanClient(c, s, t, ch) && s.threads[t].pc.CUnlock?
    requires s' == ClientStep(c, s, t, ch) && ConnsOk(s')
    ensures Seen(s') == HappenAll(Seen(s), [Return(t, s.threads[t].op)])
  {
    UnlockCopies(c, s, s', t, ch);
    HappenOne(Seen(s), Return(t, s.threads[t].op));
  }

  lemma ClientRefines(c: Config, s: Sound, s': State, t: nat, ch: Choice)
    requires CanClient(c, s, t, ch)
    requires s' == ClientStep(c, s, t, ch) && ConnsOk(s')
    ensures Seen(s') == HappenAll(Seen(s), EventsOf(s, Client(t, ch)))
  {
    if s.threads[t].pc.CUnlock? {
      UnlockRefines(c, s, s', t, ch);
    } else {
      StepUnseen(c, s, s', t, ch);
    }
  }

  /** One step does what it announces. */
  lemma StepRefines(c: Config, s: State, a: Action)
    requires Inv(s) && Enabled(c, s, a) && ConnsOk(Apply(c, s, a))
    ensures Seen(Apply(c, s, a)) == HappenAll(Seen(s), EventsOf(s, a))
  {
    match a
    case Begin(t, _, buf) =>
      BeginSeen(c, s, a);
      HappenOne(Seen(s), Fill(t, buf));
    case Client(t, ch) => ClientRefines(c, s, Apply(c, s, a), t, ch);
    case Serve(n, ch) => ServeUnseen(c, s, Apply(c, s, a), n, ch);
  }

  lemma {:induction false} HappenAppend(m: Memory, es: seq<Event>, fs: seq<Event>)
    ensures HappenAll(m, es + fs) == HappenAll(HappenAll(m, es), fs)
    decreases |es|
  {
    if es == [] {
      assert es + fs == fs;
    } else {
      assert (es + fs)[1..] == es[1..] + fs;
      HappenAppend(Happen(m, es[0]), es[1..], fs);
    }
  }

  /** Every interleaving of transfers, over any mixture of TCP and DMA, and of remote calls, awaited or not, does to the
      memories what the sequence of its returning calls does one after the other: nothing is lost, torn, or written
      outside its range. */
  lemma {:induction false} RunRefines(c: Config, s: State, run: seq<Action>)
    requires Reachable(c, s) && Legal(c, s, run)
    ensures ConnsOk(s) && ConnsOk(Exec(c, s, run))
    ensures Seen(Exec(c, s, run)) == HappenAll(Seen(s), RunEvents(c, s, run))
    decreases |run|
  {
    ReachableGood(c, s);
    if run != [] {
      var s1 := Apply(c, s, run[0]);
      StepKeeps(c, s, run[0]);
      StepRefines(c, s, run[0]);
      ReachStep(c, s, run[0]);
      RunRefines(c, s1, run[1..]);
      HappenAppend(Seen(s), EventsOf(s, run[0]), RunEvents(c, s1, run[1..]));
    }
  }

  /** What is seen of a memory is what is there, once nobody holds the connection and the server has nothing to do. */
  lemma SeenIsThere(c: Config, s: State, n: Node)
    requires Reachable(c, s) && n in s.servers && s.servers[n].pc == SIdle
    requires n in s.conns ==> s.conns[n].holder == {} && s.conns[n].c2s == []
    ensures ConnsOk(s) && Seen(s).remote[n] == s.servers[n].mem
  {
    ReachableSessions(c, s);
  }
}
