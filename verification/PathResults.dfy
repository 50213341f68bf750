/** Which way transfers take, stated about reachable states and whole runs. */
module PathResults {
  import opened Blocks
  import opened Wire
  import opened Transport
  import opened ClientSide
  import opened ServerSide
  import opened Invariants
  import opened Segments
  import opened Safety
  import opened Paths

  // ----- only for nodes of the client's own host -----

  /** A server is asked about a segment or works with one. */
  predicate Handles(pc: ServerPc) {
    pc.STry? || pc.SSayOk? || pc.SUse? || Indexed(pc)
  }

  /** The client that a server handles a segment for. */
  lemma HandledFor(s: State, n: Node) returns (t: nat)
    requires ConnsOk(s) && SessionsOk(s) && n in s.servers && Handles(s.servers[n].pc)
    ensures t in s.threads && s.threads[t].op.node == n && Owns(s.threads[t].pc)
  {
    assert n in s.conns;
    var sv := s.servers[n];
    if s.conns[n].holder == {} {
      RestsEarly(sv.pc, s.conns[n].c2s);
    }
    t :| t in s.conns[n].holder;
    WorksForOwner(s.threads[t], sv, s.conns[n]);
  }

  lemma WantsNear(c: Config, s: State, t: nat)
    requires PathsOk(c, s) && t in s.threads && WantsShm(s.threads[t].pc)
    ensures s.threads[t].op.node.host == c.host
  {
    assert InCall(s.threads[t].pc) && PathAt(c, s.threads[t], s.servers, s.conns, s.usable);
  }

  /** Shared memory is asked for, made, probed and used for nodes on the client's own host only, and only once some
      server has said that it is a vector engine. */
  lemma SharedOnOwnHost(c: Config, s: State)
    requires Reachable(c, s)
    ensures forall t :: t in s.threads && WantsShm(s.threads[t].pc) ==> s.threads[t].op.node.host == c.host
    ensures forall n :: n in s.servers && Handles(s.servers[n].pc) ==> n.host == c.host
    ensures forall n, id :: (n, id) in s.probes || (n, id) in s.usable ==> n.host == c.host
    ensures (exists t :: t in s.threads && WantsShm(s.threads[t].pc)) ==> VeServer(s)
  {
    ReachablePaths(c, s);
    ReachableProbes(c, s);
    ReachableSessions(c, s);
    forall t | t in s.threads && WantsShm(s.threads[t].pc) ensures s.threads[t].op.node.host == c.host {
      WantsNear(c, s, t);
    }
    forall n | n in s.servers && Handles(s.servers[n].pc) ensures n.host == c.host {
      var t := HandledFor(s, n);
      WantsNear(c, s, t);
    }
    forall n, id | (n, id) in s.probes || (n, id) in s.usable ensures n.host == c.host {
      assert (n, id) in s.probes && (n, id).0 == n;
    }
  }

  // ----- what the client knows -----

  /** The table of verdicts is exact: a segment is down as usable for a node if and only if the server of that node has
      attached it. Only vector engines attach segments. */
  lemma VerdictsExact(c: Config, s: State, n: Node, id: int)
    requires Reachable(c, s) && (n, id) in s.usable
    ensures n in s.servers && (s.usable[(n, id)] <==> id in s.servers[n].shmMap)
    ensures s.usable[(n, id)] ==> s.servers[n].ve
  {
    ReachablePaths(c, s);
    ReachableProbes(c, s);
    if s.usable[(n, id)] {
      assert id in s.servers[n].shmMap;
    } else {
      assert KnownUseless(s.usable, n, id);
    }
  }

  /** A transfer that uses its segment has it down as usable, and one that gives it back unused as useless. */
  lemma VerdictsObeyed(c: Config, s: State, t: nat)
    requires Reachable(c, s) && t in s.threads
    ensures var th := s.threads[t];
            && (OverDma(th.pc) ==> KnownUsable(s.usable, th.op.node, th.id))
            && (Unused(th.pc) ==> KnownUseless(s.usable, th.op.node, th.id))
  {
    ReachablePaths(c, s);
    ThreadObeys(c, s, t);
  }

  lemma ThreadObeys(c: Config, s: State, t: nat)
    requires PathsOk(c, s) && t in s.threads
    ensures var th := s.threads[t];
            && (OverDma(th.pc) ==> KnownUsable(s.usable, th.op.node, th.id))
            && (Unused(th.pc) ==> KnownUseless(s.usable, th.op.node, th.id))
  {
    var th := s.threads[t];
    assert PathAt(c, th, s.servers, s.conns, s.usable);
    assert OverDma(th.pc) || Unused(th.pc) ==> InCall(th.pc);
  }

  /** What a thread records as the type is what its own server is. */
  lemma TypeRecorded(c: Config, s: State, t: nat, ch: Choice)
    requires Reachable(c, s) && CanClient(c, s, t, ch) && Learns(s.threads[t].pc) && s.threads[t].pc.CInside?
    ensures s.threads[t].op.node in s.servers
    ensures ClientStep(c, s, t, ch).serverType == if s.servers[s.threads[t].op.node].ve then Ve else X86
  {
    ReachablePaths(c, s);
    HeardOwn(c, s, t);
  }

  /** The type is that of some server; if all servers are of one type, it is that type once it is known. */
  lemma TypeKnown(c: Config, s: State)
    requires Reachable(c, s) && s.serverType != Unknown
    ensures exists n :: n in s.servers && (s.serverType == Ve <==> s.servers[n].ve)
    ensures (forall n :: n in s.servers ==> s.servers[n].ve) ==> s.serverType == Ve
    ensures (forall n :: n in s.servers ==> !s.servers[n].ve) ==> s.serverType == X86
  {
    ReachablePaths(c, s);
    if s.serverType == Ve {
      var n :| n in s.servers && s.servers[n].ve;
      assert s.serverType == Ve <==> s.servers[n].ve;
    } else {
      var n :| n in s.servers && !s.servers[n].ve;
      assert s.serverType == Ve <==> s.servers[n].ve;
    }
  }

  // ----- the choice between the two ways -----

  /** The type that a thread has learned and is about to act on. */
  predicate Knows(s: State, th: Thread, ve: bool) {
    || th.pc == CInside(SetType(ve))
    || (th.pc == CInside(GetType) && s.serverType == if ve then Ve else X86)
  }

  /** The reasons for announcing TCP: another host, a server that is not a vector engine, no segment to be had because a
      system call failed, or a segment that is down as useless and has just been returned. */
  predicate Declines(c: Config, s: State, th: Thread, ch: Choice) {
    || (Knows(s, th, true) && th.op.node.host != c.host)
    || Knows(s, th, false)
    || (th.pc == CInside(GetFree) && !s.needCleanup && !ch.ok)
    || ((th.pc.CCreate? || th.pc.CAttach?) && !ch.ok)
    || th.pc == CInside(GiveBack(TcpUnsaid))
  }

  /** A transfer comes to announce TCP exactly for one of these reasons, and asks get_shm for a segment exactly if its
      node is on the client's host and has said, or is known, to be a vector engine. */
  lemma WayChosen(c: Config, s: State, t: nat, ch: Choice)
    requires CanClient(c, s, t, ch)
    ensures var th := s.threads[t]; var pc' := ThreadAfter(c, s, t, ch).pc;
            && (pc' == CSayTcp <==> Declines(c, s, th, ch))
            && (pc' == CAcquire(GetFree) <==> Knows(s, th, true) && th.op.node.host == c.host)
  {
    var th := s.threads[t];
    if DoesIo(th.pc) {
      IoChooses(Local(th, s.conns[th.op.node], SegOf(s, th.id)));
    } else {
      SameSegment(c, s, t, ch);
      NextChooses(c, s, th, ch);
    }
  }

  lemma NextChooses(c: Config, s: State, th: Thread, ch: Choice)
    requires !DoesIo(th.pc) && !th.pc.CIdle? && !th.pc.CBroken?
    ensures var pc' := Next(c, s, th, ch);
            && (pc' == CSayTcp <==> Declines(c, s, th, ch))
            && (pc' == CAcquire(GetFree) <==> Knows(s, th, true) && th.op.node.host == c.host)
  {
    if th.pc.CInside? {
      LeaveChooses(c, s, th, ch);
    }
  }

  lemma IoChooses(l: Local)
    requires DoesIo(l.th.pc) && (Hears(l.th.pc, l.th.op) ==> l.cn.s2c != [])
    ensures Io(l).th.pc != CSayTcp && Io(l).th.pc != CAcquire(GetFree)
  {
  }

  lemma LeaveChooses(c: Config, s: State, th: Thread, ch: Choice)
    requires th.pc.CInside?
    ensures var pc' := Leave(c, s, th, th.pc.r, ch);
            && (pc' == CSayTcp <==> Declines(c, s, th, ch))
            && (pc' == CAcquire(GetFree) <==> Knows(s, th, true) && th.op.node.host == c.host)
  {
  }

  /** What becomes of a segment in hand: used if it is down as usable, probed if nothing is down, and else given back.
      */
  lemma SegmentJudged(c: Config, s: State, t: nat, ch: Choice)
    requires CanClient(c, s, t, ch) && s.threads[t].pc == CInside(Lookup)
    ensures var th := s.threads[t]; var pc' := ThreadAfter(c, s, t, ch).pc;
            && (pc' == CSayUse <==> KnownUsable(s.usable, th.op.node, th.id))
            && (pc' == CAcquire(GiveBack(TcpUnsaid)) <==> KnownUseless(s.usable, th.op.node, th.id))
            && (pc' == CSayTry <==> (th.op.node, th.id) !in s.usable)
  {
  }

  // ----- whole runs -----

  /** No system call fails in this step. */
  predicate Succeeds(a: Action) {
    (a.Client? || a.Serve?) ==> a.choice.ok
  }

  /** Points at which a transfer has turned to TCP, or is about to. */
  predicate OverTcp(pc: ClientPc) {
    || pc.CSayTcp? || pc.CTcpOut? || pc.CTcpIn? || pc.CHearAck?
    || At(pc, Verdict(false)) || Unused(pc) || At(pc, SetType(false))
  }

  /** All servers are vector engines on the client's own host. */
  predicate AllNear(c: Config, s: State) {
    forall n :: n in s.servers ==> n.host == c.host && s.servers[n].ve
  }

  /** Nothing that leads to TCP has happened. */
  ghost predicate NoTcp(s: State) {
    && (forall t :: t in s.threads ==> !OverTcp(s.threads[t].pc))
    && (forall n :: n in s.servers ==> !s.servers[n].pc.SSayNg?)
    && (forall n :: n in s.conns ==> Msg(DmaNg) !in s.conns[n].s2c)
    && (forall p :: p in s.usable ==> s.usable[p])
  }

  /** The answers that a client waits for can only be good ones. */
  lemma AnswersGood(c: Config, th: Thread, sv: Server, cn: Conn)
    requires Turn(th, ViewOf(sv.pc, cn)) && Truthful(sv, cn) && sv.ve && Msg(DmaNg) !in cn.s2c && cn.s2c != []
    ensures th.pc.CHearVe? ==> cn.s2c[0] == Msg(IsVeYes)
    ensures th.pc.CHearTry? ==> cn.s2c[0] == Msg(DmaOk)
  {
    assert cn.s2c[0] in cn.s2c;
  }

  lemma HearsYes(c: Config, s: State, t: nat)
    requires ConnsOk(s) && SessionsOk(s) && PathsOk(c, s) && AllNear(c, s) && NoTcp(s)
    requires t in s.threads && (s.threads[t].pc.CHearVe? || s.threads[t].pc.CHearTry?)
    requires s.threads[t].op.node in s.conns && s.conns[s.threads[t].op.node].s2c != []
    ensures var p := s.conns[s.threads[t].op.node].s2c[0];
            p == if s.threads[t].pc.CHearVe? then Msg(IsVeYes) else Msg(DmaOk)
  {
    var th := s.threads[t];
    assert ThreadOk(s, t) && InCall(th.pc);
    AnswersGood(c, th, s.servers[th.op.node], s.conns[th.op.node]);
  }

  lemma HearStays(th: Thread, p: Packet)
    requires Hears(th.pc, th.op) && !OverTcp(th.pc)
    requires th.pc.CHearVe? ==> p == Msg(IsVeYes)
    requires th.pc.CHearTry? ==> p == Msg(DmaOk)
    ensures !OverTcp(AfterIn(th, p))
  {
  }

  lemma WriteStays(th: Thread)
    requires Writes(th.pc, th.op) && !OverTcp(th.pc)
    ensures !OverTcp(AfterOut(th))
  {
  }

  lemma CopyStays(l: Local)
    requires DoesIo(l.th.pc) && !Writes(l.th.pc, l.th.op) && !Hears(l.th.pc, l.th.op) && !OverTcp(l.th.pc)
    ensures !OverTcp(Io(l).th.pc)
  {
  }

  lemma LeaveStays(c: Config, s: State, th: Thread, ch: Choice)
    requires th.pc.CInside? && !OverTcp(th.pc) && ch.ok && th.op.node.host == c.host
    requires s.serverType != X86 && !KnownUseless(s.usable, th.op.node, th.id)
    ensures !OverTcp(Leave(c, s, th, th.pc.r, ch))
  {
  }

  lemma NextStays(c: Config, s: State, th: Thread, ch: Choice)
    requires !DoesIo(th.pc) && !OverTcp(th.pc) && ch.ok && th.op.node.host == c.host
    requires s.serverType != X86 && !KnownUseless(s.usable, th.op.node, th.id)
    ensures !OverTcp(Next(c, s, th, ch))
  {
    if th.pc.CInside? {
      LeaveStays(c, s, th, ch);
    }
  }

  lemma NotX86(c: Config, s: State)
    requires PathsOk(c, s) && AllNear(c, s)
    ensures s.serverType != X86
  {
  }

  lemma ThreadStays(c: Config, s: State, t: nat, ch: Choice)
    requires ConnsOk(s) && SessionsOk(s) && PathsOk(c, s) && AllNear(c, s) && NoTcp(s)
    requires CanClient(c, s, t, ch) && ch.ok
    ensures !OverTcp(ThreadAfter(c, s, t, ch).pc)
  {
    var th := s.threads[t];
    if !DoesIo(th.pc) {
      SameSegment(c, s, t, ch);
      NotX86(c, s);
      NextStays(c, s, th, ch);
    } else {
      var l := Local(th, s.conns[th.op.node], SegOf(s, th.id));
      if Writes(th.pc, th.op) {
        WriteStays(th);
      } else if Hears(th.pc, th.op) {
        if th.pc.CHearVe? || th.pc.CHearTry? { HearsYes(c, s, t); }
        HearStays(th, l.cn.s2c[0]);
      } else {
        CopyStays(l);
      }
    }
  }

  lemma IoHeard(l: Local, p: Packet)
    requires DoesIo(l.th.pc) && (Hears(l.th.pc, l.th.op) ==> l.cn.s2c != []) && p in Io(l).cn.s2c
    ensures p in l.cn.s2c
  {
  }

  lemma ClientConnsStay(c: Config, s: State, t: nat, ch: Choice, n: Node)
    requires ConnsOk(s) && NoTcp(s) && CanClient(c, s, t, ch) && n in ConnsAfter(c, s, t, ch)
    ensures Msg(DmaNg) !in ConnsAfter(c, s, t, ch)[n].s2c
  {
    ConnsFrame(c, s, t, ch);
    var th := s.threads[t];
    if n in s.conns {
      if n == th.op.node && DoesIo(th.pc) {
        var l := Local(th, s.conns[n], SegOf(s, th.id));
        if Msg(DmaNg) in Io(l).cn.s2c { IoHeard(l, Msg(DmaNg)); }
      } else {
        assert ConnsAfter(c, s, t, ch)[n].s2c == s.conns[n].s2c;
      }
    }
  }

  lemma VerdictsGood(s: State, th: Thread)
    requires (forall p :: p in s.usable ==> s.usable[p]) && !OverTcp(th.pc)
    ensures forall p :: p in UsableAfter(s, th) ==> UsableAfter(s, th)[p]
  {
  }

  lemma ClientStays(c: Config, s: State, t: nat, ch: Choice)
    requires ConnsOk(s) && SessionsOk(s) && PathsOk(c, s) && AllNear(c, s) && NoTcp(s)
    requires CanClient(c, s, t, ch) && ch.ok
    ensures NoTcp(ClientStep(c, s, t, ch))
  {
    ThreadStays(c, s, t, ch);
    VerdictsGood(s, s.threads[t]);
    forall n | n in ConnsAfter(c, s, t, ch) ensures Msg(DmaNg) !in ConnsAfter(c, s, t, ch)[n].s2c {
      ClientConnsStay(c, s, t, ch, n);
    }
  }

  lemma ServedStays(sv: Server, cn: Conn, seg: seq<byte>, ch: Choice)
    requires (Reading(sv.pc) ==> cn.c2s != []) && sv.ve && ch.ok && !sv.pc.SSayNg? && Msg(DmaNg) !in cn.s2c
    ensures var l := Served(sv, cn, seg, ch); !l.sv.pc.SSayNg? && Msg(DmaNg) !in l.cn.s2c
  {
  }

  lemma ServeStays(c: Config, s: State, n: Node, ch: Choice)
    requires ConnsOk(s) && AllNear(c, s) && NoTcp(s) && CanServe(c, s, n) && ch.ok
    ensures NoTcp(ServeStep(c, s, n, ch))
  {
    ServedStays(s.servers[n], s.conns[n], SegOf(s, DmaId(s.servers[n].pc)), ch);
  }

  lemma BeginStays(s: State, s': State, t: nat)
    requires NoTcp(s) && Started(s, s', t)
    ensures NoTcp(s')
  {
    forall u | u in s'.threads ensures !OverTcp(s'.threads[u].pc) {
      assert u in s.threads;
    }
  }

  /** Servers do not change their kind. */
  lemma SameServers(c: Config, s: State, a: Action)
    requires Enabled(c, s, a)
    ensures var s' := Apply(c, s, a);
            s'.servers.Keys == s.servers.Keys && forall n :: n in s.servers ==> s'.servers[n].ve == s.servers[n].ve
  {
    if a.Serve? {
      Attached(s.servers[a.node], s.conns[a.node], SegOf(s, DmaId(s.servers[a.node].pc)), a.choice);
    }
  }

  lemma StepStays(c: Config, s: State, a: Action)
    requires ConnsOk(s) && SessionsOk(s) && PathsOk(c, s) && AllNear(c, s) && NoTcp(s)
    requires Enabled(c, s, a) && Succeeds(a)
    ensures NoTcp(Apply(c, s, a)) && AllNear(c, Apply(c, s, a))
  {
    SameServers(c, s, a);
    match a
    case Begin(t, _, _) => BeginStays(s, Apply(c, s, a), t);
    case Client(t, ch) => ClientStays(c, s, t, ch);
    case Serve(n, ch) => ServeStays(c, s, n, ch);
  }

  lemma {:induction false} RunStays(c: Config, s: State, run: seq<Action>)
    requires Reachable(c, s) && AllNear(c, s) && NoTcp(s) && Legal(c, s, run)
    requires forall a :: a in run ==> Succeeds(a)
    ensures NoTcp(Exec(c, s, run))
    decreases |run|
  {
    if run != [] {
      ReachableSessions(c, s);
      ReachablePaths(c, s);
      StepStays(c, s, run[0]);
      ReachStep(c, s, run[0]);
      RunStays(c, Apply(c, s, run[0]), run[1..]);
    }
  }

  /** If all servers are vector engines on the client's host, then over every run in which no system call fails no
      transfer ever goes over TCP, no segment is ever refused, and every verdict is good. */
  lemma AllOverDma(c: Config, s: State, run: seq<Action>)
    requires Init(s) && AllNear(c, s) && Legal(c, s, run) && forall a :: a in run ==> Succeeds(a)
    ensures var s' := Exec(c, s, run);
            && (forall t :: t in s'.threads ==> !OverTcp(s'.threads[t].pc))
            && (forall p :: p in s'.usable ==> s'.usable[p])
  {
    InitReachable(c, s);
    RunStays(c, s, run);
  }

  /** No server is a vector engine on the client's host. */
  predicate NoneNear(c: Config, s: State) {
    (forall n :: n in s.servers ==> n.host != c.host) || (forall n :: n in s.servers ==> !s.servers[n].ve)
  }

  lemma NobodyWants(c: Config, s: State, t: nat)
    requires Reachable(c, s) && NoneNear(c, s) && t in s.threads
    ensures !WantsShm(s.threads[t].pc)
  {
    SharedOnOwnHost(c, s);
    ReachableSessions(c, s);
    WantsServer(s, t);
  }

  lemma WantsServer(s: State, t: nat)
    requires ConnsOk(s) && t in s.threads
    ensures WantsShm(s.threads[t].pc) ==> s.threads[t].op.node in s.servers
  {
    assert ThreadOk(s, t);
  }

  /** Without shared memory no step of a client touches it. */
  lemma ClientKeepsOff(c: Config, s: State, t: nat, ch: Choice)
    requires CanClient(c, s, t, ch) && !WantsShm(s.threads[t].pc)
    ensures var s' := ClientStep(c, s, t, ch); s'.segs == s.segs && s'.probes == s.probes
  {
  }

  lemma StepKeepsOff(c: Config, s: State, a: Action)
    requires Reachable(c, s) && NoneNear(c, s) && Enabled(c, s, a) && s.segs == map[]
    ensures var s' := Apply(c, s, a); s'.segs == map[] && s'.probes == s.probes && NoneNear(c, s')
  {
    SameServers(c, s, a);
    if a.Client? {
      NobodyWants(c, s, a.tid);
      ClientKeepsOff(c, s, a.tid, a.choice);
    }
  }

  /** If no server is on the client's host, or none is a vector engine, then no run ever makes or probes a segment. */
  lemma {:induction false} NeverShared(c: Config, s: State, run: seq<Action>)
    requires Reachable(c, s) && NoneNear(c, s) && Legal(c, s, run) && s.segs == map[] && s.probes == []
    ensures var s' := Exec(c, s, run);
            && s'.segs == map[] && s'.probes == []
            && (forall t :: t in s'.threads ==> !WantsShm(s'.threads[t].pc))
    decreases |run|
  {
    if run == [] {
      forall t | t in s.threads ensures !WantsShm(s.threads[t].pc) {
        NobodyWants(c, s, t);
      }
    } else {
      StepKeepsOff(c, s, run[0]);
      ReachStep(c, s, run[0]);
      NeverShared(c, Apply(c, s, run[0]), run[1..]);
    }
  }
}
