/** The calls that can let go of their connection with a message still in flight: receives of zero bytes and
    exception-free remote calls. */
module Unawaited {
  import opened Wire
  import opened Blocks
  import opened Transport
  import opened ClientSide
  import opened Invariants
  import opened Safety
  import opened Progress
  import opened Results

  /** Some run brings a call with these arguments to its unlock while the server has not read all its messages. */
  ghost predicate LeavesMessage(c: Config, op: Op) {
    exists s, t :: Leaves(c, s, t, op)
  }

  ghost predicate Leaves(c: Config, s: State, t: nat, op: Op) {
    && Reachable(c, s) && t in s.threads && s.threads[t].pc.CUnlock? && s.threads[t].op == op
    && op.node in s.conns && s.conns[op.node].c2s != []
  }

  // ----- a run with one thread and one server -----

  /** Where the two sides stand, what is in flight, and what the client knows about its servers. */
  datatype Point = Point(pc: ClientPc, spc: ServerPc, c2s: seq<Packet>, s2c: seq<Packet>, known: ServerType)

  /** Thread 0 works on op, for a server that is not a vector engine. */
  ghost predicate Stands(c: Config, s: State, op: Op, p: Point) {
    && Reachable(c, s) && s.threads.Keys == {0} && s.threads[0].pc == p.pc && s.threads[0].op == op
    && op.node in s.servers && s.servers[op.node].pc == p.spc && !s.servers[op.node].ve
    && op.node in s.conns && s.conns[op.node].c2s == p.c2s && s.conns[op.node].s2c == p.s2c
    && s.serverType == p.known
  }

  /** A thread that is alone finds every lock free. */
  lemma FreeLock(c: Config, s: State, r: Region)
    requires Reachable(c, s) && s.threads.Keys == {0} && s.threads[0].pc == CAcquire(r) && !r.Pick?
    ensures LockOf(r) !in s.locks
  {
    ReachableLocks(c, s);
  }

  lemma Enters(c: Config, s: State, op: Op, p: Point, r: Region) returns (s': State)
    requires Stands(c, s, op, p) && p.pc == CAcquire(r) && !r.Pick?
    ensures Stands(c, s', op, p.(pc := CInside(r)))
  {
    FreeLock(c, s, r);
    s' := Apply(c, s, Client(0, ANY));
    ReachStep(c, s, Client(0, ANY));
  }

  /** A step inside a region that creates no connection. */
  lemma Regions(c: Config, s: State, op: Op, p: Point) returns (s': State)
    requires Stands(c, s, op, p) && p.pc.CInside? && !p.pc.r.Connect? && CanClient(c, s, 0, ANY)
    ensures var known := if p.pc.r.SetType? then if p.pc.r.ve then Ve else X86 else p.known;
            Stands(c, s', op, p.(pc := Leave(c, s, s.threads[0], p.pc.r, ANY), known := known))
  {
    s' := ClientStep(c, s, 0, ANY);
    ReachStep(c, s, Client(0, ANY));
  }

  lemma AsksType(c: Config, s: State, op: Op, p: Point) returns (s': State)
    requires Stands(c, s, op, p) && p.pc == CInside(GetType) && p.known == Unknown
    ensures Stands(c, s', op, p.(pc := CAskVe))
  {
    s' := Regions(c, s, op, p);
  }

  lemma SetsType(c: Config, s: State, op: Op, p: Point) returns (s': State)
    requires Stands(c, s, op, p) && p.pc == CInside(SetType(false))
    ensures Stands(c, s', op, p.(pc := CSayTcp, known := X86))
  {
    assert Leave(c, s, s.threads[0], p.pc.r, ANY) == CSayTcp;
    s' := Regions(c, s, op, p);
  }

  /** A packet step of the thread, as the change it makes to the thread and its connection. */
  lemma Packets(c: Config, s: State, op: Op, p: Point) returns (s': State)
    requires Stands(c, s, op, p) && CanClient(c, s, 0, ANY) && DoesIo(p.pc)
    ensures var l := IoOf(s, 0); l.th.op == op ==> Stands(c, s', op, Point(l.th.pc, p.spc, l.cn.c2s, l.cn.s2c, p.known))
  {
    s' := ClientStep(c, s, 0, ANY);
    ReachStep(c, s, Client(0, ANY));
  }

  lemma Sends(c: Config, s: State, op: Op, p: Point) returns (s': State)
    requires Stands(c, s, op, p) && Writes(p.pc, op) && |p.c2s| < c.capacity
    ensures var th := s.threads[0]; Stands(c, s', op, p.(pc := AfterOut(th), c2s := p.c2s + [Out(th)]))
  {
    s' := Packets(c, s, op, p);
  }

  lemma HearsNotVe(c: Config, s: State, op: Op, p: Point) returns (s': State)
    requires Stands(c, s, op, p) && p.pc.CHearVe? && p.s2c == [Msg(IsVeNo)]
    ensures Stands(c, s', op, p.(pc := CAcquire(SetType(false)), s2c := []))
  {
    s' := Packets(c, s, op, p);
  }

  lemma ServerReads(c: Config, s: State, op: Op, p: Point) returns (s': State)
    requires Stands(c, s, op, p) && Reading(p.spc) && p.c2s != []
    ensures Stands(c, s', op, p.(spc := Read(p.spc, p.c2s[0]), c2s := p.c2s[1..]))
  {
    s' := Apply(c, s, Serve(op.node, ANY));
    ReachStep(c, s, Serve(op.node, ANY));
  }

  lemma SaysNotVe(c: Config, s: State, op: Op, p: Point) returns (s': State)
    requires Stands(c, s, op, p) && p.spc.SSayType? && |p.s2c| < c.capacity
    ensures Stands(c, s', op, p.(spc := Said(p.spc), s2c := p.s2c + [Msg(IsVeNo)]))
  {
    s' := Apply(c, s, Serve(op.node, ANY));
    ReachStep(c, s, Serve(op.node, ANY));
  }

  // ----- the run, phase by phase -----

  /** One idle thread and one server. */
  function Idle(op: Op): (s: State)
    ensures Init(s)
  {
    var th := Thread(CIdle, op, 0, false, [], [], []);
    var sv := Server(false, SIdle, seq(op.remote + op.size, _ => 0), seq(SHM_SIZE, _ => 0), {});
    State(map[0 := th], map[], map[op.node := sv], map[], map[], Unknown, false, [], map[], [], {}, [], 0, false)
  }

  /** Thread 0 has begun the call and there is no connection yet. */
  ghost predicate Begun(c: Config, s: State, op: Op, pc: ClientPc) {
    && Reachable(c, s) && s.threads.Keys == {0} && s.threads[0].pc == pc && s.threads[0].op == op
    && op.node in s.servers && s.servers[op.node].pc == SIdle && !s.servers[op.node].ve
    && s.conns == map[] && s.serverType == Unknown
  }

  lemma Begins(c: Config, op: Op) returns (s: State)
    requires ValidForm(op)
    ensures Begun(c, s, op, CAcquire(Connect))
  {
    var idle := Idle(op);
    InitReachable(c, idle);
    var begin := Begin(0, op, seq(op.local + op.size, _ => 0));
    ReachStep(c, idle, begin);
    s := Apply(c, idle, begin);
  }

  lemma OpenStep(c: Config, s: State, ch: Choice)
    requires 0 in s.threads && s.threads[0].pc == CInside(Connect) && s.conns == map[] && CanClient(c, s, 0, ch)
    ensures var s' := ClientStep(c, s, 0, ch); var n := s.threads[0].op.node;
            && s'.conns == map[n := Conn({}, [], [])] && s'.servers == s.servers && s'.serverType == s.serverType
            && s'.threads.Keys == s.threads.Keys && s'.threads[0] == s.threads[0].(pc := CLockConn)
  {
  }

  lemma Opens(c: Config, s: State, op: Op) returns (s': State)
    requires Begun(c, s, op, CInside(Connect))
    ensures Stands(c, s', op, Point(CLockConn, SIdle, [], [], Unknown))
  {
    OpenStep(c, s, ANY);
    s' := ClientStep(c, s, 0, ANY);
    ReachStep(c, s, Client(0, ANY));
  }

  lemma HolderInCall(s: State, n: Node, t: nat)
    requires ConnsOk(s) && n in s.conns && t in s.conns[n].holder
    ensures t in s.threads.Keys && InCall(s.threads[t].pc)
  {
  }

  lemma Unheld(c: Config, s: State, n: Node)
    requires Reachable(c, s) && s.threads.Keys == {0} && s.threads[0].pc == CLockConn && n in s.conns
    ensures s.conns[n].holder == {}
  {
    ReachableSessions(c, s);
    if s.conns[n].holder != {} {
      var t :| t in s.conns[n].holder;
      HolderInCall(s, n, t);
    }
  }

  lemma Locks(c: Config, s: State, op: Op, p: Point) returns (s': State)
    requires Stands(c, s, op, p) && p.pc == CLockConn
    ensures Stands(c, s', op, p.(pc := Start(op)))
  {
    Unheld(c, s, op.node);
    s' := Apply(c, s, Client(0, ANY));
    ReachStep(c, s, Client(0, ANY));
  }

  /** Thread 0 starts the call and gets the connection. */
  lemma Connects(c: Config, op: Op) returns (s: State)
    requires ValidForm(op)
    ensures Stands(c, s, op, Point(Start(op), SIdle, [], [], Unknown))
  {
    s := Begins(c, op);
    FreeLock(c, s, Connect);
    ReachStep(c, s, Client(0, ANY));
    s := Opens(c, Apply(c, s, Client(0, ANY)), op);
    s := Locks(c, s, op, Point(CLockConn, SIdle, [], [], Unknown));
  }

  /** The header is written and read. */
  lemma SendsHeader(c: Config, s0: State, op: Op) returns (s: State)
    requires Stands(c, s0, op, Point(CHdr, SIdle, [], [], Unknown)) && c.capacity > 0
    ensures Stands(c, s, op, Point(CAcquire(GetType), SMsg(ReqOf(op), true), [], [], Unknown))
  {
    s := Sends(c, s0, op, Point(CHdr, SIdle, [], [], Unknown));
    s := ServerReads(c, s, op, Point(CAddr, SIdle, [Hdr(op.kind, op.size)], [], Unknown));
    s := Sends(c, s, op, Point(CAddr, SAddr(op.kind, op.size), [], [], Unknown));
    s := ServerReads(c, s, op, Point(CAcquire(GetType), SAddr(op.kind, op.size), [Addr(op.remote)], [], Unknown));
  }

  /** The client asks for the type of the server. */
  lemma Asks(c: Config, s0: State, op: Op) returns (s: State)
    requires Stands(c, s0, op, Point(CAcquire(GetType), SMsg(ReqOf(op), true), [], [], Unknown)) && c.capacity > 0
    ensures Stands(c, s, op, Point(CHearVe, SSayType(ReqOf(op)), [], [], Unknown))
  {
    var waits := SMsg(ReqOf(op), true);
    s := Enters(c, s0, op, Point(CAcquire(GetType), waits, [], [], Unknown), GetType);
    s := AsksType(c, s, op, Point(CInside(GetType), waits, [], [], Unknown));
    s := SendsAsk(c, s, op);
  }

  lemma SendsAsk(c: Config, s0: State, op: Op) returns (s: State)
    requires Stands(c, s0, op, Point(CAskVe, SMsg(ReqOf(op), true), [], [], Unknown)) && c.capacity > 0
    ensures Stands(c, s, op, Point(CHearVe, SSayType(ReqOf(op)), [], [], Unknown))
  {
    var waits := SMsg(ReqOf(op), true);
    s := Sends(c, s0, op, Point(CAskVe, waits, [], [], Unknown));
    s := ServerReads(c, s, op, Point(CHearVe, waits, [Msg(IsVe)], [], Unknown));
  }

  /** The server is not a vector engine, so the transfer goes over TCP. */
  lemma Learns(c: Config, s0: State, op: Op) returns (s: State)
    requires Stands(c, s0, op, Point(CHearVe, SSayType(ReqOf(op)), [], [], Unknown)) && c.capacity > 0
    ensures Stands(c, s, op, Point(CSayTcp, SMsg(ReqOf(op), false), [], [], X86))
  {
    var waits := SMsg(ReqOf(op), false);
    s := SaysNotVe(c, s0, op, Point(CHearVe, SSayType(ReqOf(op)), [], [], Unknown));
    s := HearsNotVe(c, s, op, Point(CHearVe, waits, [], [Msg(IsVeNo)], Unknown));
    s := Enters(c, s, op, Point(CAcquire(SetType(false)), waits, [], [], Unknown), SetType(false));
    s := SetsType(c, s, op, Point(CInside(SetType(false)), waits, [], [], Unknown));
  }

  lemma TcpOut(th: Thread)
    requires th.pc.CSayTcp? && th.op.kind == RawRecv
    ensures AfterOut(th) == CTcpIn && Out(th) == Msg(UseTcpip)
  {
  }

  lemma SaysTcp(c: Config, s: State, op: Op, p: Point) returns (s': State)
    requires Stands(c, s, op, p) && p.pc.CSayTcp? && p.c2s == [] && c.capacity > 0 && op.kind == RawRecv
    ensures Stands(c, s', op, p.(pc := CTcpIn, c2s := [Msg(UseTcpip)]))
  {
    TcpOut(s.threads[0]);
    assert p.c2s + [Out(s.threads[0])] == [Out(s.threads[0])];
    s' := Sends(c, s, op, p);
  }

  /** Reading zero bytes does nothing. */
  lemma SkipsRead(c: Config, s: State, op: Op, p: Point) returns (s': State)
    requires Stands(c, s, op, p) && p.pc.CTcpIn? && op.size == 0
    ensures Stands(c, s', op, p.(pc := CUnlock))
  {
    s' := Packets(c, s, op, p);
  }

  /** Nothing is left to read for a receive of zero bytes, so the client goes on to its unlock. */
  lemma RunsAhead(c: Config, s0: State, op: Op) returns (s: State)
    requires Stands(c, s0, op, Point(CSayTcp, SMsg(ReqOf(op), false), [], [], X86)) && c.capacity > 0
    requires op.kind == RawRecv && op.size == 0
    ensures Stands(c, s, op, Point(CUnlock, SMsg(ReqOf(op), false), [Msg(UseTcpip)], [], X86))
  {
    var waits := SMsg(ReqOf(op), false);
    s := SaysTcp(c, s0, op, Point(CSayTcp, waits, [], [], X86));
    s := SkipsRead(c, s, op, Point(CTcpIn, waits, [Msg(UseTcpip)], [], X86));
  }

  /** An exception-free call lets go as soon as it is written. */
  lemma CallsAhead(c: Config, s: State, op: Op) returns (s': State)
    requires Stands(c, s, op, Point(CCall, SIdle, [], [], Unknown)) && c.capacity > 0
    requires op.form.RemoteCall? && !op.form.answered
    ensures Stands(c, s', op, Point(CUnlock, SIdle, [Call(false, op.form.at, op.form.bytes)], [], Unknown))
  {
    CallOut(s.threads[0]);
    s' := Sends(c, s, op, Point(CCall, SIdle, [], [], Unknown));
  }

  lemma CallOut(th: Thread)
    requires th.pc.CCall? && th.op.form.RemoteCall? && !th.op.form.answered
    ensures AfterOut(th) == CUnlock && [] + [Out(th)] == [Call(false, th.op.form.at, th.op.form.bytes)]
  {
  }

  lemma ReceivesAhead(c: Config, s0: State, op: Op) returns (s: State)
    requires Stands(c, s0, op, Point(CHdr, SIdle, [], [], Unknown)) && c.capacity > 0
    requires op.kind == RawRecv && op.size == 0
    ensures Stands(c, s, op, Point(CUnlock, SMsg(ReqOf(op), false), [Msg(UseTcpip)], [], X86))
  {
    s := SendsHeader(c, s0, op);
    s := Asks(c, s, op);
    s := Learns(c, s, op);
    s := RunsAhead(c, s, op);
  }

  /** For every call: some run leaves one of its messages unread at its unlock exactly if its caller waits for nothing,
      that is, if it is a receive of zero bytes or an exception-free remote call. */
  lemma LeavesMessageExactly(c: Config, op: Op)
    requires c.capacity > 0
    ensures LeavesMessage(c, op) <==> !Awaited(op)
  {
    if !Awaited(op) {
      var s := Connects(c, op);
      if op.form.Raw? {
        s := ReceivesAhead(c, s, op);
      } else {
        s := CallsAhead(c, s, op);
      }
      assert Leaves(c, s, 0, op);
    } else if LeavesMessage(c, op) {
      var s, t :| Leaves(c, s, t, op);
      NothingInFlight(c, s, t);
    }
  }

  // ----- which of these calls -----

  /** A receive of zero bytes that announces TCP with use_tcpip can always run ahead of its server. */
  lemma AnnouncedRunsAhead(c: Config, s: State, t: nat)
    requires Reachable(c, s) && CanClient(c, s, t, ANY) && s.threads[t].pc.CSayTcp?
    requires s.threads[t].op.kind == RawRecv && s.threads[t].op.size == 0
    ensures Enabled(c, s, Client(t, ANY)) && Enabled(c, ClientStep(c, s, t, ANY), Client(t, ANY))
    ensures Leaves(c, ClientStep(c, ClientStep(c, s, t, ANY), t, ANY), t, s.threads[t].op)
  {
    var s1 := ClientStep(c, s, t, ANY);
    AnnounceStep(c, s, t);
    ReachStep(c, s, Client(t, ANY));
    SkipStep(c, s1, t, ANY);
    ReachStep(c, s1, Client(t, ANY));
  }

  lemma AnnounceStep(c: Config, s: State, t: nat)
    requires CanClient(c, s, t, ANY) && s.threads[t].pc.CSayTcp? && s.threads[t].op.kind == RawRecv
    ensures var s' := ClientStep(c, s, t, ANY); var n := s.threads[t].op.node;
            && t in s'.threads && s'.threads[t] == s.threads[t].(pc := CTcpIn)
            && s'.servers == s.servers && n in s'.conns && s'.conns[n].c2s != []
  {
  }

  lemma SkipStep(c: Config, s: State, t: nat, ch: Choice)
    requires t in s.threads && s.threads[t].pc.CTcpIn? && s.threads[t].op.size == 0
    requires s.threads[t].op.node in s.servers && s.threads[t].op.node in s.conns
    ensures CanClient(c, s, t, ch)
    ensures var s' := ClientStep(c, s, t, ch); var n := s.threads[t].op.node;
            && t in s'.threads && s'.threads[t] == s.threads[t].(pc := CUnlock)
            && n in s'.conns && s'.conns[n].c2s == s.conns[n].c2s
  {
  }

  /** A receive of zero bytes whose segment the server has refused: all its messages have been read. */
  ghost predicate AllRead(s: State, t: nat) {
    && t in s.threads && s.threads[t].op.kind == RawRecv && s.threads[t].op.size == 0
    && var pc := s.threads[t].pc; var n := s.threads[t].op.node;
       || pc.CIdle?
       || ((Refused(pc) || pc.CTcpIn? || pc.CUnlock?) && n in s.conns && s.conns[n].c2s == [])
  }

  lemma ServeAllRead(c: Config, s: State, n: Node, ch: Choice, t: nat)
    requires CanServe(c, s, n) && AllRead(s, t)
    ensures AllRead(ServeStep(c, s, n, ch), t)
  {
  }

  /** A refused thread gives its segment back and goes on to read nothing. */
  lemma RefusedStep(c: Config, s: State, t: nat, ch: Choice)
    requires CanClient(c, s, t, ch) && Refused(s.threads[t].pc) && s.threads[t].op.kind == RawRecv
    ensures var s' := ClientStep(c, s, t, ch); var pc' := s'.threads[t].pc;
            s'.threads[t] == s.threads[t].(pc := pc') && (Refused(pc') || pc'.CTcpIn?) && s'.conns == s.conns
  {
  }

  lemma OwnAllRead(c: Config, s: State, t: nat, ch: Choice)
    requires CanClient(c, s, t, ch) && AllRead(s, t)
    ensures AllRead(ClientStep(c, s, t, ch), t)
  {
    if Refused(s.threads[t].pc) {
      RefusedStep(c, s, t, ch);
    } else if s.threads[t].pc.CTcpIn? {
      SkipStep(c, s, t, ch);
    }
  }

  lemma OtherConn(c: Config, s: State, u: nat, ch: Choice, t: nat)
    requires ConnsOk(s) && CanClient(c, s, u, ch) && t in s.threads && InCall(s.threads[t].pc) && u != t
    ensures var n := s.threads[t].op.node; var conns := ConnsAfter(c, s, u, ch);
            n in s.conns && n in conns && conns[n] == s.conns[n]
  {
    assert ThreadOk(s, t) && ThreadOk(s, u);
    ConnsFrame(c, s, u, ch);
  }

  lemma OtherAllRead(c: Config, s: State, u: nat, ch: Choice, t: nat)
    requires ConnsOk(s) && CanClient(c, s, u, ch) && AllRead(s, t) && u != t
    ensures AllRead(ClientStep(c, s, u, ch), t)
  {
    if !s.threads[t].pc.CIdle? { OtherConn(c, s, u, ch, t); }
  }

  lemma StepAllRead(c: Config, s: State, a: Action, t: nat)
    requires Reachable(c, s) && Enabled(c, s, a) && AllRead(s, t) && (a.Begin? ==> a.tid != t)
    ensures AllRead(Apply(c, s, a), t)
  {
    ReachableSessions(c, s);
    match a
    case Begin(_, _, _) =>
    case Client(u, ch) => if u == t { OwnAllRead(c, s, t, ch); } else { OtherAllRead(c, s, u, ch, t); }
    case Serve(n, ch) => ServeAllRead(c, s, n, ch, t);
  }

  /** It ends with nothing left to read: only an announcement can run ahead. */
  lemma {:induction false} RefusedEndsRead(c: Config, s: State, run: seq<Action>, t: nat)
    requires Reachable(c, s) && AllRead(s, t) && Legal(c, s, run)
    requires forall k :: 0 <= k < |run| && run[k].Begin? ==> run[k].tid != t
    ensures AllRead(Exec(c, s, run), t)
    decreases |run|
  {
    if run != [] {
      StepAllRead(c, s, run[0], t);
      ReachStep(c, s, run[0]);
      RefusedEndsRead(c, Apply(c, s, run[0]), run[1..], t);
    }
  }
}
