/** Which way a transfer takes: who is asked for a shared segment, what the client learns about a server, and that what
    it has learned is true. */
module Paths {
  import opened Blocks
  import opened Wire
  import opened Transport
  import opened ClientSide
  import opened ServerSide
  import opened Invariants
  import opened Segments
  import opened Safety

  // ----- points of the code -----

  /** In get_shm, or with a segment in hand. */
  predicate WantsShm(pc: ClientPc) {
    At(pc, GetFree) || At(pc, Pick) || Creating(pc) || Owns(pc)
  }

  /** About to record the answer to is_ve. */
  predicate Learns(pc: ClientPc) {
    (pc.CAcquire? || pc.CInside?) && pc.r.SetType?
  }

  /** The segment is in use for this transfer, or has been. */
  predicate OverDma(pc: ClientPc) {
    || pc.CSayUse? || pc.CUseId? || pc.CFill? || pc.CStart? || pc.CFinish? || pc.CDrain? || At(pc, GiveBack(Done))
  }

  /** The segment goes back unused. */
  predicate Unused(pc: ClientPc) {
    At(pc, GiveBack(TcpAgreed)) || At(pc, GiveBack(TcpUnsaid))
  }

  /** The server has refused the segment, whether the client has heard it or not. */
  predicate Refusing(th: Thread, sv: Server, cn: Conn) {
    || At(th.pc, Verdict(false))
    || (th.pc.CHearTry? && (sv.pc.SSayNg? || (cn.s2c != [] && cn.s2c[0] == Msg(DmaNg))))
  }

  predicate KnownUseless(usable: map<(Node, int), bool>, n: Node, id: int) {
    (n, id) in usable && !usable[(n, id)]
  }

  /** What the place of a thread tells about its server and its segment. */
  predicate PathOk(c: Config, th: Thread, sv: Server, cn: Conn, usable: map<(Node, int), bool>) {
    && (Learns(th.pc) ==> th.pc.r.ve == sv.ve)
    && (WantsShm(th.pc) ==> th.op.node.host == c.host)
    && (OverDma(th.pc) ==> KnownUsable(usable, th.op.node, th.id))
    && (Unused(th.pc) ==> KnownUseless(usable, th.op.node, th.id))
    && (Refusing(th, sv, cn) ==> th.id !in sv.shmMap)
  }

  /** A server tells the truth about itself, and only a vector engine attaches segments. */
  predicate Truthful(sv: Server, cn: Conn) {
    && (Msg(IsVeYes) in cn.s2c ==> sv.ve)
    && (Msg(IsVeNo) in cn.s2c ==> !sv.ve)
  }

  predicate OnlyVe(sv: Server) {
    !sv.ve ==> sv.shmMap == {}
  }

  // ----- one step of a client, with its own connection -----

  /** Where a client comes from that has written a packet. */
  lemma WriteFrom(th: Thread)
    requires Writes(th.pc, th.op)
    ensures var pc' := AfterOut(th);
            && !Learns(pc') && !Unused(pc') && !At(pc', Verdict(false))
            && (WantsShm(pc') ==> WantsShm(th.pc)) && (OverDma(pc') ==> OverDma(th.pc))
            && (pc'.CHearTry? ==> th.pc.CTryId?)
  {
  }

  lemma TryIdUnheard(th: Thread, sv: Server, cn: Conn)
    requires Turn(th, ViewOf(sv.pc, cn)) && th.pc.CTryId?
    ensures cn.s2c == [] && !sv.pc.SSayNg?
  {
    if sv.pc.SSayNg? {
      SayingRests(sv.pc, cn.c2s);
    }
  }

  lemma WritePath(c: Config, th: Thread, sv: Server, cn: Conn, usable: map<(Node, int), bool>)
    requires PathOk(c, th, sv, cn, usable) && Writes(th.pc, th.op) && Turn(th, ViewOf(sv.pc, cn))
    ensures PathOk(c, th.(pc := AfterOut(th), asked := th.asked || th.pc == CAskVe), sv,
                   cn.(c2s := cn.c2s + [Out(th)]), usable)
  {
    WriteFrom(th);
    if th.pc.CTryId? {
      TryIdUnheard(th, sv, cn);
    }
  }

  /** Where a client comes from that has read a packet. */
  lemma HearFrom(th: Thread, p: Packet)
    requires Hears(th.pc, th.op)
    ensures var pc' := AfterIn(th, p);
            && !Unused(pc') && !pc'.CHearTry?
            && (Learns(pc') ==> th.pc.CHearVe? && p.Msg? && pc'.r.ve == (p.m == IsVeYes))
            && (WantsShm(pc') ==> WantsShm(th.pc)) && (OverDma(pc') ==> OverDma(th.pc))
            && (At(pc', Verdict(false)) ==> th.pc.CHearTry? && p.Msg? && p.m != DmaOk)
  {
  }

  lemma HearPath(c: Config, th: Thread, th': Thread, sv: Server, cn: Conn, usable: map<(Node, int), bool>)
    requires PathOk(c, th, sv, cn, usable) && Truthful(sv, cn) && Hears(th.pc, th.op) && Turn(th, ViewOf(sv.pc, cn))
    requires cn.s2c != [] && th' == th.(pc := AfterIn(th, cn.s2c[0]), buf := th'.buf)
    ensures PathOk(c, th', sv, cn.(s2c := cn.s2c[1..]), usable)
  {
    HearFrom(th, cn.s2c[0]);
    assert cn.s2c[0] in cn.s2c;
  }

  lemma CopyPath(c: Config, l: Local, sv: Server, usable: map<(Node, int), bool>)
    requires DoesIo(l.th.pc) && !Writes(l.th.pc, l.th.op) && !Hears(l.th.pc, l.th.op)
    requires PathOk(c, l.th, sv, l.cn, usable)
    ensures PathOk(c, Io(l).th, sv, l.cn, usable) && Io(l).cn == l.cn
  {
  }

  /** A packet or a copy of a client. */
  lemma IoPath(c: Config, l: Local, sv: Server, usable: map<(Node, int), bool>)
    requires DoesIo(l.th.pc) && (Hears(l.th.pc, l.th.op) ==> l.cn.s2c != []) && Turn(l.th, ViewOf(sv.pc, l.cn))
    requires PathOk(c, l.th, sv, l.cn, usable) && Truthful(sv, l.cn)
    ensures PathOk(c, Io(l).th, sv, Io(l).cn, usable) && Truthful(sv, Io(l).cn)
  {
    if Writes(l.th.pc, l.th.op) {
      WritePath(c, l.th, sv, l.cn, usable);
    } else if Hears(l.th.pc, l.th.op) {
      HearPath(c, l.th, Io(l).th, sv, l.cn, usable);
    } else {
      CopyPath(c, l, sv, usable);
    }
  }

  /** A thread decides for shared memory: its node is on its own host, and it has the type of a vector engine. */
  predicate Chooses(c: Config, s: State, th: Thread) {
    && th.op.node.host == c.host
    && (th.pc == CInside(SetType(true)) || (th.pc == CInside(GetType) && s.serverType == Ve))
  }

  lemma LeaveWants(c: Config, s: State, th: Thread, ch: Choice)
    requires th.pc.CInside?
    ensures WantsShm(Leave(c, s, th, th.pc.r, ch)) ==> WantsShm(th.pc) || Chooses(c, s, th)
    ensures !Learns(Leave(c, s, th, th.pc.r, ch)) && !At(Leave(c, s, th, th.pc.r, ch), Verdict(false))
  {
  }

  lemma NextWants(c: Config, s: State, th: Thread, ch: Choice)
    requires !DoesIo(th.pc)
    ensures WantsShm(Next(c, s, th, ch)) ==> WantsShm(th.pc) || Chooses(c, s, th)
    ensures Learns(Next(c, s, th, ch)) ==> Learns(th.pc) && Next(c, s, th, ch).r == th.pc.r
    ensures At(Next(c, s, th, ch), Verdict(false)) ==> At(th.pc, Verdict(false))
    ensures !Next(c, s, th, ch).CHearTry?
  {
    if th.pc.CInside? {
      LeaveWants(c, s, th, ch);
    }
  }

  /** What is recorded when a transfer turns to DMA or back from it. */
  lemma LeaveVerdict(c: Config, s: State, th: Thread, ch: Choice)
    requires th.pc.CInside? && (th.pc.r.Verdict? ==> (th.op.node, th.id) !in s.usable)
    requires OverDma(th.pc) ==> KnownUsable(s.usable, th.op.node, th.id)
    ensures var pc' := Leave(c, s, th, th.pc.r, ch); var usable := UsableAfter(s, th);
            && (OverDma(pc') ==> KnownUsable(usable, th.op.node, th.id))
            && (Unused(pc') ==> KnownUseless(usable, th.op.node, th.id))
  {
  }

  lemma NextVerdict(c: Config, s: State, th: Thread, ch: Choice)
    requires !DoesIo(th.pc) && !th.pc.CInside?
    ensures var pc' := Next(c, s, th, ch);
            && (OverDma(pc') ==> OverDma(th.pc)) && (Unused(pc') ==> Unused(th.pc))
            && UsableAfter(s, th) == s.usable
  {
  }

  lemma TableVerdict(c: Config, s: State, t: nat, ch: Choice)
    requires CanClient(c, s, t, ch) && !DoesIo(s.threads[t].pc) && ProbingOk(s)
    requires var th := s.threads[t];
             && (OverDma(th.pc) ==> KnownUsable(s.usable, th.op.node, th.id))
             && (Unused(th.pc) ==> KnownUseless(s.usable, th.op.node, th.id))
    ensures var th := s.threads[t]; var th' := ThreadAfter(c, s, t, ch); var usable := UsableAfter(s, th);
            && (OverDma(th'.pc) ==> KnownUsable(usable, th'.op.node, th'.id))
            && (Unused(th'.pc) ==> KnownUseless(usable, th'.op.node, th'.id))
  {
    var th := s.threads[t];
    SameSegment(c, s, t, ch);
    if th.pc.CInside? {
      if th.pc.r.Verdict? { ProbeUnjudged(s, t); }
      LeaveVerdict(c, s, th, ch);
    } else {
      NextVerdict(c, s, th, ch);
    }
  }

  lemma ProbeUnjudged(s: State, t: nat)
    requires ProbingOk(s) && t in s.threads && s.threads[t].pc.CInside? && s.threads[t].pc.r.Verdict?
    ensures (s.threads[t].op.node, s.threads[t].id) !in s.usable
  {
    assert Probing(s.threads[t].pc);
  }

  /** A transfer that has turned to DMA or back from it does so with the segment that it had. */
  lemma SameSegment(c: Config, s: State, t: nat, ch: Choice)
    requires CanClient(c, s, t, ch) && !DoesIo(s.threads[t].pc)
    ensures var th := s.threads[t]; var th' := ThreadAfter(c, s, t, ch);
            && th'.op == th.op && (!th.pc.CLockConn? ==> th'.pc == Next(c, s, th, ch))
            && (th.pc.CLockConn? ==> th'.pc == Next(c, s, th, ch) && !OverDma(th'.pc) && !Unused(th'.pc))
            && (OverDma(th'.pc) || Unused(th'.pc) ==> th'.id == th.id)
  {
  }

  lemma TablePath(c: Config, s: State, t: nat, ch: Choice, sv: Server, cn: Conn, cn': Conn)
    requires CanClient(c, s, t, ch) && !DoesIo(s.threads[t].pc) && ProbingOk(s)
    requires PathOk(c, s.threads[t], sv, cn, s.usable)
    ensures PathOk(c, ThreadAfter(c, s, t, ch), sv, cn', UsableAfter(s, s.threads[t]))
  {
    TableVerdict(c, s, t, ch);
    NextWants(c, s, s.threads[t], ch);
  }

  // ----- one step of a server, with its own client -----

  lemma SaysTruth(sv: Server, cn: Conn, seg: seq<byte>, ch: Choice)
    requires (Reading(sv.pc) ==> cn.c2s != []) && Truthful(sv, cn)
    ensures var l := Served(sv, cn, seg, ch); Truthful(l.sv, l.cn)
  {
  }

  /** How the tables of a server grow: by a segment that it has been asked about and could attach. */
  lemma Attached(sv: Server, cn: Conn, seg: seq<byte>, ch: Choice)
    requires Reading(sv.pc) ==> cn.c2s != []
    ensures var l := Served(sv, cn, seg, ch);
            && l.sv.ve == sv.ve
            && l.sv.shmMap == sv.shmMap + if sv.pc.STry? && sv.ve && ch.ok then {sv.pc.id} else {}
  {
    if sv.pc.STry? && sv.pc.id in sv.shmMap {
      assert sv.shmMap + {sv.pc.id} == sv.shmMap;
    }
  }

  /** A server asked about a segment says yes exactly if it has attached it, now or before; a vector engine fails only
      if a system call does, and any other server always. */
  lemma TrySaysExactly(sv: Server, cn: Conn, seg: seq<byte>, ch: Choice)
    requires sv.pc.STry?
    ensures var l := Served(sv, cn, seg, ch);
            && (l.sv.pc == SSayOk(sv.pc.req, sv.pc.id) <==> sv.pc.id in sv.shmMap || (sv.ve && ch.ok))
            && (l.sv.pc == SSayOk(sv.pc.req, sv.pc.id) <==> sv.pc.id in l.sv.shmMap)
            && (l.sv.pc != SSayOk(sv.pc.req, sv.pc.id) ==> l.sv.pc == SSayNg(sv.pc.req))
  {
  }

  /** Nothing has been heard about a segment that the server is being asked about. */
  lemma TryUnheard(th: Thread, sv: Server, cn: Conn)
    requires Turn(th, ViewOf(sv.pc, cn)) && sv.pc.STry?
    ensures th.pc.CHearTry? && cn.s2c == []
  {
    SayingRests(sv.pc, cn.c2s);
  }

  lemma RefusedBefore(th: Thread, sv: Server, cn: Conn, seg: seq<byte>, ch: Choice)
    requires Turn(th, ViewOf(sv.pc, cn)) && (Reading(sv.pc) ==> cn.c2s != []) && !sv.pc.STry?
    ensures var l := Served(sv, cn, seg, ch); Refusing(th, l.sv, l.cn) ==> Refusing(th, sv, cn)
  {
  }

  lemma ServePath(c: Config, th: Thread, sv: Server, cn: Conn, seg: seq<byte>, ch: Choice,
                  usable: map<(Node, int), bool>)
    requires (Reading(sv.pc) ==> cn.c2s != []) && Turn(th, ViewOf(sv.pc, cn)) && DmaMine(th, sv)
    requires PathOk(c, th, sv, cn, usable)
    ensures var l := Served(sv, cn, seg, ch); PathOk(c, th, l.sv, l.cn, usable)
  {
    Attached(sv, cn, seg, ch);
    if sv.pc.STry? {
      TryUnheard(th, sv, cn);
      TrySaysExactly(sv, cn, seg, ch);
      TryKeepsS2c(sv, cn, seg, ch);
    } else {
      RefusedBefore(th, sv, cn, seg, ch);
    }
  }

  lemma TryKeepsS2c(sv: Server, cn: Conn, seg: seq<byte>, ch: Choice)
    requires sv.pc.STry?
    ensures Served(sv, cn, seg, ch).cn == cn
  {
  }

  /** A server at work on a block comes to rest before or behind a block. */
  lemma {:induction false} WorkRests(spc: ServerPc, q: seq<Packet>)
    requires spc.SUse? || Indexed(spc)
    ensures var rest := Drain(spc, q); rest.SStart? || rest.SSayFinish? || rest.SBroken?
    decreases WorkLeft(spc)
  {
    if Silent(spc) {
      WorkShrinks(spc);
      WorkRests(Work(spc), q);
    } else if spc.SStart? {
      BlockRests(spc.req, spc.id, spc.i, q);
    } else {
      SayingRests(spc, q);
    }
  }

  /** A server deals with a segment only for a client that has one in hand. */
  lemma WorksForOwner(th: Thread, sv: Server, cn: Conn)
    requires Turn(th, ViewOf(sv.pc, cn)) && (sv.pc.STry? || sv.pc.SSayOk? || sv.pc.SUse? || Indexed(sv.pc))
    ensures Owns(th.pc)
  {
    if sv.pc.STry? || sv.pc.SSayOk? {
      SayingRests(sv.pc, cn.c2s);
    } else {
      WorkRests(sv.pc, cn.c2s);
    }
  }

  // ----- what holds in every reachable state -----

  predicate VeServer(s: State) {
    exists n :: n in s.servers && s.servers[n].ve
  }

  predicate OtherServer(s: State) {
    exists n :: n in s.servers && !s.servers[n].ve
  }

  predicate PathAt(c: Config, th: Thread, servers: map<Node, Server>, conns: map<Node, Conn>,
                   usable: map<(Node, int), bool>) {
    InCall(th.pc) ==>
      var n := th.op.node; n in servers && n in conns && PathOk(c, th, servers[n], conns[n], usable)
  }

  /** Every thread in a call knows what it has to know. */
  ghost predicate ThreadsOk(c: Config, s: State) {
    forall t :: t in s.threads ==> PathAt(c, s.threads[t], s.servers, s.conns, s.usable)
  }

  /** Servers tell the truth, and what the client has written down about them is true. */
  ghost predicate RecordsOk(c: Config, s: State) {
    && (forall n :: n in s.conns && n in s.servers ==> Truthful(s.servers[n], s.conns[n]))
    && (forall n :: n in s.servers ==> OnlyVe(s.servers[n]))
    && (forall p :: p in s.probes ==> p.0.host == c.host)
    && (forall n, id :: KnownUseless(s.usable, n, id) ==> n in s.servers && id !in s.servers[n].shmMap)
  }

  ghost predicate TypeOk(s: State) {
    && (s.serverType == Ve ==> VeServer(s))
    && (s.serverType == X86 ==> OtherServer(s))
    && ((exists t :: t in s.threads && WantsShm(s.threads[t].pc)) ==> VeServer(s))
  }

  ghost predicate PathsOk(c: Config, s: State) {
    ThreadsOk(c, s) && RecordsOk(c, s) && TypeOk(s)
  }

  // ----- client steps -----

  /** The thread that makes the step. */
  lemma OwnPath(c: Config, s: State, t: nat, ch: Choice)
    requires ConnsOk(s) && SessionsOk(s) && PoolOk(s) && ProbesOk(s) && ThreadsOk(c, s) && RecordsOk(c, s)
    requires CanClient(c, s, t, ch) && InCall(s.threads[t].pc)
    ensures var n := s.threads[t].op.node; var conns := ConnsAfter(c, s, t, ch);
            && n in conns && Truthful(s.servers[n], conns[n])
            && PathOk(c, ThreadAfter(c, s, t, ch), s.servers[n], conns[n], UsableAfter(s, s.threads[t]))
  {
    var th := s.threads[t];
    var n := th.op.node;
    assert PathAt(c, th, s.servers, s.conns, s.usable);
    ConnsFrame(c, s, t, ch);
    if DoesIo(th.pc) {
      IoPath(c, Local(th, s.conns[n], SegOf(s, th.id)), s.servers[n], s.usable);
    } else {
      TablePath(c, s, t, ch, s.servers[n], s.conns[n], ConnsAfter(c, s, t, ch)[n]);
    }
  }

  lemma Outside(c: Config, s: State, th: Thread, ch: Choice)
    requires !InCall(th.pc) && !th.pc.CIdle? && !th.pc.CBroken?
    ensures th.pc.CLockConn? || At(th.pc, Connect)
    ensures Start(th.op).CCall? || Start(th.op).CHdr?
    ensures At(th.pc, Connect) ==> At(Next(c, s, th, ch), Connect) || Next(c, s, th, ch).CLockConn?
  {
  }

  /** Taking the connection lock. */
  lemma StartPath(c: Config, s: State, t: nat, ch: Choice, sv: Server, cn: Conn)
    requires CanClient(c, s, t, ch) && !InCall(s.threads[t].pc)
    ensures PathOk(c, ThreadAfter(c, s, t, ch), sv, cn, s.usable) && UsableAfter(s, s.threads[t]) == s.usable
  {
    Outside(c, s, s.threads[t], ch);
  }

  lemma VerdictsStay(s: State, th: Thread)
    ensures forall p :: p in s.usable ==> p in UsableAfter(s, th) && UsableAfter(s, th)[p] == s.usable[p]
  {
  }

  lemma PathStays(c: Config, th: Thread, sv: Server, cn: Conn, usable: map<(Node, int), bool>,
                  usable': map<(Node, int), bool>)
    requires PathOk(c, th, sv, cn, usable) && forall p :: p in usable ==> p in usable' && usable'[p] == usable[p]
    ensures PathOk(c, th, sv, cn, usable')
  {
  }

  lemma OtherPath(c: Config, s: State, t: nat, ch: Choice, u: nat)
    requires ConnsOk(s) && ThreadsOk(c, s) && CanClient(c, s, t, ch) && u in s.threads && u != t
    ensures PathAt(c, s.threads[u], s.servers, ConnsAfter(c, s, t, ch), UsableAfter(s, s.threads[t]))
  {
    var th := s.threads[u];
    assert PathAt(c, th, s.servers, s.conns, s.usable);
    if InCall(th.pc) {
      var n := th.op.node;
      ConnsFrame(c, s, t, ch);
      assert ThreadOk(s, u) && ThreadOk(s, t);
      VerdictsStay(s, s.threads[t]);
      PathStays(c, th, s.servers[n], s.conns[n], s.usable, UsableAfter(s, s.threads[t]));
    }
  }

  lemma OwnPathAt(c: Config, s: State, t: nat, ch: Choice)
    requires ConnsOk(s) && SessionsOk(s) && PoolOk(s) && ProbesOk(s) && ThreadsOk(c, s) && RecordsOk(c, s)
    requires CanClient(c, s, t, ch)
    ensures PathAt(c, ThreadAfter(c, s, t, ch), s.servers, ConnsAfter(c, s, t, ch), UsableAfter(s, s.threads[t]))
  {
    ThreadShape(c, s, t, ch);
    ConnsFrame(c, s, t, ch);
    var n := s.threads[t].op.node;
    if InCall(s.threads[t].pc) {
      OwnPath(c, s, t, ch);
    } else if n in ConnsAfter(c, s, t, ch) {
      StartPath(c, s, t, ch, s.servers[n], ConnsAfter(c, s, t, ch)[n]);
    }
  }

  lemma ClientThreads(c: Config, s: State, t: nat, ch: Choice)
    requires ConnsOk(s) && SessionsOk(s) && PoolOk(s) && ProbesOk(s) && ThreadsOk(c, s) && RecordsOk(c, s)
    requires CanClient(c, s, t, ch)
    ensures ThreadsOk(c, ClientStep(c, s, t, ch))
  {
    OwnPathAt(c, s, t, ch);
    forall u | u in s.threads && u != t
      ensures PathAt(c, s.threads[u], s.servers, ConnsAfter(c, s, t, ch), UsableAfter(s, s.threads[t]))
    {
      OtherPath(c, s, t, ch, u);
    }
  }

  lemma ClientTruthful(c: Config, s: State, t: nat, ch: Choice, n: Node)
    requires ConnsOk(s) && SessionsOk(s) && PoolOk(s) && ProbesOk(s) && ThreadsOk(c, s) && RecordsOk(c, s)
    requires CanClient(c, s, t, ch) && n in ConnsAfter(c, s, t, ch) && n in s.servers
    ensures Truthful(s.servers[n], ConnsAfter(c, s, t, ch)[n])
  {
    ConnsFrame(c, s, t, ch);
    var th := s.threads[t];
    if n == th.op.node && InCall(th.pc) {
      OwnPath(c, s, t, ch);
    } else if n in s.conns {
      assert ConnsAfter(c, s, t, ch)[n].s2c == s.conns[n].s2c;
    }
  }

  lemma ProbesNear(c: Config, s: State, t: nat, ch: Choice)
    requires ThreadsOk(c, s) && RecordsOk(c, s) && CanClient(c, s, t, ch)
    ensures forall p :: p in ClientStep(c, s, t, ch).probes ==> p.0.host == c.host
  {
    assert PathAt(c, s.threads[t], s.servers, s.conns, s.usable);
    assert s.threads[t].pc.CSayTry? ==> WantsShm(s.threads[t].pc);
  }

  /** A refusal is recorded of a segment that the server does not have. */
  lemma RefusalRecorded(c: Config, s: State, t: nat, n: Node, id: int)
    requires ConnsOk(s) && ThreadsOk(c, s) && RecordsOk(c, s) && t in s.threads
    requires KnownUseless(UsableAfter(s, s.threads[t]), n, id)
    ensures n in s.servers && id !in s.servers[n].shmMap
  {
    if !KnownUseless(s.usable, n, id) {
      assert At(s.threads[t].pc, Verdict(false)) && PathAt(c, s.threads[t], s.servers, s.conns, s.usable);
    }
  }

  lemma ClientRecords(c: Config, s: State, t: nat, ch: Choice)
    requires ConnsOk(s) && SessionsOk(s) && PoolOk(s) && ProbesOk(s) && ThreadsOk(c, s) && RecordsOk(c, s)
    requires CanClient(c, s, t, ch)
    ensures RecordsOk(c, ClientStep(c, s, t, ch))
  {
    var s' := ClientStep(c, s, t, ch);
    forall n | n in s'.conns && n in s'.servers ensures Truthful(s'.servers[n], s'.conns[n]) {
      ClientTruthful(c, s, t, ch, n);
    }
    ProbesNear(c, s, t, ch);
    forall n, id | KnownUseless(s'.usable, n, id) ensures n in s'.servers && id !in s'.servers[n].shmMap {
      RefusalRecorded(c, s, t, n, id);
    }
  }

  // ----- the server type -----

  /** A thread that comes to want shared memory has the type of a vector engine, recorded or heard by itself. */
  lemma WantsVe(c: Config, s: State, t: nat, ch: Choice)
    requires ConnsOk(s) && SessionsOk(s) && PoolOk(s) && CanClient(c, s, t, ch)
    requires WantsShm(ThreadAfter(c, s, t, ch).pc) && !WantsShm(s.threads[t].pc)
    ensures Chooses(c, s, s.threads[t])
  {
    var th := s.threads[t];
    if DoesIo(th.pc) {
      IoWants(Local(th, s.conns[th.op.node], SegOf(s, th.id)));
    } else {
      NextWants(c, s, th, ch);
    }
  }

  lemma IoWants(l: Local)
    requires DoesIo(l.th.pc) && (Hears(l.th.pc, l.th.op) ==> l.cn.s2c != [])
    ensures WantsShm(Io(l).th.pc) ==> WantsShm(l.th.pc)
  {
    if Writes(l.th.pc, l.th.op) {
      WriteFrom(l.th);
    } else if Hears(l.th.pc, l.th.op) {
      HearFrom(l.th, l.cn.s2c[0]);
    }
  }

  /** Whoever records or uses a heard type has heard it from its own server. */
  lemma HeardOwn(c: Config, s: State, t: nat)
    requires ThreadsOk(c, s) && t in s.threads && Learns(s.threads[t].pc)
    ensures var th := s.threads[t];
            th.op.node in s.servers && th.pc.r.ve == s.servers[th.op.node].ve
            && (if th.pc.r.ve then VeServer(s) else OtherServer(s))
  {
    var th := s.threads[t];
    assert InCall(th.pc) && PathAt(c, th, s.servers, s.conns, s.usable);
    assert s.servers[th.op.node].ve == th.pc.r.ve;
  }

  lemma ClientWants(c: Config, s: State, t: nat, ch: Choice, u: nat)
    requires ConnsOk(s) && SessionsOk(s) && PoolOk(s) && ThreadsOk(c, s) && TypeOk(s) && CanClient(c, s, t, ch)
    requires u in s.threads && WantsShm(if u == t then ThreadAfter(c, s, t, ch).pc else s.threads[u].pc)
    ensures VeServer(s)
  {
    if u == t && !WantsShm(s.threads[t].pc) {
      WantsVe(c, s, t, ch);
      if Learns(s.threads[t].pc) {
        HeardOwn(c, s, t);
      }
    } else {
      assert u in s.threads && WantsShm(s.threads[u].pc);
    }
  }

  lemma SameKinds(s: State, s': State)
    requires s'.servers == s.servers
    ensures (VeServer(s') <==> VeServer(s)) && (OtherServer(s') <==> OtherServer(s))
  {
    if VeServer(s) {
      var n :| n in s.servers && s.servers[n].ve;
      assert n in s'.servers && s'.servers[n].ve;
    }
    if VeServer(s') {
      var n :| n in s'.servers && s'.servers[n].ve;
      assert n in s.servers && s.servers[n].ve;
    }
    if OtherServer(s) {
      var n :| n in s.servers && !s.servers[n].ve;
      assert n in s'.servers && !s'.servers[n].ve;
    }
    if OtherServer(s') {
      var n :| n in s'.servers && !s'.servers[n].ve;
      assert n in s.servers && !s.servers[n].ve;
    }
  }

  lemma ClientType(c: Config, s: State, t: nat, ch: Choice)
    requires ConnsOk(s) && SessionsOk(s) && PoolOk(s) && ThreadsOk(c, s) && TypeOk(s) && CanClient(c, s, t, ch)
    ensures TypeOk(ClientStep(c, s, t, ch))
  {
    var s' := ClientStep(c, s, t, ch);
    if Learns(s.threads[t].pc) {
      HeardOwn(c, s, t);
    }
    SameKinds(s, s');
    forall u | u in s'.threads && WantsShm(s'.threads[u].pc) ensures VeServer(s') {
      ClientWants(c, s, t, ch, u);
    }
  }

  // ----- server steps -----

  lemma ServedThread(c: Config, s: State, n: Node, ch: Choice, u: nat)
    requires ConnsOk(s) && SessionsOk(s) && ThreadsOk(c, s) && CanServe(c, s, n)
    requires u in s.threads && InCall(s.threads[u].pc) && s.threads[u].op.node == n
    ensures var s' := ServeStep(c, s, n, ch); PathAt(c, s.threads[u], s'.servers, s'.conns, s'.usable)
  {
    var th := s.threads[u];
    assert ThreadOk(s, u) && PathAt(c, th, s.servers, s.conns, s.usable);
    ServePath(c, th, s.servers[n], s.conns[n], SegOf(s, DmaId(s.servers[n].pc)), ch, s.usable);
  }

  lemma ServeThreads(c: Config, s: State, n: Node, ch: Choice)
    requires ConnsOk(s) && SessionsOk(s) && ThreadsOk(c, s) && CanServe(c, s, n)
    ensures ThreadsOk(c, ServeStep(c, s, n, ch))
  {
    var s' := ServeStep(c, s, n, ch);
    forall u | u in s'.threads ensures PathAt(c, s'.threads[u], s'.servers, s'.conns, s'.usable) {
      if InCall(s.threads[u].pc) && s.threads[u].op.node == n {
        ServedThread(c, s, n, ch, u);
      } else {
        assert PathAt(c, s.threads[u], s.servers, s.conns, s.usable);
      }
    }
  }

  /** A segment that a server is asked about has no verdict yet. */
  lemma TryUnjudged(s: State, n: Node)
    requires ConnsOk(s) && SessionsOk(s) && ProbesOk(s) && n in s.conns && s.servers[n].pc.STry?
    ensures (n, s.servers[n].pc.id) !in s.usable
  {
    var sv := s.servers[n];
    if s.conns[n].holder == {} {
      RestsEarly(sv.pc, s.conns[n].c2s);
    }
    var t :| t in s.conns[n].holder;
    TryUnheard(s.threads[t], sv, s.conns[n]);
  }

  lemma ServeUseless(c: Config, s: State, n: Node, ch: Choice, m: Node, id: int)
    requires ConnsOk(s) && SessionsOk(s) && ProbesOk(s) && RecordsOk(c, s) && CanServe(c, s, n)
    requires KnownUseless(s.usable, m, id)
    ensures var s' := ServeStep(c, s, n, ch); m in s'.servers && id !in s'.servers[m].shmMap
  {
    var sv := s.servers[n];
    Attached(sv, s.conns[n], SegOf(s, DmaId(sv.pc)), ch);
    if m == n && sv.pc.STry? {
      TryUnjudged(s, n);
    }
  }

  lemma ServeTruthful(c: Config, s: State, n: Node, ch: Choice, m: Node)
    requires ConnsOk(s) && RecordsOk(c, s) && CanServe(c, s, n) && m in s.servers
    ensures var s' := ServeStep(c, s, n, ch);
            m in s'.servers && OnlyVe(s'.servers[m]) && (m in s.conns ==> Truthful(s'.servers[m], s'.conns[m]))
  {
    var seg := SegOf(s, DmaId(s.servers[n].pc));
    SaysTruth(s.servers[n], s.conns[n], seg, ch);
    Attached(s.servers[n], s.conns[n], seg, ch);
  }

  lemma ServeRecords(c: Config, s: State, n: Node, ch: Choice)
    requires ConnsOk(s) && SessionsOk(s) && ProbesOk(s) && RecordsOk(c, s) && CanServe(c, s, n)
    ensures RecordsOk(c, ServeStep(c, s, n, ch))
  {
    var s' := ServeStep(c, s, n, ch);
    forall m | m in s'.servers
      ensures OnlyVe(s'.servers[m]) && (m in s'.conns ==> Truthful(s'.servers[m], s'.conns[m]))
    {
      ServeTruthful(c, s, n, ch, m);
    }
    forall m, id | KnownUseless(s'.usable, m, id) ensures m in s'.servers && id !in s'.servers[m].shmMap {
      ServeUseless(c, s, n, ch, m, id);
    }
  }

  lemma ServeType(c: Config, s: State, n: Node, ch: Choice)
    requires TypeOk(s) && CanServe(c, s, n)
    ensures TypeOk(ServeStep(c, s, n, ch))
  {
    ServeTypes(c, s, n, ch);
  }

  lemma ServeTypes(c: Config, s: State, n: Node, ch: Choice)
    requires CanServe(c, s, n)
    ensures var s' := ServeStep(c, s, n, ch);
            (VeServer(s) ==> VeServer(s')) && (OtherServer(s) ==> OtherServer(s'))
  {
    var s' := ServeStep(c, s, n, ch);
    Attached(s.servers[n], s.conns[n], SegOf(s, DmaId(s.servers[n].pc)), ch);
    if VeServer(s) {
      var m :| m in s.servers && s.servers[m].ve;
      assert m in s'.servers && s'.servers[m].ve;
    }
    if OtherServer(s) {
      var m :| m in s.servers && !s.servers[m].ve;
      assert m in s'.servers && !s'.servers[m].ve;
    }
  }

  // ----- all steps -----

  lemma BeginPaths(c: Config, s: State, s': State, t: nat)
    requires PathsOk(c, s) && Started(s, s', t)
    ensures PathsOk(c, s')
  {
    SameKinds(s, s');
    forall u | u in s'.threads && WantsShm(s'.threads[u].pc) ensures VeServer(s') {
      assert u in s.threads && WantsShm(s.threads[u].pc);
    }
  }

  lemma PathsKept(c: Config, s: State, a: Action)
    requires Inv(s) && PathsOk(c, s) && Enabled(c, s, a)
    ensures PathsOk(c, Apply(c, s, a))
  {
    match a
    case Begin(t, _, _) => BeginPaths(c, s, Apply(c, s, a), t);
    case Client(t, ch) =>
      ClientThreads(c, s, t, ch);
      ClientRecords(c, s, t, ch);
      ClientType(c, s, t, ch);
    case Serve(n, ch) =>
      ServeThreads(c, s, n, ch);
      ServeRecords(c, s, n, ch);
      ServeType(c, s, n, ch);
  }

  lemma {:induction false} RunPaths(c: Config, s: State, run: seq<Action>)
    requires Inv(s) && PathsOk(c, s) && Legal(c, s, run)
    ensures PathsOk(c, Exec(c, s, run))
    decreases |run|
  {
    if run != [] {
      PathsKept(c, s, run[0]);
      StepKeeps(c, s, run[0]);
      RunPaths(c, Apply(c, s, run[0]), run[1..]);
    }
  }

  lemma ReachablePaths(c: Config, s: State)
    requires Reachable(c, s)
    ensures PathsOk(c, s)
  {
    var s0, run :| ReachedBy(c, s0, run, s);
    InitHolds(s0);
    InitPaths(c, s0);
    RunPaths(c, s0, run);
  }

  lemma InitPaths(c: Config, s: State)
    requires Init(s)
    ensures PathsOk(c, s)
  {
  }
}
