/** One transfer on one connection: what the client thread that holds the connection, the server,
    the packets in flight and the shared segment have to do with each other. */
module ClientSide {
  import opened Blocks
  import opened Wire
  import opened Transport

  // ----- who speaks next -----

  /** A connection as its client sees it: where the server comes to rest once it has read everything queued,
      whether nothing is queued, whether moreover the server waits for a new request, and the replies. */
  datatype View = View(rest: ServerPc, quiet: bool, idle: bool, s2c: seq<Packet>)

  function ViewOf(spc: ServerPc, cn: Conn): View {
    View(Drain(spc, cn.c2s), cn.c2s == [], cn.c2s == [] && spc == SIdle, cn.s2c)
  }

  /** It is the client's turn: nothing to read, and the server will come to rest at goal. */
  predicate Mine(v: View, goal: ServerPc) {
    v.s2c == [] && v.rest == goal
  }

  /** Both sides have settled on TCP. A zero-byte payload is neither written nor waited for. */
  predicate TcpPhase(req: Req, v: View, written: bool) {
    if req.kind == RawSend then
      if req.size > 0 && !written then Mine(v, STcpIn(req))
      else Mine(v, SSayAck(req)) || (v.s2c == [Ack] && v.idle && v.rest == SIdle)
    else if req.size > 0 then
      Mine(v, STcpOut(req)) ||
      (|v.s2c| == 1 && v.s2c[0].Data? && |v.s2c[0].bytes| == req.size && v.idle && v.rest == SIdle)
    else Mine(v, SIdle)
  }

  function AfterBlock(req: Req, id: int, i: nat): ServerPc {
    if Last(req, i) then SIdle else SStart(req, id, i + 1)
  }

  predicate TcpSettled(pc: ClientPc) {
    pc.CTcpOut? || pc.CTcpIn? || pc.CHearAck? || Refused(pc)
  }

  /** Where the server comes to rest when it is the client's turn. */
  function Goal(th: Thread): ServerPc {
    var req := ReqOf(th.op);
    if th.pc.CHdr? || th.pc.CCall? || th.pc.CUnlock? || At(th.pc, GiveBack(Done)) then SIdle
    else if th.pc.CAddr? then SAddr(req.kind, req.size)
    else if th.pc.CTryId? then STryId(req)
    else if th.pc.CUseId? then SUseId(req)
    else if th.pc.CFill? || th.pc.CStart? then SStart(req, th.id, th.pc.i)
    else if th.pc.CDrain? then AfterBlock(req, th.id, th.pc.i)
    else if At(th.pc, Verdict(true)) then SStart(req, th.id, 0)
    else SMsg(req, !th.asked)
  }

  /** What each point of the code knows about its own call. */
  predicate OwnCall(th: Thread) {
    && InCall(th.pc)
    && (th.pc.CHdr? || th.pc.CAddr? || th.pc.CAskVe? || At(th.pc, GetType) ==> !th.asked)
    && (th.pc.CHearVe? ==> th.asked)
    && (th.pc.CFill? || th.pc.CStart? || th.pc.CFinish? || th.pc.CDrain? ==> th.pc.i <= NumBlocks(th.op.size))
    && (th.pc.CFill? || th.pc.CTcpOut? || th.pc.CHearAck? ==> th.op.kind == RawSend)
    && (th.pc.CDrain? || th.pc.CTcpIn? ==> th.op.kind == RawRecv)
    && ValidForm(th.op)
    && (th.pc.CCall? || th.pc.CHearAnswer? ==> th.op.form.RemoteCall?)
    && (th.op.form.RemoteCall? ==> th.pc.CCall? || (th.pc.CHearAnswer? && Answered(th.op)) || th.pc.CUnlock?)
  }

  /** The reply to is_ve, the reply to try_dma with what may follow it, and finish_dma. */
  predicate TypeAnswered(th: Thread, v: View) {
    (v.s2c == [Msg(IsVeYes)] || v.s2c == [Msg(IsVeNo)]) && v.quiet && v.rest == SMsg(ReqOf(th.op), false)
  }

  predicate TryAnswered(th: Thread, v: View) {
    && v.s2c != [] && v.quiet
    && var behind := v.(s2c := v.s2c[1..]);
       if v.s2c[0] == Msg(DmaOk) then Mine(behind, SStart(ReqOf(th.op), th.id, 0))
       else v.s2c[0] == Msg(DmaNg) && TcpPhase(ReqOf(th.op), behind, false)
  }

  predicate BlockAnswered(th: Thread, v: View)
    requires th.pc.CFinish?
  {
    && v.s2c == [Msg(FinishDma)] && v.quiet
    && v.rest == AfterBlock(ReqOf(th.op), th.id, th.pc.i)
    && (v.rest == SIdle ==> v.idle)
  }

  /** The caller waits for the end of its call: it sends, receives at least one byte, or is answered. */
  predicate Awaited(op: Op) {
    op.kind == RawSend || op.size > 0 || Answered(op)
  }

  /** The transfer is over and the server took part in its end. */
  predicate MovedBytes(th: Thread) {
    || At(th.pc, GiveBack(Done))
    || (th.pc.CDrain? && Last(ReqOf(th.op), th.pc.i))
    || (th.pc.CUnlock? && Awaited(th.op))
  }

  /** The server has refused the segment, and the client has heard it. */
  predicate Refused(pc: ClientPc) {
    At(pc, Verdict(false)) || At(pc, GiveBack(TcpAgreed))
  }

  /** Client and server agree who speaks next, at every point of a transfer. */
  predicate Turn(th: Thread, v: View) {
    var req := ReqOf(th.op);
    && OwnCall(th)
    && if TcpSettled(th.pc) then TcpPhase(req, v, th.pc.CHearAck?) && (Refused(th.pc) ==> v.quiet)
       else if th.pc.CHearVe? then Mine(v, SSayType(req)) || TypeAnswered(th, v)
       else if th.pc.CHearTry? then
         Mine(v, STry(req, th.id)) || Mine(v, SSayOk(req, th.id)) || Mine(v, SSayNg(req)) || TryAnswered(th, v)
       else if th.pc.CFinish? then Mine(v, SSayFinish(req, th.id, th.pc.i)) || BlockAnswered(th, v)
       else if th.pc.CHearAnswer? then Mine(v, SSayAnswer) || (v.s2c == [Answer] && v.idle && v.rest == SIdle)
       else
         // a call whose end the client waits for ends with the server idle; the others may not
         Mine(v, Goal(th)) && (MovedBytes(th) ==> v.idle)
  }

  // ----- where the server can be -----

  predicate Indexed(pc: ServerPc) {
    pc.SStage? || pc.SStart? || pc.SDma? || pc.SSayFinish? || pc.SCopy?
  }

  /** The server's DMA states belong to this transfer and its segment, which the server has attached. */
  predicate DmaMine(th: Thread, sv: Server) {
    var pc := sv.pc;
    && (Indexed(pc) || pc.STry? || pc.SSayOk? || pc.SUse? ==> pc.req == ReqOf(th.op) && pc.id == th.id)
    && (Indexed(pc) || pc.SSayOk? || pc.SUse? ==> th.id in sv.shmMap)
    && (Indexed(pc) ==> pc.i <= NumBlocks(th.op.size))
    && (pc.SStage? ==> th.op.kind == RawRecv)
    && (pc.SCopy? ==> th.op.kind == RawSend)
  }

  /** Points at which the client relies on the server having attached its segment. */
  predicate Relies(th: Thread, cn: Conn) {
    || th.pc.CSayUse? || th.pc.CUseId? || At(th.pc, Verdict(true))
    || th.pc.CFill? || th.pc.CStart? || th.pc.CFinish? || th.pc.CDrain?
    || (th.pc.CHearTry? && cn.s2c != [] && cn.s2c[0] == Msg(DmaOk))
  }

  // ----- where the data is -----

  function Prefix(p: seq<byte>, k: nat): seq<byte> {
    if k <= |p| then p[..k] else p
  }

  /** How much of a sent payload the server has stored. */
  function Stored(th: Thread, spc: ServerPc, c2s: seq<Packet>): nat {
    match spc
    case SStart(_, _, i) => Offset(i)
    case SDma(_, _, i) => Offset(i)
    case SCopy(_, _, i) => Offset(i)
    case SSayFinish(req, _, i) => if Last(req, i) then th.op.size else Offset(i)
    case SSayAck(_) => th.op.size
    case SIdle => if c2s == [] && th.pc != CHdr then th.op.size else 0
    case _ => 0
  }

  /** How much of a received payload the client has copied out. */
  function Received(th: Thread): nat {
    match th.pc
    case CStart(i) => Offset(i)
    case CFinish(i) => Offset(i)
    case CDrain(i) => Offset(i)
    case CAcquire(r) => if r == GiveBack(Done) then th.op.size else 0
    case CInside(r) => if r == GiveBack(Done) then th.op.size else 0
    case CUnlock => th.op.size
    case _ => 0
  }

  /** A buffer starts with block i of p. */
  predicate Begins(b: seq<byte>, p: seq<byte>, i: nat) {
    Get(b, 0, Len(|p|, i)) == Block(p, i)
  }

  predicate Carries(q: seq<Packet>, p: seq<byte>) {
    forall k :: 0 <= k < |q| && q[k].Data? ==> q[k].bytes == p
  }

  /** A receiving client never sends payload. */
  predicate NoData(q: seq<Packet>) {
    forall k :: 0 <= k < |q| ==> !q[k].Data?
  }

  predicate Shapes(th: Thread, sv: Server, seg: seq<byte>) {
    && |sv.dmaBuf| == SHM_SIZE
    && |th.buf0| == |th.buf| && th.op.local + th.op.size <= |th.buf|
    && |th.mem0| == |sv.mem| && th.op.remote + th.op.size <= |th.mem0|
    && (Owns(th.pc) ==> |seg| == SHM_SIZE)
  }

  predicate SendData(th: Thread, sv: Server, cn: Conn, seg: seq<byte>) {
    var p := Payload(th);
    && th.buf == th.buf0
    && Carries(cn.c2s, p)
    && Settled(sv.pc, sv.mem, cn.c2s) == Put(th.mem0, th.op.remote, Prefix(p, Stored(th, sv.pc, cn.c2s)))
    && (sv.pc.SStore? ==> sv.pc.stored == p)
    && (th.pc.CStart? || th.pc.CFinish? ==> Begins(seg, p, th.pc.i))
    && (sv.pc.SCopy? || (sv.pc.SSayFinish? && !Last(sv.pc.req, sv.pc.i)) ==> Begins(sv.dmaBuf, p, sv.pc.i))
  }

  /** What a receive or a remote call leaves, once the call has been written. */
  function Left(th: Thread): seq<byte> {
    if th.op.form.RemoteCall? && !th.pc.CCall? then Put(th.mem0, th.op.form.at, th.op.form.bytes) else th.mem0
  }

  predicate RecvData(th: Thread, sv: Server, cn: Conn, seg: seq<byte>) {
    var p := Payload(th);
    && Settled(sv.pc, sv.mem, cn.c2s) == Left(th)
    && NoData(cn.c2s)
    && Carries(cn.s2c, p)
    && th.buf == Put(th.buf0, th.op.local, Prefix(p, Received(th)))
    && (sv.pc.SStart? || sv.pc.SDma? ==> Begins(sv.dmaBuf, p, sv.pc.i))
    && (sv.pc.SSayFinish? ==> Begins(seg, p, sv.pc.i))
    && ((th.pc.CFinish? && cn.s2c != []) || th.pc.CDrain? ==> Begins(seg, p, th.pc.i))
  }

  predicate AllData(th: Thread, sv: Server, cn: Conn, seg: seq<byte>) {
    if th.op.kind == RawSend then SendData(th, sv, cn, seg) else RecvData(th, sv, cn, seg)
  }

  predicate Session(th: Thread, sv: Server, cn: Conn, seg: seq<byte>) {
    && Turn(th, ViewOf(sv.pc, cn))
    && DmaMine(th, sv)
    && (Relies(th, cn) ==> th.id in sv.shmMap)
    && Shapes(th, sv, seg)
    && AllData(th, sv, cn, seg)
  }

  /** A connection nobody holds: no reply is in flight, and what is still queued is zero-byte receives and
      exception-free calls, which leave the server idle. */
  predicate Free(sv: Server, cn: Conn) {
    Mine(ViewOf(sv.pc, cn), SIdle) && NoData(cn.c2s) && |sv.dmaBuf| == SHM_SIZE
  }

  // ----- resting points -----

  /** Server states that do not touch memory: those before the client has told how to transfer, and the end of calls
      that nobody waits for. */
  predicate Early(pc: ServerPc) {
    || pc.SIdle? || pc.SAddr? || pc.SMsg? || pc.STryId? || pc.SUseId? || (pc.STcpOut? && pc.req.size == 0)
    || (pc.SRun? && !pc.answered)
  }

  /** A server that comes to rest early is early now. */
  lemma {:induction false} RestsEarly(pc: ServerPc, q: seq<Packet>)
    requires Early(Drain(pc, q))
    ensures Early(pc)
    decreases |q|, WorkLeft(pc)
  {
    if !Early(pc) {
      if Silent(pc) {
        RestsEarly(Work(pc), q);
      } else if Reading(pc) && q != [] {
        RestsEarly(Read(pc, q[0]), q[1..]);
      }
    }
  }

  // What a server does on its own once it has read the last packet of a message.
  lemma UseRests(req: Req, id: int)
    ensures Drain(SUse(req, id), []) == Drain(BlockPc(req, id, 0), []) == SStart(req, id, 0)
  {
    assert Drain(BlockPc(req, id, 0), []) == SStart(req, id, 0);
  }

  lemma TcpRests(req: Req)
    requires req.size == 0
    ensures Drain(TcpPc(req), []) == if req.kind == RawSend then SSayAck(req) else SIdle
  {
    if req.kind == RawSend {
      assert Drain(SStore(req, []), []) == SSayAck(req);
    }
  }

  lemma DmaRests(req: Req, id: int, i: nat)
    ensures Drain(SDma(req, id, i), []) == SSayFinish(req, id, i)
  {
    assert Drain(Work(SDma(req, id, i)), []) == SSayFinish(req, id, i);
  }

  // ----- a client's own packets and copies -----

  /** Writing packet p moves the view to where the server rests after p. */
  function Wrote(v: View, p: Packet): View {
    v.(rest := Drain(Read(v.rest, p), []), quiet := false, idle := false)
  }

  lemma WriteView(spc: ServerPc, cn: Conn, p: Packet)
    requires Reading(Drain(spc, cn.c2s))
    ensures ViewOf(spc, cn.(c2s := cn.c2s + [p])) == Wrote(ViewOf(spc, cn), p)
  {
    DrainAppend(spc, cn.c2s, p);
    assert [p][1..] == [];
  }

  /** The thread after its packet. */
  function AfterWrite(th: Thread): Thread {
    th.(pc := AfterOut(th), asked := th.asked || th.pc.CAskVe?)
  }

  predicate WritesHeader(pc: ClientPc) {
    pc.CHdr? || pc.CAddr? || pc.CAskVe? || pc.CSayTry? || pc.CTryId? || pc.CSayUse?
  }

  /** Where a server comes to rest after a packet of the header or of the negotiation. */
  lemma HeaderRests(th: Thread)
    requires WritesHeader(th.pc) && (th.pc.CHdr? || th.pc.CAddr? || th.pc.CAskVe? ==> !th.asked)
    ensures Reading(Goal(th))
    ensures var rest := Drain(Read(Goal(th), Out(th)), []);
            rest == if th.pc.CAskVe? then SSayType(ReqOf(th.op))
                    else if th.pc.CTryId? then STry(ReqOf(th.op), th.id)
                    else Goal(AfterWrite(th))
  {
  }

  lemma AfterHeader(th: Thread)
    requires OwnCall(th) && (th.pc.CHdr? || th.pc.CAddr? || th.pc.CSayTry? || th.pc.CSayUse?)
    ensures var th' := AfterWrite(th); var pc := th'.pc;
            && OwnCall(th') && !TcpSettled(pc) && !pc.CHearVe? && !pc.CHearTry? && !pc.CFinish? && !MovedBytes(th')
  {
  }

  lemma WriteHeaderTurn(th: Thread, v: View)
    requires Turn(th, v) && (th.pc.CHdr? || th.pc.CAddr? || th.pc.CSayTry? || th.pc.CSayUse?)
    ensures Reading(v.rest)
    ensures Turn(AfterWrite(th), Wrote(v, Out(th)))
  {
    HeaderRests(th);
    AfterHeader(th);
  }

  // is_ve and the id of a segment to be tried are answered
  lemma WriteAskTurn(th: Thread, v: View)
    requires Turn(th, v) && th.pc.CAskVe?
    ensures Reading(v.rest)
    ensures Turn(AfterWrite(th), Wrote(v, Out(th)))
  {
    HeaderRests(th);
  }

  lemma WriteTryTurn(th: Thread, v: View)
    requires Turn(th, v) && th.pc.CTryId?
    ensures Reading(v.rest)
    ensures Turn(AfterWrite(th), Wrote(v, Out(th)))
  {
    HeaderRests(th);
  }

  lemma WriteUseTurn(th: Thread, v: View)
    requires Turn(th, v) && th.pc.CUseId?
    ensures Reading(v.rest)
    ensures Turn(AfterWrite(th), Wrote(v, Out(th)))
  {
    UseRests(ReqOf(th.op), th.id);
  }

  lemma WriteStartTurn(th: Thread, v: View)
    requires Turn(th, v) && th.pc.CStart?
    ensures Reading(v.rest)
    ensures Turn(AfterWrite(th), Wrote(v, Out(th)))
  {
    DmaRests(ReqOf(th.op), th.id, th.pc.i);
  }

  lemma WriteCallTurn(th: Thread, v: View)
    requires Turn(th, v) && th.pc.CCall?
    ensures Reading(v.rest)
    ensures Turn(AfterWrite(th), Wrote(v, Out(th)))
  {
    var run := SRun(th.op.form.answered, th.op.form.at, th.op.form.bytes);
    assert Read(v.rest, Out(th)) == run && Drain(run, []) == Drain(Work(run), []) == Work(run);
  }

  lemma SayTcpTurn(th: Thread, v: View)
    requires Turn(th, v) && th.pc.CSayTcp?
    ensures Reading(v.rest)
    ensures Turn(AfterWrite(th), Wrote(v, Out(th)))
  {
    if th.op.size == 0 { TcpRests(ReqOf(th.op)); }
  }

  lemma WriteTcpTurn(th: Thread, v: View)
    requires Turn(th, v) && Writes(th.pc, th.op) && th.pc.CTcpOut? && |Payload(th)| == th.op.size
    ensures Reading(v.rest)
    ensures Turn(AfterWrite(th), Wrote(v, Out(th)))
  {
    assert Drain(SStore(ReqOf(th.op), Payload(th)), []) == SSayAck(ReqOf(th.op));
  }

  /** A client moves on without touching any memory: the data facts stay as they are. */
  lemma SameData(th: Thread, th': Thread, sv: Server, cn: Conn, cn': Conn, seg: seq<byte>)
    requires th' == th.(pc := th'.pc, id := th'.id, asked := th'.asked)
    requires AllData(th, sv, cn, seg) && Settled(sv.pc, sv.mem, cn'.c2s) == Settled(sv.pc, sv.mem, cn.c2s)
    requires th.op.kind == RawSend ==>
               && Stored(th', sv.pc, cn'.c2s) == Stored(th, sv.pc, cn.c2s)
               && Carries(cn'.c2s, Payload(th))
               && (th'.pc.CStart? || th'.pc.CFinish? ==> Begins(seg, Payload(th), th'.pc.i))
    requires th.op.kind == RawRecv ==>
               && Received(th') == Received(th) && Left(th') == Left(th)
               && NoData(cn'.c2s)
               && Carries(cn'.s2c, Payload(th))
               && ((th'.pc.CFinish? && cn'.s2c != []) || th'.pc.CDrain? ==> Begins(seg, Payload(th), th'.pc.i))
    ensures AllData(th', sv, cn', seg)
  {
  }

  /** What a client writes does not count as stored. */
  lemma WriteStored(th: Thread, spc: ServerPc, cn: Conn)
    requires Turn(th, ViewOf(spc, cn)) && Writes(th.pc, th.op)
    ensures Stored(AfterWrite(th), spc, cn.c2s + [Out(th)]) == Stored(th, spc, cn.c2s)
  {
    assert cn.c2s == [] && spc == SIdle ==> Drain(spc, cn.c2s) == SIdle;
  }

  /** A call counts as run from the moment it is written. */
  lemma WriteSettled(th: Thread, sv: Server, cn: Conn)
    requires OwnCall(th) && Writes(th.pc, th.op)
    ensures var before := Settled(sv.pc, sv.mem, cn.c2s); var after := Settled(sv.pc, sv.mem, cn.c2s + [Out(th)]);
            if th.pc.CCall? then after == Put(before, th.op.form.at, th.op.form.bytes) else after == before
  {
    CallsAppend(if sv.pc.SRun? then Put(sv.mem, sv.pc.at, sv.pc.bytes) else sv.mem, cn.c2s, Out(th));
  }

  lemma WriteSendData(th: Thread, sv: Server, cn: Conn, seg: seq<byte>)
    requires Turn(th, ViewOf(sv.pc, cn)) && Writes(th.pc, th.op) && th.op.kind == RawSend && SendData(th, sv, cn, seg)
    ensures SendData(AfterWrite(th), sv, cn.(c2s := cn.c2s + [Out(th)]), seg)
  {
    WriteStored(th, sv.pc, cn);
    WriteSettled(th, sv, cn);
  }

  lemma WriteRecvData(th: Thread, sv: Server, cn: Conn, seg: seq<byte>)
    requires Turn(th, ViewOf(sv.pc, cn)) && Writes(th.pc, th.op) && th.op.kind == RawRecv && RecvData(th, sv, cn, seg)
    ensures RecvData(AfterWrite(th), sv, cn.(c2s := cn.c2s + [Out(th)]), seg)
  {
    assert cn.s2c == [] && !Out(th).Data? && Received(AfterWrite(th)) == Received(th);
    WriteSettled(th, sv, cn);
  }

  lemma WriteData(th: Thread, sv: Server, cn: Conn, seg: seq<byte>)
    requires Turn(th, ViewOf(sv.pc, cn)) && Writes(th.pc, th.op) && AllData(th, sv, cn, seg)
    ensures AllData(AfterWrite(th), sv, cn.(c2s := cn.c2s + [Out(th)]), seg)
  {
    if th.op.kind == RawSend {
      WriteSendData(th, sv, cn, seg);
    } else {
      WriteRecvData(th, sv, cn, seg);
    }
  }

  /** Owning a segment and relying on it start with get_shm and the verdict, not with a packet. */
  lemma WriteOwns(th: Thread)
    requires Writes(th.pc, th.op)
    ensures Owns(AfterOut(th)) ==> Owns(th.pc)
    ensures forall cn, cn' :: Relies(th.(pc := AfterOut(th)), cn) ==> Relies(th, cn') || (th.pc.CTryId? && cn.s2c != [])
  {
  }

  lemma WriteTurn(th: Thread, v: View)
    requires Turn(th, v) && Writes(th.pc, th.op) && (th.pc.CTcpOut? ==> |Payload(th)| == th.op.size)
    ensures Reading(v.rest)
    ensures Turn(AfterWrite(th), Wrote(v, Out(th)))
  {
    if th.pc.CAskVe? {
      WriteAskTurn(th, v);
    } else if th.pc.CTryId? {
      WriteTryTurn(th, v);
    } else if WritesHeader(th.pc) {
      WriteHeaderTurn(th, v);
    } else if th.pc.CUseId? {
      WriteUseTurn(th, v);
    } else if th.pc.CStart? {
      WriteStartTurn(th, v);
    } else if th.pc.CSayTcp? {
      SayTcpTurn(th, v);
    } else if th.pc.CCall? {
      WriteCallTurn(th, v);
    } else {
      WriteTcpTurn(th, v);
    }
  }

  lemma WriteKeeps(th: Thread, sv: Server, cn: Conn, seg: seq<byte>)
    requires Session(th, sv, cn, seg) && Writes(th.pc, th.op)
    ensures var l := Io(Local(th, cn, seg)); Session(l.th, sv, l.cn, l.seg)
  {
    WriteTurn(th, ViewOf(sv.pc, cn));
    WriteView(sv.pc, cn, Out(th));
    WriteData(th, sv, cn, seg);
    WriteOwns(th);
  }

  /** Whatever a client reads is what it expects there. */
  lemma HearTurn(th: Thread, v: View)
    requires Turn(th, v) && Hears(th.pc, th.op) && v.s2c != []
    ensures !AfterIn(th, v.s2c[0]).CBroken?
    ensures Turn(th.(pc := AfterIn(th, v.s2c[0])), v.(s2c := v.s2c[1..]))
  {
    if th.pc.CHearVe? {
      HearTypeTurn(th, v);
    } else if th.pc.CHearTry? {
      HearTryTurn(th, v);
    } else if th.pc.CFinish? {
      HearFinishTurn(th, v);
    } else if th.pc.CHearAnswer? {
      HearAnswerTurn(th, v);
    } else {
      HearTcpTurn(th, v);
    }
  }

  lemma HearTypeTurn(th: Thread, v: View)
    requires Turn(th, v) && th.pc.CHearVe? && v.s2c != []
    ensures !AfterIn(th, v.s2c[0]).CBroken?
    ensures Turn(th.(pc := AfterIn(th, v.s2c[0])), v.(s2c := v.s2c[1..]))
  {
  }

  lemma HearTryTurn(th: Thread, v: View)
    requires Turn(th, v) && th.pc.CHearTry? && v.s2c != []
    ensures !AfterIn(th, v.s2c[0]).CBroken?
    ensures Turn(th.(pc := AfterIn(th, v.s2c[0])), v.(s2c := v.s2c[1..]))
  {
  }

  lemma HearFinishTurn(th: Thread, v: View)
    requires Turn(th, v) && th.pc.CFinish? && v.s2c != []
    ensures !AfterIn(th, v.s2c[0]).CBroken?
    ensures Turn(th.(pc := AfterIn(th, v.s2c[0])), v.(s2c := v.s2c[1..]))
  {
  }

  lemma HearAnswerTurn(th: Thread, v: View)
    requires Turn(th, v) && th.pc.CHearAnswer? && v.s2c != []
    ensures !AfterIn(th, v.s2c[0]).CBroken?
    ensures Turn(th.(pc := AfterIn(th, v.s2c[0])), v.(s2c := v.s2c[1..]))
  {
  }

  /** The acknowledgement of a send or the payload of a receive. */
  lemma HearTcpTurn(th: Thread, v: View)
    requires Turn(th, v) && (th.pc.CHearAck? || th.pc.CTcpIn?) && Hears(th.pc, th.op) && v.s2c != []
    ensures !AfterIn(th, v.s2c[0]).CBroken?
    ensures Turn(th.(pc := AfterIn(th, v.s2c[0])), v.(s2c := v.s2c[1..]))
  {
  }

  /** Reading a message changes no memory. */
  lemma HearData(th: Thread, sv: Server, cn: Conn, cn': Conn, seg: seq<byte>, p: Packet)
    requires AllData(th, sv, cn, seg) && OwnCall(th)
    requires cn.s2c != [] && cn' == cn.(s2c := cn.s2c[1..])
    requires th.pc.CHearVe? || th.pc.CHearTry? || th.pc.CHearAck? || th.pc.CHearAnswer? || th.pc.CFinish?
    requires !AfterIn(th, p).CBroken?
    ensures AllData(th.(pc := AfterIn(th, p)), sv, cn', seg)
  {
    var th' := th.(pc := AfterIn(th, p));
    assert Carries(cn.s2c, Payload(th)) ==> Carries(cn'.s2c, Payload(th)) by {
      assert forall k :: 0 <= k < |cn'.s2c| ==> cn'.s2c[k] == cn.s2c[k + 1];
    }
    SameData(th, th', sv, cn, cn', seg);
  }

  /** All of the payload at once, where nothing of it has been stored. */
  lemma PutWhole(before: seq<byte>, mem: seq<byte>, at: nat, p: seq<byte>)
    requires at + |p| <= |before| && mem == Put(before, at, Prefix(p, 0))
    ensures Put(mem, at, p) == Put(before, at, Prefix(p, |p|))
  {
    assert Prefix(p, 0) == [] && Prefix(p, |p|) == p;
  }

  /** Reading the payload of a TCP receive puts it in its place. */
  lemma HearPayload(th: Thread, th': Thread, sv: Server, cn: Conn, cn': Conn, seg: seq<byte>)
    requires RecvData(th, sv, cn, seg) && Shapes(th, sv, seg) && th.pc.CTcpIn? && th.op.kind == RawRecv
    requires cn.s2c != [] && cn.s2c[0].Data? && cn' == cn.(s2c := [])
    requires th' == th.(pc := CUnlock, buf := Put(th.buf, th.op.local, cn.s2c[0].bytes))
    ensures RecvData(th', sv, cn', seg)
  {
    assert Payload(th') == Payload(th) == cn.s2c[0].bytes;
    assert Received(th) == 0 && Received(th') == |Payload(th)|;
    PutWhole(th.buf0, th.buf, th.op.local, Payload(th));
  }

  /** Owning a segment and relying on it after a packet is read. */
  lemma HearOwns(th: Thread, p: Packet, cn: Conn, cn': Conn)
    requires OwnCall(th) && Hears(th.pc, th.op) && cn.s2c != [] && cn.s2c[0] == p
    ensures Owns(AfterIn(th, p)) ==> Owns(th.pc)
    ensures Relies(th.(pc := AfterIn(th, p)), cn') ==> Relies(th, cn)
  {
  }

  lemma HearMessageKeeps(th: Thread, sv: Server, cn: Conn, seg: seq<byte>)
    requires Session(th, sv, cn, seg) && Hears(th.pc, th.op) && cn.s2c != [] && !th.pc.CTcpIn?
    ensures Session(th.(pc := AfterIn(th, cn.s2c[0])), sv, cn.(s2c := cn.s2c[1..]), seg)
  {
    var cn' := cn.(s2c := cn.s2c[1..]);
    HearTurn(th, ViewOf(sv.pc, cn));
    HearOwns(th, cn.s2c[0], cn, cn');
    HearData(th, sv, cn, cn', seg, cn.s2c[0]);
  }

  lemma HearPayloadKeeps(th: Thread, sv: Server, cn: Conn, seg: seq<byte>)
    requires Session(th, sv, cn, seg) && th.pc.CTcpIn? && th.op.size > 0 && cn.s2c != []
    ensures cn.s2c[0].Data? && |cn.s2c[0].bytes| == th.op.size
    ensures Session(th.(pc := CUnlock, buf := Put(th.buf, th.op.local, cn.s2c[0].bytes)), sv,
                    cn.(s2c := cn.s2c[1..]), seg)
  {
    HearTurn(th, ViewOf(sv.pc, cn));
    HearPayload(th, th.(pc := CUnlock, buf := Put(th.buf, th.op.local, cn.s2c[0].bytes)), sv, cn, cn.(s2c := []), seg);
  }

  lemma FillTurn(th: Thread, v: View)
    requires Turn(th, v) && th.pc.CFill?
    ensures Turn(th.(pc := CStart(th.pc.i)), v)
  {
  }

  lemma FillData(th: Thread, sv: Server, cn: Conn, seg: seq<byte>)
    requires SendData(th, sv, cn, seg) && Shapes(th, sv, seg) && OwnCall(th) && th.pc.CFill?
    ensures SendData(th.(pc := CStart(th.pc.i)), sv, cn, Put(seg, 0, Block(Payload(th), th.pc.i)))
  {
    BlocksTile(th.op.size, th.pc.i);
  }

  lemma FillKeeps(th: Thread, sv: Server, cn: Conn, seg: seq<byte>)
    requires Session(th, sv, cn, seg) && th.pc.CFill?
    ensures Session(th.(pc := CStart(th.pc.i)), sv, cn, Put(seg, 0, Block(Payload(th), th.pc.i)))
  {
    FillTurn(th, ViewOf(sv.pc, cn));
    FillData(th, sv, cn, seg);
  }

  lemma DrainTurn(th: Thread, v: View)
    requires Turn(th, v) && th.pc.CDrain?
    ensures forall buf :: Turn(th.(pc := NextBlock(th.op, th.pc.i), buf := buf), v)
  {
  }

  lemma DrainReceives(th: Thread)
    requires th.pc.CDrain? && th.op.kind == RawRecv && th.pc.i <= NumBlocks(th.op.size)
    ensures Received(th.(pc := NextBlock(th.op, th.pc.i))) == Offset(th.pc.i) + Len(th.op.size, th.pc.i)
  {
    BlocksTile(th.op.size, th.pc.i);
  }

  lemma DrainBuffer(buf0: seq<byte>, buf: seq<byte>, at: nat, p: seq<byte>, i: nat)
    requires i <= NumBlocks(|p|) && at + |p| <= |buf0| && buf == Put(buf0, at, Prefix(p, Offset(i)))
    ensures Put(buf, at + Offset(i), Block(p, i)) == Put(buf0, at, Prefix(p, Offset(i) + Len(|p|, i)))
  {
    BlocksTile(|p|, i);
    PutBlock(buf0, at, p, i);
  }

  function Drained(th: Thread, seg: seq<byte>): Thread
    requires th.pc.CDrain?
  {
    th.(buf := Put(th.buf, th.op.local + Offset(th.pc.i), Get(seg, 0, Len(th.op.size, th.pc.i))),
    pc := NextBlock(th.op, th.pc.i))
  }

  lemma DrainedBlock(th: Thread, sv: Server, cn: Conn, seg: seq<byte>)
    requires RecvData(th, sv, cn, seg) && Shapes(th, sv, seg) && OwnCall(th) && th.pc.CDrain?
    ensures |Payload(th)| == th.op.size && Received(th) == Offset(th.pc.i)
    ensures Get(seg, 0, Len(th.op.size, th.pc.i)) == Block(Payload(th), th.pc.i)
  {
  }

  lemma DrainedBuf(th: Thread, sv: Server, cn: Conn, seg: seq<byte>)
    requires RecvData(th, sv, cn, seg) && Shapes(th, sv, seg) && OwnCall(th) && th.pc.CDrain?
    ensures |Drained(th, seg).buf| == |th.buf|
    ensures Drained(th, seg).buf ==
            Put(th.buf0, th.op.local, Prefix(Payload(th), Offset(th.pc.i) + Len(th.op.size, th.pc.i)))
  {
    DrainedBlock(th, sv, cn, seg);
    DrainBuffer(th.buf0, th.buf, th.op.local, Payload(th), th.pc.i);
  }

  lemma DrainData(th: Thread, sv: Server, cn: Conn, seg: seq<byte>)
    requires RecvData(th, sv, cn, seg) && Shapes(th, sv, seg) && OwnCall(th) && th.pc.CDrain?
    ensures RecvData(Drained(th, seg), sv, cn, seg) && Shapes(Drained(th, seg), sv, seg)
  {
    DrainedBuf(th, sv, cn, seg);
    DrainReceives(th);
  }

  lemma DrainKeeps(th: Thread, sv: Server, cn: Conn, seg: seq<byte>)
    requires Session(th, sv, cn, seg) && th.pc.CDrain?
    ensures Session(Drained(th, seg), sv, cn, seg)
  {
    DrainTurn(th, ViewOf(sv.pc, cn));
    DrainData(th, sv, cn, seg);
  }

  lemma EmptyTcpData(th: Thread, th': Thread, sv: Server, cn: Conn, seg: seq<byte>)
    requires AllData(th, sv, cn, seg) && OwnCall(th) && (th.pc.CTcpOut? || th.pc.CTcpIn?) && th.op.size == 0
    requires th' == th.(pc := if th.pc.CTcpOut? then CHearAck else CUnlock)
    ensures AllData(th', sv, cn, seg)
  {
    SameData(th, th', sv, cn, cn, seg);
  }

  lemma EmptyTcpTurn(th: Thread, v: View)
    requires Turn(th, v) && (th.pc.CTcpOut? || th.pc.CTcpIn?) && th.op.size == 0
    ensures Turn(th.(pc := if th.pc.CTcpOut? then CHearAck else CUnlock), v)
  {
  }

  lemma EmptyTcpIo(th: Thread, cn: Conn, seg: seq<byte>)
    requires (th.pc.CTcpOut? || th.pc.CTcpIn?) && th.op.size == 0
    ensures Io(Local(th, cn, seg)) == Local(th.(pc := if th.pc.CTcpOut? then CHearAck else CUnlock), cn, seg)
  {
  }

  lemma EmptyTcpKeeps(th: Thread, sv: Server, cn: Conn, seg: seq<byte>)
    requires Session(th, sv, cn, seg) && (th.pc.CTcpOut? || th.pc.CTcpIn?) && th.op.size == 0
    ensures var l := Io(Local(th, cn, seg)); Session(l.th, sv, l.cn, l.seg)
  {
    EmptyTcpIo(th, cn, seg);
    EmptyTcpTurn(th, ViewOf(sv.pc, cn));
    EmptyTcpData(th, th.(pc := if th.pc.CTcpOut? then CHearAck else CUnlock), sv, cn, seg);
  }

  lemma HearIo(th: Thread, cn: Conn, seg: seq<byte>)
    requires Hears(th.pc, th.op) && cn.s2c != []
    ensures var p := cn.s2c[0]; var l := Io(Local(th, cn, seg));
            && l.cn == cn.(s2c := cn.s2c[1..]) && l.seg == seg
            && (!th.pc.CTcpIn? ==> l.th == th.(pc := AfterIn(th, p)))
            && (th.pc.CTcpIn? && p.Data? && |p.bytes| == th.op.size ==>
                 l.th == th.(pc := CUnlock, buf := Put(th.buf, th.op.local, p.bytes)))
  {
  }

  lemma HearKeeps(th: Thread, sv: Server, cn: Conn, seg: seq<byte>)
    requires Session(th, sv, cn, seg) && Hears(th.pc, th.op) && cn.s2c != []
    ensures var l := Io(Local(th, cn, seg)); Session(l.th, sv, l.cn, l.seg)
  {
    HearIo(th, cn, seg);
    if th.pc.CTcpIn? {
      HearPayloadKeeps(th, sv, cn, seg);
    } else {
      HearMessageKeeps(th, sv, cn, seg);
    }
  }

  lemma CopyKeeps(th: Thread, sv: Server, cn: Conn, seg: seq<byte>)
    requires Session(th, sv, cn, seg) && DoesIo(th.pc) && !Writes(th.pc, th.op) && !Hears(th.pc, th.op)
    ensures var l := Io(Local(th, cn, seg)); Session(l.th, sv, l.cn, l.seg)
  {
    if th.pc.CFill? {
      FillKeeps(th, sv, cn, seg);
    } else if th.pc.CDrain? {
      DrainKeeps(th, sv, cn, seg);
    } else {
      EmptyTcpKeeps(th, sv, cn, seg);
    }
  }

  // ----- steps that touch only the client's tables -----

  /** Points at which the client has yet to tell the server how to transfer. */
  predicate Asking(pc: ClientPc) {
    || pc.CAskVe? || pc.CCreate? || pc.CAttach? || pc.CSayTry? || pc.CSayUse? || pc.CSayTcp?
    || At(pc, GetType) || ((pc.CAcquire? || pc.CInside?) && pc.r.SetType?) || At(pc, GetFree) || At(pc, Pick)
    || At(pc, Record) || At(pc, Lookup) || At(pc, GiveBack(TcpUnsaid))
  }

  lemma AskGoal(th: Thread)
    requires Asking(th.pc)
    ensures !TcpSettled(th.pc) && !th.pc.CHearVe? && !th.pc.CHearTry? && !th.pc.CFinish? && !MovedBytes(th)
    ensures Goal(th) == SMsg(ReqOf(th.op), !th.asked)
  {
  }

  lemma AskView(th: Thread, v: View)
    requires Asking(th.pc)
    ensures Turn(th, v) <==> OwnCall(th) && Mine(v, SMsg(ReqOf(th.op), !th.asked))
  {
    AskGoal(th);
  }

  lemma AskTurn(th: Thread, th': Thread, v: View)
    requires Turn(th, v) && Asking(th.pc) && Asking(th'.pc) && th' == th.(pc := th'.pc, id := th'.id)
    requires th'.pc.CAskVe? || At(th'.pc, GetType) ==> !th.asked
    ensures Turn(th', v) && Early(v.rest)
  {
    AskView(th, v);
    AskView(th', v);
  }

  lemma AskSend(th: Thread, th': Thread, sv: Server, cn: Conn, seg: seq<byte>, seg': seq<byte>)
    requires SendData(th, sv, cn, seg) && Asking(th.pc) && Asking(th'.pc) && th' == th.(pc := th'.pc, id := th'.id)
    requires Early(sv.pc) && th.op.kind == RawSend
    ensures SendData(th', sv, cn, seg')
  {
  }

  lemma AskRecv(th: Thread, th': Thread, sv: Server, cn: Conn, seg: seq<byte>, seg': seq<byte>)
    requires RecvData(th, sv, cn, seg) && Asking(th.pc) && Asking(th'.pc) && th' == th.(pc := th'.pc, id := th'.id)
    requires Early(sv.pc) && th.op.kind == RawRecv
    ensures RecvData(th', sv, cn, seg')
  {
  }

  lemma AskOwns(th: Thread, th': Thread, sv: Server, cn: Conn)
    requires Asking(th'.pc) && Early(sv.pc)
    ensures DmaMine(th', sv)
    ensures Relies(th', cn) ==> th'.pc.CSayUse?
  {
  }

  /** While the client makes up its mind, only its own program counter and segment change. */
  lemma AskKeeps(th: Thread, th': Thread, sv: Server, cn: Conn, seg: seq<byte>, seg': seq<byte>)
    requires Session(th, sv, cn, seg) && Asking(th.pc) && Asking(th'.pc)
    requires th' == th.(pc := th'.pc, id := th'.id)
    requires th'.pc.CAskVe? || At(th'.pc, GetType) ==> !th.asked
    requires th'.pc.CSayUse? ==> th'.id in sv.shmMap
    requires Owns(th'.pc) ==> |seg'| == SHM_SIZE
    ensures Session(th', sv, cn, seg')
  {
    AskTurn(th, th', ViewOf(sv.pc, cn));
    RestsEarly(sv.pc, cn.c2s);
    AskOwns(th, th', sv, cn);
    if th.op.kind == RawSend { AskSend(th, th', sv, cn, seg, seg'); } else { AskRecv(th, th', sv, cn, seg, seg'); }
  }

  /** After the verdict, or after giving the segment back, the transfer goes on as agreed. */
  predicate Settles(th: Thread, pc: ClientPc) {
    || (th.pc.CAcquire? && pc == CInside(th.pc.r))
    || (th.pc == CInside(Verdict(true)) && pc == DmaBlock(th.op, 0))
    || (th.pc == CInside(Verdict(false)) && pc == CAcquire(GiveBack(TcpAgreed)))
    || (th.pc == CInside(GiveBack(TcpAgreed)) && pc == TcpTransfer(th.op))
    || (th.pc == CInside(GiveBack(Done)) && pc == CUnlock)
  }

  lemma EnterTurn(th: Thread, v: View)
    requires Turn(th, v) && th.pc.CAcquire?
    ensures Turn(th.(pc := CInside(th.pc.r)), v)
  {
  }

  lemma UsableTurn(th: Thread, v: View)
    requires Turn(th, v) && th.pc == CInside(Verdict(true))
    ensures Turn(th.(pc := DmaBlock(th.op, 0)), v)
  {
  }

  lemma DoneTurn(th: Thread, v: View)
    requires Turn(th, v) && th.pc == CInside(GiveBack(Done))
    ensures Turn(th.(pc := CUnlock), v)
  {
  }

  lemma RefusedTurn(th: Thread, pc: ClientPc, v: View)
    requires Turn(th, v) && Refused(th.pc) && th.pc.CInside? && Settles(th, pc)
    ensures Turn(th.(pc := pc), v)
  {
  }

  lemma SettledTurn(th: Thread, pc: ClientPc, v: View)
    requires Turn(th, v) && Settles(th, pc)
    ensures Turn(th.(pc := pc), v)
  {
    if th.pc.CAcquire? {
      EnterTurn(th, v);
    } else if Refused(th.pc) {
      RefusedTurn(th, pc, v);
    } else if th.pc == CInside(Verdict(true)) {
      UsableTurn(th, v);
    } else {
      DoneTurn(th, v);
    }
  }

  lemma SettledData(th: Thread, pc: ClientPc, sv: Server, cn: Conn, seg: seq<byte>)
    requires AllData(th, sv, cn, seg) && Settles(th, pc)
    ensures AllData(th.(pc := pc), sv, cn, seg)
  {
    SameData(th, th.(pc := pc), sv, cn, cn, seg);
  }

  lemma SettledOwns(th: Thread, pc: ClientPc, cn: Conn)
    requires Settles(th, pc)
    ensures Owns(pc) ==> Owns(th.pc)
    ensures Relies(th.(pc := pc), cn) ==> Relies(th, cn)
  {
  }

  lemma SettledKeeps(th: Thread, pc: ClientPc, sv: Server, cn: Conn, seg: seq<byte>)
    requires Session(th, sv, cn, seg) && Settles(th, pc)
    ensures Session(th.(pc := pc), sv, cn, seg)
  {
    SettledTurn(th, pc, ViewOf(sv.pc, cn));
    SettledData(th, pc, sv, cn, seg);
    SettledOwns(th, pc, cn);
  }

  /** The new holder of a free connection starts from the server's memory as it is. */
  lemma StartKeeps(th: Thread, sv: Server, cn: Conn, seg: seq<byte>)
    requires Free(sv, cn) && th.op.local + th.op.size <= |th.buf| && th.op.remote + th.op.size <= |sv.mem|
    requires ValidForm(th.op)
    ensures Session(th.(pc := Start(th.op), asked := false, buf0 := th.buf, mem0 := Settled(sv.pc, sv.mem, cn.c2s)),
                    sv, cn, seg)
  {
    RestsEarly(sv.pc, cn.c2s);
  }

  /** A connection is left as free as it was found. */
  lemma EndKeeps(th: Thread, sv: Server, cn: Conn, seg: seq<byte>)
    requires Session(th, sv, cn, seg) && th.pc.CUnlock?
    ensures Free(sv, cn.(holder := {}))
  {
  }

  /** A segment that the thread does not own does not matter to it. */
  lemma SegIrrelevant(th: Thread, sv: Server, cn: Conn, seg: seq<byte>, seg': seq<byte>)
    requires Session(th, sv, cn, seg) && !Owns(th.pc)
    ensures Session(th, sv, cn, seg')
  {
    if sv.pc.SSayFinish? {
      SayingRests(sv.pc, cn.c2s);
    }
  }

  /** Who holds a connection matters to nobody but the holder. */
  lemma HolderIrrelevant(th: Thread, sv: Server, cn: Conn, holder: set<nat>, seg: seq<byte>)
    requires Session(th, sv, cn, seg)
    ensures Session(th, sv, cn.(holder := holder), seg)
  {
    assert ViewOf(sv.pc, cn.(holder := holder)) == ViewOf(sv.pc, cn);
  }
}
