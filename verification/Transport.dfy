/** One client process with many threads, many server processes, one pooled connection per server node, with raw
    transfers and remote calls in any mixture.
    A state machine with one step per lock acquisition, per lock-protected region, per packet read or
    written, per memcpy and per DMA transfer. */
module Transport {
  import opened Blocks
  import opened Wire

  datatype Node = Node(host: string, port: int)

  /** The client's host name, and how many packets a connection buffers in each direction. */
  datatype Config = Config(host: string, capacity: nat)

  /** A raw transfer, or a remote call whose caller waits for an answer or, if it is exception-free, does not. at and
      bytes are what the function leaves in the memory of raw transfers. All access to that memory goes over the
      connection in order, so what the function finds there is settled when the call is written, and any change that it
      may make is some choice of at and bytes. */
  datatype Form = Raw | RemoteCall(answered: bool, at: nat, bytes: seq<byte>)

  /** exrpc_rawsend(n, src, dst, size) or exrpc_rawrecv(n, dst, src, size). A remote call counts as a receive of no
      bytes. */
  datatype Op = Op(form: Form, kind: Kind, node: Node, local: nat, remote: nat, size: nat)

  predicate Answered(op: Op) {
    op.form.RemoteCall? && op.form.answered
  }

  predicate ValidForm(op: Op) {
    op.form.RemoteCall? ==> op.kind == RawRecv && op.size == 0
  }

  datatype ServerType = Ve | X86 | Unknown

  datatype Lock = ManagementLock | TypeLock | BufLock | UsableLock

  /** What follows return_shm: nothing, a TCP transfer already agreed on, or one still to be announced. */
  datatype After = Done | TcpAgreed | TcpUnsaid

  /** The lock-protected regions of a transfer, in the order in which a transfer can reach them. */
  datatype Region =
    | Connect
    | GetType
    | SetType(ve: bool)
    | GetFree
    | Pick
    | Record
    | Lookup
    | Verdict(ok: bool)
    | GiveBack(next: After)

  datatype ClientPc =
    | CIdle
    | CAcquire(r: Region)
    | CInside(r: Region)
    | CLockConn
    | CHdr
    | CAddr
    | CAskVe
    | CHearVe
    | CCreate
    | CAttach
    | CSayTry
    | CTryId
    | CHearTry
    | CSayUse
    | CUseId
    | CFill(i: nat)
    | CStart(i: nat)
    | CFinish(i: nat)
    | CDrain(i: nat)
    | CSayTcp
    | CTcpOut
    | CHearAck
    | CTcpIn
    | CCall
    | CHearAnswer
    | CUnlock
    | CBroken

  /** A client thread. id is the segment it was handed or created; asked tells whether this call has sent
      is_ve. buf0 and mem0 are history: the two memories when the call got the connection lock, that of the server
      with all calls run that were still to come. */
  datatype Thread = Thread(pc: ClientPc, op: Op, id: int, asked: bool,
                           buf: seq<byte>, buf0: seq<byte>, mem0: seq<byte>)

  /** A server process; shmMap holds the keys of shm_map. */
  datatype Server = Server(ve: bool, pc: ServerPc, mem: seq<byte>, dmaBuf: seq<byte>, shmMap: set<int>)

  datatype Conn = Conn(holder: set<nat>, c2s: seq<Packet>, s2c: seq<Packet>)

  /** attached, probes, peak and failed are history: the segments attached so far, the try_dma requests sent,
      the largest number of transfers that held or were creating a segment, and whether a creation failed. */
  datatype State = State(
    threads: map<nat, Thread>,
    conns: map<Node, Conn>,
    servers: map<Node, Server>,
    segs: map<int, seq<byte>>,
    locks: map<Lock, nat>,
    serverType: ServerType,
    needCleanup: bool,
    pool: seq<int>,
    usable: map<(Node, int), bool>,
    cleanup: seq<int>,
    attached: set<int>,
    probes: seq<(Node, int)>,
    peak: nat,
    failed: bool)

  /** The environment's part in a step: success or failure of a system call, a new segment id. */
  datatype Choice = Choice(ok: bool, id: int)

  datatype Action =
    | Begin(tid: nat, op: Op, buf: seq<byte>)
    | Client(tid: nat, choice: Choice)
    | Serve(node: Node, choice: Choice)

  // ----- the client -----

  function LockOf(r: Region): Lock {
    match r
    case Connect => ManagementLock
    case GetType | SetType(_) => TypeLock
    case GetFree | Record | GiveBack(_) => BufLock
    case Pick | Lookup | Verdict(_) => UsableLock
  }

  /** Locks a thread holds at pc; get_shm takes dma_usable_list_lock while it holds dma_buf_list_lock. */
  predicate Holds(pc: ClientPc, l: Lock) {
    (pc.CInside? && LockOf(pc.r) == l) || (At(pc, Pick) && l == BufLock)
  }

  predicate At(pc: ClientPc, r: Region) {
    (pc.CAcquire? || pc.CInside?) && pc.r == r
  }

  predicate InCall(pc: ClientPc) {
    !pc.CIdle? && !At(pc, Connect) && !pc.CLockConn? && !pc.CBroken?
  }

  /** The thread owns an attached segment. */
  predicate Owns(pc: ClientPc) {
    || ((pc.CAcquire? || pc.CInside?) && (pc.r.Lookup? || pc.r.Verdict? || pc.r.GiveBack?))
    || pc.CSayTry? || pc.CTryId? || pc.CHearTry? || pc.CSayUse? || pc.CUseId?
    || pc.CFill? || pc.CStart? || pc.CFinish? || pc.CDrain?
  }

  predicate Creating(pc: ClientPc) {
    pc.CCreate? || At(pc, Record) || pc.CAttach?
  }

  /** Threads that hold or are creating a segment. */
  function Busy(threads: map<nat, Thread>): set<nat> {
    set t | t in threads && (Owns(threads[t].pc) || Creating(threads[t].pc))
  }

  function ReqOf(op: Op): Req {
    Req(op.kind, op.size, op.remote)
  }

  /** The bytes a transfer moves. */
  function Payload(th: Thread): seq<byte> {
    if th.op.kind == RawSend then Get(th.buf, th.op.local, th.op.size) else Get(th.mem0, th.op.remote, th.op.size)
  }

  function Decide(c: Config, op: Op, ve: bool): ClientPc {
    if op.node.host == c.host && ve then CAcquire(GetFree) else CSayTcp
  }

  function DmaBlock(op: Op, i: nat): ClientPc {
    if op.kind == RawSend then CFill(i) else CStart(i)
  }

  function NextBlock(op: Op, i: nat): ClientPc {
    if i < NumBlocks(op.size) then DmaBlock(op, i + 1) else CAcquire(GiveBack(Done))
  }

  function TcpTransfer(op: Op): ClientPc {
    if op.kind == RawSend then CTcpOut else CTcpIn
  }

  /** get_shm prefers the first free segment that is known usable for n and otherwise takes the last one. */
  function PickIndex(pool: seq<int>, usable: map<(Node, int), bool>, n: Node): (k: nat)
    requires pool != []
    ensures k < |pool|
  {
    PickFrom(pool, usable, n, 0)
  }

  predicate KnownUsable(usable: map<(Node, int), bool>, n: Node, id: int) {
    (n, id) in usable && usable[(n, id)]
  }

  function PickFrom(pool: seq<int>, usable: map<(Node, int), bool>, n: Node, i: nat): (k: nat)
    requires pool != [] && i <= |pool|
    ensures k < |pool|
    decreases |pool| - i
  {
    if i == |pool| then |pool| - 1
    else if KnownUsable(usable, n, pool[i]) then i
    else PickFrom(pool, usable, n, i + 1)
  }

  predicate Writes(pc: ClientPc, op: Op) {
    || pc.CHdr? || pc.CAddr? || pc.CAskVe? || pc.CSayTry? || pc.CTryId? || pc.CSayUse? || pc.CUseId? || pc.CSayTcp?
    || pc.CStart? || pc.CCall? || (pc.CTcpOut? && op.size > 0)
  }

  predicate Hears(pc: ClientPc, op: Op) {
    pc.CHearVe? || pc.CHearTry? || pc.CHearAck? || pc.CHearAnswer? || pc.CFinish? || (pc.CTcpIn? && op.size > 0)
  }

  predicate CanClient(c: Config, s: State, t: nat, ch: Choice) {
    t in s.threads && var th := s.threads[t]; var n := th.op.node;
    && n in s.servers
    && (InCall(th.pc) || th.pc == CLockConn ==> n in s.conns)
    && (Writes(th.pc, th.op) ==> |s.conns[n].c2s| < c.capacity)
    && (Hears(th.pc, th.op) ==> s.conns[n].s2c != [])
    && match th.pc
       case CIdle | CBroken => false
       case CAcquire(r) => LockOf(r) !in s.locks
       case CInside(r) => r == Pick ==> s.pool != []
       case CLockConn => s.conns[n].holder == {}
       case CCreate => ch.ok ==> ch.id !in s.segs
       case _ => true
  }

  /** What one thread's own packet or copy does to the thread, the connection and its segment. */
  datatype Local = Local(th: Thread, cn: Conn, seg: seq<byte>)

  /** The packet a writing thread sends, and where it goes on. */
  function Out(th: Thread): Packet {
    match th.pc
    case CHdr => Hdr(th.op.kind, th.op.size)
    case CAddr => Addr(th.op.remote)
    case CAskVe => Msg(IsVe)
    case CSayTry => Msg(TryDma)
    case CTryId | CUseId => ShmId(th.id)
    case CSayUse => Msg(UseDma)
    case CStart(_) => Msg(StartDma)
    case CSayTcp => Msg(UseTcpip)
    case CCall => if th.op.form.RemoteCall? then Call(th.op.form.answered, th.op.form.at, th.op.form.bytes) else Ack
    case _ => Data(Payload(th))
  }

  function AfterOut(th: Thread): ClientPc {
    match th.pc
    case CHdr => CAddr
    case CAddr => CAcquire(GetType)
    case CAskVe => CHearVe
    case CSayTry => CTryId
    case CTryId => CHearTry
    case CSayUse => CUseId
    case CUseId => DmaBlock(th.op, 0)
    case CStart(i) => CFinish(i)
    case CSayTcp => TcpTransfer(th.op)
    case CCall => if Answered(th.op) then CHearAnswer else CUnlock
    case _ => CHearAck
  }

  /** Where a thread goes on that has read packet p; a packet of the wrong shape is fatal. */
  function AfterIn(th: Thread, p: Packet): ClientPc {
    match th.pc
    case CHearVe => if p.Msg? then CAcquire(SetType(p.m == IsVeYes)) else CBroken
    case CHearTry => if p.Msg? then CAcquire(Verdict(p.m == DmaOk)) else CBroken
    case CFinish(i) => if !p.Msg? then CBroken else if th.op.kind == RawSend then NextBlock(th.op, i) else CDrain(i)
    case CHearAck => if p.Ack? then CUnlock else CBroken
    case CHearAnswer => if p.Answer? then CUnlock else CBroken
    case _ => if p.Data? && |p.bytes| == th.op.size then CUnlock else CBroken
  }

  function Io(l: Local): Local
    requires Hears(l.th.pc, l.th.op) ==> l.cn.s2c != []
  {
    var th := l.th;
    var op := th.op;
    if Writes(th.pc, op) then
      l.(cn := l.cn.(c2s := l.cn.c2s + [Out(th)]), th := th.(pc := AfterOut(th), asked := th.asked || th.pc == CAskVe))
    else if Hears(th.pc, op) then
      var p := l.cn.s2c[0];
      l.(cn := l.cn.(s2c := l.cn.s2c[1..]),
      th := th.(pc := AfterIn(th, p),
                buf := if th.pc == CTcpIn && p.Data? then Put(th.buf, op.local, p.bytes) else th.buf))
    else match th.pc
      case CFill(i) => l.(seg := Put(l.seg, 0, Block(Payload(th), i)), th := th.(pc := CStart(i)))
      case CDrain(i) =>
        l.(th := th.(buf := Put(th.buf, op.local + Offset(i), Get(l.seg, 0, Len(op.size, i))), pc := NextBlock(op, i)))
      case CTcpOut => l.(th := th.(pc := CHearAck))
      case CTcpIn => l.(th := th.(pc := CUnlock))
      case _ => l
  }

  function SegAt(segs: map<int, seq<byte>>, id: int): seq<byte> {
    if id in segs then segs[id] else []
  }

  function SegOf(s: State, id: int): seq<byte> {
    SegAt(s.segs, id)
  }

  predicate DoesIo(pc: ClientPc) {
    InCall(pc) && !pc.CAcquire? && !pc.CInside? && !pc.CCreate? && !pc.CAttach? && !pc.CUnlock?
  }

  // A client step changes the thread's own record and, table by table, what follows.

  /** get_shm finds a free segment and goes on to pick one with dma_buf_list_lock still held.
      The first caller also installs the clean-up handlers; if that fails it gets no segment. */
  predicate FindsFree(s: State, ch: Choice) {
    (s.needCleanup || ch.ok) && s.pool != []
  }

  /** Where a thread goes on after the body of a lock-protected region. */
  function Leave(c: Config, s: State, th: Thread, r: Region, ch: Choice): ClientPc {
    match r
    case Connect => CLockConn
    case GetType => if s.serverType == Unknown then CAskVe else Decide(c, th.op, s.serverType == Ve)
    case SetType(ve) => Decide(c, th.op, ve)
    case GetFree =>
      if FindsFree(s, ch) then CAcquire(Pick)
      else if s.needCleanup || ch.ok then CCreate
      else CSayTcp
    case Pick => CAcquire(Lookup)
    case Record => CAttach
    case Lookup =>
      if (th.op.node, th.id) !in s.usable then CSayTry
      else if s.usable[(th.op.node, th.id)] then CSayUse
      else CAcquire(GiveBack(TcpUnsaid))
    case Verdict(ok) => if ok then DmaBlock(th.op, 0) else CAcquire(GiveBack(TcpAgreed))
    case GiveBack(Done) => CUnlock
    case GiveBack(TcpAgreed) => TcpTransfer(th.op)
    case GiveBack(TcpUnsaid) => CSayTcp
  }

  /** The first thing to write on the connection. */
  function Start(op: Op): ClientPc {
    if op.form.RemoteCall? then CCall else CHdr
  }

  function Next(c: Config, s: State, th: Thread, ch: Choice): ClientPc {
    match th.pc
    case CAcquire(r) => CInside(r)
    case CInside(r) => Leave(c, s, th, r, ch)
    case CLockConn => Start(th.op)
    case CCreate => if ch.ok then CAcquire(Record) else CSayTcp
    case CAttach => if ch.ok then CAcquire(Lookup) else CSayTcp
    case _ => CIdle
  }

  function IoOf(s: State, t: nat): Local
    requires t in s.threads && s.threads[t].op.node in s.conns
    requires Hears(s.threads[t].pc, s.threads[t].op) ==> s.conns[s.threads[t].op.node].s2c != []
  {
    var th := s.threads[t];
    Io(Local(th, s.conns[th.op.node], SegOf(s, th.id)))
  }

  function ThreadAfter(c: Config, s: State, t: nat, ch: Choice): Thread
    requires CanClient(c, s, t, ch)
  {
    var th := s.threads[t];
    if DoesIo(th.pc) then IoOf(s, t).th
    else if th.pc.CLockConn? then
      var sv := s.servers[th.op.node];
      th.(pc := Start(th.op), asked := false, buf0 := th.buf, mem0 := Settled(sv.pc, sv.mem, s.conns[th.op.node].c2s))
    else
      var id := if th.pc == CInside(Pick) then s.pool[PickIndex(s.pool, s.usable, th.op.node)]
                else if th.pc.CCreate? && ch.ok then ch.id
                else th.id;
      th.(pc := Next(c, s, th, ch), id := id)
  }

  function LocksAfter(s: State, t: nat, pc: ClientPc, ch: Choice): map<Lock, nat> {
    if pc.CAcquire? then s.locks[LockOf(pc.r) := t]
    else if pc == CInside(GetFree) && FindsFree(s, ch) then s.locks
    else if pc == CInside(Pick) then s.locks - {UsableLock, BufLock}
    else if pc.CInside? then s.locks - {LockOf(pc.r)}
    else s.locks
  }

  function ConnsAfter(c: Config, s: State, t: nat, ch: Choice): map<Node, Conn>
    requires CanClient(c, s, t, ch)
  {
    var th := s.threads[t];
    var n := th.op.node;
    if DoesIo(th.pc) then s.conns[n := IoOf(s, t).cn]
    else if th.pc == CInside(Connect) && n !in s.conns then s.conns[n := Conn({}, [], [])]
    else if th.pc.CLockConn? then s.conns[n := s.conns[n].(holder := {t})]
    else if th.pc.CUnlock? then s.conns[n := s.conns[n].(holder := {})]
    else s.conns
  }

  function SegsAfter(c: Config, s: State, t: nat, ch: Choice): map<int, seq<byte>>
    requires CanClient(c, s, t, ch)
  {
    var th := s.threads[t];
    if th.pc.CFill? && th.id in s.segs then s.segs[th.id := IoOf(s, t).seg]
    else if th.pc.CCreate? && ch.ok then s.segs[ch.id := NewSegment()]
    else if th.pc.CAttach? && !ch.ok then s.segs - {th.id}
    else s.segs
  }

  function PoolAfter(s: State, th: Thread): seq<int>
    requires th.pc == CInside(Pick) ==> s.pool != []
  {
    if th.pc == CInside(Pick) then
      var k := PickIndex(s.pool, s.usable, th.op.node); s.pool[..k] + s.pool[k + 1..]
    else if th.pc.CInside? && th.pc.r.GiveBack? then s.pool + [th.id]
    else s.pool
  }

  /** unordered_map::insert keeps an entry that is already there. */
  function UsableAfter(s: State, th: Thread): map<(Node, int), bool> {
    if th.pc.CInside? && th.pc.r.Verdict? && (th.op.node, th.id) !in s.usable then
      s.usable[(th.op.node, th.id) := th.pc.r.ok]
    else s.usable
  }

  function ClientStep(c: Config, s: State, t: nat, ch: Choice): State
    requires CanClient(c, s, t, ch)
  {
    var th := s.threads[t];
    var pc := th.pc;
    var threads := s.threads[t := ThreadAfter(c, s, t, ch)];
    var busy := |Busy(threads)|;
    s.(threads := threads,
    conns := ConnsAfter(c, s, t, ch),
    segs := SegsAfter(c, s, t, ch),
    locks := LocksAfter(s, t, pc, ch),
    serverType := if pc.CInside? && pc.r.SetType? then if pc.r.ve then Ve else X86 else s.serverType,
    needCleanup := s.needCleanup || pc == CInside(GetFree),
    pool := PoolAfter(s, th),
    usable := UsableAfter(s, th),
    cleanup := if pc == CInside(Record) then s.cleanup + [th.id] else s.cleanup,
    attached := if pc.CAttach? && ch.ok then s.attached + {th.id} else s.attached,
    probes := if pc.CSayTry? then s.probes + [(th.op.node, th.id)] else s.probes,
    peak := if busy > s.peak then busy else s.peak,
    failed := s.failed || ((pc.CCreate? || pc.CAttach?) && !ch.ok))
  }

  // ----- the server -----

  predicate CanServe(c: Config, s: State, n: Node) {
    && n in s.servers && n in s.conns
    && var pc := s.servers[n].pc;
    && pc != SBroken
    && (Reading(pc) ==> s.conns[n].c2s != [])
    && (Saying(pc) ==> |s.conns[n].s2c| < c.capacity)
  }

  datatype Remote = Remote(sv: Server, cn: Conn, seg: seq<byte>)

  /** What one server step does to the server, its connection and the segment it works on. */
  function ServeLocal(l: Remote, ch: Choice): Remote
    requires Reading(l.sv.pc) ==> l.cn.c2s != []
  {
    var sv := l.sv;
    if Reading(sv.pc) then
      Remote(sv.(pc := Read(sv.pc, l.cn.c2s[0])), l.cn.(c2s := l.cn.c2s[1..]), l.seg)
    else if Saying(sv.pc) then
      var p := match sv.pc
        case SSayType(_) => Msg(if sv.ve then IsVeYes else IsVeNo)
        case SSayOk(_, _) => Msg(DmaOk)
        case SSayNg(_) => Msg(DmaNg)
        case SSayFinish(_, _, _) => Msg(FinishDma)
        case SSayAck(_) => Ack
        case SSayAnswer => Answer
        case STcpOut(req) => Data(Get(sv.mem, req.ptr, req.size));
      Remote(sv.(pc := Said(sv.pc)), l.cn.(s2c := l.cn.s2c + [p]), l.seg)
    else match sv.pc
      case STry(req, id) =>
        // a segment already attached is usable; otherwise vh_shmat or initialize_dma may fail, on x86 always
        if id in sv.shmMap then l.(sv := sv.(pc := SSayOk(req, id)))
        else if sv.ve && ch.ok then l.(sv := sv.(pc := SSayOk(req, id), shmMap := sv.shmMap + {id}))
        else l.(sv := sv.(pc := SSayNg(req)))
      case SUse(req, id) => l.(sv := sv.(pc := if id in sv.shmMap then Work(sv.pc) else SBroken))
      case SStage(req, id, i) =>
        l.(sv := sv.(pc := Work(sv.pc),
                     dmaBuf := Put(sv.dmaBuf, 0, Get(sv.mem, req.ptr + Offset(i), Len(req.size, i)))))
      case SDma(req, id, i) =>
        if req.kind == RawSend then
          l.(sv := sv.(pc := Work(sv.pc), dmaBuf := Put(sv.dmaBuf, 0, Get(l.seg, 0, DmaLen(req.size, i)))))
        else l.(sv := sv.(pc := Work(sv.pc)), seg := Put(l.seg, 0, Get(sv.dmaBuf, 0, DmaLen(req.size, i))))
      case SCopy(req, id, i) =>
        l.(sv := sv.(pc := Work(sv.pc), mem := Put(sv.mem, req.ptr + Offset(i), Get(sv.dmaBuf, 0, Len(req.size, i)))))
      case SStore(req, b) => l.(sv := sv.(pc := Work(sv.pc), mem := Put(sv.mem, req.ptr, b)))
      case SRun(_, at, bytes) => l.(sv := sv.(pc := Work(sv.pc), mem := Put(sv.mem, at, bytes)))
      case STcpIn(_) | STcpOut(_) => l.(sv := sv.(pc := Work(sv.pc)))
      case _ => l
  }

  function DmaId(pc: ServerPc): int {
    if pc.SDma? then pc.id else 0
  }

  function ServeStep(c: Config, s: State, n: Node, ch: Choice): State
    requires CanServe(c, s, n)
  {
    var pc := s.servers[n].pc;
    var l := ServeLocal(Remote(s.servers[n], s.conns[n], SegOf(s, DmaId(pc))), ch);
    s.(servers := s.servers[n := l.sv], conns := s.conns[n := l.cn],
    segs := if pc.SDma? && pc.id in s.segs then s.segs[pc.id := l.seg] else s.segs)
  }

  // ----- runs -----

  /** A call whose memory ranges exist; anything else is outside the program's own contract. */
  predicate ValidOp(servers: map<Node, Server>, op: Op, buf: seq<byte>) {
    && ValidForm(op) && op.node in servers
    && op.local + op.size <= |buf| && op.remote + op.size <= |servers[op.node].mem|
  }

  predicate Enabled(c: Config, s: State, a: Action) {
    match a
    case Begin(t, op, buf) => t in s.threads && s.threads[t].pc == CIdle && ValidOp(s.servers, op, buf)
    case Client(t, ch) => CanClient(c, s, t, ch)
    case Serve(n, _) => CanServe(c, s, n)
  }

  function Apply(c: Config, s: State, a: Action): State
    requires Enabled(c, s, a)
  {
    match a
    case Begin(t, op, buf) =>
      s.(threads := s.threads[t := s.threads[t].(pc := CAcquire(Connect), op := op, buf := buf)])
    case Client(t, ch) => ClientStep(c, s, t, ch)
    case Serve(n, ch) => ServeStep(c, s, n, ch)
  }

  predicate Legal(c: Config, s: State, run: seq<Action>)
    decreases |run|
  {
    run == [] || (Enabled(c, s, run[0]) && Legal(c, Apply(c, s, run[0]), run[1..]))
  }

  function Exec(c: Config, s: State, run: seq<Action>): State
    requires Legal(c, s, run)
    decreases |run|
  {
    if run == [] then s else Exec(c, Apply(c, s, run[0]), run[1..])
  }

  /** Any number of idle threads and fresh servers, empty tables, no connection yet. */
  predicate Init(s: State) {
    && (forall t :: t in s.threads ==> s.threads[t].pc == CIdle)
    && (forall n :: n in s.servers ==>
        s.servers[n].pc == SIdle && s.servers[n].shmMap == {} && |s.servers[n].dmaBuf| == SHM_SIZE)
    && s.conns == map[] && s.segs == map[] && s.locks == map[] && s.serverType == Unknown && !s.needCleanup
    && s.pool == [] && s.usable == map[] && s.cleanup == [] && s.attached == {} && s.probes == []
    && s.peak == 0 && !s.failed
  }
}
