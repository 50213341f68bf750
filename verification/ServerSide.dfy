/** Every step of the server keeps the session of the client it works for. */
module ServerSide {
  import opened Blocks
  import opened Sequences
  import opened Wire
  import opened Transport
  import opened ClientSide

  /** The server has taken its step: same seg-independent shape for all of them. */
  function Served(sv: Server, cn: Conn, seg: seq<byte>, ch: Choice): Remote
    requires Reading(sv.pc) ==> cn.c2s != []
  {
    ServeLocal(Remote(sv, cn, seg), ch)
  }

  // ----- reading -----

  lemma ReadView(spc: ServerPc, cn: Conn)
    requires Reading(spc) && cn.c2s != []
    ensures ViewOf(Read(spc, cn.c2s[0]), cn.(c2s := cn.c2s[1..]))
         == ViewOf(spc, cn).(quiet := |cn.c2s| == 1)
    ensures !ViewOf(spc, cn).quiet && !ViewOf(spc, cn).idle
  {
  }

  lemma ReadTurn(th: Thread, v: View, q: bool)
    requires Turn(th, v) && !v.quiet && !v.idle
    ensures Turn(th, v.(quiet := q))
  {
  }

  /** Reading an id of a segment that is used, the server ends up in block 0 of a transfer with it. */
  lemma UseDrains(req: Req, id: int, q: seq<Packet>)
    ensures Drain(SUse(req, id), q) == SBroken || Drain(SUse(req, id), q) == SStart(req, id, 0)
         || Drain(SUse(req, id), q) == SSayFinish(req, id, 0)
  {
    assert Drain(SUse(req, id), q) == Drain(BlockPc(req, id, 0), q);
    assert Drain(BlockPc(req, id, 0), q) == Drain(SStart(req, id, 0), q);
    if q != [] {
      var pc := Read(SStart(req, id, 0), q[0]);
      assert Drain(SStart(req, id, 0), q) == Drain(pc, q[1..]);
      if pc.SDma? {
        assert Drain(pc, q[1..]) == Drain(Work(pc), q[1..]) == Drain(SSayFinish(req, id, 0), q[1..]);
      }
    }
  }

  /** The id a server reads is the one its client holds. */
  lemma ReadId(th: Thread, spc: ServerPc, cn: Conn)
    requires Turn(th, ViewOf(spc, cn)) && (spc.STryId? || spc.SUseId?) && cn.c2s != []
    ensures var pc := Read(spc, cn.c2s[0]);
            && !pc.SBroken?
            && pc.req == ReqOf(th.op) && pc.id == th.id
            && (pc.SUse? ==> Relies(th, cn))
  {
    var pc := Read(spc, cn.c2s[0]);
    assert Drain(spc, cn.c2s) == Drain(pc, cn.c2s[1..]);
    if pc.STry? {
      SayingRests(pc, cn.c2s[1..]);
    } else if pc.SUse? {
      UseDrains(pc.req, pc.id, cn.c2s[1..]);
    }
  }

  lemma ReadFits(th: Thread, spc: ServerPc, cn: Conn)
    requires Turn(th, ViewOf(spc, cn)) && Reading(spc) && cn.c2s != []
    ensures !Read(spc, cn.c2s[0]).SBroken?
  {
    assert Drain(SBroken, cn.c2s[1..]) == SBroken;
  }

  lemma ReadDmaMine(th: Thread, sv: Server, cn: Conn)
    requires Turn(th, ViewOf(sv.pc, cn)) && DmaMine(th, sv) && (Relies(th, cn) ==> th.id in sv.shmMap)
    requires Reading(sv.pc) && cn.c2s != []
    ensures DmaMine(th, sv.(pc := Read(sv.pc, cn.c2s[0])))
  {
    if sv.pc.STryId? || sv.pc.SUseId? {
      ReadId(th, sv.pc, cn);
    }
  }

  lemma ReadData(th: Thread, sv: Server, cn: Conn, seg: seq<byte>)
    requires AllData(th, sv, cn, seg) && Reading(sv.pc) && cn.c2s != []
    requires !Read(sv.pc, cn.c2s[0]).SBroken?
    ensures AllData(th, sv.(pc := Read(sv.pc, cn.c2s[0])), cn.(c2s := cn.c2s[1..]), seg)
  {
    assert Carries(cn.c2s, Payload(th)) ==> Carries(cn.c2s[1..], Payload(th));
    ReadSettled(sv.pc, sv.mem, cn.c2s);
  }

  lemma ReadKeeps(th: Thread, sv: Server, cn: Conn, seg: seq<byte>)
    requires Session(th, sv, cn, seg) && Reading(sv.pc) && cn.c2s != []
    ensures !Read(sv.pc, cn.c2s[0]).SBroken?
    ensures Session(th, sv.(pc := Read(sv.pc, cn.c2s[0])), cn.(c2s := cn.c2s[1..]), seg)
  {
    ReadView(sv.pc, cn);
    ReadTurn(th, ViewOf(sv.pc, cn), |cn.c2s| == 1);
    ReadFits(th, sv.pc, cn);
    ReadDmaMine(th, sv, cn);
    ReadData(th, sv, cn, seg);
  }

  // ----- local work -----

  lemma WorkView(spc: ServerPc, cn: Conn)
    requires Silent(spc)
    ensures ViewOf(Work(spc), cn) == ViewOf(spc, cn).(idle := cn.c2s == [] && Work(spc) == SIdle)
    ensures !ViewOf(spc, cn).idle
  {
  }

  lemma WorkTurn(th: Thread, v: View, idle: bool)
    requires Turn(th, v) && !v.idle
    ensures Turn(th, v.(idle := idle))
  {
  }

  /** While a server runs a DMA, its client waits for finish_dma of that very block and nothing is in flight. */
  lemma DmaMeetsFinish(th: Thread, sv: Server, cn: Conn)
    requires Turn(th, ViewOf(sv.pc, cn)) && sv.pc.SDma?
    ensures th.pc == CFinish(sv.pc.i) && cn.s2c == [] && cn.c2s == []
  {
    var pc := sv.pc;
    var said := SSayFinish(pc.req, pc.id, pc.i);
    assert Drain(pc, cn.c2s) == Drain(Work(pc), cn.c2s) == Drain(said, cn.c2s);
    SayingRests(said, cn.c2s);
  }

  /** A server that stores TCP data works for a send of exactly that size. */
  lemma StoreMeetsSend(th: Thread, sv: Server, cn: Conn)
    requires Turn(th, ViewOf(sv.pc, cn))
    requires sv.pc.SStore? || (sv.pc.STcpIn? && sv.pc.req.size == 0)
    ensures th.op.kind == RawSend && sv.pc.req == ReqOf(th.op)
  {
    var said := SSayAck(sv.pc.req);
    assert Drain(sv.pc, cn.c2s) == Drain(said, cn.c2s);
    SayingRests(said, cn.c2s);
  }

  /** DMA out of the segment, or staging into the DMA buffer, copies the block together with its padding. */
  lemma CopiedBegins(from: seq<byte>, to: seq<byte>, p: seq<byte>, i: nat, n: nat)
    requires Begins(from, p, i) && i <= NumBlocks(|p|) && Len(|p|, i) <= n <= |from| == |to|
    ensures Begins(Put(to, 0, Get(from, 0, n)), p, i)
  {
    BlocksTile(|p|, i);
  }

  lemma DmaBegins(from: seq<byte>, to: seq<byte>, p: seq<byte>, i: nat)
    requires |from| == |to| == SHM_SIZE && i <= NumBlocks(|p|) && Begins(from, p, i)
    ensures Begins(Put(to, 0, Get(from, 0, DmaLen(|p|, i))), p, i)
  {
    BlocksTile(|p|, i);
    CopiedBegins(from, to, p, i, DmaLen(|p|, i));
  }

  lemma TurnWhole(th: Thread, v: View)
    requires Turn(th, v)
    ensures v.rest != SBroken
  {
  }

  /** A server in the middle of a transfer has run all calls: its memory is what it seems to be. */
  lemma MidSettled(th: Thread, spc: ServerPc, mem: seq<byte>, cn: Conn)
    requires Turn(th, ViewOf(spc, cn)) && (spc.SStage? || spc.SCopy? || spc.SStore?)
    ensures AfterCalls(mem, cn.c2s) == mem
  {
    TurnWhole(th, ViewOf(spc, cn));
    assert Drain(spc, cn.c2s) == Drain(Work(spc), cn.c2s);
    if Work(spc).SStart? {
      BlockNoCalls(Work(spc).req, Work(spc).id, Work(spc).i, cn.c2s);
    }
    NothingPending(mem, cn.c2s);
  }

  /** Staging copies the block of the payload. */
  lemma StagedBegins(mem: seq<byte>, dmaBuf: seq<byte>, at: nat, size: nat, i: nat)
    requires at + size <= |mem| && |dmaBuf| == SHM_SIZE && i <= NumBlocks(size)
    ensures Begins(Put(dmaBuf, 0, Get(mem, at + Offset(i), Len(size, i))), Get(mem, at, size), i)
  {
    BlocksTile(size, i);
    GetGet(mem, at, size, Offset(i), Len(size, i));
  }

  lemma StageData(th: Thread, sv: Server, cn: Conn, seg: seq<byte>)
    requires RecvData(th, sv, cn, seg) && Shapes(th, sv, seg) && DmaMine(th, sv) && Turn(th, ViewOf(sv.pc, cn))
    requires th.op.kind == RawRecv && sv.pc.SStage?
    ensures RecvData(th, Served(sv, cn, seg, Choice(true, 0)).sv, cn, seg)
  {
    var dmaBuf := Put(sv.dmaBuf, 0, Get(sv.mem, th.op.remote + Offset(sv.pc.i), Len(th.op.size, sv.pc.i)));
    MidSettled(th, sv.pc, sv.mem, cn);
    StageRaw(th, ViewOf(sv.pc, cn), sv.pc, cn);
    Staged(sv, cn, seg, dmaBuf);
    StagedData(th, sv, cn, seg, dmaBuf);
  }

  lemma Staged(sv: Server, cn: Conn, seg: seq<byte>, dmaBuf: seq<byte>)
    requires sv.pc.SStage? && var at := sv.pc.req.ptr + Offset(sv.pc.i);
             dmaBuf == Put(sv.dmaBuf, 0, Get(sv.mem, at, Len(sv.pc.req.size, sv.pc.i)))
    ensures Served(sv, cn, seg, Choice(true, 0)).sv == sv.(pc := Work(sv.pc), dmaBuf := dmaBuf)
  {
  }

  lemma StagedData(th: Thread, sv: Server, cn: Conn, seg: seq<byte>, dmaBuf: seq<byte>)
    requires RecvData(th, sv, cn, seg) && Shapes(th, sv, seg) && DmaMine(th, sv) && th.op.form.Raw?
    requires th.op.kind == RawRecv && sv.pc.SStage? && AfterCalls(sv.mem, cn.c2s) == sv.mem
    requires dmaBuf == Put(sv.dmaBuf, 0, Get(sv.mem, th.op.remote + Offset(sv.pc.i), Len(th.op.size, sv.pc.i)))
    ensures RecvData(th, sv.(pc := Work(sv.pc), dmaBuf := dmaBuf), cn, seg)
  {
    StagedBegins(sv.mem, sv.dmaBuf, th.op.remote, th.op.size, sv.pc.i);
    RecvServed(th, sv, sv.(pc := Work(sv.pc), dmaBuf := dmaBuf), cn, seg, seg);
  }

  /** What a server step in private leaves to be checked for a receive. */
  lemma RecvServed(th: Thread, sv: Server, sv': Server, cn: Conn, seg: seq<byte>, seg': seq<byte>)
    requires RecvData(th, sv, cn, seg)
    requires sv' == sv.(pc := sv'.pc, dmaBuf := sv'.dmaBuf) && !sv.pc.SRun? && !sv'.pc.SRun?
    requires var p := Payload(th);
             && (sv'.pc.SStart? || sv'.pc.SDma? ==> Begins(sv'.dmaBuf, p, sv'.pc.i))
             && (sv'.pc.SSayFinish? ==> Begins(seg', p, sv'.pc.i))
             && (seg' == seg || (cn.s2c == [] && !th.pc.CDrain?))
    ensures RecvData(th, sv', cn, seg')
  {
  }

  lemma SendServed(th: Thread, sv: Server, sv': Server, cn: Conn, seg: seq<byte>)
    requires SendData(th, sv, cn, seg)
    requires sv' == sv.(pc := sv'.pc, dmaBuf := sv'.dmaBuf) && !sv.pc.SRun? && !sv'.pc.SRun?
    requires Stored(th, sv'.pc, cn.c2s) == Stored(th, sv.pc, cn.c2s) && !sv'.pc.SStore?
    requires sv'.pc.SCopy? || (sv'.pc.SSayFinish? && !Last(sv'.pc.req, sv'.pc.i)) ==>
               Begins(sv'.dmaBuf, Payload(th), sv'.pc.i)
    ensures SendData(th, sv', cn, seg)
  {
  }

  /** A server stages for a raw transfer. */
  lemma StageRaw(th: Thread, v: View, spc: ServerPc, cn: Conn)
    requires Turn(th, v) && v == ViewOf(spc, cn) && spc.SStage?
    ensures th.op.form.Raw?
  {
    assert Drain(spc, cn.c2s) == Drain(Work(spc), cn.c2s);
    BlockRests(Work(spc).req, Work(spc).id, Work(spc).i, cn.c2s);
  }

  /** Where a server comes to rest that waits for a block to start. */
  lemma BlockRests(req: Req, id: int, i: nat, q: seq<Packet>)
    ensures var rest := Drain(SStart(req, id, i), q);
            rest == SStart(req, id, i) || rest == SSayFinish(req, id, i) || rest == SBroken
  {
    if q != [] {
      var pc := Read(SStart(req, id, i), q[0]);
      BrokenStays(q[1..]);
      if pc.SDma? {
        assert Drain(pc, q[1..]) == Drain(SSayFinish(req, id, i), q[1..]);
      }
    }
  }

  lemma SendDmaData(th: Thread, sv: Server, cn: Conn, seg: seq<byte>)
    requires SendData(th, sv, cn, seg) && Shapes(th, sv, seg) && DmaMine(th, sv)
    requires th.op.kind == RawSend && sv.pc.SDma? && th.pc == CFinish(sv.pc.i)
    ensures SendData(th, Served(sv, cn, seg, Choice(true, 0)).sv, cn, seg)
  {
    var dmaBuf := Put(sv.dmaBuf, 0, Get(seg, 0, DmaLen(th.op.size, sv.pc.i)));
    DmaSent(sv, cn, seg, dmaBuf);
    DmaFilled(th, sv, cn, seg, dmaBuf);
  }

  lemma DmaFilled(th: Thread, sv: Server, cn: Conn, seg: seq<byte>, dmaBuf: seq<byte>)
    requires SendData(th, sv, cn, seg) && Shapes(th, sv, seg) && DmaMine(th, sv)
    requires th.op.kind == RawSend && sv.pc.SDma? && th.pc == CFinish(sv.pc.i)
    requires dmaBuf == Put(sv.dmaBuf, 0, Get(seg, 0, DmaLen(th.op.size, sv.pc.i)))
    ensures SendData(th, sv.(pc := Work(sv.pc), dmaBuf := dmaBuf), cn, seg)
  {
    DmaStored(th, sv.pc, cn.c2s);
    DmaBegins(seg, sv.dmaBuf, Payload(th), sv.pc.i);
    SendServed(th, sv, sv.(pc := Work(sv.pc), dmaBuf := dmaBuf), cn, seg);
  }

  /** DMA towards the server leaves everything but its position and its DMA buffer alone. */
  lemma DmaSent(sv: Server, cn: Conn, seg: seq<byte>, dmaBuf: seq<byte>)
    requires sv.pc.SDma? && sv.pc.req.kind == RawSend
    requires dmaBuf == Put(sv.dmaBuf, 0, Get(seg, 0, DmaLen(sv.pc.req.size, sv.pc.i)))
    ensures Served(sv, cn, seg, Choice(true, 0)).sv == sv.(pc := Work(sv.pc), dmaBuf := dmaBuf)
  {
  }

  lemma DmaStored(th: Thread, pc: ServerPc, c2s: seq<Packet>)
    requires pc.SDma? && pc.req == ReqOf(th.op) && th.op.kind == RawSend
    ensures Stored(th, Work(pc), c2s) == Stored(th, pc, c2s)
    ensures Work(pc).SCopy? || Work(pc).SSayFinish?
    ensures Work(pc).i == pc.i
  {
  }

  lemma RecvDmaData(th: Thread, sv: Server, cn: Conn, seg: seq<byte>)
    requires RecvData(th, sv, cn, seg) && Shapes(th, sv, seg) && DmaMine(th, sv)
    requires th.op.kind == RawRecv && sv.pc.SDma? && th.pc == CFinish(sv.pc.i) && cn.s2c == []
    ensures var l := Served(sv, cn, seg, Choice(true, 0)); RecvData(th, l.sv, cn, l.seg)
  {
    var seg' := Put(seg, 0, Get(sv.dmaBuf, 0, DmaLen(th.op.size, sv.pc.i)));
    DmaReceived(sv, cn, seg, seg');
    SegFilled(th, sv, cn, seg, seg');
  }

  lemma DmaReceived(sv: Server, cn: Conn, seg: seq<byte>, seg': seq<byte>)
    requires sv.pc.SDma? && sv.pc.req.kind == RawRecv
    requires seg' == Put(seg, 0, Get(sv.dmaBuf, 0, DmaLen(sv.pc.req.size, sv.pc.i)))
    ensures var l := Served(sv, cn, seg, Choice(true, 0)); l.sv == sv.(pc := Work(sv.pc)) && l.seg == seg'
  {
  }

  lemma SegFilled(th: Thread, sv: Server, cn: Conn, seg: seq<byte>, seg': seq<byte>)
    requires RecvData(th, sv, cn, seg) && Shapes(th, sv, seg) && DmaMine(th, sv)
    requires th.op.kind == RawRecv && sv.pc.SDma? && th.pc == CFinish(sv.pc.i) && cn.s2c == []
    requires seg' == Put(seg, 0, Get(sv.dmaBuf, 0, DmaLen(th.op.size, sv.pc.i)))
    ensures RecvData(th, sv.(pc := Work(sv.pc)), cn, seg')
  {
    DmaBegins(sv.dmaBuf, seg, Payload(th), sv.pc.i);
    RecvServed(th, sv, sv.(pc := Work(sv.pc)), cn, seg, seg');
  }

  lemma CopyMemory(mem0: seq<byte>, mem: seq<byte>, at: nat, p: seq<byte>, i: nat)
    requires i <= NumBlocks(|p|) && at + |p| <= |mem0| && mem == Put(mem0, at, Prefix(p, Offset(i)))
    ensures Put(mem, at + Offset(i), Block(p, i))
         == Put(mem0, at, Prefix(p, if i < NumBlocks(|p|) then Offset(i + 1) else |p|))
  {
    BlocksTile(|p|, i);
    PutBlock(mem0, at, p, i);
  }

  lemma CopyStores(th: Thread, pc: ServerPc, c2s: seq<Packet>) returns (stored: nat)
    requires pc.SCopy? && pc.req == ReqOf(th.op) && pc.i <= NumBlocks(th.op.size)
    ensures stored == if pc.i < NumBlocks(th.op.size) then Offset(pc.i + 1) else th.op.size
    ensures Stored(th, Work(pc), c2s) == stored
    ensures !Work(pc).SRun? && !Work(pc).SStore? && !Work(pc).SCopy?
    ensures Work(pc).SSayFinish? ==> Last(Work(pc).req, Work(pc).i)
  {
    stored := if pc.i < NumBlocks(th.op.size) then Offset(pc.i + 1) else th.op.size;
  }

  /** What a server has stored once it has copied another block out of its DMA buffer. */
  lemma CopyReaches(th: Thread, sv: Server, cn: Conn, seg: seq<byte>, mem: seq<byte>, stored: nat)
    requires SendData(th, sv, cn, seg) && Shapes(th, sv, seg) && DmaMine(th, sv) && sv.pc.SCopy?
    requires AfterCalls(sv.mem, cn.c2s) == sv.mem
    requires mem == Put(sv.mem, th.op.remote + Offset(sv.pc.i), Block(Payload(th), sv.pc.i))
    requires stored == if sv.pc.i < NumBlocks(th.op.size) then Offset(sv.pc.i + 1) else th.op.size
    ensures mem == Put(th.mem0, th.op.remote, Prefix(Payload(th), stored))
  {
    StoredMemory(th, sv, cn, seg);
    PayloadSize(th);
    CopiedMemory(th.mem0, sv.mem, mem, th.op.remote, Payload(th), th.op.size, sv.pc.i, stored);
  }

  lemma CopyData(th: Thread, sv: Server, sv': Server, cn: Conn, seg: seq<byte>)
    requires SendData(th, sv, cn, seg) && Shapes(th, sv, seg) && DmaMine(th, sv) && sv.pc.SCopy?
    requires sv' == sv.(pc := sv'.pc, mem := sv'.mem) && sv'.pc == Work(sv.pc)
    requires AfterCalls(sv.mem, cn.c2s) == sv.mem && AfterCalls(sv'.mem, cn.c2s) == sv'.mem
    requires sv'.mem == Put(sv.mem, th.op.remote + Offset(sv.pc.i), Block(Payload(th), sv.pc.i))
    ensures SendData(th, sv', cn, seg)
  {
    var stored := CopyStores(th, sv.pc, cn.c2s);
    CopyReaches(th, sv, cn, seg, sv'.mem, stored);
    MemServed(th, sv, sv', cn, seg, stored);
  }

  lemma StoredMemory(th: Thread, sv: Server, cn: Conn, seg: seq<byte>)
    requires SendData(th, sv, cn, seg) && sv.pc.SCopy? && AfterCalls(sv.mem, cn.c2s) == sv.mem
    ensures sv.mem == Put(th.mem0, th.op.remote, Prefix(Payload(th), Offset(sv.pc.i)))
  {
  }

  lemma CopiedMemory(mem0: seq<byte>, mem: seq<byte>, mem': seq<byte>, at: nat, p: seq<byte>, size: nat, i: nat,
                     stored: nat)
    requires |p| == size && i <= NumBlocks(size) && at + size <= |mem0|
    requires mem == Put(mem0, at, Prefix(p, Offset(i))) && mem' == Put(mem, at + Offset(i), Block(p, i))
    requires stored == if i < NumBlocks(size) then Offset(i + 1) else size
    ensures mem' == Put(mem0, at, Prefix(p, stored))
  {
    CopyMemory(mem0, mem, at, p, i);
  }

  lemma PayloadSize(th: Thread)
    requires th.op.kind == RawSend && th.op.local + th.op.size <= |th.buf|
    ensures |Payload(th)| == th.op.size
  {
  }

  /** What a server step that changes the memory leaves to be checked for a send. */
  lemma MemServed(th: Thread, sv: Server, sv': Server, cn: Conn, seg: seq<byte>, stored: nat)
    requires SendData(th, sv, cn, seg) && sv' == sv.(pc := sv'.pc, mem := sv'.mem) && !sv'.pc.SRun? && !sv'.pc.SStore?
    requires AfterCalls(sv'.mem, cn.c2s) == sv'.mem
    requires stored == Stored(th, sv'.pc, cn.c2s)
    requires sv'.mem == Put(th.mem0, th.op.remote, Prefix(Payload(th), stored))
    requires !sv'.pc.SCopy? && (sv'.pc.SSayFinish? ==> Last(sv'.pc.req, sv'.pc.i))
    ensures SendData(th, sv', cn, seg)
  {
  }

  lemma StoreData(th: Thread, sv: Server, cn: Conn, seg: seq<byte>)
    requires SendData(th, sv, cn, seg) && Shapes(th, sv, seg)
    requires sv.pc.SStore? && sv.pc.req == ReqOf(th.op) && th.op.kind == RawSend && Turn(th, ViewOf(sv.pc, cn))
    ensures SendData(th, sv.(pc := Work(sv.pc), mem := Put(sv.mem, th.op.remote, sv.pc.stored)), cn, seg)
  {
    var mem := Put(sv.mem, th.op.remote, sv.pc.stored);
    MidSettled(th, sv.pc, sv.mem, cn);
    MidSettled(th, sv.pc, mem, cn);
    PutWhole(th.mem0, sv.mem, th.op.remote, Payload(th));
    MemServed(th, sv, sv.(pc := Work(sv.pc), mem := mem), cn, seg, th.op.size);
  }

  /** A server step that leaves all memory alone: a table lookup, or zero bytes of TCP. */
  predicate Plain(pc: ServerPc) {
    pc.SUse? || (pc.STcpIn? && pc.req.size == 0) || (pc.STcpOut? && pc.req.size == 0)
  }

  lemma PlainStored(th: Thread, spc: ServerPc, cn: Conn)
    requires Turn(th, ViewOf(spc, cn)) && Plain(spc) && th.op.kind == RawSend
    ensures Stored(th, Work(spc), cn.c2s) == Stored(th, spc, cn.c2s)
  {
    if cn.c2s == [] && Work(spc) == SIdle {
      assert Drain(spc, cn.c2s) == SIdle;
    }
  }

  lemma PlainSendData(th: Thread, sv: Server, cn: Conn, seg: seq<byte>)
    requires SendData(th, sv, cn, seg) && Turn(th, ViewOf(sv.pc, cn)) && DmaMine(th, sv) && Plain(sv.pc)
    requires th.op.kind == RawSend && (sv.pc.STcpIn? ==> sv.pc.req == ReqOf(th.op) && |Payload(th)| == th.op.size)
    ensures SendData(th, sv.(pc := Work(sv.pc)), cn, seg)
  {
    PlainStored(th, sv.pc, cn);
  }

  lemma PlainRecvData(th: Thread, sv: Server, cn: Conn, seg: seq<byte>)
    requires RecvData(th, sv, cn, seg) && DmaMine(th, sv) && Plain(sv.pc) && th.op.kind == RawRecv
    ensures RecvData(th, sv.(pc := Work(sv.pc)), cn, seg)
  {
  }

  /** Running a call changes the memory into what it was settled to be. */
  lemma RunData(th: Thread, sv: Server, cn: Conn, seg: seq<byte>)
    requires AllData(th, sv, cn, seg) && Turn(th, ViewOf(sv.pc, cn)) && sv.pc.SRun?
    ensures AllData(th, Served(sv, cn, seg, Choice(true, 0)).sv, cn, seg)
  {
    if th.op.kind == RawSend {
      RunStored(th, sv.pc, cn);
    }
  }

  lemma RunStored(th: Thread, spc: ServerPc, cn: Conn)
    requires Turn(th, ViewOf(spc, cn)) && spc.SRun? && th.op.kind == RawSend
    ensures Stored(th, Work(spc), cn.c2s) == 0
  {
    if cn.c2s == [] && Work(spc) == SIdle {
      assert Drain(spc, cn.c2s) == SIdle;
    }
  }

  /** What local work leaves to be checked once the data facts are known. */
  lemma WorkFits(th: Thread, sv: Server, cn: Conn)
    requires Turn(th, ViewOf(sv.pc, cn)) && DmaMine(th, sv) && Silent(sv.pc)
    ensures Turn(th, ViewOf(Work(sv.pc), cn))
    ensures DmaMine(th, sv.(pc := Work(sv.pc)))
    ensures !Work(sv.pc).SBroken?
  {
    WorkView(sv.pc, cn);
    WorkTurn(th, ViewOf(sv.pc, cn), cn.c2s == [] && Work(sv.pc) == SIdle);
  }

  lemma RecvWorkData(th: Thread, sv: Server, cn: Conn, seg: seq<byte>)
    requires Session(th, sv, cn, seg) && Silent(sv.pc) && th.op.kind == RawRecv
    ensures var l := Served(sv, cn, seg, Choice(true, 0)); RecvData(th, l.sv, cn, l.seg)
  {
    if sv.pc.SStage? {
      StageData(th, sv, cn, seg);
    } else if sv.pc.SDma? {
      DmaMeetsFinish(th, sv, cn);
      RecvDmaData(th, sv, cn, seg);
    } else if sv.pc.SStore? {
      StoreMeetsSend(th, sv, cn);
    } else if sv.pc.SRun? {
      RunData(th, sv, cn, seg);
    } else {
      PlainRecvData(th, sv, cn, seg);
    }
  }

  lemma CopyWorkData(th: Thread, sv: Server, cn: Conn, seg: seq<byte>)
    requires SendData(th, sv, cn, seg) && Shapes(th, sv, seg) && DmaMine(th, sv) && sv.pc.SCopy?
    requires Turn(th, ViewOf(sv.pc, cn))
    ensures SendData(th, Served(sv, cn, seg, Choice(true, 0)).sv, cn, seg)
  {
    var b := Get(sv.dmaBuf, 0, Len(th.op.size, sv.pc.i));
    assert b == Block(Payload(th), sv.pc.i);
    var mem := Put(sv.mem, th.op.remote + Offset(sv.pc.i), b);
    MidSettled(th, sv.pc, sv.mem, cn);
    MidSettled(th, sv.pc, mem, cn);
    CopiedOut(sv, cn, seg, mem);
    CopyData(th, sv, sv.(pc := Work(sv.pc), mem := mem), cn, seg);
  }

  lemma CopiedOut(sv: Server, cn: Conn, seg: seq<byte>, mem: seq<byte>)
    requires sv.pc.SCopy? && var at := sv.pc.req.ptr + Offset(sv.pc.i);
             mem == Put(sv.mem, at, Get(sv.dmaBuf, 0, Len(sv.pc.req.size, sv.pc.i)))
    ensures Served(sv, cn, seg, Choice(true, 0)).sv == sv.(pc := Work(sv.pc), mem := mem)
  {
  }

  lemma SendWorkData(th: Thread, sv: Server, cn: Conn, seg: seq<byte>)
    requires Session(th, sv, cn, seg) && Silent(sv.pc) && th.op.kind == RawSend
    ensures var l := Served(sv, cn, seg, Choice(true, 0)); SendData(th, l.sv, cn, l.seg)
  {
    if sv.pc.SDma? {
      DmaMeetsFinish(th, sv, cn);
      SendDmaData(th, sv, cn, seg);
    } else if sv.pc.SCopy? {
      CopyWorkData(th, sv, cn, seg);
    } else if sv.pc.SStore? {
      StoreMeetsSend(th, sv, cn);
      StoreData(th, sv, cn, seg);
    } else if sv.pc.SRun? {
      RunData(th, sv, cn, seg);
    } else {
      if sv.pc.STcpIn? { StoreMeetsSend(th, sv, cn); }
      PlainSendData(th, sv, cn, seg);
    }
  }

  /** Which memories a server's local work can change, and that the sizes stay. */
  lemma WorkShapes(sv: Server, cn: Conn, seg: seq<byte>)
    requires Silent(sv.pc) && (sv.pc.SUse? ==> sv.pc.id in sv.shmMap)
    ensures var l := Served(sv, cn, seg, Choice(true, 0));
            && l.sv == sv.(pc := Work(sv.pc), mem := l.sv.mem, dmaBuf := l.sv.dmaBuf)
            && |l.sv.mem| == |sv.mem| && |l.sv.dmaBuf| == |sv.dmaBuf| && |l.seg| == |seg|
            && l.cn == cn && (!sv.pc.SDma? ==> l.seg == seg)
  {
  }

  lemma WorkKeeps(th: Thread, sv: Server, cn: Conn, seg: seq<byte>)
    requires Session(th, sv, cn, seg) && Silent(sv.pc)
    ensures var l := Served(sv, cn, seg, Choice(true, 0)); !l.sv.pc.SBroken? && Session(th, l.sv, l.cn, l.seg)
  {
    WorkFits(th, sv, cn);
    WorkShapes(sv, cn, seg);
    if th.op.kind == RawSend { SendWorkData(th, sv, cn, seg); } else { RecvWorkData(th, sv, cn, seg); }
  }

  // ----- speaking -----

  function Speech(sv: Server): Packet
    requires Saying(sv.pc)
  {
    Served(sv, Conn({}, [], []), [], Choice(true, 0)).cn.s2c[0]
  }

  /** A server that speaks has read everything. */
  lemma SayView(spc: ServerPc, cn: Conn, p: Packet)
    requires Saying(spc)
    ensures ViewOf(spc, cn).rest == if cn.c2s == [] then spc else SBroken
    ensures cn.c2s == [] ==>
              ViewOf(Said(spc), cn.(s2c := cn.s2c + [p])) ==
              View(Drain(Said(spc), []), true, Said(spc) == SIdle, cn.s2c + [p])
  {
    SayingRests(spc, cn.c2s);
  }

  /** Where a server comes to rest after it has spoken. */
  lemma SaidRests(pc: ServerPc)
    requires Saying(pc)
    ensures pc.SSayType? ==> Drain(Said(pc), []) == SMsg(pc.req, false)
    ensures pc.SSayOk? ==> Drain(Said(pc), []) == SStart(pc.req, pc.id, 0)
    ensures pc.SSayNg? && pc.req.size > 0 ==> Drain(Said(pc), []) == TcpPc(pc.req)
    ensures pc.SSayNg? && pc.req.size == 0 ==>
              Drain(Said(pc), []) == if pc.req.kind == RawSend then SSayAck(pc.req) else SIdle
    ensures pc.SSayFinish? ==> Drain(Said(pc), []) == AfterBlock(pc.req, pc.id, pc.i)
    ensures pc.SSayFinish? ==> (Drain(Said(pc), []) == SIdle <==> Said(pc) == SIdle)
    ensures pc.SSayAck? || pc.STcpOut? || pc.SSayAnswer? ==> Said(pc) == SIdle && Drain(Said(pc), []) == SIdle
  {
    if pc.SSayOk? {
      UseRests(pc.req, pc.id);
    } else if pc.SSayNg? && pc.req.size == 0 {
      TcpRests(pc.req);
    }
  }

  /** Its client waits for just the message that the server is about to write. */
  lemma SayWaited(th: Thread, v: View)
    requires Turn(th, v) && Saying(v.rest) && !v.rest.SSayAck? && !v.rest.STcpOut? && !v.rest.SSayAnswer?
    ensures v.s2c == [] && v.rest.req == ReqOf(th.op)
    ensures v.rest.SSayType? ==> th.pc == CHearVe
    ensures v.rest.SSayOk? ==> th.pc == CHearTry && v.rest.id == th.id
    ensures v.rest.SSayNg? ==> th.pc == CHearTry
    ensures v.rest.SSayFinish? ==> th.pc == CFinish(v.rest.i) && v.rest.id == th.id
  {
  }

  lemma SayMessageTurn(th: Thread, sv: Server, v: View)
    requires Turn(th, v) && Saying(sv.pc) && v.rest == sv.pc && v.quiet
    requires sv.pc.SSayType? || sv.pc.SSayOk? || sv.pc.SSayFinish?
    ensures Turn(th, View(Drain(Said(sv.pc), []), true, Said(sv.pc) == SIdle, v.s2c + [Speech(sv)]))
  {
    SayWaited(th, v);
    SaidRests(sv.pc);
    OneMore(v.s2c, Speech(sv));
  }

  lemma SayNgTurn(th: Thread, sv: Server, v: View)
    requires Turn(th, v) && sv.pc.SSayNg? && v.rest == sv.pc && v.quiet
    ensures Turn(th, View(Drain(Said(sv.pc), []), true, Said(sv.pc) == SIdle, v.s2c + [Speech(sv)]))
  {
    SayWaited(th, v);
    SaidRests(sv.pc);
    OneMore(v.s2c, Speech(sv));
  }

  lemma SayAckTurn(th: Thread, sv: Server, v: View)
    requires Turn(th, v) && sv.pc.SSayAck? && v.rest == sv.pc && v.quiet
    ensures Turn(th, View(SIdle, true, true, v.s2c + [Speech(sv)]))
  {
    OneMore(v.s2c, Speech(sv));
    if v.s2c != [] { OneMore(v.s2c[1..], Speech(sv)); }
  }

  lemma SayPayloadTurn(th: Thread, sv: Server, v: View)
    requires Turn(th, v) && sv.pc.STcpOut? && Saying(sv.pc) && v.rest == sv.pc && v.quiet
    requires |Get(sv.mem, sv.pc.req.ptr, sv.pc.req.size)| == sv.pc.req.size
    ensures Turn(th, View(SIdle, true, true, v.s2c + [Speech(sv)]))
  {
    OneMore(v.s2c, Speech(sv));
    if v.s2c != [] { OneMore(v.s2c[1..], Speech(sv)); }
  }

  lemma SayAnswerTurn(th: Thread, sv: Server, v: View)
    requires Turn(th, v) && sv.pc.SSayAnswer? && v.rest == sv.pc && v.quiet
    ensures Turn(th, View(SIdle, true, true, v.s2c + [Speech(sv)]))
  {
    OneMore(v.s2c, Speech(sv));
  }

  /** What a server says at the end of a TCP transfer may follow its dma_ng. */
  lemma SayEndTurn(th: Thread, sv: Server, v: View)
    requires Turn(th, v) && Saying(sv.pc) && v.rest == sv.pc && v.quiet
    requires sv.pc.SSayAck? || sv.pc.STcpOut? || sv.pc.SSayAnswer?
    requires sv.pc.STcpOut? ==> |Get(sv.mem, sv.pc.req.ptr, sv.pc.req.size)| == sv.pc.req.size
    ensures Turn(th, View(Drain(Said(sv.pc), []), true, Said(sv.pc) == SIdle, v.s2c + [Speech(sv)]))
  {
    SaidRests(sv.pc);
    if sv.pc.SSayAck? {
      SayAckTurn(th, sv, v);
    } else if sv.pc.SSayAnswer? {
      SayAnswerTurn(th, sv, v);
    } else {
      SayPayloadTurn(th, sv, v);
    }
  }

  /** The state a server speaks from tells where its client is. */
  lemma SayMeets(th: Thread, spc: ServerPc, v: View)
    requires Turn(th, v) && Saying(spc) && v.rest == spc
    ensures spc.SSayFinish? ==> th.pc == CFinish(spc.i)
    ensures th.pc.CFinish? ==> spc.SSayFinish?
    ensures th.pc != CHdr && !th.pc.CDrain?
    ensures spc.STcpOut? ==> th.op.kind == RawRecv && spc.req == ReqOf(th.op) && th.op.form.Raw?
    ensures spc.SSayAnswer? ==> th.op.kind == RawRecv
  {
  }

  lemma SpeechPayload(th: Thread, sv: Server)
    requires Saying(sv.pc) && (sv.pc.STcpOut? ==> sv.mem == th.mem0) && (sv.pc.STcpOut? ==> sv.pc.req == ReqOf(th.op))
    requires th.op.kind == RawRecv
    ensures Speech(sv).Data? ==> Speech(sv).bytes == Payload(th)
  {
  }

  lemma SaySendData(th: Thread, sv: Server, cn: Conn, seg: seq<byte>, p: Packet)
    requires SendData(th, sv, cn, seg) && DmaMine(th, sv) && Saying(sv.pc) && cn.c2s == [] && th.pc != CHdr
    requires th.op.kind == RawSend && !sv.pc.STcpOut? && !sv.pc.SSayAnswer?
    ensures SendData(th, sv.(pc := Said(sv.pc)), cn.(s2c := cn.s2c + [p]), seg)
  {
  }

  lemma SayRecvData(th: Thread, sv: Server, cn: Conn, seg: seq<byte>, p: Packet)
    requires RecvData(th, sv, cn, seg) && DmaMine(th, sv) && Saying(sv.pc) && cn.c2s == []
    requires th.op.kind == RawRecv && (p.Data? ==> p.bytes == Payload(th))
    requires sv.pc.SSayFinish? ==> th.pc == CFinish(sv.pc.i)
    requires th.pc.CFinish? ==> sv.pc.SSayFinish?
    requires !th.pc.CDrain?
    ensures RecvData(th, sv.(pc := Said(sv.pc)), cn.(s2c := cn.s2c + [p]), seg)
  {
  }

  lemma SayReadAll(th: Thread, spc: ServerPc, cn: Conn)
    requires Turn(th, ViewOf(spc, cn)) && Saying(spc)
    ensures cn.c2s == []
  {
    SayingRests(spc, cn.c2s);
  }

  lemma SayData(th: Thread, sv: Server, cn: Conn, seg: seq<byte>, p: Packet)
    requires Session(th, sv, cn, seg) && Saying(sv.pc) && p == Speech(sv)
    ensures cn.c2s == [] && AllData(th, sv.(pc := Said(sv.pc)), cn.(s2c := cn.s2c + [p]), seg)
  {
    SayReadAll(th, sv.pc, cn);
    SayMeets(th, sv.pc, ViewOf(sv.pc, cn));
    if th.op.kind == RawSend {
      SaySendData(th, sv, cn, seg, p);
    } else {
      SpeechPayload(th, sv);
      SayRecvData(th, sv, cn, seg, p);
    }
  }

  lemma SayKeeps(th: Thread, sv: Server, cn: Conn, seg: seq<byte>)
    requires Session(th, sv, cn, seg) && Saying(sv.pc)
    ensures !Said(sv.pc).SBroken?
    ensures Session(th, sv.(pc := Said(sv.pc)), cn.(s2c := cn.s2c + [Speech(sv)]), seg)
  {
    var p := Speech(sv);
    SayData(th, sv, cn, seg, p);
    SayView(sv.pc, cn, p);
    SayMeets(th, sv.pc, ViewOf(sv.pc, cn));
    if sv.pc.SSayType? || sv.pc.SSayOk? || sv.pc.SSayFinish? {
      SayMessageTurn(th, sv, ViewOf(sv.pc, cn));
    } else if sv.pc.SSayNg? {
      SayNgTurn(th, sv, ViewOf(sv.pc, cn));
    } else {
      SayEndTurn(th, sv, ViewOf(sv.pc, cn));
    }
    SayRelies(th, sv, cn, p);
  }

  /** dma_ok is only said about a segment that is attached. */
  lemma SayRelies(th: Thread, sv: Server, cn: Conn, p: Packet)
    requires Saying(sv.pc) && p == Speech(sv) && DmaMine(th, sv) && (Relies(th, cn) ==> th.id in sv.shmMap)
    ensures Relies(th, cn.(s2c := cn.s2c + [p])) ==> th.id in sv.shmMap
    ensures DmaMine(th, sv.(pc := Said(sv.pc)))
    ensures !Said(sv.pc).SBroken?
  {
  }

  // ----- the probe -----

  lemma TryMeets(th: Thread, sv: Server, cn: Conn)
    requires Turn(th, ViewOf(sv.pc, cn)) && sv.pc.STry?
    ensures th.pc.CHearTry? && cn.c2s == [] && cn.s2c == []
  {
    SayingRests(sv.pc, cn.c2s);
  }

  /** Attaching leads to dma_ok, failing to attach to dma_ng. */
  lemma TryTurn(th: Thread, spc: ServerPc, cn: Conn, req: Req, id: int)
    requires Turn(th, ViewOf(STry(req, id), cn)) && DmaMine(th, Server(true, STry(req, id), [], [], {}))
    requires spc == SSayOk(req, id) || spc == SSayNg(req)
    ensures Turn(th, ViewOf(spc, cn))
  {
    TryMeets(th, Server(true, STry(req, id), [], [], {}), cn);
    SayingRests(spc, []);
  }

  lemma TryData(th: Thread, sv: Server, sv': Server, cn: Conn, seg: seq<byte>)
    requires AllData(th, sv, cn, seg) && sv.pc.STry? && (sv'.pc.SSayOk? || sv'.pc.SSayNg?)
    requires sv' == sv.(pc := sv'.pc, shmMap := sv'.shmMap)
    ensures AllData(th, sv', cn, seg)
  {
  }

  lemma TryServed(sv: Server, cn: Conn, seg: seq<byte>, ch: Choice)
    requires sv.pc.STry?
    ensures var l := Served(sv, cn, seg, ch); var req, id := sv.pc.req, sv.pc.id;
            && l.cn == cn && l.seg == seg && l.sv == sv.(pc := l.sv.pc, shmMap := l.sv.shmMap)
            && sv.shmMap <= l.sv.shmMap
            && ((l.sv.pc == SSayOk(req, id) && id in l.sv.shmMap) || l.sv.pc == SSayNg(req))
  {
  }

  lemma TryKeeps(th: Thread, sv: Server, cn: Conn, seg: seq<byte>, ch: Choice)
    requires Session(th, sv, cn, seg) && sv.pc.STry?
    ensures var l := Served(sv, cn, seg, ch); !l.sv.pc.SBroken? && Session(th, l.sv, l.cn, l.seg)
  {
    var sv' := Served(sv, cn, seg, ch).sv;
    TryServed(sv, cn, seg, ch);
    TryTurn(th, sv'.pc, cn, sv.pc.req, sv.pc.id);
    TryData(th, sv, sv', cn, seg);
  }

  // ----- all together -----

  /** Whatever the server does, the session of the thread it works for goes on, and the server never breaks:
      neither an unknown segment nor an unexpected packet ever reaches it. */
  lemma ServeKeeps(th: Thread, sv: Server, cn: Conn, seg: seq<byte>, ch: Choice)
    requires Session(th, sv, cn, seg) && !sv.pc.SBroken? && (Reading(sv.pc) ==> cn.c2s != [])
    ensures var l := Served(sv, cn, seg, ch); !l.sv.pc.SBroken? && Session(th, l.sv, l.cn, l.seg)
  {
    if Reading(sv.pc) {
      ReadKeeps(th, sv, cn, seg);
    } else if Saying(sv.pc) {
      SayKeeps(th, sv, cn, seg);
    } else if sv.pc.STry? {
      TryKeeps(th, sv, cn, seg, ch);
    } else {
      WorkKeeps(th, sv, cn, seg);
    }
  }

  /** On a free connection the server only discards zero-byte receives and runs exception-free calls; its memory becomes
      what it was settled to be. */
  lemma FreeKeeps(sv: Server, cn: Conn, seg: seq<byte>, ch: Choice)
    requires Free(sv, cn) && !sv.pc.SBroken? && (Reading(sv.pc) ==> cn.c2s != [])
    ensures var l := Served(sv, cn, seg, ch);
            && !l.sv.pc.SBroken? && Free(l.sv, l.cn)
            && l.sv == sv.(pc := l.sv.pc, mem := l.sv.mem) && l.seg == seg && !sv.pc.SDma?
            && Settled(l.sv.pc, l.sv.mem, l.cn.c2s) == Settled(sv.pc, sv.mem, cn.c2s)
  {
    RestsEarly(sv.pc, cn.c2s);
    if Reading(sv.pc) {
      RestsEarly(Read(sv.pc, cn.c2s[0]), cn.c2s[1..]);
      ReadSettled(sv.pc, sv.mem, cn.c2s);
    }
  }
}
