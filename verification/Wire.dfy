/** What travels on a connection, and the server side of raw transfers and remote calls as an automaton. */
module Wire {
  import opened Blocks

  datatype DmaMsg = IsVe | IsVeYes | IsVeNo | UseTcpip | TryDma | DmaOk | DmaNg | UseDma | StartDma | FinishDma

  datatype Kind = RawSend | RawRecv

  /** One packet is what one mywrite sends and one myread expects; a zero-byte write sends none. Call is the whole
      request of a remote call, Answer its whole reply; an exception-free call is not answered. The function called
      leaves bytes at address at of the server's memory. */
  datatype Packet =
    | Hdr(kind: Kind, size: nat)
    | Addr(ptr: nat)
    | Msg(m: DmaMsg)
    | ShmId(id: int)
    | Data(bytes: seq<byte>)
    | Ack
    | Call(answered: bool, at: nat, bytes: seq<byte>)
    | Answer

  datatype Req = Req(kind: Kind, size: nat, ptr: nat)

  /** Where a server stands in handle_exrpc_process.
      Reading states wait for a packet, saying states write one, the rest are local work. */
  datatype ServerPc =
    | SIdle
    | SAddr(kind: Kind, size: nat)
    | SMsg(req: Req, first: bool)
    | SSayType(req: Req)
    | STryId(req: Req)
    | STry(req: Req, id: int)
    | SSayOk(req: Req, id: int)
    | SSayNg(req: Req)
    | SUseId(req: Req)
    | SUse(req: Req, id: int)
    | SStage(req: Req, id: int, i: nat)
    | SStart(req: Req, id: int, i: nat)
    | SDma(req: Req, id: int, i: nat)
    | SSayFinish(req: Req, id: int, i: nat)
    | SCopy(req: Req, id: int, i: nat)
    | STcpIn(req: Req)
    | SStore(req: Req, stored: seq<byte>)
    | SSayAck(req: Req)
    | STcpOut(req: Req)
    | SRun(answered: bool, at: nat, bytes: seq<byte>)
    | SSayAnswer
    | SBroken

  /** The server has no whole block left after block i. */
  predicate Last(req: Req, i: nat) {
    i >= NumBlocks(req.size)
  }

  /** First state of block i: receiving stages the data before it waits for start_dma. */
  function BlockPc(req: Req, id: int, i: nat): ServerPc {
    if req.kind == RawSend then SStart(req, id, i) else SStage(req, id, i)
  }

  function TcpPc(req: Req): ServerPc {
    if req.kind == RawSend then STcpIn(req) else STcpOut(req)
  }

  /** States that wait for a packet. Reading zero bytes never waits. */
  predicate Reading(pc: ServerPc) {
    match pc
    case SIdle | SAddr(_, _) | SMsg(_, _) | STryId(_) | SUseId(_) | SStart(_, _, _) => true
    case STcpIn(req) => req.size > 0
    case _ => false
  }

  /** The state after packet p is read; a packet of the wrong shape desynchronizes the stream. */
  function Read(pc: ServerPc, p: Packet): ServerPc {
    match pc
    case SIdle => if p.Hdr? then SAddr(p.kind, p.size) else if p.Call? then SRun(p.answered, p.at, p.bytes) else SBroken
    case SAddr(kind, size) => if p.Addr? then SMsg(Req(kind, size, p.ptr), true) else SBroken
    case SMsg(req, first) =>
      if !p.Msg? then SBroken
      else if p.m == IsVe && first then SSayType(req)
      else if p.m == TryDma then STryId(req)
      else if p.m == UseDma then SUseId(req)
      else TcpPc(req)
    case STryId(req) => if p.ShmId? then STry(req, p.id) else SBroken
    case SUseId(req) => if p.ShmId? then SUse(req, p.id) else SBroken
    case SStart(req, id, i) => if p.Msg? then SDma(req, id, i) else SBroken
    case STcpIn(req) => if p.Data? && |p.bytes| == req.size then SStore(req, p.bytes) else SBroken
    case _ => SBroken
  }

  /** Local work with one outcome: memcpy, DMA, table lookup of an id that is there, zero-byte I/O. */
  predicate Silent(pc: ServerPc) {
    match pc
    case SUse(_, _) | SStage(_, _, _) | SDma(_, _, _) | SCopy(_, _, _) | SStore(_, _) | SRun(_, _, _) => true
    case STcpIn(req) => req.size == 0
    case STcpOut(req) => req.size == 0
    case _ => false
  }

  function Work(pc: ServerPc): ServerPc
    requires Silent(pc)
  {
    match pc
    case SUse(req, id) => BlockPc(req, id, 0)
    case SStage(req, id, i) => SStart(req, id, i)
    case SDma(req, id, i) => if req.kind == RawSend && Last(req, i) then SCopy(req, id, i) else SSayFinish(req, id, i)
    case SCopy(req, id, i) => if Last(req, i) then SSayFinish(req, id, i) else SStart(req, id, i + 1)
    case SStore(req, _) => SSayAck(req)
    case STcpIn(req) => SStore(req, [])
    case STcpOut(_) => SIdle
    case SRun(answered, _, _) => if answered then SSayAnswer else SIdle
  }

  predicate Saying(pc: ServerPc) {
    match pc
    case SSayType(_) | SSayOk(_, _) | SSayNg(_) | SSayFinish(_, _, _) | SSayAck(_) | SSayAnswer => true
    case STcpOut(req) => req.size > 0
    case _ => false
  }

  /** The state after a saying state has written its packet. */
  function Said(pc: ServerPc): ServerPc
    requires Saying(pc)
  {
    match pc
    case SSayType(req) => SMsg(req, false)
    case SSayOk(req, id) => BlockPc(req, id, 0)
    case SSayNg(req) => TcpPc(req)
    case SSayFinish(req, id, i) =>
      if Last(req, i) then SIdle else if req.kind == RawSend then SCopy(req, id, i) else SStage(req, id, i + 1)
    case SSayAck(_) | STcpOut(_) | SSayAnswer => SIdle
  }

  /** In one call a server says what it is when it is asked first, and not again. */
  lemma SaysTypeOnce(req: Req, first: bool, m: DmaMsg)
    ensures Read(SMsg(req, first), Msg(m)) == SSayType(req) <==> m == IsVe && first
    ensures Said(SSayType(req)) == SMsg(req, false)
  {
  }

  /** Steps a server can still take before it reads or ends: bounds work between packets. */
  function WorkLeft(pc: ServerPc): (r: nat)
    ensures r < 8
  {
    match pc
    case STry(_, _) => 5
    case SDma(_, _, _) => 5
    case SCopy(req, _, i) => if Last(req, i) then 4 else 1
    case SSayFinish(_, _, _) => 3
    case SSayOk(_, _) | SSayNg(_) | SUse(_, _) => 4
    case STcpIn(req) => if req.size == 0 then 3 else 0
    case SSayType(_) | SSayAck(_) | SStage(_, _, _) | SSayAnswer => 1
    case SStore(_, _) | SRun(_, _, _) => 2
    case STcpOut(_) => 1
    case _ => 0
  }

  lemma WorkShrinks(pc: ServerPc)
    ensures Silent(pc) ==> WorkLeft(Work(pc)) < WorkLeft(pc)
    ensures Saying(pc) ==> WorkLeft(Said(pc)) < WorkLeft(pc)
    ensures pc.STry? ==>
              WorkLeft(SSayOk(pc.req, pc.id)) < WorkLeft(pc) && WorkLeft(SSayNg(pc.req)) < WorkLeft(pc)
  {
  }

  /** The state in which the server comes to rest when it reads all of q and does its local work. */
  function Drain(pc: ServerPc, q: seq<Packet>): ServerPc
    decreases |q|, WorkLeft(pc)
  {
    if Silent(pc) then Drain(Work(pc), q)
    else if q == [] then pc
    else if Reading(pc) then Drain(Read(pc, q[0]), q[1..])
    else SBroken
  }

  /** Writing one more packet moves the resting state by that packet. */
  lemma {:induction false} DrainAppend(pc: ServerPc, q: seq<Packet>, p: Packet)
    ensures Drain(pc, q + [p]) == Drain(Drain(pc, q), [p])
    decreases |q|, WorkLeft(pc)
  {
    if Silent(pc) {
      DrainAppend(Work(pc), q, p);
    } else if q == [] {
      assert [] + [p] == [p];
    } else if Reading(pc) {
      assert (q + [p])[1..] == q[1..] + [p];
      DrainAppend(Read(pc, q[0]), q[1..], p);
    }
  }

  /** A server that must still speak before reading can only be at rest with nothing queued. */
  lemma SayingRests(pc: ServerPc, q: seq<Packet>)
    requires !Silent(pc) && !Reading(pc)
    ensures Drain(pc, q) == if q == [] then pc else SBroken
  {
  }

  // ----- memory and pending calls -----

  predicate NoCalls(q: seq<Packet>) {
    forall k :: 0 <= k < |q| ==> !q[k].Call?
  }

  /** A memory once the calls in a queue have run. */
  function AfterCalls(mem: seq<byte>, q: seq<Packet>): (r: seq<byte>)
    ensures |r| == |mem|
    decreases |q|
  {
    if q == [] then mem
    else AfterCalls(if q[0].Call? then Put(mem, q[0].at, q[0].bytes) else mem, q[1..])
  }

  /** The memory of a server once it has run the calls that it has been sent. */
  function Settled(pc: ServerPc, mem: seq<byte>, q: seq<Packet>): (r: seq<byte>)
    ensures |r| == |mem|
  {
    AfterCalls(if pc.SRun? then Put(mem, pc.at, pc.bytes) else mem, q)
  }

  lemma {:induction false} CallsAppend(mem: seq<byte>, q: seq<Packet>, p: Packet)
    ensures AfterCalls(mem, q + [p]) ==
            if p.Call? then Put(AfterCalls(mem, q), p.at, p.bytes) else AfterCalls(mem, q)
    decreases |q|
  {
    if q == [] {
      assert [] + [p] == [p] && [p][1..] == [];
    } else {
      assert (q + [p])[1..] == q[1..] + [p];
      CallsAppend(if q[0].Call? then Put(mem, q[0].at, q[0].bytes) else mem, q[1..], p);
    }
  }

  lemma {:induction false} NothingPending(mem: seq<byte>, q: seq<Packet>)
    requires NoCalls(q)
    ensures AfterCalls(mem, q) == mem
    decreases |q|
  {
    if q != [] {
      NothingPending(mem, q[1..]);
    }
  }

  /** Reading a packet settles nothing that was not to come. */
  lemma ReadSettled(pc: ServerPc, mem: seq<byte>, q: seq<Packet>)
    requires Reading(pc) && q != [] && !Read(pc, q[0]).SBroken?
    ensures Settled(Read(pc, q[0]), mem, q[1..]) == Settled(pc, mem, q)
  {
  }

  lemma BrokenStays(q: seq<Packet>)
    ensures Drain(SBroken, q) == SBroken
  {
  }

  /** A server that has read the header of a transfer has no call behind it, up to the end of the transfer. */
  lemma BlockNoCalls(req: Req, id: int, i: nat, q: seq<Packet>)
    requires Drain(SStart(req, id, i), q) != SBroken
    ensures NoCalls(q)
  {
    if q != [] {
      var pc := Read(SStart(req, id, i), q[0]);
      BrokenStays(q[1..]);
      if pc.SDma? {
        assert Drain(pc, q[1..]) == Drain(SSayFinish(req, id, i), q[1..]);
      }
    }
  }
}
