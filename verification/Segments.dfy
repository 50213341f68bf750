/** The pool of shared segments: who owns what, what has been probed, and how many there are. */
module Segments {
  import opened Blocks
  import opened Wire
  import opened Transport
  import opened ServerSide
  import opened Invariants

  // ----- which steps hand a segment over -----

  predicate Picks(pc: ClientPc) {
    pc == CInside(Pick)
  }

  predicate Gives(pc: ClientPc) {
    pc.CInside? && pc.r.GiveBack?
  }

  /** Packets and copies hand nothing over. */
  predicate SameHands(pc: ClientPc, pc': ClientPc) {
    && (HasId(pc') <==> HasId(pc)) && (Owns(pc') <==> Owns(pc))
    && !Creating(pc') && !Creating(pc) && !At(pc', Pick) && !At(pc', Lookup)
    && !pc'.CAttach? && !pc'.CSayTry?
    && (Probing(pc') <==> Probing(pc) || pc.CSayTry?)
  }

  lemma WriteHands(th: Thread)
    requires Writes(th.pc, th.op)
    ensures SameHands(th.pc, AfterOut(th))
  {
  }

  lemma HearHands(th: Thread, p: Packet)
    requires Hears(th.pc, th.op) && !AfterIn(th, p).CBroken?
    ensures SameHands(th.pc, AfterIn(th, p))
  {
  }

  lemma LocalHands(l: Local)
    requires DoesIo(l.th.pc) && (Hears(l.th.pc, l.th.op) ==> l.cn.s2c != []) && InCall(Io(l).th.pc)
    ensures Io(l).th.id == l.th.id && SameHands(l.th.pc, Io(l).th.pc)
  {
    if Writes(l.th.pc, l.th.op) {
      WriteHands(l.th);
    } else if Hears(l.th.pc, l.th.op) {
      HearHands(l.th, l.cn.s2c[0]);
    }
  }

  lemma IoHands(c: Config, s: State, t: nat, ch: Choice)
    requires ConnsOk(s) && SessionsOk(s) && PoolOk(s) && CanClient(c, s, t, ch) && DoesIo(s.threads[t].pc)
    ensures var th := s.threads[t]; var th' := ThreadAfter(c, s, t, ch);
            th'.id == th.id && SameHands(th.pc, th'.pc)
  {
    IoShape(c, s, t, ch);
    var th := s.threads[t];
    LocalHands(Local(th, s.conns[th.op.node], SegOf(s, th.id)));
  }

  lemma TableHands(c: Config, s: State, t: nat, ch: Choice)
    requires CanClient(c, s, t, ch) && !DoesIo(s.threads[t].pc)
    ensures var th := s.threads[t]; var pc := th.pc; var th' := ThreadAfter(c, s, t, ch);
            && (!Picks(pc) && !pc.CCreate? ==> th'.id == th.id)
            && HandMove(pc, th'.pc, ch)
  {
    if s.threads[t].pc.CInside? {
      LeaveHands(c, s, s.threads[t], ch);
    } else {
      NextHands(c, s, s.threads[t], ch);
    }
  }

  predicate HandMove(pc: ClientPc, pc': ClientPc, ch: Choice) {
    && (Owns(pc') <==> Picks(pc) || Attaches(pc, ch) || (Owns(pc) && !Gives(pc)))
    && (HasId(pc') <==> Owns(pc') || Creates(pc, ch) || At(pc, Record))
    && (pc'.CAttach? <==> pc == CInside(Record))
  }

  lemma LeaveHands(c: Config, s: State, th: Thread, ch: Choice)
    requires th.pc.CInside?
    ensures HandMove(th.pc, Leave(c, s, th, th.pc.r, ch), ch)
  {
  }

  lemma NextHands(c: Config, s: State, th: Thread, ch: Choice)
    requires !th.pc.CInside? && !DoesIo(th.pc) && !th.pc.CIdle? && !th.pc.CBroken?
    ensures HandMove(th.pc, Next(c, s, th, ch), ch)
  {
  }

  // ----- the pool -----

  lemma PickedIsGone(pool: seq<int>, k: nat)
    requires k < |pool| && forall i, j :: 0 <= i < j < |pool| ==> pool[i] != pool[j]
    ensures var rest := pool[..k] + pool[k + 1..];
            && (forall i, j :: 0 <= i < j < |rest| ==> rest[i] != rest[j])
            && (forall id :: id in rest <==> id in pool && id != pool[k])
  {
    var rest := pool[..k] + pool[k + 1..];
    forall id ensures id in rest <==> id in pool && id != pool[k] {
      if id in pool && id != pool[k] {
        var j :| 0 <= j < |pool| && pool[j] == id;
        assert rest[if j < k then j else j - 1] == id;
      }
    }
  }

  /** The hand-over of a step in terms of the pool: a picked segment leaves it, a returned one joins it. */
  lemma PoolFrame(c: Config, s: State, t: nat, ch: Choice)
    requires PoolOk(s) && CanClient(c, s, t, ch)
    ensures var th := s.threads[t]; var th' := ThreadAfter(c, s, t, ch); var pool := PoolAfter(s, th);
            && (forall i, j :: 0 <= i < j < |pool| ==> pool[i] != pool[j])
            && (Picks(th.pc) ==>
                 th'.id in s.pool && th'.id !in pool && forall id :: id in pool <==> id in s.pool && id != th'.id)
            && (Gives(th.pc) ==> forall id :: id in pool <==> id in s.pool || id == th.id)
            && (!Picks(th.pc) && !Gives(th.pc) ==> pool == s.pool)
  {
    var th := s.threads[t];
    if Picks(th.pc) {
      PickedIsGone(s.pool, PickIndex(s.pool, s.usable, th.op.node));
    }
  }

  predicate Creates(pc: ClientPc, ch: Choice) {
    pc.CCreate? && ch.ok
  }

  predicate Attaches(pc: ClientPc, ch: Choice) {
    pc.CAttach? && ch.ok
  }

  /** A segment that cannot be attached is removed. */
  predicate Drops(pc: ClientPc, ch: Choice) {
    pc.CAttach? && !ch.ok
  }

  /** Ownership starts with a pick or an attach and ends with a return; nothing else moves a segment. */
  lemma Hands(c: Config, s: State, t: nat, ch: Choice)
    requires ConnsOk(s) && SessionsOk(s) && PoolOk(s) && CanClient(c, s, t, ch)
    ensures var th := s.threads[t]; var pc := th.pc; var th' := ThreadAfter(c, s, t, ch);
            && (!Picks(pc) && !Creates(pc, ch) ==> th'.id == th.id)
            && HandMove(pc, th'.pc, ch)
  {
    if DoesIo(s.threads[t].pc) {
      IoHands(c, s, t, ch);
    } else {
      TableHands(c, s, t, ch);
    }
  }

  lemma SegsGrow(c: Config, s: State, t: nat, ch: Choice)
    requires PoolOk(s) && CanClient(c, s, t, ch)
    ensures var pc := s.threads[t].pc; var segs := SegsAfter(c, s, t, ch); var id' := ThreadAfter(c, s, t, ch).id;
            && (forall id :: id in s.segs ==> id in segs || (Drops(pc, ch) && id == s.threads[t].id))
            && (forall id :: id in segs ==> |segs[id]| == SHM_SIZE)
            && (Creates(pc, ch) ==> id' in segs && id' !in s.segs)
            && (forall id :: id in segs && id !in s.segs ==> Creates(pc, ch) && id == id')
  {
  }

  /** Only the holder of dma_buf_list_lock touches the pool, so a pool found non-empty stays so until the pick. */
  lemma PickFinds(c: Config, s: State, t: nat, ch: Choice, u: nat)
    requires LocksOk(s) && PoolOk(s) && CanClient(c, s, t, ch)
    requires u in s.threads && At(if u == t then ThreadAfter(c, s, t, ch).pc else s.threads[u].pc, Pick)
    ensures PoolAfter(s, s.threads[t]) != []
  {
    var th := s.threads[t];
    assert Gives(th.pc) ==> |PoolAfter(s, th)| == |s.pool| + 1;
    if u != t {
      assert Holds(s.threads[u].pc, BufLock) && s.locks[BufLock] == u;
      assert !Holds(th.pc, BufLock);
    } else if DoesIo(th.pc) {
      IoTargets(th);
    }
  }

  /** What a step of thread t does to the thread and to the segments, the pool and the lists beside it. */
  ghost predicate PoolStep(s: State, s': State, t: nat, ch: Choice) {
    && t in s.threads && t in s'.threads && s'.threads == s.threads[t := s'.threads[t]]
    && var th := s.threads[t]; var pc := th.pc; var th' := s'.threads[t]; var id' := th'.id;
    && (!Picks(pc) && !Creates(pc, ch) ==> id' == th.id)
    && HandMove(pc, th'.pc, ch)
    && (forall id :: id in s.segs ==> id in s'.segs || (Drops(pc, ch) && id == th.id))
    && (forall id :: id in s'.segs ==> |s'.segs[id]| == SHM_SIZE)
    && (Creates(pc, ch) ==> id' in s'.segs && id' !in s.segs)
    && (forall i, j :: 0 <= i < j < |s'.pool| ==> s'.pool[i] != s'.pool[j])
    && (Picks(pc) ==> id' in s.pool && id' !in s'.pool && forall id :: id in s'.pool <==> id in s.pool && id != id')
    && (Gives(pc) ==> forall id :: id in s'.pool <==> id in s.pool || id == th.id)
    && (!Picks(pc) && !Gives(pc) ==> s'.pool == s.pool)
    && s'.attached == (if Attaches(pc, ch) then s.attached + {th.id} else s.attached)
    && s'.cleanup == (if pc == CInside(Record) then s.cleanup + [th.id] else s.cleanup)
  }

  lemma ClientPool(c: Config, s: State, t: nat, ch: Choice)
    requires LocksOk(s) && ConnsOk(s) && SessionsOk(s) && PoolOk(s) && CanClient(c, s, t, ch)
    ensures PoolOk(ClientStep(c, s, t, ch))
  {
    ClientPoolStep(c, s, ClientStep(c, s, t, ch), t, ch);
    ClientPicks(c, s, t, ch);
    PoolMoved(s, ClientStep(c, s, t, ch), t, ch);
  }

  lemma PoolTables(c: Config, s: State, t: nat, ch: Choice)
    requires CanClient(c, s, t, ch)
    ensures var s' := ClientStep(c, s, t, ch); var th := s.threads[t];
            && s'.threads == s.threads[t := ThreadAfter(c, s, t, ch)]
            && s'.segs == SegsAfter(c, s, t, ch) && s'.pool == PoolAfter(s, th)
            && s'.attached == (if Attaches(th.pc, ch) then s.attached + {th.id} else s.attached)
            && s'.cleanup == (if th.pc == CInside(Record) then s.cleanup + [th.id] else s.cleanup)
  {
  }

  lemma ClientPoolStep(c: Config, s: State, s': State, t: nat, ch: Choice)
    requires ConnsOk(s) && SessionsOk(s) && PoolOk(s) && CanClient(c, s, t, ch) && s' == ClientStep(c, s, t, ch)
    ensures PoolStep(s, s', t, ch)
  {
    PoolTables(c, s, t, ch);
    Hands(c, s, t, ch);
    SegsGrow(c, s, t, ch);
    PoolFrame(c, s, t, ch);
  }

  lemma ClientPicks(c: Config, s: State, t: nat, ch: Choice)
    requires LocksOk(s) && PoolOk(s) && CanClient(c, s, t, ch)
    ensures var s' := ClientStep(c, s, t, ch);
            forall u :: u in s'.threads && At(s'.threads[u].pc, Pick) ==> s'.pool != []
  {
    var s' := ClientStep(c, s, t, ch);
    forall u | u in s'.threads && At(s'.threads[u].pc, Pick) ensures s'.pool != [] {
      PickFinds(c, s, t, ch, u);
    }
  }

  lemma OwnIdOk(s: State, s': State, t: nat, ch: Choice)
    requires PoolOk(s) && PoolStep(s, s', t, ch)
    ensures IdOk(s', t)
  {
    assert IdOk(s, t);
  }

  lemma OtherIdOk(s: State, s': State, t: nat, ch: Choice, u: nat)
    requires PoolOk(s) && PoolStep(s, s', t, ch) && u in s.threads && u != t
    ensures IdOk(s', u)
  {
    assert IdOk(s, t) && IdOk(s, u) && s'.threads[u] == s.threads[u];
  }

  lemma IdsApart(s: State, s': State, t: nat, ch: Choice, u: nat, v: nat)
    requires PoolOk(s) && PoolStep(s, s', t, ch) && u in s'.threads && v in s'.threads && u != v
    requires HasId(s'.threads[u].pc) && HasId(s'.threads[v].pc)
    ensures s'.threads[u].id != s'.threads[v].id
  {
    assert IdOk(s, u) && IdOk(s, v);
  }

  lemma ListsMoved(s: State, s': State, t: nat, ch: Choice)
    requires PoolOk(s) && PoolStep(s, s', t, ch)
    ensures forall id :: id in s'.pool ==> id in s'.attached
    ensures forall id :: id in s'.attached ==> id in s'.segs && id in s'.cleanup
  {
    assert IdOk(s, t);
  }

  lemma PoolMoved(s: State, s': State, t: nat, ch: Choice)
    requires PoolOk(s) && PoolStep(s, s', t, ch)
    requires forall u :: u in s'.threads && At(s'.threads[u].pc, Pick) ==> s'.pool != []
    ensures PoolOk(s')
  {
    ListsMoved(s, s', t, ch);
    forall u | u in s'.threads ensures IdOk(s', u) {
      if u == t { OwnIdOk(s, s', t, ch); } else { OtherIdOk(s, s', t, ch, u); }
    }
    forall u, v | u in s'.threads && v in s'.threads && u != v && HasId(s'.threads[u].pc) && HasId(s'.threads[v].pc)
      ensures s'.threads[u].id != s'.threads[v].id
    {
      IdsApart(s, s', t, ch, u, v);
    }
  }

  // ----- nothing is lost -----

  lemma ClientOwned(c: Config, s: State, t: nat, ch: Choice)
    requires ConnsOk(s) && SessionsOk(s) && PoolOk(s) && OwnedOk(s) && CanClient(c, s, t, ch)
    ensures OwnedOk(ClientStep(c, s, t, ch))
  {
    ClientPoolStep(c, s, ClientStep(c, s, t, ch), t, ch);
    OwnedMoved(s, ClientStep(c, s, t, ch), t, ch);
  }

  /** Whoever else owns a segment keeps it, and the stepping thread keeps what it does not return. */
  lemma OwnerStays(s: State, s': State, t: nat, ch: Choice, id: int, u: nat)
    requires PoolOk(s) && PoolStep(s, s', t, ch) && OwnedBy(s, id, u) && id !in s'.pool
    ensures OwnedBy(s', id, u)
  {
    if u != t { assert s'.threads[u] == s.threads[u]; }
  }

  lemma OwnerMoved(s: State, s': State, t: nat, ch: Choice, id: int) returns (u: nat)
    requires PoolOk(s) && OwnedOk(s) && PoolStep(s, s', t, ch) && id in s'.attached && id !in s'.pool
    ensures OwnedBy(s', id, u)
  {
    if id in s.attached && id !in s.pool {
      u :| OwnedBy(s, id, u);
      OwnerStays(s, s', t, ch, id, u);
    } else {
      u := t;
    }
  }

  lemma OwnedMoved(s: State, s': State, t: nat, ch: Choice)
    requires PoolOk(s) && OwnedOk(s) && PoolStep(s, s', t, ch)
    ensures OwnedOk(s')
  {
    forall id | id in s'.attached && id !in s'.pool ensures exists u :: OwnedBy(s', id, u) {
      var u := OwnerMoved(s, s', t, ch, id);
    }
  }

  // ----- probes and verdicts -----

  predicate Records(pc: ClientPc) {
    pc.CInside? && pc.r.Verdict?
  }

  /** How a step moves a thread through a probe. */
  lemma ProbeHands(c: Config, s: State, t: nat, ch: Choice)
    requires ConnsOk(s) && SessionsOk(s) && PoolOk(s) && CanClient(c, s, t, ch)
    ensures var th := s.threads[t]; var pc := th.pc; var th' := ThreadAfter(c, s, t, ch);
            && th'.op == th.op
            && (Probing(th'.pc) <==> pc.CSayTry? || (Probing(pc) && !Records(pc)))
            && (th'.pc.CSayTry? ==> pc == CInside(Lookup) && (th.op.node, th.id) !in s.usable)
  {
    if DoesIo(s.threads[t].pc) {
      IoShape(c, s, t, ch);
      IoHands(c, s, t, ch);
    } else {
      TableProbes(c, s, t, ch);
    }
  }

  lemma TableProbes(c: Config, s: State, t: nat, ch: Choice)
    requires CanClient(c, s, t, ch) && !DoesIo(s.threads[t].pc)
    ensures var th := s.threads[t]; var pc := th.pc; var th' := ThreadAfter(c, s, t, ch);
            && th'.op == th.op && !pc.CSayTry?
            && (Probing(th'.pc) <==> Probing(pc) && !Records(pc))
            && (th'.pc.CSayTry? ==> pc == CInside(Lookup) && (th.op.node, th.id) !in s.usable)
  {
    if s.threads[t].pc.CInside? {
      LeaveProbes(c, s, s.threads[t], ch);
    } else {
      NextProbes(c, s, s.threads[t], ch);
    }
  }

  lemma LeaveProbes(c: Config, s: State, th: Thread, ch: Choice)
    requires th.pc.CInside?
    ensures var pc' := Leave(c, s, th, th.pc.r, ch);
            && (Probing(pc') <==> Probing(th.pc) && !Records(th.pc))
            && (pc'.CSayTry? ==> th.pc == CInside(Lookup) && (th.op.node, th.id) !in s.usable)
  {
  }

  lemma NextProbes(c: Config, s: State, th: Thread, ch: Choice)
    requires !th.pc.CInside? && !DoesIo(th.pc)
    ensures var pc' := Next(c, s, th, ch); (Probing(pc') <==> Probing(th.pc)) && !pc'.CSayTry?
  {
  }

  /** A verdict is recorded while the segment is still owned, and the server has it if it said so. */
  lemma VerdictHolds(s: State, t: nat)
    requires ConnsOk(s) && SessionsOk(s) && t in s.threads && s.threads[t].pc == CInside(Verdict(true))
    ensures var th := s.threads[t]; th.op.node in s.servers && th.id in s.servers[th.op.node].shmMap
  {
  }

  /** How a step moves thread t through ownership and probes. */
  predicate ProbeMove(s: State, s': State, t: nat, ch: Choice) {
    && t in s.threads && t in s'.threads && s'.threads == s.threads[t := s'.threads[t]]
    && var th := s.threads[t]; var pc := th.pc; var th' := s'.threads[t];
    && th'.op == th.op
    && (!Picks(pc) && !Creates(pc, ch) ==> th'.id == th.id)
    && (Owns(th'.pc) <==> Picks(pc) || Attaches(pc, ch) || (Owns(pc) && !Gives(pc)))
    && (Probing(th'.pc) <==> pc.CSayTry? || (Probing(pc) && !Records(pc)))
    && (th'.pc.CSayTry? ==> pc == CInside(Lookup) && (th.op.node, th.id) !in s.usable)
  }

  /** What the step does to the pool and to the tables of probes and verdicts. */
  ghost predicate ProbeTables(s: State, s': State, t: nat, ch: Choice)
    requires t in s.threads && t in s'.threads
  {
    && s'.servers == s.servers
    && var th := s.threads[t]; var pc := th.pc; var id' := s'.threads[t].id; var pair := (th.op.node, th.id);
    && (Picks(pc) ==> id' in s.pool && forall id :: id in s'.pool <==> id in s.pool && id != id')
    && (Gives(pc) ==> forall id :: id in s'.pool <==> id in s.pool || id == th.id)
    && (!Picks(pc) && !Gives(pc) ==> s'.pool == s.pool)
    && s'.attached == (if Attaches(pc, ch) then s.attached + {th.id} else s.attached)
    && s'.usable == (if Records(pc) && pair !in s.usable then s.usable[pair := pc.r.ok] else s.usable)
    && s'.probes == (if pc.CSayTry? then s.probes + [pair] else s.probes)
    && (Records(pc) && pc.r.ok ==> th.op.node in s.servers && th.id in s.servers[th.op.node].shmMap)
  }

  ghost predicate ProbeStep(s: State, s': State, t: nat, ch: Choice) {
    ProbeMove(s, s', t, ch) && ProbeTables(s, s', t, ch)
  }

  lemma VerdictsMoved(s: State, s': State, t: nat, ch: Choice)
    requires PoolOk(s) && ProbesOk(s) && ProbeStep(s, s', t, ch)
    ensures VerdictsOk(s')
  {
  }

  /** The pairs of pooled segments have their verdicts. */
  lemma PooledProbed(s: State, s': State, t: nat, ch: Choice)
    requires PoolOk(s) && ProbesOk(s) && ProbeStep(s, s', t, ch)
    ensures forall n, id :: (n, id) in s'.probes && id in s'.pool ==> (n, id) in s'.usable
  {
    forall n, id | (n, id) in s'.probes && id in s'.pool ensures (n, id) in s'.usable {
      var th := s.threads[t];
      if id !in s.pool {
        assert Gives(th.pc) && id == th.id;
      } else if th.pc.CSayTry? {
        assert id != th.id;
      }
    }
  }

  /** Each owner knows about all probes of its segment. */
  lemma OwnedProbed(s: State, s': State, t: nat, ch: Choice, u: nat, n: Node)
    requires PoolOk(s) && ProbesOk(s) && ProbeStep(s, s', t, ch)
    requires u in s'.threads && Owns(s'.threads[u].pc) && (n, s'.threads[u].id) in s'.probes
    ensures (n, s'.threads[u].id) in s'.usable || (Probing(s'.threads[u].pc) && n == s'.threads[u].op.node)
  {
    var th := s.threads[t];
    if u != t {
      assert th.pc.CSayTry? ==> s.threads[u].id != th.id;
    } else if Picks(th.pc) {
      assert (n, s'.threads[t].id) in s.usable;
    }
  }

  lemma ProbingMoved(s: State, s': State, t: nat, ch: Choice)
    requires PoolOk(s) && ProbesOk(s) && ProbeStep(s, s', t, ch)
    ensures ProbingOk(s')
  {
    PooledProbed(s, s', t, ch);
    forall u, n | u in s'.threads && Owns(s'.threads[u].pc) && (n, s'.threads[u].id) in s'.probes
      ensures (n, s'.threads[u].id) in s'.usable || (Probing(s'.threads[u].pc) && n == s'.threads[u].op.node)
    {
      OwnedProbed(s, s', t, ch, u, n);
    }
    UnderWay(s, s', t, ch);
  }

  lemma UnderWayUnjudged(s: State, s': State, t: nat, ch: Choice, u: nat)
    requires PoolOk(s) && ProbesOk(s) && ProbeStep(s, s', t, ch)
    requires u in s'.threads && (s'.threads[u].pc.CSayTry? || Probing(s'.threads[u].pc))
    ensures (s'.threads[u].op.node, s'.threads[u].id) !in s'.usable
  {
    if u != t {
      assert Records(s.threads[t].pc) ==> s.threads[u].id != s.threads[t].id;
    } else {
      OwnUnjudged(s, s', t, ch);
    }
  }

  lemma OwnUnjudged(s: State, s': State, t: nat, ch: Choice)
    requires ProbesOk(s) && ProbeStep(s, s', t, ch)
    requires s'.threads[t].pc.CSayTry? || Probing(s'.threads[t].pc)
    ensures (s'.threads[t].op.node, s'.threads[t].id) !in s'.usable
  {
  }

  lemma UnderWayRecorded(s: State, s': State, t: nat, ch: Choice, u: nat)
    requires PoolOk(s) && ProbesOk(s) && ProbeStep(s, s', t, ch)
    requires u in s'.threads && Probing(s'.threads[u].pc)
    ensures (s'.threads[u].op.node, s'.threads[u].id) in s'.probes
  {
  }

  /** A probe under way is on record, and its verdict is not. */
  lemma UnderWay(s: State, s': State, t: nat, ch: Choice)
    requires PoolOk(s) && ProbesOk(s) && ProbeStep(s, s', t, ch)
    ensures forall u :: u in s'.threads && (s'.threads[u].pc.CSayTry? || Probing(s'.threads[u].pc)) ==>
              (s'.threads[u].op.node, s'.threads[u].id) !in s'.usable
    ensures forall u :: u in s'.threads && Probing(s'.threads[u].pc) ==>
              (s'.threads[u].op.node, s'.threads[u].id) in s'.probes
  {
    forall u | u in s'.threads && (s'.threads[u].pc.CSayTry? || Probing(s'.threads[u].pc))
      ensures (s'.threads[u].op.node, s'.threads[u].id) !in s'.usable
    {
      UnderWayUnjudged(s, s', t, ch, u);
    }
    forall u | u in s'.threads && Probing(s'.threads[u].pc)
      ensures (s'.threads[u].op.node, s'.threads[u].id) in s'.probes
    {
      UnderWayRecorded(s, s', t, ch, u);
    }
  }

  lemma ClientProbeMove(c: Config, s: State, t: nat, ch: Choice)
    requires ConnsOk(s) && SessionsOk(s) && PoolOk(s) && CanClient(c, s, t, ch)
    ensures ProbeMove(s, ClientStep(c, s, t, ch), t, ch)
  {
    Hands(c, s, t, ch);
    ProbeHands(c, s, t, ch);
  }

  lemma TablesFrame(c: Config, s: State, t: nat, ch: Choice)
    requires CanClient(c, s, t, ch)
    ensures var s' := ClientStep(c, s, t, ch); var th := s.threads[t]; var pc := th.pc; var pair := (th.op.node, th.id);
            && s'.servers == s.servers && s'.threads == s.threads[t := ThreadAfter(c, s, t, ch)]
            && s'.pool == PoolAfter(s, th)
            && s'.attached == (if Attaches(pc, ch) then s.attached + {th.id} else s.attached)
            && s'.usable == (if Records(pc) && pair !in s.usable then s.usable[pair := pc.r.ok] else s.usable)
            && s'.probes == (if pc.CSayTry? then s.probes + [pair] else s.probes)
  {
  }

  lemma ClientProbeTables(c: Config, s: State, s': State, t: nat, ch: Choice)
    requires ConnsOk(s) && SessionsOk(s) && PoolOk(s) && CanClient(c, s, t, ch) && s' == ClientStep(c, s, t, ch)
    ensures ProbeTables(s, s', t, ch)
  {
    TablesFrame(c, s, t, ch);
    PoolFrame(c, s, t, ch);
    if s.threads[t].pc == CInside(Verdict(true)) {
      VerdictHolds(s, t);
    }
  }

  lemma ClientProbes(c: Config, s: State, t: nat, ch: Choice)
    requires ConnsOk(s) && SessionsOk(s) && PoolOk(s) && ProbesOk(s) && CanClient(c, s, t, ch)
    ensures ProbesOk(ClientStep(c, s, t, ch))
  {
    ClientProbeMove(c, s, t, ch);
    ClientProbeTables(c, s, ClientStep(c, s, t, ch), t, ch);
    VerdictsMoved(s, ClientStep(c, s, t, ch), t, ch);
    ProbingMoved(s, ClientStep(c, s, t, ch), t, ch);
  }

  // ----- how many segments there are -----

  predicate BusyAt(pc: ClientPc) {
    Owns(pc) || Creating(pc)
  }

  lemma BusyCount(threads: map<nat, Thread>, t: nat, th': Thread)
    requires t in threads
    ensures |Busy(threads[t := th'])|
         == |Busy(threads)| + (if BusyAt(th'.pc) then 1 else 0) - (if BusyAt(threads[t].pc) then 1 else 0)
  {
    var others := Busy(threads) - {t};
    assert Busy(threads) == if BusyAt(threads[t].pc) then others + {t} else others;
    assert Busy(threads[t := th']) == if BusyAt(th'.pc) then others + {t} else others;
  }

  predicate Enters(s: State, pc: ClientPc, ch: Choice) {
    pc == CInside(GetFree) && !FindsFree(s, ch) && (s.needCleanup || ch.ok)
  }

  predicate Fails(pc: ClientPc, ch: Choice) {
    (pc.CCreate? || pc.CAttach?) && !ch.ok
  }

  /** A thread becomes busy when it picks a segment or starts to create one, and stops when it gives it back or
      fails. */
  lemma BusyHands(c: Config, s: State, t: nat, ch: Choice)
    requires ConnsOk(s) && SessionsOk(s) && PoolOk(s) && CanClient(c, s, t, ch)
    ensures BusyMove(s, s.threads[t].pc, ThreadAfter(c, s, t, ch).pc, ch)
  {
    if DoesIo(s.threads[t].pc) {
      IoHands(c, s, t, ch);
    } else {
      TableBusy(c, s, t, ch);
    }
  }

  predicate BusyMove(s: State, pc: ClientPc, pc': ClientPc, ch: Choice) {
    && (BusyAt(pc') <==> Picks(pc) || Enters(s, pc, ch) || (BusyAt(pc) && !Gives(pc) && !Fails(pc, ch)))
    && (Picks(pc) || Enters(s, pc, ch) ==> !BusyAt(pc)) && (Gives(pc) || Fails(pc, ch) ==> BusyAt(pc))
  }

  lemma LeaveBusy(c: Config, s: State, th: Thread, ch: Choice)
    requires th.pc.CInside?
    ensures BusyMove(s, th.pc, Leave(c, s, th, th.pc.r, ch), ch)
  {
  }

  lemma NextBusy(c: Config, s: State, th: Thread, ch: Choice)
    requires !th.pc.CInside? && !DoesIo(th.pc) && !th.pc.CIdle? && !th.pc.CBroken?
    ensures BusyMove(s, th.pc, Next(c, s, th, ch), ch)
  {
  }

  lemma TableBusy(c: Config, s: State, t: nat, ch: Choice)
    requires CanClient(c, s, t, ch) && !DoesIo(s.threads[t].pc)
    ensures BusyMove(s, s.threads[t].pc, ThreadAfter(c, s, t, ch).pc, ch)
  {
    if s.threads[t].pc.CInside? {
      LeaveBusy(c, s, s.threads[t], ch);
    } else {
      NextBusy(c, s, s.threads[t], ch);
    }
  }

  lemma PoolCount(s: State, th: Thread)
    requires th.pc == CInside(Pick) ==> s.pool != []
    ensures |PoolAfter(s, th)| == |s.pool| + (if Gives(th.pc) then 1 else 0) - (if Picks(th.pc) then 1 else 0)
  {
  }

  lemma PeakFrame(c: Config, s: State, t: nat, ch: Choice)
    requires CanClient(c, s, t, ch)
    ensures var s' := ClientStep(c, s, t, ch); var busy := |Busy(s'.threads)|;
            && s'.pool == PoolAfter(s, s.threads[t])
            && s'.threads == s.threads[t := ThreadAfter(c, s, t, ch)]
            && s'.peak == (if busy > s.peak then busy else s.peak)
            && s'.failed == (s.failed || Fails(s.threads[t].pc, ch))
  {
  }

  lemma ClientBound(c: Config, s: State, t: nat, ch: Choice)
    requires ConnsOk(s) && SessionsOk(s) && PoolOk(s) && BoundOk(s) && CanClient(c, s, t, ch)
    ensures BoundOk(ClientStep(c, s, t, ch))
  {
    PeakFrame(c, s, t, ch);
    BusyHands(c, s, t, ch);
    BusyCount(s.threads, t, ThreadAfter(c, s, t, ch));
    PoolCount(s, s.threads[t]);
  }

  // ----- server steps and new calls -----

  /** A server step changes its own record, its own connection, and the segment of the transfer it serves. */
  lemma ServeFrame(c: Config, s: State, n: Node, ch: Choice)
    requires CanServe(c, s, n)
    ensures var s' := ServeStep(c, s, n, ch); var pc := s.servers[n].pc;
            var l := Served(s.servers[n], s.conns[n], SegOf(s, DmaId(pc)), ch);
            && s'.threads == s.threads && s'.locks == s.locks && s'.pool == s.pool && s'.usable == s.usable
            && s'.cleanup == s.cleanup && s'.attached == s.attached && s'.probes == s.probes
            && s'.peak == s.peak && s'.failed == s.failed
            && s'.servers == s.servers[n := l.sv] && s'.conns == s.conns[n := l.cn]
            && s'.segs == (if pc.SDma? && pc.id in s.segs then s.segs[pc.id := l.seg] else s.segs)
            && s.servers[n].shmMap <= l.sv.shmMap && |l.sv.mem| == |s.servers[n].mem|
            && l.cn.holder == s.conns[n].holder && |l.seg| == |SegOf(s, DmaId(pc))|
  {
  }
}
