/** What holds in every reachable state of the transport, and the steps that keep it. */
module Invariants {
  import opened Blocks
  import opened Transport
  import opened ClientSide

  /** A mutex is held exactly by the thread that is inside one of its regions. */
  ghost predicate LocksOk(s: State) {
    && (forall t, l :: t in s.threads && Holds(s.threads[t].pc, l) ==> l in s.locks && s.locks[l] == t)
    && (forall l :: l in s.locks ==> s.locks[l] in s.threads && Holds(s.threads[s.locks[l]].pc, l))
  }

  /** A thread has its connection, and holds it while its call uses it. */
  ghost predicate ThreadOk(s: State, t: nat)
    requires t in s.threads
  {
    var th := s.threads[t];
    && !th.pc.CBroken?
    && (!th.pc.CIdle? ==> ValidOp(s.servers, th.op, th.buf))
    && (th.pc.CLockConn? || InCall(th.pc) ==> th.op.node in s.conns)
    && (InCall(th.pc) ==> s.conns[th.op.node].holder == {t})
  }

  /** A pooled connection is held by exactly the thread whose call uses it. */
  ghost predicate ConnsOk(s: State) {
    && (forall n :: n in s.conns ==> n in s.servers)
    && (forall t :: t in s.threads ==> ThreadOk(s, t))
    && (forall n, t :: n in s.conns && t in s.conns[n].holder ==>
        t in s.threads && InCall(s.threads[t].pc) && s.threads[t].op.node == n)
  }

  /** Every held connection carries one well-behaved transfer; every free one is at rest. */
  ghost predicate SessionsOk(s: State)
    requires ConnsOk(s)
  {
    && (forall t :: t in s.threads && InCall(s.threads[t].pc) ==>
        var th := s.threads[t]; Session(th, s.servers[th.op.node], s.conns[th.op.node], SegOf(s, th.id)))
    && (forall n :: n in s.conns && s.conns[n].holder == {} ==> Free(s.servers[n], s.conns[n]))
    && (forall n :: n in s.servers ==> !s.servers[n].pc.SBroken?)
    && (forall n :: n in s.servers && n !in s.conns ==> s.servers[n].pc.SIdle? && |s.servers[n].dmaBuf| == SHM_SIZE)
  }

  /** The thread knows the id of a segment that nobody else may touch. */
  predicate HasId(pc: ClientPc) {
    Owns(pc) || At(pc, Record) || pc.CAttach?
  }

  /** A segment that a thread knows exists and is not in the pool; the thread owns it once it is attached. */
  ghost predicate IdOk(s: State, t: nat)
    requires t in s.threads
  {
    var th := s.threads[t];
    HasId(th.pc) ==>
      && th.id in s.segs && th.id !in s.pool
      && (Owns(th.pc) <==> th.id in s.attached)
      && (th.pc.CAttach? ==> th.id in s.cleanup)
  }

  /** Each attached segment is in the pool exactly once or with exactly one thread. */
  ghost predicate PoolOk(s: State) {
    && (forall i, j :: 0 <= i < j < |s.pool| ==> s.pool[i] != s.pool[j])
    && (forall id :: id in s.pool ==> id in s.attached)
    && (forall id :: id in s.attached ==> id in s.segs && id in s.cleanup)
    && (forall id :: id in s.segs ==> |s.segs[id]| == SHM_SIZE)
    && (forall t :: t in s.threads ==> IdOk(s, t))
    && (forall t, u :: t in s.threads && u in s.threads && t != u ==>
        HasId(s.threads[t].pc) && HasId(s.threads[u].pc) ==> s.threads[t].id != s.threads[u].id)
    && (forall t :: t in s.threads && At(s.threads[t].pc, Pick) ==> s.pool != [])
  }

  ghost predicate OwnedBy(s: State, id: int, t: nat) {
    t in s.threads && Owns(s.threads[t].pc) && s.threads[t].id == id
  }

  /** Nothing attached is lost: what is not in the pool is owned by a thread. */
  ghost predicate OwnedOk(s: State) {
    forall id :: id in s.attached && id !in s.pool ==> exists t :: OwnedBy(s, id, t)
  }

  /** Between try_dma and the recorded verdict. */
  predicate Probing(pc: ClientPc) {
    pc.CTryId? || pc.CHearTry? || At(pc, Verdict(true)) || At(pc, Verdict(false))
  }

  /** The client's verdicts agree with the servers, and no pair is probed twice. */
  ghost predicate VerdictsOk(s: State) {
    && (forall n, id :: (n, id) in s.usable ==> (n, id) in s.probes)
    && (forall n, id :: (n, id) in s.usable && s.usable[(n, id)] ==> n in s.servers && id in s.servers[n].shmMap)
    && (forall i, j :: 0 <= i < j < |s.probes| ==> s.probes[i] != s.probes[j])
    && (forall n, id :: (n, id) in s.probes ==> id in s.attached)
  }

  /** A probe without a verdict is under way, by the one thread that owns the segment. */
  ghost predicate ProbingOk(s: State) {
    && (forall n, id :: (n, id) in s.probes && id in s.pool ==> (n, id) in s.usable)
    && (forall t :: t in s.threads && (s.threads[t].pc.CSayTry? || Probing(s.threads[t].pc)) ==>
        (s.threads[t].op.node, s.threads[t].id) !in s.usable)
    && (forall t, n :: t in s.threads && Owns(s.threads[t].pc) && (n, s.threads[t].id) in s.probes ==>
        (n, s.threads[t].id) in s.usable || (Probing(s.threads[t].pc) && n == s.threads[t].op.node))
    && (forall t :: t in s.threads && Probing(s.threads[t].pc) ==> (s.threads[t].op.node, s.threads[t].id) in s.probes)
  }

  ghost predicate ProbesOk(s: State) {
    VerdictsOk(s) && ProbingOk(s)
  }

  /** No more segments exist or are being made than the largest number of transfers ever in need of one. */
  ghost predicate BoundOk(s: State) {
    && |s.pool| + |Busy(s.threads)| <= s.peak
    && (!s.failed ==> |s.pool| + |Busy(s.threads)| == s.peak)
  }

  ghost predicate Inv(s: State) {
    LocksOk(s) && ConnsOk(s) && SessionsOk(s) && PoolOk(s) && OwnedOk(s) && ProbesOk(s) && BoundOk(s)
  }

  // ----- mutexes -----

  /** The locks of one thread change hands as its program counter says. */
  lemma ClientLocks(c: Config, s: State, t: nat, ch: Choice)
    requires LocksOk(s) && CanClient(c, s, t, ch)
    ensures LocksOk(ClientStep(c, s, t, ch))
  {
    LocksMove(c, s, t, ch);
    LocksMoved(s, ClientStep(c, s, t, ch), t);
  }

  lemma LocksMoved(s: State, s': State, t: nat)
    requires LocksOk(s) && t in s.threads && t in s'.threads && s'.threads == s.threads[t := s'.threads[t]]
    requires var pc := s.threads[t].pc; var pc' := s'.threads[t].pc;
             && (forall l :: Holds(pc', l) ==> l in s'.locks && s'.locks[l] == t)
             && (forall l :: l in s'.locks && !Holds(pc', l) ==>
                  l in s.locks && s.locks[l] == s'.locks[l] && !Holds(pc, l))
             && (forall l :: l in s.locks && !Holds(pc, l) ==> l in s'.locks && s'.locks[l] == s.locks[l])
    ensures LocksOk(s')
  {
    forall u, l | u in s'.threads && Holds(s'.threads[u].pc, l) ensures l in s'.locks && s'.locks[l] == u {
      if u != t {
        assert s.threads[u] == s'.threads[u] && l in s.locks && s.locks[l] == u;
        assert !Holds(s.threads[t].pc, l);
      }
    }
  }

  lemma LocksMove(c: Config, s: State, t: nat, ch: Choice)
    requires CanClient(c, s, t, ch)
    requires forall l :: Holds(s.threads[t].pc, l) ==> l in s.locks && s.locks[l] == t
    ensures var pc := s.threads[t].pc; var pc' := ThreadAfter(c, s, t, ch).pc; var locks := LocksAfter(s, t, pc, ch);
            && (forall l :: Holds(pc', l) ==> l in locks && locks[l] == t)
            && (forall l :: l in locks && !Holds(pc', l) ==> l in s.locks && s.locks[l] == locks[l] && !Holds(pc, l))
            && (forall l :: l in s.locks && !Holds(pc, l) ==> l in locks && locks[l] == s.locks[l])
  {
    var pc' := ThreadAfter(c, s, t, ch).pc;
    IoTargets(s.threads[t]);
  }

  /** Packets and copies never take a thread into a region. */
  lemma IoTargets(th: Thread)
    ensures Writes(th.pc, th.op) ==> !AfterOut(th).CInside? && !At(AfterOut(th), Pick)
    ensures forall p :: Hears(th.pc, th.op) ==> !AfterIn(th, p).CInside? && !At(AfterIn(th, p), Pick)
  {
  }

  // ----- sessions, client steps -----

  /** The segment a thread sees after a client step of its own. */
  lemma OwnSegment(c: Config, s: State, t: nat, ch: Choice)
    requires CanClient(c, s, t, ch) && DoesIo(s.threads[t].pc)
    requires s.threads[t].pc.CFill? ==> s.threads[t].id in s.segs
    ensures SegAt(SegsAfter(c, s, t, ch), ThreadAfter(c, s, t, ch).id) == IoOf(s, t).seg
  {
  }

  /** Before the transfer is settled, a region leads to a point where it is still not settled. */
  lemma AskLeaves(c: Config, s: State, th: Thread, r: Region, ch: Choice)
    requires Asking(CInside(r))
    ensures var pc := Leave(c, s, th, r, ch);
            && Asking(pc)
            && (pc.CSayUse? ==> KnownUsable(s.usable, th.op.node, th.id) && r.Lookup?)
            && (pc.CAskVe? ==> r.GetType?)
            && !At(pc, GetType)
            && (Owns(pc) ==> r.Pick? || r.Lookup?)
  {
  }

  lemma SettledLeaves(c: Config, s: State, th: Thread, ch: Choice)
    requires th.pc.CInside? && InCall(th.pc) && !Asking(th.pc)
    ensures Settles(th, Leave(c, s, th, th.pc.r, ch))
    ensures !th.pc.r.Pick?
  {
  }

  lemma AskRegionKeeps(c: Config, s: State, t: nat, ch: Choice)
    requires ConnsOk(s) && SessionsOk(s) && PoolOk(s) && ProbesOk(s)
    requires CanClient(c, s, t, ch) && s.threads[t].pc.CInside? && InCall(s.threads[t].pc) && Asking(s.threads[t].pc)
    ensures var th' := ThreadAfter(c, s, t, ch); var n := s.threads[t].op.node;
            Session(th', s.servers[n], s.conns[n], SegOf(s, th'.id))
  {
    var th := s.threads[t];
    var th' := ThreadAfter(c, s, t, ch);
    var n := th.op.node;
    AskLeaves(c, s, th, th.pc.r, ch);
    AskKeeps(th, th', s.servers[n], s.conns[n], SegOf(s, th.id), SegOf(s, th'.id));
  }

  lemma LeaveStep(c: Config, s: State, t: nat, ch: Choice)
    requires CanClient(c, s, t, ch) && s.threads[t].pc.CInside? && !s.threads[t].pc.r.Pick?
    ensures var th := s.threads[t]; ThreadAfter(c, s, t, ch) == th.(pc := Leave(c, s, th, th.pc.r, ch))
  {
  }

  lemma SettledRegionKeeps(c: Config, s: State, t: nat, ch: Choice)
    requires ConnsOk(s) && SessionsOk(s) && PoolOk(s) && ProbesOk(s)
    requires CanClient(c, s, t, ch) && s.threads[t].pc.CInside? && InCall(s.threads[t].pc) && !Asking(s.threads[t].pc)
    ensures var th' := ThreadAfter(c, s, t, ch); var n := s.threads[t].op.node;
            Session(th', s.servers[n], s.conns[n], SegOf(s, th'.id))
  {
    var th := s.threads[t];
    var n := th.op.node;
    SettledLeaves(c, s, th, ch);
    LeaveStep(c, s, t, ch);
    SettledKeeps(th, Leave(c, s, th, th.pc.r, ch), s.servers[n], s.conns[n], SegOf(s, th.id));
  }

  lemma RegionKeeps(c: Config, s: State, t: nat, ch: Choice)
    requires ConnsOk(s) && SessionsOk(s) && PoolOk(s) && ProbesOk(s)
    requires CanClient(c, s, t, ch) && s.threads[t].pc.CInside? && InCall(s.threads[t].pc)
    ensures var th' := ThreadAfter(c, s, t, ch); var n := s.threads[t].op.node;
            Session(th', s.servers[n], s.conns[n], SegOf(s, th'.id))
  {
    if Asking(s.threads[t].pc) {
      AskRegionKeeps(c, s, t, ch);
    } else {
      SettledRegionKeeps(c, s, t, ch);
    }
  }

  lemma CreateTargets(c: Config, s: State, t: nat, ch: Choice)
    requires PoolOk(s) && CanClient(c, s, t, ch) && (s.threads[t].pc.CCreate? || s.threads[t].pc.CAttach?)
    ensures var th' := ThreadAfter(c, s, t, ch);
            && th' == s.threads[t].(pc := th'.pc, id := th'.id)
            && (At(th'.pc, Record) || At(th'.pc, Lookup) || th'.pc.CSayTcp?)
            && (Owns(th'.pc) ==> |SegAt(SegsAfter(c, s, t, ch), th'.id)| == SHM_SIZE)
  {
  }

  lemma CreateKeeps(c: Config, s: State, t: nat, ch: Choice)
    requires ConnsOk(s) && SessionsOk(s) && PoolOk(s)
    requires CanClient(c, s, t, ch) && (s.threads[t].pc.CCreate? || s.threads[t].pc.CAttach?)
    ensures var th' := ThreadAfter(c, s, t, ch); var n := s.threads[t].op.node;
            Session(th', s.servers[n], s.conns[n], SegAt(SegsAfter(c, s, t, ch), th'.id))
  {
    var th := s.threads[t];
    var th' := ThreadAfter(c, s, t, ch);
    var n := th.op.node;
    CreateTargets(c, s, t, ch);
    AskKeeps(th, th', s.servers[n], s.conns[n], SegOf(s, th.id), SegAt(SegsAfter(c, s, t, ch), th'.id));
  }

  lemma LockKeeps(c: Config, s: State, t: nat, ch: Choice)
    requires ConnsOk(s) && SessionsOk(s)
    requires CanClient(c, s, t, ch) && s.threads[t].pc.CLockConn?
    ensures var th := s.threads[t]; var n := th.op.node;
            Session(ThreadAfter(c, s, t, ch), s.servers[n], s.conns[n].(holder := {t}), SegOf(s, th.id))
  {
    var th := s.threads[t];
    var n := th.op.node;
    StartKeeps(th, s.servers[n], s.conns[n], SegOf(s, th.id));
    HolderIrrelevant(ThreadAfter(c, s, t, ch), s.servers[n], s.conns[n], {t}, SegOf(s, th.id));
  }

  /** Steps outside packet exchange leave connection and segments as they are, but for the lock. */
  lemma TableFrame(c: Config, s: State, t: nat, ch: Choice)
    requires CanClient(c, s, t, ch) && InCall(ThreadAfter(c, s, t, ch).pc) && !DoesIo(s.threads[t].pc)
    ensures var n := s.threads[t].op.node; var conns := ConnsAfter(c, s, t, ch);
            && n in s.conns && n in conns
            && conns[n] == if s.threads[t].pc.CLockConn? then s.conns[n].(holder := {t}) else s.conns[n]
    ensures !s.threads[t].pc.CCreate? && !s.threads[t].pc.CAttach? ==> SegsAfter(c, s, t, ch) == s.segs
    ensures s.threads[t].pc.CLockConn? || InCall(s.threads[t].pc)
  {
  }

  lemma RegionSession(c: Config, s: State, t: nat, ch: Choice)
    requires ConnsOk(s) && SessionsOk(s) && PoolOk(s) && ProbesOk(s)
    requires CanClient(c, s, t, ch) && s.threads[t].pc.CInside? && InCall(s.threads[t].pc)
    ensures var th' := ThreadAfter(c, s, t, ch); var n := s.threads[t].op.node;
            && n in ConnsAfter(c, s, t, ch)
            && Session(th', s.servers[n], ConnsAfter(c, s, t, ch)[n], SegAt(SegsAfter(c, s, t, ch), th'.id))
  {
    assert InCall(ThreadAfter(c, s, t, ch).pc) by { TableShape(c, s, t, ch); }
    TableFrame(c, s, t, ch);
    RegionKeeps(c, s, t, ch);
  }

  lemma AcquireSession(c: Config, s: State, t: nat, ch: Choice)
    requires ConnsOk(s) && SessionsOk(s)
    requires CanClient(c, s, t, ch) && s.threads[t].pc.CAcquire? && InCall(s.threads[t].pc)
    ensures var th' := ThreadAfter(c, s, t, ch); var n := s.threads[t].op.node;
            && n in ConnsAfter(c, s, t, ch)
            && Session(th', s.servers[n], ConnsAfter(c, s, t, ch)[n], SegAt(SegsAfter(c, s, t, ch), th'.id))
  {
    var th := s.threads[t];
    TableFrame(c, s, t, ch);
    SettledKeeps(th, CInside(th.pc.r), s.servers[th.op.node], s.conns[th.op.node], SegOf(s, th.id));
  }

  /** The stepping thread's own session. */
  lemma OwnSession(c: Config, s: State, t: nat, ch: Choice)
    requires ConnsOk(s) && SessionsOk(s) && PoolOk(s) && ProbesOk(s)
    requires CanClient(c, s, t, ch) && InCall(ThreadAfter(c, s, t, ch).pc) && !DoesIo(s.threads[t].pc)
    ensures var th' := ThreadAfter(c, s, t, ch); var n := s.threads[t].op.node;
            && n in ConnsAfter(c, s, t, ch)
            && Session(th', s.servers[n], ConnsAfter(c, s, t, ch)[n], SegAt(SegsAfter(c, s, t, ch), th'.id))
  {
    TableFrame(c, s, t, ch);
    if s.threads[t].pc.CInside? {
      RegionSession(c, s, t, ch);
    } else if s.threads[t].pc.CAcquire? {
      AcquireSession(c, s, t, ch);
    } else if s.threads[t].pc.CLockConn? {
      LockKeeps(c, s, t, ch);
    } else {
      CreateKeeps(c, s, t, ch);
    }
  }

  lemma OwnIoSession(c: Config, s: State, t: nat, ch: Choice)
    requires ConnsOk(s) && SessionsOk(s) && PoolOk(s) && CanClient(c, s, t, ch) && DoesIo(s.threads[t].pc)
    ensures var th' := ThreadAfter(c, s, t, ch); var n := s.threads[t].op.node;
            Session(th', s.servers[n], ConnsAfter(c, s, t, ch)[n], SegAt(SegsAfter(c, s, t, ch), th'.id))
  {
    var th := s.threads[t];
    var n := th.op.node;
    if Writes(th.pc, th.op) {
      WriteKeeps(th, s.servers[n], s.conns[n], SegOf(s, th.id));
    } else if Hears(th.pc, th.op) {
      HearKeeps(th, s.servers[n], s.conns[n], SegOf(s, th.id));
    } else {
      CopyKeeps(th, s.servers[n], s.conns[n], SegOf(s, th.id));
    }
    OwnSegment(c, s, t, ch);
  }

  lemma IoShape(c: Config, s: State, t: nat, ch: Choice)
    requires ConnsOk(s) && SessionsOk(s) && PoolOk(s) && CanClient(c, s, t, ch) && DoesIo(s.threads[t].pc)
    ensures var th := s.threads[t]; var th' := ThreadAfter(c, s, t, ch);
            th'.op == th.op && |th'.buf| == |th.buf| && InCall(th'.pc)
  {
    OwnIoSession(c, s, t, ch);
  }

  lemma ThreadShape(c: Config, s: State, t: nat, ch: Choice)
    requires ConnsOk(s) && SessionsOk(s) && PoolOk(s) && CanClient(c, s, t, ch)
    ensures var th := s.threads[t]; var th' := ThreadAfter(c, s, t, ch);
            && th'.op == th.op && |th'.buf| == |th.buf|
            && !th'.pc.CBroken?
            && (th'.pc.CIdle? <==> th.pc.CUnlock?)
            && (InCall(th'.pc) <==> !th.pc.CUnlock? && (InCall(th.pc) || th.pc.CLockConn?))
            && (th'.pc.CLockConn? <==> th.pc == CInside(Connect))
  {
    if DoesIo(s.threads[t].pc) {
      IoShape(c, s, t, ch);
    } else {
      TableShape(c, s, t, ch);
    }
  }

  lemma TableShape(c: Config, s: State, t: nat, ch: Choice)
    requires CanClient(c, s, t, ch) && !DoesIo(s.threads[t].pc)
    ensures var th := s.threads[t]; var th' := ThreadAfter(c, s, t, ch);
            && th'.op == th.op && th'.buf == th.buf
            && !th'.pc.CBroken?
            && (th'.pc.CIdle? <==> th.pc.CUnlock?)
            && (InCall(th'.pc) <==> !th.pc.CUnlock? && (InCall(th.pc) || th.pc.CLockConn?))
            && (th'.pc.CLockConn? <==> th.pc == CInside(Connect))
  {
  }

  /** What a client step does to the table of connections. */
  lemma ConnsFrame(c: Config, s: State, t: nat, ch: Choice)
    requires ConnsOk(s) && CanClient(c, s, t, ch)
    ensures var n := s.threads[t].op.node; var conns := ConnsAfter(c, s, t, ch); var pc := s.threads[t].pc;
            && (forall m :: m in s.conns ==> m in conns)
            && (forall m :: m in conns && m !in s.conns ==>
                  m == n && conns[n] == Conn({}, [], []) && pc == CInside(Connect))
            && (forall m :: m in s.conns && m != n ==> conns[m] == s.conns[m])
            && (pc == CInside(Connect) ==> n in conns)
            && (n in s.conns ==>
                 conns[n].holder == if pc.CLockConn? then {t} else if pc.CUnlock? then {} else s.conns[n].holder)
            && (n in s.conns && !InCall(pc) && !pc.CLockConn? ==> conns[n] == s.conns[n])
  {
  }

  /** What a step of thread t does to the thread and to the table of connections. */
  ghost predicate ConnsStep(s: State, s': State, t: nat) {
    && t in s.threads && t in s'.threads && s'.threads == s.threads[t := s'.threads[t]]
    && s'.servers == s.servers && s.threads[t].op.node in s.servers && !s.threads[t].pc.CIdle?
    && var pc := s.threads[t].pc; var n := s.threads[t].op.node; var th' := s'.threads[t];
    && th'.op == s.threads[t].op && |th'.buf| == |s.threads[t].buf|
    && !th'.pc.CBroken?
    && (th'.pc.CIdle? <==> pc.CUnlock?)
    && (InCall(th'.pc) <==> !pc.CUnlock? && (InCall(pc) || pc.CLockConn?))
    && (th'.pc.CLockConn? <==> pc == CInside(Connect))
    && (pc.CLockConn? ==> n in s.conns && s.conns[n].holder == {})
    && (forall m :: m in s.conns ==> m in s'.conns)
    && (forall m :: m in s'.conns && m !in s.conns ==> m == n && s'.conns[n] == Conn({}, [], []))
    && (forall m :: m in s.conns && m != n ==> s'.conns[m] == s.conns[m])
    && (pc == CInside(Connect) ==> n in s'.conns)
    && (n in s.conns ==>
         s'.conns[n].holder == if pc.CLockConn? then {t} else if pc.CUnlock? then {} else s.conns[n].holder)
  }

  lemma ClientConns(c: Config, s: State, t: nat, ch: Choice)
    requires ConnsOk(s) && SessionsOk(s) && PoolOk(s) && CanClient(c, s, t, ch)
    ensures ConnsOk(ClientStep(c, s, t, ch))
  {
    ThreadShape(c, s, t, ch);
    ConnsFrame(c, s, t, ch);
    ConnsMoved(s, ClientStep(c, s, t, ch), t);
  }

  lemma OwnThreadOk(s: State, s': State, t: nat)
    requires ConnsOk(s) && ConnsStep(s, s', t)
    ensures ThreadOk(s', t)
  {
    assert ThreadOk(s, t);
  }

  lemma OtherThreadOk(s: State, s': State, t: nat, u: nat)
    requires ConnsOk(s) && ConnsStep(s, s', t) && u in s.threads && u != t
    ensures ThreadOk(s', u)
  {
    assert ThreadOk(s, u) && s'.threads[u] == s.threads[u];
  }

  lemma HoldersMoved(s: State, s': State, t: nat, n: Node, u: nat)
    requires ConnsOk(s) && ConnsStep(s, s', t) && n in s'.conns && u in s'.conns[n].holder
    ensures u in s'.threads && InCall(s'.threads[u].pc) && s'.threads[u].op.node == n
  {
    assert ThreadOk(s, t);
  }

  lemma ConnsMoved(s: State, s': State, t: nat)
    requires ConnsOk(s) && ConnsStep(s, s', t)
    ensures ConnsOk(s')
  {
    forall u | u in s'.threads ensures ThreadOk(s', u) {
      if u == t { OwnThreadOk(s, s', t); } else { OtherThreadOk(s, s', t, u); }
    }
    forall n, u | n in s'.conns && u in s'.conns[n].holder
      ensures u in s'.threads && InCall(s'.threads[u].pc) && s'.threads[u].op.node == n
    {
      HoldersMoved(s, s', t, n, u);
    }
  }

  /** A segment changes only under its owner's hands, and only its owner looks at it. */
  lemma SegsFrame(c: Config, s: State, t: nat, ch: Choice, u: nat)
    requires PoolOk(s) && CanClient(c, s, t, ch) && u in s.threads && u != t && Owns(s.threads[u].pc)
    ensures SegAt(SegsAfter(c, s, t, ch), s.threads[u].id) == SegOf(s, s.threads[u].id)
  {
  }

  lemma OtherSession(c: Config, s: State, t: nat, ch: Choice, u: nat)
    requires ConnsOk(s) && SessionsOk(s) && PoolOk(s) && CanClient(c, s, t, ch)
    requires u in s.threads && u != t && InCall(s.threads[u].pc)
    ensures var th := s.threads[u]; var n := th.op.node;
            && n in ConnsAfter(c, s, t, ch)
            && Session(th, s.servers[n], ConnsAfter(c, s, t, ch)[n], SegAt(SegsAfter(c, s, t, ch), th.id))
  {
    var th := s.threads[u];
    var n := th.op.node;
    ConnsFrame(c, s, t, ch);
    assert ConnsAfter(c, s, t, ch)[n] == s.conns[n];
    if Owns(th.pc) {
      SegsFrame(c, s, t, ch, u);
    } else {
      SegIrrelevant(th, s.servers[n], s.conns[n], SegOf(s, th.id), SegAt(SegsAfter(c, s, t, ch), th.id));
    }
  }

  lemma FreeConn(c: Config, s: State, t: nat, ch: Choice, n: Node)
    requires ConnsOk(s) && SessionsOk(s) && PoolOk(s) && CanClient(c, s, t, ch)
    requires n in ConnsAfter(c, s, t, ch) && ConnsAfter(c, s, t, ch)[n].holder == {}
    ensures n in s.servers && Free(s.servers[n], ConnsAfter(c, s, t, ch)[n])
  {
    ConnsFrame(c, s, t, ch);
    var th := s.threads[t];
    if th.pc.CUnlock? && n == th.op.node {
      EndKeeps(th, s.servers[n], s.conns[n], SegOf(s, th.id));
    } else if n in s.conns {
      assert ConnsAfter(c, s, t, ch)[n] == s.conns[n];
    }
  }

  lemma AnySession(c: Config, s: State, t: nat, ch: Choice, u: nat)
    requires ConnsOk(s) && SessionsOk(s) && PoolOk(s) && ProbesOk(s) && CanClient(c, s, t, ch)
    requires u in s.threads
    requires InCall(if u == t then ThreadAfter(c, s, t, ch).pc else s.threads[u].pc)
    ensures var th := if u == t then ThreadAfter(c, s, t, ch) else s.threads[u]; var n := th.op.node;
            && n in s.servers && n in ConnsAfter(c, s, t, ch)
            && Session(th, s.servers[n], ConnsAfter(c, s, t, ch)[n], SegAt(SegsAfter(c, s, t, ch), th.id))
  {
    if u != t {
      OtherSession(c, s, t, ch, u);
    } else {
      ThreadShape(c, s, t, ch);
      if DoesIo(s.threads[t].pc) {
        OwnIoSession(c, s, t, ch);
      } else {
        OwnSession(c, s, t, ch);
      }
    }
  }

  lemma FreeConns(c: Config, s: State, t: nat, ch: Choice)
    requires ConnsOk(s) && SessionsOk(s) && PoolOk(s) && CanClient(c, s, t, ch)
    ensures var conns := ConnsAfter(c, s, t, ch);
            && (forall n :: n in conns && conns[n].holder == {} ==> n in s.servers && Free(s.servers[n], conns[n]))
            && (forall n :: n in s.servers && n !in conns ==>
                  s.servers[n].pc.SIdle? && |s.servers[n].dmaBuf| == SHM_SIZE)
  {
    forall n | n in ConnsAfter(c, s, t, ch) && ConnsAfter(c, s, t, ch)[n].holder == {}
      ensures n in s.servers && Free(s.servers[n], ConnsAfter(c, s, t, ch)[n])
    {
      FreeConn(c, s, t, ch, n);
    }
    ConnsFrame(c, s, t, ch);
  }

  ghost predicate HeldOk(threads: map<nat, Thread>, servers: map<Node, Server>, conns: map<Node, Conn>,
                         segs: map<int, seq<byte>>) {
    forall u :: u in threads && InCall(threads[u].pc) ==>
      var th := threads[u]; var n := th.op.node;
      n in servers && n in conns && Session(th, servers[n], conns[n], SegAt(segs, th.id))
  }

  lemma HeldSessions(c: Config, s: State, t: nat, ch: Choice)
    requires ConnsOk(s) && SessionsOk(s) && PoolOk(s) && ProbesOk(s) && CanClient(c, s, t, ch)
    ensures HeldOk(s.threads[t := ThreadAfter(c, s, t, ch)], s.servers, ConnsAfter(c, s, t, ch), SegsAfter(c, s, t, ch))
  {
    var threads := s.threads[t := ThreadAfter(c, s, t, ch)];
    forall u | u in threads && InCall(threads[u].pc)
      ensures var th := threads[u]; var n := th.op.node;
              && n in s.servers && n in ConnsAfter(c, s, t, ch)
              && Session(th, s.servers[n], ConnsAfter(c, s, t, ch)[n], SegAt(SegsAfter(c, s, t, ch), th.id))
    {
      AnySession(c, s, t, ch, u);
    }
  }

  lemma ClientSessions(c: Config, s: State, t: nat, ch: Choice)
    requires ConnsOk(s) && SessionsOk(s) && PoolOk(s) && ProbesOk(s) && CanClient(c, s, t, ch)
    requires ConnsOk(ClientStep(c, s, t, ch))
    ensures SessionsOk(ClientStep(c, s, t, ch))
  {
    HeldSessions(c, s, t, ch);
    FreeConns(c, s, t, ch);
  }
}
