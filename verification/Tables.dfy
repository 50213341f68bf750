/** The shared tables of the client: only the holder of a table's lock touches it, and no segment is lost from them. */
module Tables {
  import opened Blocks
  import opened Wire
  import opened Transport
  import opened ClientSide
  import opened Invariants
  import opened Segments
  import opened Safety

  // ----- what may be called -----

  /** An idle thread may begin any transfer whose memory ranges exist, of any size and to any server, and any remote
      call, whatever its function writes. */
  lemma AnyCallBegins(c: Config, s: State, t: nat, op: Op, buf: seq<byte>)
    requires t in s.threads && s.threads[t].pc == CIdle && op.node in s.servers
    requires if op.form.Raw? then op.local + op.size <= |buf| && op.remote + op.size <= |s.servers[op.node].mem|
             else op.kind == RawRecv && op.size == 0 && op.local <= |buf| && op.remote <= |s.servers[op.node].mem|
    ensures Enabled(c, s, Begin(t, op, buf))
  {
  }

  // ----- who touches what -----

  predicate HeldBy(s: State, l: Lock, t: nat) {
    l in s.locks && s.locks[l] == t
  }

  /** A step changes what lock l guards, or reads it to decide where to go. */
  predicate Uses(s: State, s': State, pc: ClientPc, l: Lock) {
    match l
    case ManagementLock => s'.conns.Keys != s.conns.Keys
    case TypeLock => s'.serverType != s.serverType || pc == CInside(GetType)
    case BufLock => s'.pool != s.pool || s'.cleanup != s.cleanup || pc == CInside(GetFree) || pc == CInside(Pick)
    case UsableLock => s'.usable != s.usable || pc == CInside(Lookup) || pc == CInside(Pick)
  }

  /** The connections, the server type, the pool with the clean-up list, and the verdicts each have a lock, and only the
      thread that holds it changes or consults them. */
  lemma TablesGuarded(c: Config, s: State, t: nat, ch: Choice, l: Lock)
    requires Reachable(c, s) && CanClient(c, s, t, ch) && Uses(s, ClientStep(c, s, t, ch), s.threads[t].pc, l)
    ensures HeldBy(s, l, t)
  {
    ReachableLocks(c, s);
    UseHolds(c, s, t, ch, l);
  }

  /** The place of a thread implies the lock. */
  lemma UseHolds(c: Config, s: State, t: nat, ch: Choice, l: Lock)
    requires CanClient(c, s, t, ch) && Uses(s, ClientStep(c, s, t, ch), s.threads[t].pc, l)
    ensures Holds(s.threads[t].pc, l)
  {
    if s.threads[t].pc != CInside(Connect) {
      KeysStay(c, s, t, ch);
    }
  }

  lemma KeysStay(c: Config, s: State, t: nat, ch: Choice)
    requires CanClient(c, s, t, ch) && s.threads[t].pc != CInside(Connect)
    ensures ConnsAfter(c, s, t, ch).Keys == s.conns.Keys
  {
  }

  // ----- the pool -----

  predicate WithoutOne(pool: seq<int>, k: nat, rest: seq<int>) {
    k < |pool| && rest == pool[..k] + pool[k + 1..]
  }

  /** get_shm takes segment k of the pool for n. */
  predicate Takes(s: State, n: Node, k: nat) {
    && k < |s.pool|
    && (KnownUsable(s.usable, n, s.pool[k]) || k == |s.pool| - 1)
    && (forall j :: 0 <= j < k ==> !KnownUsable(s.usable, n, s.pool[j]))
  }

  /** The free segments: the first one that is down as usable is taken, or else the last; a new one is made only if
      there is none; and a segment that is returned joins the end. */
  lemma PoolMoves(c: Config, s: State, t: nat, ch: Choice)
    requires CanClient(c, s, t, ch)
    ensures var s' := ClientStep(c, s, t, ch); var th := s.threads[t]; var th' := s'.threads[t];
            && (th.pc == CInside(Pick) ==>
                 exists k: nat :: Takes(s, th.op.node, k) && th'.id == s.pool[k] && WithoutOne(s.pool, k, s'.pool))
            && (th.pc == CInside(GetFree) ==> (th'.pc.CCreate? <==> s.pool == [] && (s.needCleanup || ch.ok)))
            && (th.pc.CInside? && th.pc.r.GiveBack? ==> s'.pool == s.pool + [th.id])
            && (th.pc != CInside(Pick) && !(th.pc.CInside? && th.pc.r.GiveBack?) ==> s'.pool == s.pool)
  {
    var th := s.threads[t];
    if th.pc == CInside(Pick) {
      var k := PickIndex(s.pool, s.usable, th.op.node);
      PickTakes(s, th.op.node, 0);
      assert Takes(s, th.op.node, k) && WithoutOne(s.pool, k, ClientStep(c, s, t, ch).pool);
    }
  }

  lemma {:induction false} PickTakes(s: State, n: Node, i: nat)
    requires s.pool != [] && i <= |s.pool| && forall j :: 0 <= j < i ==> !KnownUsable(s.usable, n, s.pool[j])
    ensures Takes(s, n, PickFrom(s.pool, s.usable, n, i))
    decreases |s.pool| - i
  {
    if i < |s.pool| && !KnownUsable(s.usable, n, s.pool[i]) {
      PickTakes(s, n, i + 1);
    }
  }

  // ----- the clean-up handlers -----

  /** Only the first call of get_shm can fail to install the clean-up handlers: after it, or while another call is in
      there, they count as installed for ever. */
  lemma {:induction false} InstalledOnce(c: Config, s: State, run: seq<Action>)
    requires Legal(c, s, run)
    ensures s.needCleanup ==> Exec(c, s, run).needCleanup
    ensures run != [] && run[0].Client? && run[0].tid in s.threads && s.threads[run[0].tid].pc == CInside(GetFree) ==>
              Exec(c, s, run).needCleanup
    decreases |run|
  {
    if run != [] {
      InstalledOnce(c, Apply(c, s, run[0]), run[1..]);
    }
  }

  // ----- no segment is lost -----

  /** The thread has made the segment and is about to attach it. */
  predicate Making(pc: ClientPc) {
    At(pc, Record) || pc.CAttach?
  }

  ghost predicate MadeBy(s: State, id: int, t: nat) {
    t in s.threads && Making(s.threads[t].pc) && s.threads[t].id == id
  }

  /** Every segment that exists is attached, or about to be. */
  ghost predicate NoneLost(s: State) {
    forall id :: id in s.segs ==> id in s.attached || exists t :: MadeBy(s, id, t)
  }

  lemma MakingMoves(c: Config, s: State, t: nat, ch: Choice)
    requires ConnsOk(s) && SessionsOk(s) && PoolOk(s) && CanClient(c, s, t, ch)
    ensures var th := s.threads[t]; var th' := ThreadAfter(c, s, t, ch);
            && (Making(th.pc) && !th.pc.CAttach? ==> Making(th'.pc) && th'.id == th.id)
            && (Creates(th.pc, ch) ==> Making(th'.pc))
  {
    Hands(c, s, t, ch);
  }

  /** What the step of thread t leaves of the segments. */
  lemma LosesAt(s: State, s': State, t: nat, ch: Choice, id: int)
    requires PoolOk(s) && NoneLost(s) && PoolStep(s, s', t, ch) && id in s'.segs && (id in s.segs || MadeBy(s', id, t))
    requires var th := s.threads[t]; var th' := s'.threads[t];
             && (Making(th.pc) && !th.pc.CAttach? ==> Making(th'.pc) && th'.id == th.id)
             && (Drops(th.pc, ch) ==> th.id !in s'.segs)
    ensures id in s'.attached || exists u :: MadeBy(s', id, u)
  {
    if id in s.segs && id !in s.attached {
      var u :| MadeBy(s, id, u);
      if u != t {
        assert MadeBy(s', id, u);
      } else if !s.threads[t].pc.CAttach? {
        assert MadeBy(s', id, t);
      }
    }
  }

  lemma ClientLoses(c: Config, s: State, t: nat, ch: Choice, id: int)
    requires ConnsOk(s) && SessionsOk(s) && PoolOk(s) && NoneLost(s) && CanClient(c, s, t, ch)
    requires id in SegsAfter(c, s, t, ch)
    ensures var s' := ClientStep(c, s, t, ch); id in s'.attached || exists u :: MadeBy(s', id, u)
  {
    ClientPoolStep(c, s, ClientStep(c, s, t, ch), t, ch);
    SegsGrow(c, s, t, ch);
    MakingMoves(c, s, t, ch);
    LosesAt(s, ClientStep(c, s, t, ch), t, ch, id);
  }

  lemma ClientNoneLost(c: Config, s: State, t: nat, ch: Choice)
    requires ConnsOk(s) && SessionsOk(s) && PoolOk(s) && NoneLost(s) && CanClient(c, s, t, ch)
    ensures NoneLost(ClientStep(c, s, t, ch))
  {
    var s' := ClientStep(c, s, t, ch);
    forall id | id in s'.segs ensures id in s'.attached || exists u :: MadeBy(s', id, u) {
      ClientLoses(c, s, t, ch, id);
    }
  }

  lemma BeginNoneLost(s: State, s': State, t: nat)
    requires NoneLost(s) && Started(s, s', t)
    ensures NoneLost(s')
  {
    forall id | id in s'.segs ensures id in s'.attached || exists u :: MadeBy(s', id, u) {
      if id !in s.attached {
        var u :| MadeBy(s, id, u);
        assert MadeBy(s', id, u);
      }
    }
  }

  lemma ServeNoneLost(c: Config, s: State, n: Node, ch: Choice)
    requires NoneLost(s) && CanServe(c, s, n)
    ensures NoneLost(ServeStep(c, s, n, ch))
  {
    var s' := ServeStep(c, s, n, ch);
    forall id | id in s'.segs ensures id in s'.attached || exists u :: MadeBy(s', id, u) {
      if id !in s.attached {
        var u :| MadeBy(s, id, u);
        assert MadeBy(s', id, u);
      }
    }
  }

  lemma StepNoneLost(c: Config, s: State, a: Action)
    requires Inv(s) && NoneLost(s) && Enabled(c, s, a)
    ensures NoneLost(Apply(c, s, a))
  {
    match a
    case Begin(t, _, _) => BeginNoneLost(s, Apply(c, s, a), t);
    case Client(t, ch) => ClientNoneLost(c, s, t, ch);
    case Serve(n, ch) => ServeNoneLost(c, s, n, ch);
  }

  lemma {:induction false} RunNoneLost(c: Config, s: State, run: seq<Action>)
    requires Inv(s) && NoneLost(s) && Legal(c, s, run)
    ensures NoneLost(Exec(c, s, run))
    decreases |run|
  {
    if run != [] {
      StepNoneLost(c, s, run[0]);
      StepKeeps(c, s, run[0]);
      RunNoneLost(c, Apply(c, s, run[0]), run[1..]);
    }
  }

  /** In every reachable state a segment that exists is on the clean-up list and in the pool, with a transfer, or being
      attached by the thread that has made it; one that could not be attached is gone. */
  lemma NothingLost(c: Config, s: State, id: int)
    requires Reachable(c, s) && id in s.segs
    ensures id in s.pool || exists t :: OwnedBy(s, id, t) || MadeBy(s, id, t)
    ensures id in s.pool || (exists t :: OwnedBy(s, id, t)) ==> id in s.cleanup
  {
    var s0, run :| ReachedBy(c, s0, run, s);
    InitHolds(s0);
    RunNoneLost(c, s0, run);
    ReachablePools(c, s);
    if id in s.attached && id !in s.pool {
      var t :| OwnedBy(s, id, t);
    } else if id !in s.attached {
      var t :| MadeBy(s, id, t);
    }
  }
}
