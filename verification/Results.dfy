/** The promises of the transport, stated about reachable states and runs. */
module Results {
  import opened Blocks
  import opened Sequences
  import opened Wire
  import opened Transport
  import opened ClientSide
  import opened Invariants
  import opened Safety
  import opened Progress

  // ----- agreement of the tables -----

  /** What the client has on record as usable, the server has attached: the internal errors of use_dma and
      of a lost connection lock never happen, and no packet is ever taken for another. */
  lemma TablesAgree(c: Config, s: State)
    requires Reachable(c, s)
    ensures forall n, id :: KnownUsable(s.usable, n, id) ==> n in s.servers && id in s.servers[n].shmMap
    ensures forall n :: n in s.servers ==> !s.servers[n].pc.SBroken?
    ensures forall t :: t in s.threads ==> !s.threads[t].pc.CBroken?
  {
    ReachableProbes(c, s);
    ReachableSessions(c, s);
  }

  /** The try_dma request a step writes, if any. */
  function TryOf(s: State, a: Action): seq<(Node, int)> {
    if a.Client? && a.tid in s.threads && s.threads[a.tid].pc.CSayTry? then
      [(s.threads[a.tid].op.node, s.threads[a.tid].id)]
    else []
  }

  /** The try_dma requests of a run, in order. */
  function TriesOf(c: Config, s: State, run: seq<Action>): seq<(Node, int)>
    requires Legal(c, s, run)
    decreases |run|
  {
    if run == [] then [] else TryOf(s, run[0]) + TriesOf(c, Apply(c, s, run[0]), run[1..])
  }

  lemma TryRecorded(c: Config, s: State, a: Action)
    requires Enabled(c, s, a)
    ensures Apply(c, s, a).probes == s.probes + TryOf(s, a)
  {
  }

  lemma {:induction false} TriesRecorded(c: Config, s: State, run: seq<Action>)
    requires Legal(c, s, run)
    ensures Exec(c, s, run).probes == s.probes + TriesOf(c, s, run)
    decreases |run|
  {
    if run == [] {
      assert s.probes + [] == s.probes;
    } else {
      var s1 := Apply(c, s, run[0]);
      TryRecorded(c, s, run[0]);
      TriesRecorded(c, s1, run[1..]);
      Regroup(s.probes, TryOf(s, run[0]), TriesOf(c, s1, run[1..]));
    }
  }

  predicate Distinct<T(==)>(q: seq<T>) {
    forall i, j :: 0 <= i < j < |q| ==> q[i] != q[j]
  }

  /** Over any run, try_dma is sent at most once for each server and segment, although looking up a verdict
      and recording it are separate critical sections. */
  lemma AtMostOneProbe(c: Config, s: State, run: seq<Action>)
    requires Init(s) && Legal(c, s, run)
    ensures Distinct(TriesOf(c, s, run))
  {
    InitReachable(c, s);
    RunReaches(c, s, run);
    ReachableProbes(c, Exec(c, s, run));
    TriesRecorded(c, s, run);
    assert [] + TriesOf(c, s, run) == TriesOf(c, s, run);
  }

  /** A verdict, once recorded, stands. */
  lemma {:induction false} VerdictsStand(c: Config, s: State, run: seq<Action>)
    requires Legal(c, s, run)
    ensures forall p :: p in s.usable ==> p in Exec(c, s, run).usable && Exec(c, s, run).usable[p] == s.usable[p]
    decreases |run|
  {
    if run != [] {
      VerdictsStand(c, Apply(c, s, run[0]), run[1..]);
    }
  }

  // ----- the server type -----

  /** Between reading the type as unknown and recording the answer to is_ve. */
  predicate Settling(pc: ClientPc) {
    pc.CAskVe? || pc.CHearVe? || ((pc.CAcquire? || pc.CInside?) && pc.r.SetType?)
  }

  /** The type is known and nobody is about to record another one. */
  ghost predicate TypeSettled(s: State) {
    s.serverType != Unknown && forall t :: t in s.threads ==> !Settling(s.threads[t].pc)
  }

  lemma IoSettles(l: Local)
    requires DoesIo(l.th.pc) && (Hears(l.th.pc, l.th.op) ==> l.cn.s2c != []) && !Settling(l.th.pc)
    ensures !Settling(Io(l).th.pc)
  {
  }

  lemma RegionSettles(c: Config, s: State, th: Thread, ch: Choice)
    requires !DoesIo(th.pc) && !Settling(th.pc) && s.serverType != Unknown
    ensures !Settling(Next(c, s, th, ch))
  {
  }

  lemma ClientSettles(c: Config, s: State, t: nat, ch: Choice)
    requires CanClient(c, s, t, ch) && !Settling(s.threads[t].pc) && s.serverType != Unknown
    ensures !Settling(ThreadAfter(c, s, t, ch).pc)
    ensures ClientStep(c, s, t, ch).serverType == s.serverType
  {
    var th := s.threads[t];
    if DoesIo(th.pc) {
      IoSettles(Local(th, s.conns[th.op.node], SegOf(s, th.id)));
    } else {
      RegionSettles(c, s, th, ch);
    }
  }

  lemma StepSettled(c: Config, s: State, a: Action)
    requires TypeSettled(s) && Enabled(c, s, a)
    ensures TypeSettled(Apply(c, s, a)) && Apply(c, s, a).serverType == s.serverType
  {
    if a.Client? {
      ClientSettles(c, s, a.tid, a.choice);
    }
  }

  /** All threads share one server type, and of several threads that ask at once the last one to record its answer
      decides. Once the type is known and nobody is asking it never changes again. */
  lemma {:induction false} TypeStands(c: Config, s: State, run: seq<Action>)
    requires TypeSettled(s) && Legal(c, s, run)
    ensures Exec(c, s, run).serverType == s.serverType
    decreases |run|
  {
    if run != [] {
      StepSettled(c, s, run[0]);
      TypeStands(c, Apply(c, s, run[0]), run[1..]);
    }
  }

  // ----- ownership -----

  /** Each attached segment is in the pool once or with one transfer, never both, and will be removed at exit. */
  lemma ExclusiveOwnership(c: Config, s: State, id: int)
    requires Reachable(c, s) && id in s.attached
    ensures id in s.pool <==> !exists t :: OwnedBy(s, id, t)
    ensures forall i, j :: 0 <= i < |s.pool| && 0 <= j < |s.pool| && s.pool[i] == id && s.pool[j] == id ==> i == j
    ensures forall t, u :: OwnedBy(s, id, t) && OwnedBy(s, id, u) ==> t == u
    ensures id in s.cleanup
  {
    ReachablePools(c, s);
  }

  /** When no call is under way, every segment ever attached is back in the pool. */
  lemma AllReturned(c: Config, s: State)
    requires Reachable(c, s) && AllIdle(s)
    ensures forall id :: id in s.attached <==> id in s.pool
  {
    ReachablePools(c, s);
  }

  // ----- data races on a segment -----

  /** The next step of thread t reads or writes segment id. */
  predicate Touches(s: State, t: nat, id: int) {
    t in s.threads && (s.threads[t].pc.CFill? || s.threads[t].pc.CDrain?) && s.threads[t].id == id
  }

  /** The next step of server n reads or writes segment id by DMA. */
  predicate Dmas(s: State, n: Node, id: int) {
    n in s.servers && s.servers[n].pc.SDma? && s.servers[n].pc.id == id
  }

  /** A segment under DMA belongs to the one thread that waits for it. */
  lemma DmaIsWaitedFor(c: Config, s: State, n: Node, id: int) returns (t: nat)
    requires Reachable(c, s) && Dmas(s, n, id)
    ensures OwnedBy(s, id, t) && s.threads[t].pc.CFinish? && s.threads[t].op.node == n
  {
    ReachableSessions(c, s);
    t := DmaOwner(s, n);
  }

  lemma OneOwner(c: Config, s: State, id: int, t: nat, u: nat)
    requires Reachable(c, s) && OwnedBy(s, id, t) && OwnedBy(s, id, u)
    ensures t == u
  {
    ReachablePools(c, s);
  }

  /** No segment is ever touched from two sides at once. */
  lemma NoRace(c: Config, s: State, id: int)
    requires Reachable(c, s)
    ensures forall n, t :: Dmas(s, n, id) ==> !Touches(s, t, id)
    ensures forall m, n :: Dmas(s, m, id) && Dmas(s, n, id) ==> m == n
    ensures forall t, u :: Touches(s, t, id) && Touches(s, u, id) ==> t == u
  {
    forall n, t | Dmas(s, n, id) ensures !Touches(s, t, id) {
      var u := DmaIsWaitedFor(c, s, n, id);
      if Touches(s, t, id) { OneOwner(c, s, id, t, u); }
    }
    forall m, n | Dmas(s, m, id) && Dmas(s, n, id) ensures m == n {
      var t := DmaIsWaitedFor(c, s, m, id);
      var u := DmaIsWaitedFor(c, s, n, id);
      OneOwner(c, s, id, t, u);
    }
    forall t, u | Touches(s, t, id) && Touches(s, u, id) ensures t == u {
      OneOwner(c, s, id, t, u);
    }
  }

  // ----- the end of a transfer -----

  lemma EndsIdle(th: Thread, sv: Server, cn: Conn, seg: seq<byte>)
    requires Session(th, sv, cn, seg) && th.pc.CUnlock? && Awaited(th.op)
    ensures cn.c2s == [] && cn.s2c == [] && sv.pc == SIdle
  {
  }

  /** When a send, a receive of at least one byte, or an answered remote call is about to let go of its connection,
      nothing is in flight. */
  lemma NothingInFlight(c: Config, s: State, t: nat)
    requires Reachable(c, s) && t in s.threads && s.threads[t].pc.CUnlock?
    requires Awaited(s.threads[t].op)
    ensures var n := s.threads[t].op.node;
            && n in s.conns && s.conns[n].c2s == [] && s.conns[n].s2c == []
            && n in s.servers && s.servers[n].pc == SIdle
  {
    ReachableSessions(c, s);
    var th := s.threads[t];
    EndsIdle(th, s.servers[th.op.node], s.conns[th.op.node], SegOf(s, th.id));
  }

  lemma DmaEndsIdle(th: Thread, sv: Server, cn: Conn, seg: seq<byte>)
    requires Session(th, sv, cn, seg) && At(th.pc, GiveBack(Done))
    ensures cn.c2s == [] && cn.s2c == [] && sv.pc == SIdle
  {
  }

  /** The same after every transfer over DMA, of any size, from the moment it gives its segment back. */
  lemma NothingInFlightAfterDma(c: Config, s: State, t: nat)
    requires Reachable(c, s) && t in s.threads && At(s.threads[t].pc, GiveBack(Done))
    ensures var n := s.threads[t].op.node;
            && n in s.conns && s.conns[n].c2s == [] && s.conns[n].s2c == []
            && n in s.servers && s.servers[n].pc == SIdle
  {
    ReachableSessions(c, s);
    var th := s.threads[t];
    DmaEndsIdle(th, s.servers[th.op.node], s.conns[th.op.node], SegOf(s, th.id));
  }

  lemma RefusalRead(th: Thread, sv: Server, cn: Conn, seg: seq<byte>)
    requires Session(th, sv, cn, seg) && Refused(th.pc)
    ensures cn.c2s == []
    ensures th.op.kind == RawRecv && th.op.size == 0 ==> cn.s2c == []
  {
  }

  /** The server has read everything when it has refused the segment, and owes nothing to a receive of zero bytes. */
  lemma NothingUnreadAfterRefusal(c: Config, s: State, t: nat)
    requires Reachable(c, s) && t in s.threads && Refused(s.threads[t].pc)
    ensures var n := s.threads[t].op.node;
            && n in s.conns && s.conns[n].c2s == []
            && (s.threads[t].op.kind == RawRecv && s.threads[t].op.size == 0 ==> s.conns[n].s2c == [])
  {
    ReachableSessions(c, s);
    var th := s.threads[t];
    RefusalRead(th, s.servers[th.op.node], s.conns[th.op.node], SegOf(s, th.id));
  }

  // ----- how many segments -----

  /** The largest number of transfers that at one time in the run held a segment or were creating one. */
  function PeakOf(c: Config, s: State, run: seq<Action>): nat
    requires Legal(c, s, run)
    decreases |run|
  {
    var busy := |Busy(s.threads)|;
    if run == [] then busy
    else
      var later := PeakOf(c, Apply(c, s, run[0]), run[1..]);
      if busy > later then busy else later
  }

  lemma PeakStep(c: Config, s: State, a: Action)
    requires Enabled(c, s, a)
    ensures var s' := Apply(c, s, a); var busy := |Busy(s'.threads)|;
            s'.peak == if a.Client? && busy > s.peak then busy else s.peak
    ensures !a.Client? ==> Busy(Apply(c, s, a).threads) == Busy(s.threads)
  {
    match a
    case Begin(_, _, _) => BeginBusy(c, s, a);
    case Client(_, _) =>
    case Serve(_, _) =>
  }

  lemma {:induction false} PeakRecorded(c: Config, s: State, run: seq<Action>)
    requires Legal(c, s, run) && |Busy(s.threads)| <= s.peak
    ensures Exec(c, s, run).peak == if PeakOf(c, s, run) > s.peak then PeakOf(c, s, run) else s.peak
    decreases |run|
  {
    if run != [] {
      PeakStep(c, s, run[0]);
      PeakRecorded(c, Apply(c, s, run[0]), run[1..]);
    }
  }

  /** The segments attached now: those in the pool and those with a transfer. */
  function Existing(s: State): set<int> {
    (set id | id in s.pool) + (set t | t in s.threads && Owns(s.threads[t].pc) :: s.threads[t].id)
  }

  lemma {:induction false} ImageCount(threads: map<nat, Thread>, ts: set<nat>)
    requires forall t :: t in ts ==> t in threads
    ensures |set t | t in ts :: threads[t].id| <= |ts|
    decreases |ts|
  {
    if ts != {} {
      var t :| t in ts;
      ImageCount(threads, ts - {t});
      assert (set u | u in ts :: threads[u].id) == (set u | u in ts - {t} :: threads[u].id) + {threads[t].id};
    }
  }

  lemma {:induction false} PoolSetCount(pool: seq<int>)
    ensures |set id | id in pool| <= |pool|
    decreases |pool|
  {
    if pool != [] {
      PoolSetCount(pool[1..]);
      assert (set id | id in pool) == (set id | id in pool[1..]) + {pool[0]};
    }
  }

  lemma SegmentsCount(s: State)
    ensures |Existing(s)| <= |s.pool| + |Busy(s.threads)|
  {
    var owners := set t | t in s.threads && Owns(s.threads[t].pc);
    var owned := set t | t in owners :: s.threads[t].id;
    var pooled := set id | id in s.pool;
    ImageCount(s.threads, owners);
    PoolSetCount(s.pool);
    assert Existing(s) == pooled + owned;
    SubsetCount(owners, Busy(s.threads));
  }

  lemma {:induction false} SubsetCount(a: set<nat>, b: set<nat>)
    requires a <= b
    ensures |a| <= |b|
    decreases |a|
  {
    if a != {} {
      var x :| x in a;
      SubsetCount(a - {x}, b - {x});
    }
  }

  /** The pool never grows beyond the peak of concurrent demand; and as long as no creation has failed, pooled
      segments plus transfers that hold or create one are exactly that many. */
  lemma PoolBoundedByPeak(c: Config, s: State, run: seq<Action>)
    requires Init(s) && Legal(c, s, run)
    ensures var s' := Exec(c, s, run);
            && |Existing(s')| <= PeakOf(c, s, run)
            && |s'.pool| + |Busy(s'.threads)| <= PeakOf(c, s, run)
            && (!s'.failed ==> |s'.pool| + |Busy(s'.threads)| == PeakOf(c, s, run))
  {
    var s' := Exec(c, s, run);
    assert Busy(s.threads) == {};
    InitReachable(c, s);
    RunReaches(c, s, run);
    ReachableProbes(c, s');
    PeakRecorded(c, s, run);
    SegmentsCount(s');
  }

  // ----- the choice of get_shm -----

  /** If some free segment is known usable for n, get_shm takes the first such one. */
  lemma {:induction false} PickPrefersUsable(pool: seq<int>, usable: map<(Node, int), bool>, n: Node, i: nat)
    requires pool != [] && i <= |pool|
    ensures var k := PickFrom(pool, usable, n, i);
            && ((exists j :: i <= j < |pool| && KnownUsable(usable, n, pool[j])) ==>
                 && i <= k && KnownUsable(usable, n, pool[k])
                 && forall j :: i <= j < k ==> !KnownUsable(usable, n, pool[j]))
            && ((forall j :: i <= j < |pool| ==> !KnownUsable(usable, n, pool[j])) ==> k == |pool| - 1)
    decreases |pool| - i
  {
    if i < |pool| && !KnownUsable(usable, n, pool[i]) {
      PickPrefersUsable(pool, usable, n, i + 1);
    }
  }
}
