/** No deadlock, and no run of a transfer goes on forever. */
module Progress {
  import opened Blocks
  import opened Wire
  import opened Transport
  import opened ClientSide
  import opened Invariants
  import opened Segments
  import opened Safety

  const ANY: Choice := Choice(false, 0)

  // ----- somebody can always move -----

  lemma InsideMoves(c: Config, s: State, u: nat)
    requires ConnsOk(s) && PoolOk(s) && u in s.threads && s.threads[u].pc.CInside?
    ensures CanClient(c, s, u, ANY)
  {
  }

  lemma WaiterMoves(c: Config, s: State, u: nat)
    requires ConnsOk(s) && u in s.threads && s.threads[u].pc.CAcquire? && LockOf(s.threads[u].pc.r) !in s.locks
    ensures CanClient(c, s, u, ANY)
  {
  }

  lemma PickerMoves(c: Config, s: State, t: nat) returns (u: nat)
    requires LocksOk(s) && ConnsOk(s) && PoolOk(s) && t in s.threads && s.threads[t].pc == CAcquire(Pick)
    ensures CanClient(c, s, u, ANY)
  {
    u := t;
    if UsableLock !in s.locks {
      WaiterMoves(c, s, t);
    } else {
      u := s.locks[UsableLock];
      assert Holds(s.threads[u].pc, UsableLock);
      InsideMoves(c, s, u);
    }
  }

  /** A lock never has to be waited for in vain: its holder, or the one that the holder waits for, can move.
      The only nesting is dma_usable_list_lock inside dma_buf_list_lock. */
  lemma LockMoves(c: Config, s: State, t: nat) returns (u: nat)
    requires LocksOk(s) && ConnsOk(s) && PoolOk(s) && t in s.threads && s.threads[t].pc.CAcquire?
    ensures CanClient(c, s, u, ANY)
  {
    var l := LockOf(s.threads[t].pc.r);
    if l !in s.locks {
      WaiterMoves(c, s, t);
      return t;
    }
    u := s.locks[l];
    assert Holds(s.threads[u].pc, l);
    if s.threads[u].pc.CInside? {
      InsideMoves(c, s, u);
    } else {
      u := PickerMoves(c, s, u);
    }
  }

  /** With nothing to read, a server can move unless it waits for a packet that has not been written. */
  lemma ServerMoves(c: Config, s: State, t: nat)
    requires ConnsOk(s) && SessionsOk(s) && c.capacity > 0 && t in s.threads && InCall(s.threads[t].pc)
    requires var n := s.threads[t].op.node;
             s.conns[n].s2c == [] && (s.conns[n].c2s != [] || !Reading(Drain(s.servers[n].pc, s.conns[n].c2s)))
    ensures CanServe(c, s, s.threads[t].op.node)
  {
  }

  /** The reply a client waits for is one its server is about to give. */
  lemma HearerWaits(th: Thread, v: View)
    requires Turn(th, v) && Hears(th.pc, th.op) && v.s2c == []
    ensures !Reading(v.rest)
  {
  }

  lemma HolderMoves(c: Config, s: State, t: nat) returns (a: Action)
    requires ConnsOk(s) && SessionsOk(s) && c.capacity > 0 && t in s.threads && DoesIo(s.threads[t].pc)
    ensures !a.Begin? && Enabled(c, s, a)
  {
    var th := s.threads[t];
    var n := th.op.node;
    a := Client(t, ANY);
    if !CanClient(c, s, t, ANY) {
      if Hears(th.pc, th.op) {
        HearerWaits(th, ViewOf(s.servers[n].pc, s.conns[n]));
      } else {
        WriterWaits(th, ViewOf(s.servers[n].pc, s.conns[n]));
      }
      ServerMoves(c, s, t);
      a := Serve(n, ANY);
    }
  }

  lemma WriterWaits(th: Thread, v: View)
    requires Turn(th, v) && Writes(th.pc, th.op)
    ensures v.s2c == []
  {
  }

  lemma RegionMoves(c: Config, s: State, t: nat) returns (u: nat)
    requires LocksOk(s) && ConnsOk(s) && PoolOk(s)
    requires t in s.threads && InCall(s.threads[t].pc) && !DoesIo(s.threads[t].pc)
    ensures CanClient(c, s, u, ANY)
  {
    u := t;
    if s.threads[t].pc.CAcquire? {
      u := LockMoves(c, s, t);
    } else if s.threads[t].pc.CInside? {
      InsideMoves(c, s, t);
    }
  }

  lemma InCallMoves(c: Config, s: State, t: nat) returns (a: Action)
    requires LocksOk(s) && ConnsOk(s) && SessionsOk(s) && PoolOk(s)
    requires c.capacity > 0 && t in s.threads && InCall(s.threads[t].pc)
    ensures !a.Begin? && Enabled(c, s, a)
  {
    if DoesIo(s.threads[t].pc) {
      a := HolderMoves(c, s, t);
    } else {
      var u := RegionMoves(c, s, t);
      a := Client(u, ANY);
    }
  }

  /** Deadlock freedom: for every number of threads and servers and every buffer capacity, as long as a call
      is unfinished, some thread or server can take a step. */
  lemma NoDeadlock(c: Config, s: State, t: nat) returns (a: Action)
    requires Reachable(c, s) && c.capacity > 0 && t in s.threads && !s.threads[t].pc.CIdle?
    ensures !a.Begin? && Enabled(c, s, a)
  {
    ReachableGood(c, s);
    var u := Blocker(s, t);
    if InCall(s.threads[u].pc) {
      a := InCallMoves(c, s, u);
    } else {
      u := OutsideMoves(c, s, t);
      a := Client(u, ANY);
    }
  }

  /** The thread a caller waits for, if it waits for a connection: the one that holds it. */
  lemma Blocker(s: State, t: nat) returns (u: nat)
    requires ConnsOk(s) && t in s.threads && !s.threads[t].pc.CIdle?
    ensures u in s.threads
    ensures InCall(s.threads[u].pc) ||
            (!InCall(s.threads[t].pc) && (s.threads[t].pc.CLockConn? ==> s.conns[s.threads[t].op.node].holder == {}))
  {
    u := t;
    var n := s.threads[t].op.node;
    if s.threads[t].pc.CLockConn? && s.conns[n].holder != {} {
      u :| u in s.conns[n].holder;
    }
  }

  lemma OutsideMoves(c: Config, s: State, t: nat) returns (u: nat)
    requires LocksOk(s) && ConnsOk(s) && PoolOk(s) && t in s.threads
    requires !s.threads[t].pc.CIdle? && !InCall(s.threads[t].pc)
    requires s.threads[t].pc.CLockConn? ==> s.conns[s.threads[t].op.node].holder == {}
    ensures CanClient(c, s, u, ANY)
  {
    u := t;
    if s.threads[t].pc.CInside? {
      InsideMoves(c, s, t);
    } else if s.threads[t].pc.CAcquire? {
      u := LockMoves(c, s, t);
    }
  }

  // ----- no transfer goes on forever -----

  /** An upper bound on the steps a region and what follows it can take, for a transfer of nb whole blocks. */
  function RegionRank(r: Region, nb: nat): nat {
    match r
    case GiveBack(_) => 5
    case Verdict(_) => 4 * nb + 14
    case Lookup => 4 * nb + 19
    case Record => 4 * nb + 22
    case Pick => 4 * nb + 22
    case GetFree => 4 * nb + 25
    case SetType(_) => 4 * nb + 27
    case GetType => 4 * nb + 31
    case Connect => 4 * nb + 36
  }

  /** An upper bound on the steps a thread has left in its call. */
  function Rank(th: Thread): nat {
    var nb := NumBlocks(th.op.size);
    match th.pc
    case CIdle | CBroken => 0
    case CUnlock => 1
    case CHearAck | CHearAnswer => 2
    case CTcpOut | CTcpIn | CCall => 3
    case CSayTcp => 4
    case CInside(r) => RegionRank(r, nb)
    case CAcquire(r) => RegionRank(r, nb) + 1
    case CDrain(i) => 7 + 4 * BlocksLeft(nb, i)
    case CFinish(i) => 8 + 4 * BlocksLeft(nb, i)
    case CStart(i) => 9 + 4 * BlocksLeft(nb, i)
    case CFill(i) => 10 + 4 * BlocksLeft(nb, i)
    case CUseId => 4 * nb + 12
    case CSayUse => 4 * nb + 13
    case CHearTry => 4 * nb + 16
    case CTryId => 4 * nb + 17
    case CSayTry => 4 * nb + 18
    case CAttach => 4 * nb + 21
    case CCreate => 4 * nb + 24
    case CHearVe => 4 * nb + 29
    case CAskVe => 4 * nb + 30
    case CAddr => 4 * nb + 33
    case CHdr => 4 * nb + 34
    case CLockConn => 4 * nb + 35
  }

  function BlocksLeft(nb: nat, i: nat): nat {
    if i < nb then nb - i else 0
  }

  lemma WriteRank(th: Thread)
    requires Writes(th.pc, th.op)
    ensures Rank(th.(pc := AfterOut(th), asked := th.asked || th.pc.CAskVe?)) < Rank(th)
  {
  }

  lemma HearRank(th: Thread, p: Packet, buf: seq<byte>)
    requires Hears(th.pc, th.op)
    ensures Rank(th.(pc := AfterIn(th, p), buf := buf)) < Rank(th)
  {
  }

  lemma IoRank(l: Local)
    requires DoesIo(l.th.pc) && (Hears(l.th.pc, l.th.op) ==> l.cn.s2c != [])
    ensures Rank(Io(l).th) < Rank(l.th)
  {
    if Writes(l.th.pc, l.th.op) {
      WriteRank(l.th);
    } else if Hears(l.th.pc, l.th.op) {
      HearRank(l.th, l.cn.s2c[0], Io(l).th.buf);
    }
  }

  lemma LeaveRank(c: Config, s: State, th: Thread, ch: Choice)
    requires th.pc.CInside?
    ensures forall id :: Rank(th.(pc := Leave(c, s, th, th.pc.r, ch), id := id)) < Rank(th)
  {
  }

  lemma NextRank(c: Config, s: State, th: Thread, ch: Choice)
    requires !th.pc.CInside? && !DoesIo(th.pc) && !th.pc.CIdle? && !th.pc.CBroken?
    ensures forall id :: Rank(th.(pc := Next(c, s, th, ch), id := id)) < Rank(th)
  {
  }

  /** Every step of a thread brings its call closer to the end. */
  lemma RankShrinks(c: Config, s: State, t: nat, ch: Choice)
    requires CanClient(c, s, t, ch)
    ensures Rank(ThreadAfter(c, s, t, ch)) < Rank(s.threads[t])
  {
    var th := s.threads[t];
    if DoesIo(th.pc) {
      IoRank(Local(th, s.conns[th.op.node], SegOf(s, th.id)));
    } else if th.pc.CInside? {
      LeaveRank(c, s, th, ch);
    } else {
      NextRank(c, s, th, ch);
    }
  }

  // Sums over all threads and over all servers.

  ghost function ThreadsRank(threads: map<nat, Thread>): nat {
    if threads == map[] then 0
    else var t :| t in threads; Rank(threads[t]) + ThreadsRank(threads - {t})
  }

  lemma {:induction false} ThreadsRankSplit(threads: map<nat, Thread>, t: nat)
    requires t in threads
    ensures ThreadsRank(threads) == Rank(threads[t]) + ThreadsRank(threads - {t})
    decreases |threads|
  {
    var u :| u in threads && ThreadsRank(threads) == Rank(threads[u]) + ThreadsRank(threads - {u});
    if u != t {
      ThreadsRankSplit(threads - {u}, t);
      ThreadsRankSplit(threads - {t}, u);
      assert threads - {u} - {t} == threads - {t} - {u};
    }
  }

  /** Steps a server can take on what it has been sent so far. */
  function ServerRank(sv: Server, q: nat): nat {
    8 * q + WorkLeft(sv.pc)
  }

  function QueueAt(s: State, n: Node): nat {
    if n in s.conns then |s.conns[n].c2s| else 0
  }

  ghost function ServersRank(s: State, nodes: set<Node>): nat
    requires nodes <= s.servers.Keys
  {
    if nodes == {} then 0
    else var n :| n in nodes; ServerRank(s.servers[n], QueueAt(s, n)) + ServersRank(s, nodes - {n})
  }

  lemma {:induction false} ServersRankSplit(s: State, nodes: set<Node>, n: Node)
    requires nodes <= s.servers.Keys && n in nodes
    ensures ServersRank(s, nodes) == ServerRank(s.servers[n], QueueAt(s, n)) + ServersRank(s, nodes - {n})
    decreases |nodes|
  {
    var m :| m in nodes &&
             ServersRank(s, nodes) == ServerRank(s.servers[m], QueueAt(s, m)) + ServersRank(s, nodes - {m});
    if m != n {
      ServersRankSplit(s, nodes - {m}, n);
      ServersRankSplit(s, nodes - {n}, m);
      assert nodes - {m} - {n} == nodes - {n} - {m};
    }
  }

  lemma {:induction false} ServersRankSame(s: State, s': State, nodes: set<Node>)
    requires nodes <= s.servers.Keys && nodes <= s'.servers.Keys
    requires forall m :: m in nodes ==> s'.servers[m] == s.servers[m] && QueueAt(s', m) == QueueAt(s, m)
    ensures ServersRank(s', nodes) == ServersRank(s, nodes)
    decreases |nodes|
  {
    if nodes != {} {
      var n :| n in nodes;
      ServersRankSplit(s, nodes, n);
      ServersRankSplit(s', nodes, n);
      ServersRankSame(s, s', nodes - {n});
    }
  }

  lemma ServeRank(c: Config, s: State, n: Node, ch: Choice)
    requires CanServe(c, s, n)
    ensures var s' := ServeStep(c, s, n, ch);
            ServerRank(s'.servers[n], QueueAt(s', n)) < ServerRank(s.servers[n], QueueAt(s, n))
  {
    WorkShrinks(s.servers[n].pc);
  }

  ghost function Servers(s: State): nat {
    ServersRank(s, s.servers.Keys)
  }

  /** Termination: every step other than a new call makes the pair of sums smaller, so no schedule of
      clients and servers is infinite unless new calls keep arriving. */
  lemma StepShrinks(c: Config, s: State, a: Action)
    requires Enabled(c, s, a) && !a.Begin?
    ensures var s' := Apply(c, s, a);
            || ThreadsRank(s'.threads) < ThreadsRank(s.threads)
            || (s'.threads == s.threads && Servers(s') < Servers(s))
  {
    var s' := Apply(c, s, a);
    match a
    case Client(t, ch) =>
      RankShrinks(c, s, t, ch);
      ThreadsRankSplit(s.threads, t);
      ThreadsRankSplit(s'.threads, t);
      assert s'.threads - {t} == s.threads - {t};
    case Serve(n, ch) =>
      ServeFrame(c, s, n, ch);
      ServeRank(c, s, n, ch);
      ServersRankSplit(s, s.servers.Keys, n);
      ServersRankSplit(s', s.servers.Keys, n);
      assert s'.servers.Keys == s.servers.Keys;
      ServersRankSame(s, s', s.servers.Keys - {n});
  }

  ghost predicate AllIdle(s: State) {
    forall t :: t in s.threads ==> s.threads[t].pc.CIdle?
  }

  /** A step that brings the calls under way closer to their ends. */
  lemma FinishStep(c: Config, s: State) returns (a: Action)
    requires Reachable(c, s) && c.capacity > 0 && !AllIdle(s)
    ensures !a.Begin? && Enabled(c, s, a) && Reachable(c, Apply(c, s, a))
    ensures var s' := Apply(c, s, a);
            || ThreadsRank(s'.threads) < ThreadsRank(s.threads)
            || (ThreadsRank(s'.threads) == ThreadsRank(s.threads) && Servers(s') < Servers(s))
  {
    var t :| t in s.threads && !s.threads[t].pc.CIdle?;
    a := NoDeadlock(c, s, t);
    ReachStep(c, s, a);
    StepShrinks(c, s, a);
  }

  /** From every reachable state the calls under way can be brought to their ends without starting new ones;
      by StepShrinks no other schedule can avoid it forever. */
  lemma {:induction false} CallsFinish(c: Config, s: State) returns (run: seq<Action>)
    requires Reachable(c, s) && c.capacity > 0
    ensures Legal(c, s, run) && AllIdle(Exec(c, s, run))
    ensures forall k :: 0 <= k < |run| ==> !run[k].Begin?
    decreases ThreadsRank(s.threads), Servers(s)
  {
    if AllIdle(s) {
      run := [];
    } else {
      var a := FinishStep(c, s);
      run := CallsFinish(c, Apply(c, s, a));
      RunCons(c, s, a, run);
      run := [a] + run;
    }
  }
}
