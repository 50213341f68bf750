/** Every reachable state of the transport is good, and what that means. */
module Safety {
  import opened Blocks
  import opened Sequences
  import opened Wire
  import opened Transport
  import opened ClientSide
  import opened ServerSide
  import opened Invariants
  import opened Segments

  // ----- server steps -----

  lemma ServedSegment(sv: Server, cn: Conn, a: seq<byte>, b: seq<byte>, ch: Choice)
    requires Reading(sv.pc) ==> cn.c2s != []
    requires !sv.pc.SDma?
    ensures Served(sv, cn, a, ch) == Served(sv, cn, b, ch).(seg := a)
    ensures Served(sv, cn, a, ch).seg == a
  {
  }

  /** The thread a server works for, when it runs a DMA. */
  lemma DmaOwner(s: State, n: Node) returns (t: nat)
    requires ConnsOk(s) && SessionsOk(s) && n in s.conns && s.servers[n].pc.SDma?
    ensures t in s.threads && s.threads[t].op.node == n && s.threads[t].pc == CFinish(s.servers[n].pc.i)
    ensures s.threads[t].id == s.servers[n].pc.id && s.conns[n].holder == {t}
    ensures Session(s.threads[t], s.servers[n], s.conns[n], SegOf(s, s.threads[t].id))
  {
    var sv := s.servers[n];
    if s.conns[n].holder == {} {
      RestsEarly(sv.pc, s.conns[n].c2s);
    }
    t :| t in s.conns[n].holder;
    DmaMeetsFinish(s.threads[t], sv, s.conns[n]);
  }

  lemma ServedSession(c: Config, s: State, n: Node, ch: Choice, u: nat)
    requires ConnsOk(s) && SessionsOk(s) && PoolOk(s) && CanServe(c, s, n)
    requires u in s.threads && InCall(s.threads[u].pc) && s.threads[u].op.node == n
    ensures var s' := ServeStep(c, s, n, ch); var th := s.threads[u];
            && !s'.servers[n].pc.SBroken?
            && Session(th, s'.servers[n], s'.conns[n], SegOf(s', th.id))
  {
    var th := s.threads[u];
    var sv := s.servers[n];
    ServeFrame(c, s, n, ch);
    ServeKeeps(th, sv, s.conns[n], SegOf(s, th.id), ch);
    if sv.pc.SDma? {
      var t := DmaOwner(s, n);
      assert t == u;
    } else {
      ServedSegment(sv, s.conns[n], SegOf(s, th.id), SegOf(s, DmaId(sv.pc)), ch);
    }
  }

  lemma UnservedSession(c: Config, s: State, n: Node, ch: Choice, u: nat)
    requires ConnsOk(s) && SessionsOk(s) && PoolOk(s) && CanServe(c, s, n)
    requires u in s.threads && InCall(s.threads[u].pc) && s.threads[u].op.node != n
    ensures var s' := ServeStep(c, s, n, ch); var th := s.threads[u]; var m := th.op.node;
            Session(th, s'.servers[m], s'.conns[m], SegOf(s', th.id))
  {
    var th := s.threads[u];
    var m := th.op.node;
    var s' := ServeStep(c, s, n, ch);
    ServeFrame(c, s, n, ch);
    if !Owns(th.pc) {
      SegIrrelevant(th, s.servers[m], s.conns[m], SegOf(s, th.id), SegOf(s', th.id));
    } else if s.servers[n].pc.SDma? {
      var t := DmaOwner(s, n);
      assert s.threads[t].id != th.id;
    }
  }

  lemma ServedFree(c: Config, s: State, n: Node, ch: Choice)
    requires ConnsOk(s) && SessionsOk(s) && CanServe(c, s, n) && s.conns[n].holder == {}
    ensures var s' := ServeStep(c, s, n, ch);
            && !s'.servers[n].pc.SBroken? && Free(s'.servers[n], s'.conns[n])
            && Settled(s'.servers[n].pc, s'.servers[n].mem, s'.conns[n].c2s) ==
               Settled(s.servers[n].pc, s.servers[n].mem, s.conns[n].c2s)
            && s'.servers[n].shmMap == s.servers[n].shmMap && s'.segs == s.segs
  {
    ServeFrame(c, s, n, ch);
    FreeKeeps(s.servers[n], s.conns[n], SegOf(s, DmaId(s.servers[n].pc)), ch);
  }

  lemma ServeConns(c: Config, s: State, n: Node, ch: Choice)
    requires ConnsOk(s) && CanServe(c, s, n)
    ensures ConnsOk(ServeStep(c, s, n, ch))
  {
    ServeFrame(c, s, n, ch);
  }

  lemma ServeHeld(c: Config, s: State, n: Node, ch: Choice, u: nat)
    requires ConnsOk(s) && SessionsOk(s) && PoolOk(s) && CanServe(c, s, n)
    requires u in s.threads && InCall(s.threads[u].pc)
    ensures var s' := ServeStep(c, s, n, ch); var th := s.threads[u]; var m := th.op.node;
            m in s'.servers && m in s'.conns && Session(th, s'.servers[m], s'.conns[m], SegOf(s', th.id))
  {
    if s.threads[u].op.node == n {
      ServedSession(c, s, n, ch, u);
    } else {
      UnservedSession(c, s, n, ch, u);
    }
  }

  /** The server that has taken a step, and its connection if nobody holds it. */
  lemma ServeOwn(c: Config, s: State, n: Node, ch: Choice)
    requires ConnsOk(s) && SessionsOk(s) && PoolOk(s) && CanServe(c, s, n)
    ensures var s' := ServeStep(c, s, n, ch);
            && !s'.servers[n].pc.SBroken?
            && (s.conns[n].holder == {} ==> Free(s'.servers[n], s'.conns[n]))
  {
    if s.conns[n].holder == {} {
      ServedFree(c, s, n, ch);
    } else {
      var u :| u in s.conns[n].holder;
      ServedSession(c, s, n, ch, u);
    }
  }

  lemma ServeSessions(c: Config, s: State, n: Node, ch: Choice)
    requires ConnsOk(s) && SessionsOk(s) && PoolOk(s) && CanServe(c, s, n)
    requires ConnsOk(ServeStep(c, s, n, ch))
    ensures SessionsOk(ServeStep(c, s, n, ch))
  {
    var s' := ServeStep(c, s, n, ch);
    ServeFrame(c, s, n, ch);
    forall u | u in s'.threads && InCall(s'.threads[u].pc)
      ensures var th := s'.threads[u]; var m := th.op.node;
              Session(th, s'.servers[m], s'.conns[m], SegOf(s', th.id))
    {
      ServeHeld(c, s, n, ch, u);
    }
    ServeOwn(c, s, n, ch);
  }

  lemma ServeTables(c: Config, s: State, n: Node, ch: Choice)
    requires LocksOk(s) && BoundOk(s) && CanServe(c, s, n)
    ensures var s' := ServeStep(c, s, n, ch); LocksOk(s') && BoundOk(s')
  {
    ServeFrame(c, s, n, ch);
  }

  lemma ServeOwned(c: Config, s: State, n: Node, ch: Choice)
    requires OwnedOk(s) && CanServe(c, s, n)
    ensures OwnedOk(ServeStep(c, s, n, ch))
  {
    var s' := ServeStep(c, s, n, ch);
    ServeFrame(c, s, n, ch);
    forall id | id in s'.attached && id !in s'.pool ensures exists t :: OwnedBy(s', id, t) {
      var t :| OwnedBy(s, id, t);
      assert OwnedBy(s', id, t);
    }
  }

  lemma ServePool(c: Config, s: State, n: Node, ch: Choice)
    requires PoolOk(s) && CanServe(c, s, n)
    ensures PoolOk(ServeStep(c, s, n, ch))
  {
    var s' := ServeStep(c, s, n, ch);
    ServeFrame(c, s, n, ch);
    forall t | t in s'.threads ensures IdOk(s', t) {
      assert IdOk(s, t);
    }
  }

  lemma ServeProbes(c: Config, s: State, n: Node, ch: Choice)
    requires ProbesOk(s) && CanServe(c, s, n)
    ensures ProbesOk(ServeStep(c, s, n, ch))
  {
    ServeFrame(c, s, n, ch);
  }

  // ----- all steps -----

  lemma BeginConns(c: Config, s: State, a: Action)
    requires ConnsOk(s) && Enabled(c, s, a) && a.Begin?
    ensures ConnsOk(Apply(c, s, a))
  {
    var s' := Apply(c, s, a);
    forall t | t in s'.threads ensures ThreadOk(s', t) {
      assert ThreadOk(s, t);
    }
  }

  lemma BeginSessions(c: Config, s: State, s': State, a: Action)
    requires ConnsOk(s) && SessionsOk(s) && Enabled(c, s, a) && a.Begin? && s' == Apply(c, s, a) && ConnsOk(s')
    ensures SessionsOk(s')
  {
  }

  lemma BeginLocks(c: Config, s: State, a: Action)
    requires LocksOk(s) && Enabled(c, s, a) && a.Begin?
    ensures LocksOk(Apply(c, s, a))
  {
  }

  /** A call begins: its thread has left the program for the transport, and has nothing yet. */
  predicate Started(s: State, s': State, t: nat) {
    && t in s.threads && t in s'.threads && s' == s.(threads := s.threads[t := s'.threads[t]])
    && s.threads[t].pc == CIdle && s'.threads[t].pc == CAcquire(Connect)
  }

  lemma StartedHasNone(s: State, s': State, t: nat, u: nat)
    requires Started(s, s', t) && u in s'.threads
    ensures HasId(s'.threads[u].pc) || At(s'.threads[u].pc, Pick) ==> u != t
    ensures u in s.threads && (u != t ==> s'.threads[u] == s.threads[u])
  {
  }

  lemma BeginPool(s: State, s': State, t: nat)
    requires PoolOk(s) && Started(s, s', t)
    ensures PoolOk(s')
  {
    forall u | u in s'.threads ensures IdOk(s', u) && (At(s'.threads[u].pc, Pick) ==> s'.pool != []) {
      StartedHasNone(s, s', t, u);
      assert IdOk(s, u);
    }
    forall u, v | u in s'.threads && v in s'.threads && u != v && HasId(s'.threads[u].pc) && HasId(s'.threads[v].pc)
      ensures s'.threads[u].id != s'.threads[v].id
    {
      StartedHasNone(s, s', t, u);
      StartedHasNone(s, s', t, v);
    }
  }

  lemma BeginOwned(c: Config, s: State, a: Action)
    requires OwnedOk(s) && Enabled(c, s, a) && a.Begin?
    ensures OwnedOk(Apply(c, s, a))
  {
    var s' := Apply(c, s, a);
    forall id | id in s'.attached && id !in s'.pool ensures exists u :: OwnedBy(s', id, u) {
      var u :| OwnedBy(s, id, u);
      assert OwnedBy(s', id, u);
    }
  }

  lemma BeginProbing(c: Config, s: State, a: Action)
    requires ProbingOk(s) && Enabled(c, s, a) && a.Begin?
    ensures ProbingOk(Apply(c, s, a))
  {
  }

  lemma BeginProbes(c: Config, s: State, a: Action)
    requires ProbesOk(s) && Enabled(c, s, a) && a.Begin?
    ensures ProbesOk(Apply(c, s, a))
  {
    BeginProbing(c, s, a);
  }

  lemma BeginBusy(c: Config, s: State, a: Action)
    requires Enabled(c, s, a) && a.Begin?
    ensures Busy(Apply(c, s, a).threads) == Busy(s.threads)
  {
  }

  lemma BeginBound(c: Config, s: State, a: Action)
    requires BoundOk(s) && Enabled(c, s, a) && a.Begin?
    ensures BoundOk(Apply(c, s, a))
  {
    BeginBusy(c, s, a);
  }

  /** Every step keeps the invariant. */
  lemma StepKeeps(c: Config, s: State, a: Action)
    requires Inv(s) && Enabled(c, s, a)
    ensures Inv(Apply(c, s, a))
  {
    match a
    case Begin(_, _, _) =>
      BeginConns(c, s, a);
      BeginSessions(c, s, Apply(c, s, a), a);
      BeginLocks(c, s, a);
      BeginPool(s, Apply(c, s, a), a.tid);
      BeginOwned(c, s, a);
      BeginProbes(c, s, a);
      BeginBound(c, s, a);
    case Client(t, ch) =>
      ClientLocks(c, s, t, ch);
      ClientConns(c, s, t, ch);
      ClientSessions(c, s, t, ch);
      ClientPool(c, s, t, ch);
      ClientOwned(c, s, t, ch);
      ClientProbes(c, s, t, ch);
      ClientBound(c, s, t, ch);
    case Serve(n, ch) =>
      ServeConns(c, s, n, ch);
      ServeSessions(c, s, n, ch);
      ServeTables(c, s, n, ch);
      ServeOwned(c, s, n, ch);
      ServePool(c, s, n, ch);
      ServeProbes(c, s, n, ch);
  }

  lemma InitConns(s: State)
    requires Init(s)
    ensures ConnsOk(s) && SessionsOk(s)
  {
  }

  lemma InitTables(s: State)
    requires Init(s)
    ensures LocksOk(s) && PoolOk(s) && OwnedOk(s) && ProbesOk(s)
  {
  }

  lemma InitHolds(s: State)
    requires Init(s)
    ensures Inv(s)
  {
    InitConns(s);
    InitTables(s);
    assert Busy(s.threads) == {};
  }

  // ----- reachable states -----

  predicate Leads(c: Config, s: State, a: Action, s': State) {
    Enabled(c, s, a) && s' == Apply(c, s, a)
  }

  predicate Ends(c: Config, s0: State, run: seq<Action>, s: State) {
    Legal(c, s0, run) && Exec(c, s0, run) == s
  }

  ghost predicate ReachedBy(c: Config, s0: State, run: seq<Action>, s: State) {
    Init(s0) && Ends(c, s0, run, s)
  }

  /** Some interleaving of any number of calls, with any outcome of the system calls, leads to s. */
  ghost predicate Reachable(c: Config, s: State) {
    exists s0, run :: ReachedBy(c, s0, run, s)
  }

  lemma RunCons(c: Config, s: State, a: Action, rest: seq<Action>)
    requires Enabled(c, s, a) && Legal(c, Apply(c, s, a), rest)
    ensures Legal(c, s, [a] + rest) && Exec(c, s, [a] + rest) == Exec(c, Apply(c, s, a), rest)
  {
    assert ([a] + rest)[0] == a && ([a] + rest)[1..] == rest;
  }

  lemma EndsSplit(c: Config, s0: State, run: seq<Action>, s: State) returns (s1: State)
    requires Ends(c, s0, run, s) && run != []
    ensures Leads(c, s0, run[0], s1) && Ends(c, s1, run[1..], s)
  {
    s1 := Apply(c, s0, run[0]);
  }

  lemma EndsJoin(c: Config, s0: State, a: Action, s1: State, rest: seq<Action>, s: State)
    requires Leads(c, s0, a, s1) && Ends(c, s1, rest, s)
    ensures Ends(c, s0, [a] + rest, s)
  {
    RunCons(c, s0, a, rest);
  }

  lemma {:induction false} EndsOneLater(c: Config, s0: State, run: seq<Action>, s: State, a: Action, s': State)
    requires Ends(c, s0, run, s) && Leads(c, s, a, s')
    ensures Ends(c, s0, run + [a], s')
    decreases |run|
  {
    if run == [] {
      RunCons(c, s, a, []);
      assert [a] + [] == [] + [a];
    } else {
      var s1 := EndsSplit(c, s0, run, s);
      EndsOneLater(c, s1, run[1..], s, a, s');
      HeadFirst(run, [a]);
      EndsJoin(c, s0, run[0], s1, run[1..] + [a], s');
    }
  }

  lemma InitReachable(c: Config, s: State)
    requires Init(s)
    ensures Reachable(c, s)
  {
    assert ReachedBy(c, s, [], s);
  }

  lemma ReachStep(c: Config, s: State, a: Action)
    requires Reachable(c, s) && Enabled(c, s, a)
    ensures Reachable(c, Apply(c, s, a))
  {
    var s0, run :| ReachedBy(c, s0, run, s);
    EndsOneLater(c, s0, run, s, a, Apply(c, s, a));
    assert ReachedBy(c, s0, run + [a], Apply(c, s, a));
  }

  /** Every state of a run from a reachable state is reachable. */
  lemma {:induction false} RunReaches(c: Config, s: State, run: seq<Action>)
    requires Reachable(c, s) && Legal(c, s, run)
    ensures Reachable(c, Exec(c, s, run))
    decreases |run|
  {
    if run != [] {
      ReachStep(c, s, run[0]);
      RunReaches(c, Apply(c, s, run[0]), run[1..]);
    }
  }

  /** Every run from an initial state stays within the invariant. */
  lemma {:induction false} RunKeeps(c: Config, s: State, run: seq<Action>)
    requires Inv(s) && Legal(c, s, run)
    ensures Inv(Exec(c, s, run))
    decreases |run|
  {
    if run != [] {
      StepKeeps(c, s, run[0]);
      RunKeeps(c, Apply(c, s, run[0]), run[1..]);
    }
  }

  lemma ReachableGood(c: Config, s: State)
    requires Reachable(c, s)
    ensures Inv(s)
  {
    var s0, run :| ReachedBy(c, s0, run, s);
    InitHolds(s0);
    RunKeeps(c, s0, run);
  }

  lemma ReachablePools(c: Config, s: State)
    requires Reachable(c, s)
    ensures PoolOk(s) && OwnedOk(s)
  {
    ReachableGood(c, s);
  }

  lemma ReachableProbes(c: Config, s: State)
    requires Reachable(c, s)
    ensures VerdictsOk(s) && BoundOk(s)
  {
    ReachableGood(c, s);
  }

  lemma ReachableLocks(c: Config, s: State)
    requires Reachable(c, s)
    ensures LocksOk(s)
  {
    ReachableGood(c, s);
  }

  lemma ReachableSessions(c: Config, s: State)
    requires Reachable(c, s)
    ensures ConnsOk(s) && SessionsOk(s)
  {
    ReachableGood(c, s);
  }
}
