/** Calls of many threads over one pooled connection: remote calls of all kinds, of names the server knows and does not
    know, and raw transfers. One step per lock operation, per request, per answer written or read; the answers travel
    as octets, and the server handles one request at a time. */
module Rpc {
  import opened Endian
  import opened Framing
  import opened Replies
  import opened Sequences

  /** A thread wants the lock, holds it before its request k is sent, waits for the answer, or has all it waits for. */
  datatype Phase = Idle | Wants(req: Req) | Holding(k: nat) | Sent(k: nat) | Got(k: nat)

  datatype Lock = Free | Held(tid: nat)

  datatype Server = Ready | Busy(req: Req)

  /** The caller of request k has read the octets from, ..., to - 1 of all that ever came back, and learned reply. */
  datatype Result = Result(k: nat, from: nat, to: nat, reply: Reply)

  /** near and far are the byte orders of client and server. issued, replies, read, results and unlocks are history: the
      requests in lock order, what came of those that the server has finished, how many octets have been read, by whom,
      and the calls whose lock has been released. */
  datatype State = State(
    near: Host,
    far: Host,
    threads: map<nat, Phase>,
    lock: Lock,
    c2s: seq<Req>,
    s2c: seq<octet>,
    server: Server,
    issued: seq<Req>,
    replies: seq<Reply>,
    read: nat,
    results: seq<Result>,
    unlocks: seq<nat>)

  datatype Action = Begin(tid: nat, req: Req) | Step(tid: nat) | Receive | Finish(reply: Reply)

  predicate HoldsLock(p: Phase) {
    p.Holding? || p.Sent? || p.Got?
  }

  /** What the caller of request k makes of the octets that are there. */
  function Reads(s: State, k: nat): Parsed<Reply>
    requires k < |s.issued|
  {
    ReadAs(s.near, s.issued[k].kind, s.s2c)
  }

  /** How many octets the caller of request k takes. */
  function Taking(s: State, k: nat): nat
    requires k < |s.issued| && Reads(s, k).Some?
  {
    if |Reads(s, k).rest| <= |s.s2c| then |s.s2c| - |Reads(s, k).rest| else 0
  }

  predicate Enabled(s: State, a: Action) {
    match a
    case Begin(t, _) => t in s.threads && s.threads[t].Idle?
    case Step(t) =>
      t in s.threads
      && match s.threads[t] {
           case Idle => false
           case Wants(_) => s.lock.Free?
           case Holding(k) => k < |s.issued|
           case Sent(k) => k < |s.issued| && Reads(s, k).Some?
           case Got(_) => true
         }
    case Receive => s.server.Ready? && s.c2s != []
    case Finish(reply) => s.server.Busy? && CanReply(s.server.req, reply)
  }

  function Apply(s: State, a: Action): State
    requires Enabled(s, a)
  {
    match a
    case Begin(t, req) => s.(threads := s.threads[t := Wants(req)])
    case Step(t) => StepThread(s, t)
    case Receive => s.(server := Busy(s.c2s[0]), c2s := s.c2s[1..])
    case Finish(reply) =>
      s.(server := Ready, s2c := s.s2c + AnswerTo(s.far, s.server.req, reply), replies := s.replies + [reply])
  }

  function StepThread(s: State, t: nat): State
    requires Enabled(s, Step(t))
  {
    match s.threads[t]
    case Wants(req) =>
      s.(threads := s.threads[t := Holding(|s.issued|)], lock := Held(t), issued := s.issued + [req])
    case Holding(k) =>
      var r := s.issued[k];
      s.(threads := s.threads[t := if Expects(r) then Sent(k) else Got(k)], c2s := s.c2s + [r])
    case Sent(k) =>
      var p := Reads(s, k);
      var to := s.read + Taking(s, k);
      s.(threads := s.threads[t := Got(k)], s2c := p.rest, read := to,
         results := s.results + [Result(k, s.read, to, p.value)])
    case Got(k) =>
      s.(threads := s.threads[t := Idle], lock := Free, unlocks := s.unlocks + [k])
  }

  predicate Legal(s: State, run: seq<Action>)
    decreases |run|
  {
    run == [] || (Enabled(s, run[0]) && Legal(Apply(s, run[0]), run[1..]))
  }

  function Exec(s: State, run: seq<Action>): State
    requires Legal(s, run)
    decreases |run|
  {
    if run == [] then s else Exec(Apply(s, run[0]), run[1..])
  }

  predicate Init(s: State) {
    && (forall t :: t in s.threads ==> s.threads[t].Idle?)
    && s.lock.Free? && s.c2s == [] && s.s2c == [] && s.server.Ready?
    && s.issued == [] && s.replies == [] && s.read == 0 && s.results == [] && s.unlocks == []
  }

  // ----- requests and the lock -----

  predicate NoStrayBefore(q: seq<Req>, n: nat)
    requires n <= |q|
  {
    forall i :: 0 <= i < n ==> !Stray(q[i])
  }

  /** The holder of the lock has not yet sent its request. */
  predicate Sending(s: State) {
    s.lock.Held? && s.lock.tid in s.threads && s.threads[s.lock.tid].Holding? && s.issued != []
  }

  predicate Waiting(s: State) {
    s.lock.Held? && s.lock.tid in s.threads && s.threads[s.lock.tid].Sent? && s.issued != []
  }

  /** The requests written. */
  function Written(s: State): nat {
    if Sending(s) then |s.issued| - 1 else |s.issued|
  }

  /** The requests whose reading is over. */
  function Past(s: State): nat {
    if Sending(s) || Waiting(s) then |s.issued| - 1 else |s.issued|
  }

  function Taken(s: State): nat {
    |s.replies| + (if s.server.Busy? then 1 else 0)
  }

  predicate Locking(s: State) {
    && (forall t :: t in s.threads ==> (HoldsLock(s.threads[t]) <==> s.lock == Held(t)))
    && (s.lock.Held? ==> s.lock.tid in s.threads && |s.issued| > 0 && s.threads[s.lock.tid].k == |s.issued| - 1)
    && (forall i :: 0 <= i < |s.unlocks| ==> s.unlocks[i] == i)
    && |s.unlocks| == |s.issued| - (if s.lock.Held? then 1 else 0)
    && (Waiting(s) ==> Expects(s.issued[|s.issued| - 1]))
  }

  predicate Queueing(s: State) {
    && Taken(s) <= Written(s) <= |s.issued|
    && s.c2s == s.issued[Taken(s)..Written(s)]
    && (s.server.Busy? ==> s.server.req == s.issued[|s.replies|])
  }

  lemma LockingKept(s: State, a: Action)
    requires Locking(s) && Enabled(s, a)
    ensures Locking(Apply(s, a))
  {
  }

  lemma SliceNext(q: seq<Req>, lo: nat, hi: nat)
    requires lo <= hi < |q|
    ensures q[lo..hi] + [q[hi]] == q[lo..hi + 1]
  {
  }

  lemma SliceOfLonger(q: seq<Req>, r: Req, lo: nat, hi: nat)
    requires lo <= hi <= |q|
    ensures (q + [r])[lo..hi] == q[lo..hi]
  {
  }

  lemma StepQueueing(s: State, t: nat)
    requires Locking(s) && Queueing(s) && Enabled(s, Step(t))
    ensures Queueing(StepThread(s, t))
  {
    match s.threads[t]
    case Wants(req) => SliceOfLonger(s.issued, req, Taken(s), Written(s));
    case Holding(k) => SliceNext(s.issued, Taken(s), k);
    case Sent(_) =>
    case Got(_) =>
  }

  lemma QueueingKept(s: State, a: Action)
    requires Locking(s) && Queueing(s) && Enabled(s, a)
    ensures Queueing(Apply(s, a))
  {
    match a
    case Begin(_, _) =>
    case Step(t) => StepQueueing(s, t);
    case Receive => assert s.issued[|s.replies|..Written(s)][1..] == s.issued[|s.replies| + 1..Written(s)];
    case Finish(_) =>
  }

  // ----- the octets -----

  /** Where the answer to request k starts among all octets that ever come back, as far as that is decided. */
  function Start(s: State, k: nat): nat
    requires |s.replies| <= |s.issued|
  {
    |Out(s.far, s.issued, s.replies, if k < |s.replies| then k else |s.replies|)|
  }

  /** What has come back is the answers in order, and what is on the connection is the part not yet read. */
  predicate Streaming(s: State) {
    && AllReplied(s.issued, s.replies)
    && var all := Out(s.far, s.issued, s.replies, |s.replies|);
       s.read <= |all| && s.s2c == all[s.read..]
  }

  /** The octets read so far are exactly those that come before the answer to request k. */
  predicate InStep(s: State, k: nat)
    requires |s.replies| <= |s.issued| && k <= |s.issued|
  {
    s.read == Start(s, k) && forall i :: |s.replies| <= i < k ==> !Answers(s.issued[i])
  }

  lemma FinishOut(s: State, reply: Reply)
    requires Queueing(s) && Streaming(s) && Enabled(s, Finish(reply))
    ensures var s' := Apply(s, Finish(reply)); var n := |s.replies|;
            && AllReplied(s'.issued, s'.replies)
            && Out(s.far, s'.issued, s'.replies, n + 1) ==
               Out(s.far, s.issued, s.replies, n) + AnswerTo(s.far, s.issued[n], reply)
            && forall k: nat :: k <= n ==> Start(s', k) == Start(s, k)
  {
    var s' := Apply(s, Finish(reply));
    FinishReplied(s, reply);
    OutNext(s.far, s.issued, s.replies, reply);
    forall k: nat | k <= |s.replies| ensures Start(s', k) == Start(s, k) {
      JoinedOfLonger(Writer(s.far), s.issued, s.replies, s'.issued, s'.replies, k);
    }
  }

  lemma FinishReplied(s: State, reply: Reply)
    requires Queueing(s) && AllReplied(s.issued, s.replies) && Enabled(s, Finish(reply))
    ensures var s' := Apply(s, Finish(reply)); AllReplied(s'.issued, s'.replies)
  {
  }

  lemma FinishStreaming(s: State, reply: Reply)
    requires Queueing(s) && Streaming(s) && Enabled(s, Finish(reply))
    ensures Streaming(Apply(s, Finish(reply)))
  {
    FinishOut(s, reply);
    RestOfLonger(Out(s.far, s.issued, s.replies, |s.replies|), AnswerTo(s.far, s.issued[|s.replies|], reply), s.read);
  }

  lemma IssueOut(s: State, t: nat)
    requires AllReplied(s.issued, s.replies) && Enabled(s, Step(t)) && s.threads[t].Wants?
    ensures var s' := StepThread(s, t);
            && AllReplied(s'.issued, s'.replies)
            && Out(s.far, s'.issued, s'.replies, |s.replies|) == Out(s.far, s.issued, s.replies, |s.replies|)
            && forall k: nat :: Start(s', k) == Start(s, k)
  {
    var s' := StepThread(s, t);
    forall k: nat | k <= |s.replies|
      ensures Out(s.far, s'.issued, s'.replies, k) == Out(s.far, s.issued, s.replies, k)
    {
      JoinedOfLonger(Writer(s.far), s.issued, s.replies, s'.issued, s'.replies, k);
    }
  }

  lemma ReadStep(s: State, t: nat)
    requires Enabled(s, Step(t)) && s.threads[t].Sent?
    ensures var s' := StepThread(s, t); var k := s.threads[t].k; var n := Taking(s, k);
            && n <= |s.s2c| && |Reads(s, k).rest| == |s.s2c| - n && (Expects(s.issued[k]) ==> n > 0)
            && s' == s.(threads := s.threads[t := Got(k)], s2c := s.s2c[n..], read := s.read + n,
                        results := s.results + [Result(k, s.read, s.read + n, Reads(s, k).value)])
  {
    ReadGrows(s.near, s.issued[s.threads[t].k].kind, s.s2c, []);
  }

  lemma ReadStreaming(s: State, t: nat)
    requires Streaming(s) && Enabled(s, Step(t)) && s.threads[t].Sent?
    ensures Streaming(StepThread(s, t))
  {
    ReadStep(s, t);
    RestOfRest(Out(s.far, s.issued, s.replies, |s.replies|), s.read, Taking(s, s.threads[t].k));
  }

  lemma StreamingKept(s: State, a: Action)
    requires Queueing(s) && Streaming(s) && Enabled(s, a)
    ensures Streaming(Apply(s, a))
  {
    match a
    case Begin(_, _) =>
    case Step(t) =>
      if s.threads[t].Wants? {
        IssueOut(s, t);
      } else if s.threads[t].Sent? {
        ReadStreaming(s, t);
      }
    case Receive =>
    case Finish(reply) => FinishStreaming(s, reply);
  }

  predicate Inv(s: State) {
    Locking(s) && Queueing(s) && Streaming(s)
  }

  lemma InvKept(s: State, a: Action)
    requires Inv(s) && Enabled(s, a)
    ensures Inv(Apply(s, a))
  {
    LockingKept(s, a);
    QueueingKept(s, a);
    StreamingKept(s, a);
  }

  // ----- in step -----

  /** When its request has been served, a caller in step has exactly its own answer before it. */
  lemma InStepServed(s: State, k: nat)
    requires Streaming(s) && |s.issued| == |s.replies| == k + 1 && Expects(s.issued[k]) && InStep(s, k)
    ensures s.s2c == AnswerTo(s.far, s.issued[k], s.replies[k])
    ensures Reads(s, k) == Some(Due(s.issued[k], s.replies[k]), [])
    ensures Start(s, k + 1) == s.read + |s.s2c|
  {
    var answer := AnswerTo(s.far, s.issued[k], s.replies[k]);
    RestOfLonger(Out(s.far, s.issued, s.replies, k), answer, s.read);
    OwnBack(s.far, s.near, s.issued[k], s.replies[k], []);
    NoMore(answer);
  }

  /** A caller in step that finds what it waits for finds exactly its own answer. */
  lemma InStepReads(s: State, k: nat)
    requires Streaming(s) && |s.issued| == k + 1 && Expects(s.issued[k]) && InStep(s, k) && Reads(s, k).Some?
    ensures |s.replies| == k + 1 && s.s2c == AnswerTo(s.far, s.issued[k], s.replies[k])
    ensures Reads(s, k) == Some(Due(s.issued[k], s.replies[k]), [])
    ensures Start(s, k + 1) == s.read + |s.s2c|
  {
    if |s.replies| <= k {
      NothingToRead(s.near, s.issued[k]);
    } else {
      InStepServed(s, k);
    }
  }

  /** Being in step lasts until the next stray report is caused. */
  lemma StaysInStep(s: State, a: Action)
    requires Inv(s) && Enabled(s, a) && InStep(s, Past(s))
    requires a.Step? && s.threads[a.tid].Holding? ==> !Stray(s.issued[s.threads[a.tid].k])
    ensures InStep(Apply(s, a), Past(Apply(s, a)))
  {
    match a
    case Begin(_, _) =>
    case Step(t) => StepInStep(s, t);
    case Receive =>
    case Finish(reply) => FinishInStep(s, reply);
  }

  lemma IssueInStep(s: State, t: nat)
    requires Inv(s) && Enabled(s, Step(t)) && s.threads[t].Wants? && InStep(s, Past(s))
    ensures InStep(StepThread(s, t), Past(StepThread(s, t)))
  {
    IssueOut(s, t);
    assert Past(StepThread(s, t)) == Past(s);
  }

  lemma ReadInStep(s: State, t: nat)
    requires Inv(s) && Enabled(s, Step(t)) && s.threads[t].Sent? && InStep(s, Past(s))
    ensures InStep(StepThread(s, t), Past(StepThread(s, t)))
  {
    InStepReads(s, s.threads[t].k);
  }

  lemma StepInStep(s: State, t: nat)
    requires Inv(s) && Enabled(s, Step(t)) && InStep(s, Past(s))
    requires s.threads[t].Holding? ==> !Stray(s.issued[s.threads[t].k])
    ensures InStep(StepThread(s, t), Past(StepThread(s, t)))
  {
    match s.threads[t]
    case Wants(_) => IssueInStep(s, t);
    case Holding(_) =>
    case Sent(_) => ReadInStep(s, t);
    case Got(_) =>
  }

  lemma FinishInStep(s: State, reply: Reply)
    requires Inv(s) && Enabled(s, Finish(reply)) && InStep(s, Past(s))
    ensures InStep(Apply(s, Finish(reply)), Past(s)) && Past(Apply(s, Finish(reply))) == Past(s)
  {
    FinishOut(s, reply);
    WhoAnswers(s.far, s.server.req, reply);
  }

  lemma StraysOfLonger(q: seq<Req>, r: Req, k: nat)
    requires k <= |q|
    ensures NoStrayBefore(q + [r], k) <==> NoStrayBefore(q, k)
  {
    if NoStrayBefore(q + [r], k) {
      forall i | 0 <= i < k ensures !Stray(q[i]) { assert (q + [r])[i] == q[i]; }
    }
  }

  /** Without stray reports everybody is in step. */
  predicate Aligned(s: State)
    requires Inv(s)
  {
    NoStrayBefore(s.issued, Past(s)) ==> InStep(s, Past(s))
  }

  /** Strays among the requests whose reading is over do not go away. */
  lemma PastGrows(s: State, a: Action)
    requires Inv(s) && Enabled(s, a)
    ensures var s' := Apply(s, a);
            && Past(s) <= Past(s') <= |s'.issued|
            && (NoStrayBefore(s'.issued, Past(s')) ==> NoStrayBefore(s.issued, Past(s)))
            && (a.Step? && s.threads[a.tid].Holding? ==>
                 s.threads[a.tid].k < Past(s') || Expects(s.issued[s.threads[a.tid].k]))
  {
    if a.Step? && s.threads[a.tid].Wants? {
      StraysOfLonger(s.issued, s.threads[a.tid].req, Past(s));
    }
  }

  lemma AlignedKept(s: State, a: Action)
    requires Inv(s) && Aligned(s) && Enabled(s, a)
    ensures Inv(Apply(s, a)) && Aligned(Apply(s, a))
  {
    var s' := Apply(s, a);
    InvKept(s, a);
    PastGrows(s, a);
    if NoStrayBefore(s'.issued, Past(s')) {
      StaysInStep(s, a);
    }
  }

  // ----- past reads -----

  /** The octets from, ..., to - 1 are the answer to request k, from its first octet to its last. */
  predicate IsAnswer(s: State, k: nat, from: nat, to: nat)
    requires |s.replies| <= |s.issued|
  {
    k < |s.replies| && from == Start(s, k) && to == Start(s, k + 1)
  }

  /** A caller has read its own answer exactly if it started to read where that starts. */
  predicate Correlated(s: State, r: Result)
    requires AllReplied(s.issued, s.replies)
  {
    && r.k < |s.issued| && r.from < r.to
    && (IsAnswer(s, r.k, r.from, r.to) <==> r.k < |s.replies| && r.from == Start(s, r.k))
    && (IsAnswer(s, r.k, r.from, r.to) ==> r.reply == Due(s.issued[r.k], s.replies[r.k]))
    && (NoStrayBefore(s.issued, r.k) ==> IsAnswer(s, r.k, r.from, r.to))
  }

  predicate ResultOk(s: State, r: Result)
    requires AllReplied(s.issued, s.replies)
  {
    r.to <= s.read && Correlated(s, r)
  }

  /** Where the read number j ends, and where the first one starts. */
  function ReadTo(results: seq<Result>, j: nat): nat
    requires j <= |results|
  {
    if j == 0 then 0 else results[j - 1].to
  }

  predicate ReadOk(s: State, j: nat)
    requires Inv(s) && j < |s.results|
  {
    s.results[j].from == ReadTo(s.results, j) && ResultOk(s, s.results[j])
  }

  /** The reads follow one another without gaps, and each is as it should be. */
  predicate History(s: State)
    requires Inv(s)
  {
    s.read == ReadTo(s.results, |s.results|) && forall j: nat :: j < |s.results| ==> ReadOk(s, j)
  }

  lemma IssueKeepsResult(s: State, t: nat, r: Result)
    requires Inv(s) && Enabled(s, Step(t)) && s.threads[t].Wants? && ResultOk(s, r)
    ensures AllReplied(StepThread(s, t).issued, s.replies) && ResultOk(StepThread(s, t), r)
  {
    IssueOut(s, t);
    StraysOfLonger(s.issued, s.threads[t].req, r.k);
  }

  lemma FinishKeepsResult(s: State, reply: Reply, r: Result)
    requires Inv(s) && Enabled(s, Finish(reply)) && ResultOk(s, r)
    ensures var s' := Apply(s, Finish(reply)); AllReplied(s'.issued, s'.replies) && ResultOk(s', r)
  {
    FinishOut(s, reply);
    if r.k < |s.replies| {
      SameAnswer(s, Apply(s, Finish(reply)), r);
    }
  }

  lemma SameAnswer(s: State, s': State, r: Result)
    requires AllReplied(s.issued, s.replies) && AllReplied(s'.issued, s'.replies) && ResultOk(s, r)
    requires r.k < |s.replies| <= |s'.replies| && s'.issued == s.issued && s'.read == s.read
    requires s'.replies[r.k] == s.replies[r.k]
    requires Start(s', r.k) == Start(s, r.k) && Start(s', r.k + 1) == Start(s, r.k + 1)
    ensures ResultOk(s', r)
  {
    assert IsAnswer(s', r.k, r.from, r.to) <==> IsAnswer(s, r.k, r.from, r.to);
    assert Due(s'.issued[r.k], s'.replies[r.k]) == Due(s.issued[r.k], s.replies[r.k]);
  }

  /** The read that is made now. */
  lemma NewCorrelated(s: State, t: nat)
    requires Inv(s) && Aligned(s) && Enabled(s, Step(t)) && s.threads[t].Sent?
    ensures var k := s.threads[t].k; Correlated(s, Result(k, s.read, s.read + Taking(s, k), Reads(s, k).value))
  {
    var k := s.threads[t].k;
    ReadStep(s, t);
    if InStep(s, k) {
      InStepReads(s, k);
    }
  }

  lemma NewResult(s: State, t: nat)
    requires Inv(s) && Aligned(s) && Enabled(s, Step(t)) && s.threads[t].Sent?
    ensures var s' := StepThread(s, t); var k := s.threads[t].k;
            AllReplied(s'.issued, s'.replies) && ResultOk(s', Result(k, s.read, s'.read, Reads(s, k).value))
  {
    var k := s.threads[t].k;
    NewCorrelated(s, t);
    ReadStep(s, t);
    StaysCorrelated(s, StepThread(s, t), Result(k, s.read, s.read + Taking(s, k), Reads(s, k).value));
  }

  lemma StaysCorrelated(s: State, s': State, r: Result)
    requires AllReplied(s.issued, s.replies) && Correlated(s, r)
    requires s'.issued == s.issued && s'.replies == s.replies && s'.far == s.far
    ensures Correlated(s', r)
  {
    assert Start(s', r.k) == Start(s, r.k) && Start(s', r.k + 1) == Start(s, r.k + 1);
  }

  lemma ReadKeepsResult(s: State, t: nat, r: Result)
    requires Inv(s) && Enabled(s, Step(t)) && s.threads[t].Sent? && ResultOk(s, r)
    ensures var s' := StepThread(s, t); AllReplied(s'.issued, s'.replies) && ResultOk(s', r)
  {
    ReadStep(s, t);
    StaysCorrelated(s, StepThread(s, t), r);
  }

  lemma ReadToOfLonger(results: seq<Result>, r: Result, j: nat)
    requires j <= |results|
    ensures ReadTo(results + [r], j) == ReadTo(results, j) && (j < |results| ==> (results + [r])[j] == results[j])
    ensures (results + [r])[|results|] == r && ReadTo(results + [r], |results| + 1) == r.to
  {
  }

  lemma OldReadOk(s: State, t: nat, j: nat)
    requires Inv(s) && Enabled(s, Step(t)) && s.threads[t].Sent? && Inv(StepThread(s, t))
    requires j < |s.results| && ReadOk(s, j)
    ensures ReadOk(StepThread(s, t), j)
  {
    ReadToOfLonger(s.results, StepThread(s, t).results[|s.results|], j);
    ReadKeepsResult(s, t, s.results[j]);
  }

  lemma ReadKeepsHistory(s: State, t: nat)
    requires Inv(s) && Aligned(s) && History(s) && Enabled(s, Step(t)) && s.threads[t].Sent?
    requires Inv(StepThread(s, t))
    ensures History(StepThread(s, t))
  {
    var s' := StepThread(s, t);
    var r := s'.results[|s.results|];
    ReadToOfLonger(s.results, r, |s.results|);
    forall j: nat | j < |s'.results| ensures ReadOk(s', j) {
      if j < |s.results| {
        OldReadOk(s, t, j);
      } else {
        NewResult(s, t);
      }
    }
  }

  lemma HistoryKept(s: State, a: Action)
    requires Inv(s) && Aligned(s) && History(s) && Enabled(s, a) && Inv(Apply(s, a))
    ensures History(Apply(s, a))
  {
    if a.Step? && s.threads[a.tid].Sent? {
      ReadKeepsHistory(s, a.tid);
    } else {
      forall j: nat | j < |s.results| ensures ReadOk(Apply(s, a), j) {
        assert ReadOk(s, j);
        ResultStays(s, a, s.results[j]);
      }
    }
  }

  lemma ResultStays(s: State, a: Action, r: Result)
    requires Inv(s) && Enabled(s, a) && Inv(Apply(s, a)) && ResultOk(s, r)
    requires a.Step? ==> !s.threads[a.tid].Sent?
    ensures ResultOk(Apply(s, a), r)
  {
    if a.Finish? {
      FinishKeepsResult(s, a.reply, r);
    } else if a.Step? && s.threads[a.tid].Wants? {
      IssueKeepsResult(s, a.tid, r);
    }
  }

  // ----- reachable states -----

  lemma InitInv(s: State)
    requires Init(s)
    ensures Inv(s) && Start(s, 0) == 0
  {
    InitStreaming(s);
    InitQueueing(s);
  }

  lemma InitQueueing(s: State)
    requires Init(s)
    ensures Locking(s) && Queueing(s)
  {
    assert s.issued[0..0] == [];
  }

  lemma InitStreaming(s: State)
    requires Init(s)
    ensures Streaming(s) && Start(s, 0) == 0
  {
    assert Out(s.far, s.issued, s.replies, 0) == [];
    assert s.s2c == [][0..];
  }

  lemma InitHolds(s: State)
    requires Init(s)
    ensures Inv(s) && Aligned(s) && History(s)
  {
    InitInv(s);
  }

  lemma {:induction false} RunKeeps(s: State, run: seq<Action>)
    requires Inv(s) && Aligned(s) && History(s) && Legal(s, run)
    ensures var s' := Exec(s, run); Inv(s') && Aligned(s') && History(s')
    decreases |run|
  {
    if run != [] {
      AlignedKept(s, run[0]);
      HistoryKept(s, run[0]);
      RunKeeps(Apply(s, run[0]), run[1..]);
    }
  }

  ghost predicate Reachable(s: State) {
    exists s0, run :: Init(s0) && Legal(s0, run) && Exec(s0, run) == s
  }

  lemma ReachableInv(s: State)
    requires Reachable(s)
    ensures Inv(s) && Aligned(s)
  {
    var s0, run :| Init(s0) && Legal(s0, run) && Exec(s0, run) == s;
    InitHolds(s0);
    RunKeeps(s0, run);
  }

  lemma ReachableHistory(s: State)
    requires Reachable(s)
    ensures Inv(s) && History(s)
  {
    var s0, run :| Init(s0) && Legal(s0, run) && Exec(s0, run) == s;
    InitHolds(s0);
    RunKeeps(s0, run);
  }

  // ----- whose answer a caller reads -----

  /** A caller that has found all it waits for reads its own answer, to the last octet, exactly if the octets read
      before are those that come before its answer; it then learns what came of its own request and leaves nothing
      behind. Without stray reports this is so. */
  lemma ReadsOwn(s: State, t: nat)
    requires Reachable(s) && t in s.threads && s.threads[t].Sent? && Enabled(s, Step(t))
    ensures |s.replies| <= |s.issued| && s.threads[t].k < |s.issued|
    ensures var k := s.threads[t].k; var p := Reads(s, k);
            && |p.rest| < |s.s2c|
            && (IsAnswer(s, k, s.read, s.read + |s.s2c| - |p.rest|) <==> InStep(s, k))
            && (InStep(s, k) ==> p == Some(Due(s.issued[k], s.replies[k]), []))
            && (NoStrayBefore(s.issued, k) ==> InStep(s, k))
  {
    ReachableInv(s);
    var k := s.threads[t].k;
    ReadStep(s, t);
    if InStep(s, k) {
      InStepReads(s, k);
    }
  }

  /** Whoever was in step until something was written that nobody has read, a stray report for example, is not in step
      behind it. */
  lemma StrayShifts(s: State, j: nat, k: nat)
    requires Reachable(s) && |s.replies| <= |s.issued| && j < k <= |s.issued|
    requires InStep(s, j) && Answers(s.issued[j])
    ensures !InStep(s, k)
  {
    ReachableInv(s);
    if j < |s.replies| {
      StartMoves(s, j, k);
    }
  }

  lemma StartMoves(s: State, j: nat, k: nat)
    requires AllReplied(s.issued, s.replies) && j < k && j < |s.replies| && Answers(s.issued[j])
    ensures Start(s, j) < Start(s, k)
  {
    SomethingWritten(s.far, s.issued, s.replies, j);
    JoinedMoves(Writer(s.far), s.issued, s.replies, j, if k < |s.replies| then k else |s.replies|);
  }

  /** Over every run: the reads follow one another without gaps; each caller has read its own answer, to the last octet,
      exactly if the octets read before it are as many as those that come before its answer, and has then learned what
      came of its own request; and that is so for every caller before whose request no stray report was caused. */
  lemma Correlation(s: State)
    requires Reachable(s)
    ensures AllReplied(s.issued, s.replies) && s.read == ReadTo(s.results, |s.results|)
    ensures forall j: nat :: j < |s.results| ==>
              s.results[j].from == ReadTo(s.results, j) && Correlated(s, s.results[j])
  {
    ReachableHistory(s);
    forall j: nat | j < |s.results| ensures s.results[j].from == ReadTo(s.results, j) && Correlated(s, s.results[j]) {
      assert ReadOk(s, j);
    }
  }

  // ----- the lock -----

  /** At most one thread is between taking the lock and giving it back, and every call gives it back once: the
      calls whose lock has been released are all calls so far, in order, but the one that holds it. */
  lemma LockOnce(s: State)
    requires Reachable(s)
    ensures forall t, u :: t in s.threads && u in s.threads ==>
              HoldsLock(s.threads[t]) && HoldsLock(s.threads[u]) ==> t == u
    ensures forall t :: t in s.threads && HoldsLock(s.threads[t]) ==> s.threads[t].k !in s.unlocks
    ensures forall i :: 0 <= i < |s.unlocks| ==> s.unlocks[i] == i
    ensures |s.issued| == |s.unlocks| + if exists t :: t in s.threads && HoldsLock(s.threads[t]) then 1 else 0
  {
    ReachableInv(s);
  }

  /** The server will write nothing more for the requests it has been sent. */
  predicate NothingOwed(s: State) {
    && (forall r :: r in s.c2s ==> !Answers(r))
    && (s.server.Busy? ==> !Answers(s.server.req))
  }

  /** What the server has not finished: the request in its hands and those queued. */
  lemma Unserved(s: State)
    requires Queueing(s) && Written(s) == |s.issued|
    ensures (forall i :: |s.replies| <= i < |s.issued| ==> !Answers(s.issued[i])) <==> NothingOwed(s)
  {
    var taken := Taken(s);
    assert forall j :: 0 <= j < |s.c2s| ==> s.c2s[j] == s.issued[taken + j];
    assert s.server.Busy? ==> s.server.req == s.issued[|s.replies|];
    if NothingOwed(s) {
      forall i | taken <= i < |s.issued| ensures !Answers(s.issued[i]) {
        assert s.c2s[i - taken] in s.c2s;
      }
    }
  }

  /** The lock covers the answer: when it is free, nothing is waiting to be read and nothing more will come, exactly if
      the next caller is in step; without stray reports that is so. */
  lemma LockCoversReply(s: State)
    requires Reachable(s) && s.lock.Free?
    ensures |s.replies| <= |s.issued|
    ensures s.s2c == [] && NothingOwed(s) <==> InStep(s, |s.issued|)
    ensures NoStrayBefore(s.issued, |s.issued|) ==> InStep(s, |s.issued|)
  {
    ReachableInv(s);
    Unserved(s);
  }

  // ----- waiting for ever -----

  /** Work is left: a call is under way or a request is unfinished. */
  predicate Unfinished(s: State) {
    (exists t :: t in s.threads && !s.threads[t].Idle?) || s.c2s != [] || s.server.Busy?
  }

  /** Thread t waits for more octets than there are. */
  predicate Starves(s: State, t: nat) {
    t in s.threads && s.threads[t].Sent? && !Enabled(s, Step(t))
  }

  /** A caller waits for more octets, and the server has nothing left to do. */
  predicate Jammed(s: State) {
    s.server.Ready? && s.c2s == [] && exists t :: t in s.threads && Starves(s, t)
  }

  /** Nobody waits for ever unless the connection is jammed: some step other than a new call can be taken. */
  lemma NoDeadlock(s: State) returns (a: Action)
    requires Reachable(s) && Unfinished(s) && !Jammed(s)
    ensures Enabled(s, a) && !a.Begin?
  {
    ReachableInv(s);
    if s.server.Busy? {
      a := Finish(SomeReply(s.server.req));
    } else if s.c2s != [] {
      a := Receive;
    } else if s.lock.Held? {
      a := Step(s.lock.tid);
      assert !Starves(s, s.lock.tid);
    } else {
      var t :| t in s.threads && !s.threads[t].Idle?;
      a := Step(t);
    }
  }

  /** When the server has nothing left to do, a caller in step has its whole answer before it. */
  lemma InStepFed(s: State, t: nat)
    requires Inv(s) && s.server.Ready? && s.c2s == [] && Starves(s, t)
    ensures !InStep(s, Past(s))
  {
    if InStep(s, Past(s)) {
      InStepServed(s, |s.issued| - 1);
    }
  }

  lemma JammedHolds(s: State, a: Action)
    requires Inv(s) && Jammed(s) && Enabled(s, a)
    ensures a.Begin? && Jammed(Apply(s, a)) && Apply(s, a).unlocks == s.unlocks
  {
    var t :| t in s.threads && Starves(s, t);
    assert HoldsLock(s.threads[t]) && s.lock == Held(t);
    if a.Begin? {
      assert t in Apply(s, a).threads && Starves(Apply(s, a), t);
    }
  }

  /** Work is left and nothing but new calls can happen, exactly if the connection is jammed; and that takes a caller
      out of step, hence a stray report. */
  lemma StuckExactly(s: State)
    requires Reachable(s)
    ensures Unfinished(s) && (forall a :: Enabled(s, a) ==> a.Begin?) <==> Jammed(s)
    ensures |s.replies| <= |s.issued| && Past(s) <= |s.issued|
    ensures InStep(s, Past(s)) || NoStrayBefore(s.issued, |s.issued|) ==> !Jammed(s)
  {
    ReachableInv(s);
    if Jammed(s) {
      forall a | Enabled(s, a) ensures a.Begin? {
        JammedHolds(s, a);
      }
      var t :| t in s.threads && Starves(s, t);
      InStepFed(s, t);
    } else if Unfinished(s) {
      var a := NoDeadlock(s);
    }
  }

  /** A jammed connection stays jammed, and no call on it ever ends. */
  lemma {:induction false} JammedForEver(s: State, run: seq<Action>)
    requires Inv(s) && Jammed(s) && Legal(s, run)
    ensures Jammed(Exec(s, run)) && Exec(s, run).unlocks == s.unlocks
    decreases |run|
  {
    if run != [] {
      JammedHolds(s, run[0]);
      InvKept(s, run[0]);
      JammedForEver(Apply(s, run[0]), run[1..]);
    }
  }
}
