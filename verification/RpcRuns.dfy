/** What can follow a report that nobody waits for: runs of one thread on one connection, for hosts of any byte
    order. */
module RpcRuns {
  import opened Endian
  import opened Framing
  import opened Replies
  import opened Rpc
  import opened Sequences

  // ----- steps of a single thread -----

  lemma ExecCons(s: State, a: Action, run: seq<Action>)
    requires Enabled(s, a) && Legal(Apply(s, a), run)
    ensures Legal(s, [a] + run) && Exec(s, [a] + run) == Exec(Apply(s, a), run)
  {
    assert ([a] + run)[1..] == run;
  }

  lemma {:induction false} ExecAppend(s: State, run: seq<Action>, a: Action)
    requires Legal(s, run) && Enabled(Exec(s, run), a)
    ensures Legal(s, run + [a]) && Exec(s, run + [a]) == Apply(Exec(s, run), a)
    decreases |run|
  {
    if run == [] {
      ExecCons(s, a, []);
      assert [a] + [] == [] + [a];
    } else {
      ExecAppend(Apply(s, run[0]), run[1..], a);
      assert (run + [a])[1..] == run[1..] + [a];
    }
  }

  lemma ReachStep(s: State, a: Action)
    requires Reachable(s) && Enabled(s, a)
    ensures Reachable(Apply(s, a))
  {
    var s0, run :| Init(s0) && Legal(s0, run) && Exec(s0, run) == s;
    ExecAppend(s0, run, a);
  }

  /** A run of thread 0 has come to this point: its phase, the requests made, those not served, and the octets
      unread. */
  ghost predicate Solo(s: State, near: Host, far: Host, p: Phase, issued: seq<Req>, c2s: seq<Req>, s2c: seq<octet>) {
    && Reachable(s) && s.near == near && s.far == far
    && s.threads.Keys == {0} && s.threads[0] == p && s.lock == (if HoldsLock(p) then Held(0) else Free)
    && s.issued == issued && s.c2s == c2s && s.s2c == s2c && s.server.Ready?
  }

  lemma Asks(s: State, near: Host, far: Host, req: Req, issued: seq<Req>, c2s: seq<Req>, s2c: seq<octet>)
    returns (s': State)
    requires Solo(s, near, far, Idle, issued, c2s, s2c)
    ensures var k := |issued|;
            Solo(s', near, far, if Expects(req) then Sent(k) else Got(k), issued + [req], c2s + [req], s2c)
  {
    ReachStep(s, Begin(0, req));
    var s1 := Apply(s, Begin(0, req));
    ReachStep(s1, Step(0));
    var s2 := Apply(s1, Step(0));
    ReachStep(s2, Step(0));
    s' := Apply(s2, Step(0));
  }

  /** The server handles the only request that is queued. */
  lemma Serves(s: State, near: Host, far: Host, p: Phase, issued: seq<Req>, r: Req, s2c: seq<octet>, reply: Reply)
    returns (s': State)
    requires Solo(s, near, far, p, issued, [r], s2c) && CanReply(r, reply)
    ensures Solo(s', near, far, p, issued, [], s2c + AnswerTo(far, r, reply))
  {
    ReachStep(s, Receive);
    var s1 := Apply(s, Receive);
    ReachStep(s1, Finish(reply));
    s' := Apply(s1, Finish(reply));
  }

  /** The thread reads what it waits for and lets go. */
  lemma Reads0(s: State, near: Host, far: Host, k: nat, issued: seq<Req>, s2c: seq<octet>, rest: seq<octet>)
    returns (s': State)
    requires Solo(s, near, far, Sent(k), issued, [], s2c) && k < |issued|
    requires ReadAs(near, issued[k].kind, s2c).Some? && ReadAs(near, issued[k].kind, s2c).rest == rest
    ensures Solo(s', near, far, Idle, issued, [], rest)
  {
    ReachStep(s, Step(0));
    var s1 := Apply(s, Step(0));
    ReachStep(s1, Step(0));
    s' := Apply(s1, Step(0));
  }

  lemma LetsGo(s: State, near: Host, far: Host, k: nat, issued: seq<Req>, c2s: seq<Req>, s2c: seq<octet>)
    returns (s': State)
    requires Solo(s, near, far, Got(k), issued, c2s, s2c)
    ensures Solo(s', near, far, Idle, issued, c2s, s2c)
  {
    ReachStep(s, Step(0));
    s' := Apply(s, Step(0));
  }

  // ----- the octets of counts -----

  lemma {:induction false} ZeroDigits(k: nat)
    ensures forall i :: 0 <= i < k ==> Digits(0, k)[i] == 0
  {
    if k > 0 {
      ZeroDigits(k - 1);
    }
  }

  lemma SmallDigits(n: nat)
    requires n < 256
    ensures Digits(n, 8) == [Octet(n), 0, 0, 0, 0, 0, 0, 0]
  {
    var high := Digits(0, 7);
    ZeroDigits(7);
    assert n / 256 == 0 && n % 256 == n;
    assert Digits(n, 8) == [Octet(n)] + high;
    assert high == [0, 0, 0, 0, 0, 0, 0];
  }

  /** The count of a short reply. */
  lemma SmallCount(h: Host, n: nat)
    requires n < 256
    ensures CountBytes(h, n) == [0, 0, 0, 0, 0, 0, 0, Octet(n)]
  {
    CountOctets(h, n);
    SmallDigits(n);
  }

  /** Six octets 0, hi and lo. */
  function Two(hi: octet, lo: octet): (b: seq<octet>)
    ensures |b| == 8
  {
    [0, 0, 0, 0, 0, 0, hi, lo]
  }

  lemma NumberOfTwo(hi: octet, lo: octet)
    ensures Number(Reverse8(Two(hi, lo))) == 256 * hi as nat + lo as nat
  {
    assert Reverse8(Two(hi, lo)) == [lo, hi, 0, 0, 0, 0, 0, 0];
    Unroll([lo, hi, 0, 0, 0, 0, 0, 0]);
    Unroll([hi, 0, 0, 0, 0, 0, 0]);
    Zeros([0, 0, 0, 0, 0, 0]);
  }

  lemma Unroll(d: seq<octet>)
    requires d != []
    ensures Number(d) == d[0] as nat + 256 * Number(d[1..])
  {
  }

  lemma {:induction false} Zeros(d: seq<octet>)
    requires forall i :: 0 <= i < |d| ==> d[i] == 0
    ensures Number(d) == 0
  {
    if d != [] {
      Zeros(d[1..]);
    }
  }

  lemma ReadsData(g: Host, caught: bool, count: seq<octet>, rest: seq<octet>)
    requires |count| == 8
    ensures var n := Number(Reverse8(count));
            ReadData(g, caught, count + rest) ==
            if n <= |rest| then Some(Reply(caught, rest[..n]), rest[n..]) else Incomplete
  {
    CountRead(g, count);
    TakeFront(count, rest);
  }

  /** What an async caller makes of a 0, eight octets for a count, and the rest. */
  lemma ReadsCount(g: Host, count: seq<octet>, rest: seq<octet>)
    requires |count| == 8
    ensures var n := Number(Reverse8(count));
            ReadReply(g, [Flag(false)] + (count + rest)) ==
            if n <= |rest| then Some(Reply(false, rest[..n]), rest[n..]) else Incomplete
  {
    ReadsData(g, false, count, rest);
    FlagFirst(count + rest);
  }

  lemma FlagFirst(rest: seq<octet>)
    ensures ([Flag(false)] + rest)[0] == 0 && ([Flag(false)] + rest)[1..] == rest
  {
  }

  // ----- the runs -----

  const UNKNOWN := Req(Remote(OnewayNoexcept), false)
  const ASYNC := Req(Remote(Async), true)
  const ONEWAY := Req(Remote(Oneway), true)

  function Start0(near: Host, far: Host): (s: State)
    ensures Init(s)
  {
    State(near, far, map[0 := Idle], Free, [], [], Ready, [], [], 0, [], [])
  }

  /** Thread 0 calls an unknown name without exceptions, and the server reports it. */
  lemma Reported(near: Host, far: Host, report: Reply) returns (s: State)
    requires Fits(report) && report.caught
    ensures Solo(s, near, far, Idle, [UNKNOWN], [], ReplyBytes(far, report))
  {
    s := Start0(near, far);
    assert Legal(s, []);
    s := Asks(s, near, far, UNKNOWN, [], [], []);
    s := LetsGo(s, near, far, 0, [UNKNOWN], [UNKNOWN], []);
    s := Serves(s, near, far, Idle, [UNKNOWN], UNKNOWN, [], report);
    assert [] + ReplyBytes(far, report) == ReplyBytes(far, report);
  }

  lemma ReadsReport(near: Host, far: Host, report: Reply, rest: seq<octet>)
    requires Fits(report)
    ensures ReadAs(near, Remote(Async), ReplyBytes(far, report) + rest) == Some(report, rest)
  {
    ReplyBack(far, near, report, rest);
  }

  /** Its next call, an async one, is about to take the report for its own reply. */
  lemma StrayExample(near: Host, far: Host, report: Reply) returns (s: State)
    requires Fits(report) && report.caught
    ensures Solo(s, near, far, Sent(1), [UNKNOWN, ASYNC], [ASYNC], ReplyBytes(far, report))
    ensures Reads(s, 1) == Some(report, [])
    ensures |s.replies| <= |s.issued| && !InStep(s, 1)
  {
    s := Reported(near, far, report);
    s := Asks(s, near, far, ASYNC, [UNKNOWN], [], ReplyBytes(far, report));
    ReadsReport(near, far, report, []);
    NoMore(ReplyBytes(far, report));
    NotYetRead(s);
  }

  /** A report that has been written and not been read. */
  lemma NotYetRead(s: State)
    requires Reachable(s) && s.threads.Keys == {0} && s.threads[0] == Sent(1) && |s.issued| == 2 && |s.c2s| == 1
    requires s.s2c != [] && s.server.Ready?
    ensures |s.replies| <= |s.issued| && !InStep(s, 1)
  {
    ReachableInv(s);
  }

  // ----- a one-way call out of step, and what it leaves to the next -----

  /** After the report has been taken for the reply data of an async call, whose own reply is left. */
  lemma OneBehind(near: Host, far: Host, report: Reply, data: seq<octet>) returns (s: State)
    requires Fits(report) && report.caught && |data| < 256
    ensures Solo(s, near, far, Idle, [UNKNOWN, ASYNC], [], ReplyBytes(far, Reply(false, data)))
  {
    var both := [UNKNOWN, ASYNC];
    var own := Reply(false, data);
    s := StrayExample(near, far, report);
    SmallFits(own);
    s := Serves(s, near, far, Sent(1), both, ASYNC, ReplyBytes(far, report), own);
    ReadsReport(near, far, report, ReplyBytes(far, own));
    s := Reads0(s, near, far, 1, both, ReplyBytes(far, report) + ReplyBytes(far, own), ReplyBytes(far, own));
  }

  lemma SmallFits(r: Reply)
    requires |r.data| < 256
    ensures Fits(r)
  {
    assert Pow256(2) == 65536;
    PowGrows(2, 8);
  }

  lemma {:induction false} PowGrows(m: nat, n: nat)
    requires m <= n
    ensures Pow256(m) <= Pow256(n)
    decreases n
  {
    if m < n {
      PowGrows(m, n - 1);
    }
  }

  /** A one-way call takes the first octet of that reply for its own answer. */
  lemma OnewayBehind(near: Host, far: Host, report: Reply, data: seq<octet>) returns (s: State)
    requires Fits(report) && report.caught && |data| < 256
    ensures Solo(s, near, far, Idle, [UNKNOWN, ASYNC, ONEWAY], [], CountBytes(far, |data|) + data + [Flag(false)])
  {
    var all := [UNKNOWN, ASYNC, ONEWAY];
    var left := ReplyBytes(far, Reply(false, data));
    var rest := CountBytes(far, |data|) + data + [Flag(false)];
    s := OneBehind(near, far, report, data);
    s := Asks(s, near, far, ONEWAY, [UNKNOWN, ASYNC], [], left);
    SmallFits(Reply(false, []));
    s := Serves(s, near, far, Sent(2), all, ONEWAY, left, Reply(false, []));
    OnewayTakesOne(near, far, data);
    s := Reads0(s, near, far, 2, all, left + [Flag(false)], rest);
  }

  lemma OnewayTakesOne(near: Host, far: Host, data: seq<octet>)
    ensures ReadAs(near, Remote(Oneway), ReplyBytes(far, Reply(false, data)) + [Flag(false)]) ==
            Some(Reply(false, []), CountBytes(far, |data|) + data + [Flag(false)])
  {
    var rest := CountBytes(far, |data|) + data + [Flag(false)];
    assert ReplyBytes(far, Reply(false, data)) + [Flag(false)] == [Flag(false)] + rest;
    FlagFirst(rest);
  }

  lemma ShiftedBy(n: octet, data: seq<octet>, own: seq<octet>)
    requires data != []
    ensures [0, 0, 0, 0, 0, 0, 0, n] + data + [Flag(false)] + own ==
            [Flag(false)] + (Two(n, data[0]) + (data[1..] + [Flag(false)] + own))
  {
    assert data == [data[0]] + data[1..];
    assert [0, 0, 0, 0, 0, 0, 0, n] + [data[0]] == [Flag(false)] + Two(n, data[0]);
  }

  /** The next async caller finds the low octet of that count, and the first octet of data, where its own count should
      be. */
  lemma Shifted(far: Host, data: seq<octet>, own: seq<octet>) returns (count: seq<octet>)
    requires 0 < |data| < 256
    ensures |count| == 8 && Number(Reverse8(count)) == 256 * |data| + data[0] as nat
    ensures CountBytes(far, |data|) + data + [Flag(false)] + own ==
            [Flag(false)] + (count + (data[1..] + [Flag(false)] + own))
  {
    count := Two(Octet(|data|), data[0]);
    SmallCount(far, |data|);
    OctetValue(|data|);
    NumberOfTwo(Octet(|data|), data[0]);
    ShiftedBy(Octet(|data|), data, own);
  }

  const CALLS := [UNKNOWN, ASYNC, ONEWAY, ASYNC]

  /** What that caller has before it once the server has served everything, and what it makes of it. */
  ghost predicate Misread(s: State, wants: nat, has: nat) {
    && s.threads.Keys == {0} && s.threads[0] == Sent(3) && s.issued == CALLS
    && (if wants <= has then Reads(s, 3).Some? && |Reads(s, 3).rest| == has - wants else Reads(s, 3).Incomplete?)
  }

  /** An async call behind such a one-way call wants as many octets as the size of the last async reply times 256, and
      its first octet, say. */
  lemma Misled(near: Host, far: Host, report: Reply, data: seq<octet>, own: seq<octet>) returns (s: State)
    requires Fits(report) && report.caught && 0 < |data| < 256 && Fits(Reply(false, own))
    ensures Reachable(s) && s.server.Ready? && s.c2s == []
    ensures Misread(s, 256 * |data| + data[0] as nat, |data| + 9 + |own|)
  {
    var left := CountBytes(far, |data|) + data + [Flag(false)];
    var reply := ReplyBytes(far, Reply(false, own));
    s := OnewayBehind(near, far, report, data);
    s := Asks(s, near, far, ASYNC, [UNKNOWN, ASYNC, ONEWAY], [], left);
    s := Serves(s, near, far, Sent(3), CALLS, ASYNC, left, Reply(false, own));
    var count := Shifted(far, data, reply);
    ReadsCount(near, count, data[1..] + [Flag(false)] + reply);
  }

  lemma MisreadJams(s: State, wants: nat, has: nat)
    requires Reachable(s) && s.server.Ready? && s.c2s == [] && Misread(s, wants, has)
    ensures Jammed(s) <==> wants > has
  {
    if wants > has {
      assert 0 in s.threads && Starves(s, 0);
    }
  }

  /** A run that ends jammed: an exception-free call of an unknown name, an async call with a reply of three octets, a
      one-way call, and an async call with a reply of one octet, which waits for 865. */
  lemma JamExample(near: Host, far: Host, report: Reply) returns (s: State)
    requires Fits(report) && report.caught
    ensures Reachable(s) && Jammed(s)
  {
    var abc: seq<octet> := [97, 98, 99];
    SmallFits(Reply(false, [113]));
    s := Misled(near, far, report, abc, [113]);
    MisreadJams(s, 865, 13);
  }

  /** The same calls with replies of other sizes: the last caller takes all there is, and the next one is in step
      again, although a stray report was caused before it. */
  lemma ResyncExample(near: Host, far: Host, report: Reply, own: seq<octet>) returns (s: State)
    requires Fits(report) && report.caught && |own| == 255
    ensures Reachable(s) && |s.replies| <= |s.issued| && s.lock.Free? && InStep(s, |s.issued|)
    ensures !NoStrayBefore(s.issued, |s.issued|)
  {
    var nine: seq<octet> := [9];
    SmallFits(Reply(false, own));
    var s0 := Misled(near, far, report, nine, own);
    ReachStep(s0, Step(0));
    var s1 := Apply(s0, Step(0));
    ReachStep(s1, Step(0));
    s := Apply(s1, Step(0));
    LockCoversReply(s);
    assert Stray(s.issued[0]);
  }
}
