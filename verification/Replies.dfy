/** What travels back on a connection: the octets a server writes in answer to a request, and the octets that the
    caller of a request takes off the connection, whoever they were meant for. */
module Replies {
  import opened Endian
  import opened Framing
  import opened Sequences

  /** A remote call, or a raw transfer over TCP of a client that has nothing to negotiate. */
  datatype Kind = Remote(call: CallKind) | RawSend | RawRecv(size: nat)

  /** exposed: the server knows the function. */
  datatype Req = Req(kind: Kind, exposed: bool)

  /** The caller waits for something. */
  predicate Expects(r: Req) {
    match r.kind
    case Remote(call) => !call.OnewayNoexcept?
    case RawSend => true
    case RawRecv(size) => size > 0
  }

  /** The server reports an unknown name, but nobody waits for the report. */
  predicate Stray(r: Req) {
    r.kind == Remote(OnewayNoexcept) && !r.exposed
  }

  /** The server writes something. */
  predicate Answers(r: Req) {
    Expects(r) || Stray(r)
  }

  /** What can come of a request: an unknown name is an exception, a function called without exceptions does not throw,
      and a raw receive brings as many octets as it asks for. */
  predicate CanReply(r: Req, reply: Reply) {
    match r.kind
    case Remote(call) => Fits(reply) && if !r.exposed then reply.caught else call.OnewayNoexcept? ==> !reply.caught
    case RawSend => reply == Reply(false, [])
    case RawRecv(size) => !reply.caught && |reply.data| == size
  }

  /** A function that the server knows may come to anything, an exception included unless it is called without; and a
      name that it does not know to any report. */
  lemma AnyOutcome(call: CallKind, exposed: bool, reply: Reply)
    requires Fits(reply)
    ensures CanReply(Req(Remote(call), exposed), reply) <==>
            if exposed then !(call.OnewayNoexcept? && reply.caught) else reply.caught
  {
  }

  /** Something always can. */
  function SomeReply(r: Req): (reply: Reply)
    ensures CanReply(r, reply)
  {
    match r.kind
    case Remote(_) => Reply(!r.exposed, [])
    case RawSend => Reply(false, [])
    case RawRecv(size) => Reply(false, seq(size, _ => 0))
  }

  /** The octets the server writes; the acknowledgement of a raw send is 1. */
  function AnswerTo(h: Host, r: Req, reply: Reply): seq<octet> {
    match r.kind
    case Remote(call) => if r.exposed then AnswerBytes(h, Answer(call, reply)) else ReplyBytes(h, reply)
    case RawSend => [1]
    case RawRecv(_) => reply.data
  }

  /** What its caller is meant to learn. */
  function Due(r: Req, reply: Reply): Reply {
    match r.kind
    case Remote(call) => Learned(Answer(call, reply))
    case RawSend | RawRecv(_) => reply
  }

  /** What a caller of this kind makes of the octets on the connection; Incomplete as long as it waits for more. */
  function ReadAs(g: Host, kind: Kind, s: seq<octet>): Parsed<Reply> {
    match kind
    case Remote(call) => ReadAnswer(g, call, s)
    case RawSend => if s == [] then Incomplete else Some(Reply(false, []), s[1..])
    case RawRecv(size) => if size <= |s| then Some(Reply(false, s[..size]), s[size..]) else Incomplete
  }

  // ----- one answer -----

  /** A caller that waits for an answer is written one, and it reads its own answer exactly. */
  lemma OwnBack(h: Host, g: Host, r: Req, reply: Reply, rest: seq<octet>)
    requires Expects(r) && CanReply(r, reply)
    ensures AnswerTo(h, r, reply) != []
    ensures ReadAs(g, r.kind, AnswerTo(h, r, reply) + rest) == Some(Due(r, reply), rest)
  {
    match r.kind
    case Remote(call) =>
      AnswerBack(h, g, Answer(call, reply), rest);
    case RawSend =>
      assert ([1] + rest)[1..] == rest;
    case RawRecv(size) =>
      assert (reply.data + rest)[..size] == reply.data && (reply.data + rest)[size..] == rest;
  }

  /** What a raw transfer over TCP brings back: a single 1 for a send, the data alone for a receive. */
  lemma RawAnswers(h: Host, r: Req, reply: Reply)
    requires CanReply(r, reply)
    ensures r.kind.RawSend? ==> |AnswerTo(h, r, reply)| == 1 && AnswerTo(h, r, reply)[0] == 1
    ensures r.kind.RawRecv? ==> AnswerTo(h, r, reply) == reply.data && |reply.data| == r.kind.size
  {
  }

  lemma NothingToRead(g: Host, r: Req)
    requires Expects(r)
    ensures ReadAs(g, r.kind, []).Incomplete?
  {
  }

  lemma WhoAnswers(h: Host, r: Req, reply: Reply)
    requires CanReply(r, reply)
    ensures Answers(r) <==> AnswerTo(h, r, reply) != []
  {
  }

  // ----- reading as far as the octets go -----

  lemma TakeGrows(s: seq<octet>, more: seq<octet>, n: nat)
    requires n <= |s|
    ensures Take(s + more, n) == Some(s[..n], s[n..] + more)
  {
    assert (s + more)[..n] == s[..n] && (s + more)[n..] == s[n..] + more;
  }

  lemma DataGrows(g: Host, caught: bool, s: seq<octet>, more: seq<octet>)
    requires ReadData(g, caught, s).Some?
    ensures var p := ReadData(g, caught, s);
            && ReadData(g, caught, s + more) == Some(p.value, p.rest + more)
            && |p.rest| < |s| && s[|s| - |p.rest|..] == p.rest
  {
    TakeGrows(s, more, 8);
    TakeGrows(s[8..], more, Value64(MyNtohll(g, Load(g, s[..8]))));
  }

  lemma FlagGrows(g: Host, call: CallKind, s: seq<octet>, more: seq<octet>)
    requires !call.OnewayNoexcept? && ReadAnswer(g, call, s).Some?
    ensures var p := ReadAnswer(g, call, s);
            && ReadAnswer(g, call, s + more) == Some(p.value, p.rest + more)
            && |p.rest| < |s| && s[|s| - |p.rest|..] == p.rest
  {
    assert (s + more)[0] == s[0] && (s + more)[1..] == s[1..] + more;
    if call.Async? || s[0] != 0 {
      DataGrows(g, s[0] != 0, s[1..], more);
    }
  }

  lemma RawGrows(g: Host, kind: Kind, s: seq<octet>, more: seq<octet>)
    requires !kind.Remote? && ReadAs(g, kind, s).Some?
    ensures var p := ReadAs(g, kind, s);
            && ReadAs(g, kind, s + more) == Some(p.value, p.rest + more)
            && |p.rest| <= |s| && s[|s| - |p.rest|..] == p.rest
            && (Expects(Req(kind, true)) ==> |p.rest| < |s|)
  {
    if kind.RawSend? {
      assert (s + more)[1..] == s[1..] + more;
    } else {
      TakeGrows(s, more, kind.size);
    }
  }

  lemma RemoteGrows(g: Host, call: CallKind, s: seq<octet>, more: seq<octet>)
    requires ReadAs(g, Remote(call), s).Some?
    ensures var p := ReadAs(g, Remote(call), s);
            && ReadAs(g, Remote(call), s + more) == Some(p.value, p.rest + more)
            && |p.rest| <= |s| && s[|s| - |p.rest|..] == p.rest
            && (!call.OnewayNoexcept? ==> |p.rest| < |s|)
  {
    if !call.OnewayNoexcept? {
      FlagGrows(g, call, s, more);
    }
  }

  /** Octets that arrive later do not change what has been read, and what has been read is a front of the stream. */
  lemma ReadGrows(g: Host, kind: Kind, s: seq<octet>, more: seq<octet>)
    requires ReadAs(g, kind, s).Some?
    ensures var p := ReadAs(g, kind, s);
            && ReadAs(g, kind, s + more) == Some(p.value, p.rest + more)
            && |p.rest| <= |s| && s[|s| - |p.rest|..] == p.rest
            && (Expects(Req(kind, true)) ==> |p.rest| < |s|)
  {
    if kind.Remote? {
      RemoteGrows(g, kind.call, s, more);
    } else {
      RawGrows(g, kind, s, more);
    }
  }

  // ----- all answers -----

  predicate AllReplied(issued: seq<Req>, replies: seq<Reply>) {
    |replies| <= |issued| && forall i :: 0 <= i < |replies| ==> CanReply(issued[i], replies[i])
  }

  function Writer(h: Host): (Req, Reply) -> seq<octet> {
    (r, reply) => AnswerTo(h, r, reply)
  }

  /** Everything the server has written in answer to the first n requests. */
  function Out(h: Host, issued: seq<Req>, replies: seq<Reply>, n: nat): seq<octet>
    requires n <= |replies| <= |issued|
  {
    Joined(Writer(h), issued, replies, n)
  }

  lemma OutUnrolled(h: Host, issued: seq<Req>, replies: seq<Reply>, n: nat)
    requires n < |replies| <= |issued|
    ensures Out(h, issued, replies, n + 1) == Out(h, issued, replies, n) + AnswerTo(h, issued[n], replies[n])
  {
  }

  lemma OutNext(h: Host, issued: seq<Req>, replies: seq<Reply>, reply: Reply)
    requires |replies| < |issued|
    ensures Out(h, issued, replies + [reply], |replies| + 1) ==
            Out(h, issued, replies, |replies|) + AnswerTo(h, issued[|replies|], reply)
  {
    OutUnrolled(h, issued, replies + [reply], |replies|);
    JoinedOfLonger(Writer(h), issued, replies, issued, replies + [reply], |replies|);
  }

  lemma SomethingWritten(h: Host, issued: seq<Req>, replies: seq<Reply>, m: nat)
    requires AllReplied(issued, replies) && m < |replies| && Answers(issued[m])
    ensures |AnswerTo(h, issued[m], replies[m])| > 0
  {
    WhoAnswers(h, issued[m], replies[m]);
  }
}
