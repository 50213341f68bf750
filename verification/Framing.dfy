/** Requests and replies on a connection: how they are laid out, and that they are read back one by one,
    however the system splits reads and writes. */
module Framing {
  import opened Endian
  import opened Sequences

  datatype CallKind = Async | Oneway | OnewayNoexcept

  datatype Header = Header(kind: CallKind, funcname: string, argCount: nat)

  datatype Call = Call(kind: CallKind, funcname: string, arg: seq<octet>)

  /** Serialization of headers, as an archive library does it. */
  datatype Codec = Codec(enc: Header -> seq<octet>, dec: seq<octet> -> Header)

  datatype Parsed<T> = Some(value: T, rest: seq<octet>) | Incomplete

  datatype Reply = Reply(caught: bool, data: seq<octet>)

  predicate Fits(r: Reply) {
    |r.data| < Pow256(8)
  }

  // ----- layout -----

  /** A 32-bit length in network order. */
  function Be4(n: nat): (b: seq<octet>)
    ensures |b| == 4
  {
    var d := Digits(n, 4);
    [d[3], d[2], d[1], d[0]]
  }

  function FromBe4(b: seq<octet>): nat
    requires |b| == 4
  {
    Number([b[3], b[2], b[1], b[0]])
  }

  lemma Be4Back(n: nat)
    requires n < Pow256(4)
    ensures FromBe4(Be4(n)) == n
  {
    var d := Digits(n, 4);
    assert [d[0], d[1], d[2], d[3]] == d;
    NumberOfDigits(n, 4);
  }

  /** A length goes onto the wire most significant octet first. */
  lemma Be4Octets(n: nat)
    requires n < 0x1_0000_0000
    ensures var b := Be4(n);
            n == 0x100_0000 * b[0] as nat + 0x1_0000 * b[1] as nat + 0x100 * b[2] as nat + b[3] as nat
  {
    var d := Digits(n, 4);
    assert Pow256(1) == 256 && Pow256(2) == 0x1_0000;
    assert Pow256(4) == 256 * 256 * Pow256(2);
    NumberOfDigits(n, 4);
    NumberOfFour(d);
  }

  lemma NumberOfFour(d: seq<octet>)
    requires |d| == 4
    ensures Number(d) == d[0] as nat + 0x100 * d[1] as nat + 0x1_0000 * d[2] as nat + 0x100_0000 * d[3] as nat
  {
    assert Number(d[2..]) == d[2] as nat + 256 * Number(d[2..][1..]);
    assert d[1..][1..] == d[2..] && d[2..][1..] == d[3..] && d[3..][1..] == [];
    assert Number(d[3..]) == d[3] as nat;
  }

  function HeaderOf(call: Call): Header {
    Header(call.kind, call.funcname, |call.arg|)
  }

  /** The archive library gives the header of this request back. */
  predicate Serializes(c: Codec, call: Call) {
    |c.enc(HeaderOf(call))| < Pow256(4) && c.dec(c.enc(HeaderOf(call))) == HeaderOf(call)
  }

  function CallBytes(c: Codec, call: Call): seq<octet> {
    var h := c.enc(HeaderOf(call));
    Be4(|h|) + h + call.arg
  }

  function Flag(caught: bool): octet {
    if caught then 1 else 0
  }

  /** The count in network order, as host h puts it on the wire. */
  function CountBytes(h: Host, n: nat): (b: seq<octet>)
    ensures |b| == 8
  {
    Store(h, MyHtonll(h, Word64(n)))
  }

  function ReplyBytes(h: Host, r: Reply): seq<octet> {
    [Flag(r.caught)] + CountBytes(h, |r.data|) + r.data
  }

  /** A one-way call answers with a flag only, unless there is an exception to report. */
  function OnewayBytes(h: Host, r: Reply): seq<octet> {
    if r.caught then ReplyBytes(h, r) else [Flag(false)]
  }

  // ----- reading -----

  function Take(s: seq<octet>, n: nat): Parsed<seq<octet>> {
    if n <= |s| then Some(s[..n], s[n..]) else Incomplete
  }

  function ReadCall(c: Codec, s: seq<octet>): Parsed<Call> {
    var size := Take(s, 4);
    if size.Incomplete? then Incomplete
    else
      var header := Take(size.rest, FromBe4(size.value));
      if header.Incomplete? then Incomplete
      else
        var h := c.dec(header.value);
        var arg := Take(header.rest, h.argCount);
        if arg.Incomplete? then Incomplete else Some(Call(h.kind, h.funcname, arg.value), arg.rest)
  }

  function ReadData(g: Host, caught: bool, s: seq<octet>): Parsed<Reply> {
    var count := Take(s, 8);
    if count.Incomplete? then Incomplete
    else
      var data := Take(count.rest, Value64(MyNtohll(g, Load(g, count.value))));
      if data.Incomplete? then Incomplete else Some(Reply(caught, data.value), data.rest)
  }

  function ReadReply(g: Host, s: seq<octet>): Parsed<Reply> {
    if s == [] then Incomplete else ReadData(g, s[0] != 0, s[1..])
  }

  function ReadOneway(g: Host, s: seq<octet>): Parsed<Reply> {
    if s == [] then Incomplete
    else if s[0] != 0 then ReadData(g, true, s[1..])
    else Some(Reply(false, []), s[1..])
  }

  lemma TakeFront(a: seq<octet>, rest: seq<octet>)
    ensures Take(a + rest, |a|) == Some(a, rest)
  {
  }

  /** A request is read back exactly, and what follows it is left alone. */
  lemma CallBack(c: Codec, call: Call, rest: seq<octet>)
    requires Serializes(c, call)
    ensures ReadCall(c, CallBytes(c, call) + rest) == Some(call, rest)
  {
    var h := c.enc(HeaderOf(call));
    Be4Back(|h|);
    assert CallBytes(c, call) + rest == Be4(|h|) + (h + (call.arg + rest));
    TakeFront(Be4(|h|), h + (call.arg + rest));
    TakeFront(h, call.arg + rest);
    TakeFront(call.arg, rest);
  }

  /** A count goes onto the wire most significant octet first, from any host. */
  lemma CountOctets(h: Host, n: nat)
    ensures CountBytes(h, n) == Reverse8(Digits(n, 8))
  {
    NetworkOrder(h, h, Word64(n));
    WordOfOctets(Digits(n, 8));
  }

  /** Any eight octets are read as the count they spell, by any host. */
  lemma CountRead(g: Host, b: seq<octet>)
    requires |b| == 8
    ensures Value64(MyNtohll(g, Load(g, b))) == Number(Reverse8(b))
  {
    var v := FromOctets(Reverse8(b));
    WordOfOctets(Reverse8(b));
    NetworkOrder(g, g, v);
    assert Reverse8(Reverse8(b)) == b;
  }

  lemma DataBack(h: Host, g: Host, r: Reply, rest: seq<octet>)
    requires Fits(r)
    ensures ReadData(g, r.caught, CountBytes(h, |r.data|) + (r.data + rest)) == Some(r, rest)
  {
    NetworkOrder(h, g, Word64(|r.data|));
    ValueOfWord(|r.data|);
    TakeFront(CountBytes(h, |r.data|), r.data + rest);
    TakeFront(r.data, rest);
  }

  lemma ReplyParts(h: Host, r: Reply, rest: seq<octet>)
    ensures var s := ReplyBytes(h, r) + rest;
            s[0] == Flag(r.caught) && s[1..] == CountBytes(h, |r.data|) + (r.data + rest)
  {
  }

  /** A reply is read back exactly, between hosts of any two byte orders. */
  lemma ReplyBack(h: Host, g: Host, r: Reply, rest: seq<octet>)
    requires Fits(r)
    ensures ReadReply(g, ReplyBytes(h, r) + rest) == Some(r, rest)
  {
    ReplyParts(h, r, rest);
    DataBack(h, g, r, rest);
  }

  /** The eight octets of a count spell it, most significant first. */
  lemma CountSpelled(h: Host, n: nat)
    requires n < Pow256(8)
    ensures Number(Reverse8(CountBytes(h, n))) == n
  {
    CountRead(h, CountBytes(h, n));
    NetworkOrder(h, h, Word64(n));
    ValueOfWord(n);
  }

  lemma FlagIs(caught: bool)
    ensures Flag(caught) == if caught then 1 else 0
  {
  }

  /** What a reply looks like: 1 if an exception was caught and otherwise 0, the size of the data in eight octets, most
      significant first, and the data. */
  lemma ReplyLayout(h: Host, r: Reply)
    requires Fits(r)
    ensures var b := ReplyBytes(h, r);
            && |b| == 9 + |r.data| && b[0] == (if r.caught then 1 else 0)
            && Number(Reverse8(b[1..9])) == |r.data| && b[9..] == r.data
  {
    FlagIs(r.caught);
    CountSpelled(h, |r.data|);
    HeadMiddleTail(Flag(r.caught), CountBytes(h, |r.data|), r.data);
  }

  /** What a request looks like: the length of the header in four octets, the header, which gives the size of the
      argument, and the argument. */
  lemma CallLayout(c: Codec, call: Call)
    ensures var b := CallBytes(c, call); var h := c.enc(Header(call.kind, call.funcname, |call.arg|));
            |b| == 4 + |h| + |call.arg| && b[..4] == Be4(|h|) && b[4..4 + |h|] == h && b[4 + |h|..] == call.arg
  {
  }

  lemma OnewayBack(h: Host, g: Host, r: Reply, rest: seq<octet>)
    requires Fits(r)
    ensures ReadOneway(g, OnewayBytes(h, r) + rest) == Some(if r.caught then r else Reply(false, []), rest)
  {
    if r.caught {
      ReplyBack(h, g, r, rest);
      ReplyParts(h, r, rest);
    } else {
      assert ([Flag(false)] + rest)[1..] == rest;
    }
  }

  // ----- streams -----

  function CallStream(c: Codec, calls: seq<Call>): seq<octet> {
    if calls == [] then [] else CallBytes(c, calls[0]) + CallStream(c, calls[1..])
  }

  function ReadCalls(c: Codec, s: seq<octet>, n: nat): Parsed<seq<Call>> {
    if n == 0 then Some([], s)
    else
      var first := ReadCall(c, s);
      if first.Incomplete? then Incomplete
      else
        var more := ReadCalls(c, first.rest, n - 1);
        if more.Incomplete? then Incomplete else Some([first.value] + more.value, more.rest)
  }

  lemma CallsNext(c: Codec, call: Call, calls: seq<Call>, tail: seq<octet>, rest: seq<octet>)
    requires Serializes(c, call) && ReadCalls(c, tail, |calls|) == Some(calls, rest)
    ensures ReadCalls(c, CallBytes(c, call) + tail, |calls| + 1) == Some([call] + calls, rest)
  {
    CallBack(c, call, tail);
  }

  /** Requests written back to back are read back one by one, with nothing left over and nothing else touched. */
  lemma {:induction false} CallsBack(c: Codec, calls: seq<Call>, rest: seq<octet>)
    requires forall k :: 0 <= k < |calls| ==> Serializes(c, calls[k])
    ensures ReadCalls(c, CallStream(c, calls) + rest, |calls|) == Some(calls, rest)
  {
    if calls == [] {
      assert CallStream(c, calls) + rest == rest;
    } else {
      Regroup(CallBytes(c, calls[0]), CallStream(c, calls[1..]), rest);
      CallsBack(c, calls[1..], rest);
      CallsNext(c, calls[0], calls[1..], CallStream(c, calls[1..]) + rest, rest);
      assert calls == [calls[0]] + calls[1..];
    }
  }

  /** What the server writes for a call of each kind: a one-way call without exceptions gets no answer. */
  datatype Answer = Answer(kind: CallKind, reply: Reply)

  function AnswerBytes(h: Host, a: Answer): seq<octet> {
    match a.kind
    case Async => ReplyBytes(h, a.reply)
    case Oneway => OnewayBytes(h, a.reply)
    case OnewayNoexcept => []
  }

  /** What the caller learns from it. */
  function Learned(a: Answer): Reply {
    match a.kind
    case Async => a.reply
    case Oneway => if a.reply.caught then a.reply else Reply(false, [])
    case OnewayNoexcept => Reply(false, [])
  }

  function AnswerStream(h: Host, answers: seq<Answer>): seq<octet> {
    if answers == [] then [] else AnswerBytes(h, answers[0]) + AnswerStream(h, answers[1..])
  }

  /** Each caller reads with the parser of its own kind of call. */
  function ReadAnswer(g: Host, kind: CallKind, s: seq<octet>): Parsed<Reply> {
    match kind
    case Async => ReadReply(g, s)
    case Oneway => ReadOneway(g, s)
    case OnewayNoexcept => Some(Reply(false, []), s)
  }

  function ReadAnswers(g: Host, s: seq<octet>, kinds: seq<CallKind>): Parsed<seq<Reply>>
    decreases |kinds|
  {
    if kinds == [] then Some([], s)
    else
      var first := ReadAnswer(g, kinds[0], s);
      if first.Incomplete? then Incomplete
      else
        var more := ReadAnswers(g, first.rest, kinds[1..]);
        if more.Incomplete? then Incomplete else Some([first.value] + more.value, more.rest)
  }

  lemma AnswerBack(h: Host, g: Host, a: Answer, rest: seq<octet>)
    requires Fits(a.reply)
    ensures ReadAnswer(g, a.kind, AnswerBytes(h, a) + rest) == Some(Learned(a), rest)
  {
    match a.kind
    case Async => ReplyBack(h, g, a.reply, rest);
    case Oneway => OnewayBack(h, g, a.reply, rest);
    case OnewayNoexcept => assert [] + rest == rest;
  }

  function Kinds(answers: seq<Answer>): seq<CallKind> {
    if answers == [] then [] else [answers[0].kind] + Kinds(answers[1..])
  }

  function AllLearned(answers: seq<Answer>): seq<Reply> {
    if answers == [] then [] else [Learned(answers[0])] + AllLearned(answers[1..])
  }

  lemma AnswersNext(h: Host, g: Host, a: Answer, kinds: seq<CallKind>, more: seq<Reply>,
                    tail: seq<octet>, rest: seq<octet>)
    requires Fits(a.reply) && ReadAnswers(g, tail, kinds) == Some(more, rest)
    ensures ReadAnswers(g, AnswerBytes(h, a) + tail, [a.kind] + kinds) == Some([Learned(a)] + more, rest)
  {
    AnswerBack(h, g, a, tail);
    assert ([a.kind] + kinds)[1..] == kinds;
  }

  /** Calls of all kinds in any order: every caller in turn reads its own answer, nothing of the next one, and
      nothing is left over. */
  lemma {:induction false} AnswersBack(h: Host, g: Host, answers: seq<Answer>, rest: seq<octet>)
    requires forall k :: 0 <= k < |answers| ==> Fits(answers[k].reply)
    ensures ReadAnswers(g, AnswerStream(h, answers) + rest, Kinds(answers)) == Some(AllLearned(answers), rest)
  {
    if answers == [] {
      assert AnswerStream(h, answers) + rest == rest;
    } else {
      var kinds, more := Kinds(answers[1..]), AllLearned(answers[1..]);
      Regroup(AnswerBytes(h, answers[0]), AnswerStream(h, answers[1..]), rest);
      AnswersBack(h, g, answers[1..], rest);
      AnswersNext(h, g, answers[0], kinds, more, AnswerStream(h, answers[1..]) + rest, rest);
    }
  }

  // ----- sockets -----

  /** One end of a connection: the octets still to be read and those written so far. */
  class Socket {
    var input: seq<octet>
    var output: seq<octet>
    /** How many system calls have failed, the end of the stream included. */
    ghost var failures: nat

    /** write(2): an error, or at least one octet and possibly not all. */
    method SysWrite(data: seq<octet>) returns (count: int)
      requires data != []
      modifies this`output, this`failures
      ensures count == -1 || 0 < count <= |data|
      ensures output == old(output) + if count < 0 then [] else data[..count]
      ensures failures == old(failures) + if count < 0 then 1 else 0
    {
      count := *;
      if !(0 < count <= |data|) {
        count := -1;
        failures := failures + 1;
      }
      output := output + if count < 0 then [] else data[..count];
    }

    /** read(2): an error, the end of the stream (0), or at least one octet and possibly not all that was asked for. */
    method SysRead(n: nat) returns (count: int, data: seq<octet>)
      requires n > 0
      modifies this`input, this`failures
      ensures -1 <= count <= n && count <= |old(input)|
      ensures count > 0 ==> data == old(input)[..count] && input == old(input)[count..]
      ensures count <= 0 ==> data == [] && input == old(input)
      ensures failures == old(failures) + if count <= 0 then 1 else 0
    {
      count := *;
      if !(0 <= count <= n && count <= |input|) {
        count := -1;
      }
      if count > 0 {
        data, input := input[..count], input[count..];
      } else {
        data := [];
        failures := failures + 1;
      }
    }

    method MyWrite(data: seq<octet>) returns (ok: bool)
      modifies this`output, this`failures
      ensures ok ==> output == old(output) + data
      ensures !ok ==> old(output) <= output < old(output) + data
      ensures old(failures) <= failures && (ok <==> failures == old(failures))
    {
      var left := data;
      while left != []
        invariant old(output) <= output && output + left == old(output) + data && failures == old(failures)
        decreases |left|
      {
        var count := SysWrite(left);
        if count < 0 {
          return false;
        }
        left := left[count..];
      }
      ok := true;
    }

    method MyRead(n: nat) returns (ok: bool, data: seq<octet>)
      modifies this`input, this`failures
      ensures ok ==> Take(old(input), n) == Some(data, input)
      ensures old(input) == data + input && |data| <= n
      ensures !ok ==> |data| < n
      ensures old(failures) <= failures && (ok <==> failures == old(failures))
    {
      data := [];
      while |data| < n
        invariant old(input) == data + input && |data| <= n && failures == old(failures)
        decreases n - |data|
      {
        var count, more := SysRead(n - |data|);
        if count <= 0 {
          return false, data;
        }
        data := data + more;
      }
      ok := true;
    }

    /** Three writes, of which a later one is not tried if an earlier one fails. */
    method SendThree(a: seq<octet>, b: seq<octet>, d: seq<octet>) returns (ok: bool)
      modifies this`output, this`failures
      ensures ok ==> output == old(output) + (a + b + d)
      ensures !ok ==> old(output) <= output < old(output) + (a + b + d)
      ensures old(failures) <= failures && (ok <==> failures == old(failures))
    {
      ThreeParts(old(output), a, b, d);
      ok := MyWrite(a);
      if !ok { return; }
      ok := MyWrite(b);
      if !ok { return; }
      ok := MyWrite(d);
    }

    /** send_exrpcreq: short requests in one write, long ones in three. */
    method SendRequest(c: Codec, call: Call) returns (ok: bool)
      modifies this`output, this`failures
      ensures ok ==> output == old(output) + CallBytes(c, call)
      ensures !ok ==> old(output) <= output < old(output) + CallBytes(c, call)
      ensures old(failures) <= failures && (ok <==> failures == old(failures))
    {
      var header := c.enc(HeaderOf(call));
      if |call.arg| < 65536 {
        var buffer := Be4(|header|) + header + call.arg;
        ok := MyWrite(buffer);
      } else {
        ok := SendThree(Be4(|header|), header, call.arg);
      }
    }

    /** The reading half of handle_exrpc_process. */
    method ReceiveRequest(c: Codec) returns (r: Parsed<Call>)
      modifies this`input, this`failures
      ensures r.Some? ==> r == ReadCall(c, old(input)) && input == r.rest
      ensures old(failures) <= failures && (r.Some? <==> failures == old(failures))
    {
      var ok, size := MyRead(4);
      if !ok { return Incomplete; }
      var header;
      ok, header := MyRead(FromBe4(size));
      if !ok { return Incomplete; }
      var h := c.dec(header);
      var arg;
      ok, arg := MyRead(h.argCount);
      if !ok { return Incomplete; }
      r := Some(Call(h.kind, h.funcname, arg), input);
    }

    /** The reply of an async call: short ones in one write, long ones in three. */
    method SendReply(h: Host, reply: Reply) returns (ok: bool)
      modifies this`output, this`failures
      ensures ok ==> output == old(output) + ReplyBytes(h, reply)
      ensures !ok ==> old(output) <= output < old(output) + ReplyBytes(h, reply)
      ensures old(failures) <= failures && (ok <==> failures == old(failures))
    {
      if |reply.data| < 65536 {
        ok := MyWrite([Flag(reply.caught)] + CountBytes(h, |reply.data|) + reply.data);
      } else {
        ok := SendPieces(h, reply);
      }
    }

    method SendPieces(h: Host, reply: Reply) returns (ok: bool)
      modifies this`output, this`failures
      ensures ok ==> output == old(output) + ReplyBytes(h, reply)
      ensures !ok ==> old(output) <= output < old(output) + ReplyBytes(h, reply)
      ensures old(failures) <= failures && (ok <==> failures == old(failures))
    {
      ok := SendThree([Flag(reply.caught)], CountBytes(h, |reply.data|), reply.data);
    }

    /** The reply of a one-way call. */
    method SendOnewayReply(h: Host, reply: Reply) returns (ok: bool)
      modifies this`output, this`failures
      ensures ok ==> output == old(output) + OnewayBytes(h, reply)
      ensures !ok ==> old(output) <= output < old(output) + OnewayBytes(h, reply)
      ensures old(failures) <= failures && (ok <==> failures == old(failures))
    {
      if reply.caught {
        ok := SendPieces(h, reply);
      } else {
        ok := MyWrite([Flag(false)]);
      }
    }

    method ReceiveData(g: Host, caught: bool) returns (r: Parsed<Reply>)
      modifies this`input, this`failures
      ensures r.Some? ==> r == ReadData(g, caught, old(input)) && input == r.rest
      ensures old(failures) <= failures && (r.Some? <==> failures == old(failures))
    {
      var ok, count := MyRead(8);
      if !ok { return Incomplete; }
      var data;
      ok, data := MyRead(Value64(MyNtohll(g, Load(g, count))));
      if !ok { return Incomplete; }
      r := Some(Reply(caught, data), input);
    }

    /** The reading half of exrpc_result::get. */
    method ReceiveReply(g: Host) returns (r: Parsed<Reply>)
      modifies this`input, this`failures
      ensures r.Some? ==> r == ReadReply(g, old(input)) && input == r.rest
      ensures old(failures) <= failures && (r.Some? <==> failures == old(failures))
    {
      var ok, flag := MyRead(1);
      if !ok { return Incomplete; }
      r := ReceiveData(g, flag[0] != 0);
    }

    /** The reading half of send_exrpcreq_oneway. */
    method ReceiveOneway(g: Host) returns (r: Parsed<Reply>)
      modifies this`input, this`failures
      ensures r.Some? ==> r == ReadOneway(g, old(input)) && input == r.rest
      ensures old(failures) <= failures && (r.Some? <==> failures == old(failures))
    {
      var ok, flag := MyRead(1);
      if !ok { return Incomplete; }
      if flag[0] != 0 {
        r := ReceiveData(g, true);
      } else {
        r := Some(Reply(false, []), input);
      }
    }
  }
}
