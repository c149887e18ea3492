/** The inbound half of proto.go: the packets a relay sends, the `proc*` functions that read one packet
    each, and the loop `process` that dispatches them until the connection closes or fails. */
module Receiver {
  import opened Basics
  import opened Wire
  import opened Packets

  /** The handler calls `process` makes, in the order it makes them. */
  datatype Call =
    | HandleBroadcast(message: Blob)
    | HandleRequest(id: UInt64, request: Blob, timeout: Int64)
    | HandleReply(id: UInt64, reply: Option<Blob>, fault: Blob)
    | HandlePublish(topic: Blob, event: Blob)
    | HandleTunnelInit(id: UInt64, chunkLimit: Int64)
    | HandleTunnelResult(id: UInt64, chunkLimit: Int64)
    | HandleTunnelAllowance(id: UInt64, space: Int64)
    | HandleTunnelTransfer(id: UInt64, size: Int64, payload: Blob)
    | HandleTunnelClose(id: UInt64, reason: Blob)

  const NANOS_PER_MILLI := 1_000_000

  /** `time.Duration(ms) * time.Millisecond`, in nanoseconds and wrapping like int64. */
  function Millis(ms: UInt64): Int64 {
    ToInt64(ToInt64(ms) * NANOS_PER_MILLI)
  }

  /** The deadline handed to the request handler is the one sent exactly up to this many milliseconds. */
  const MAX_MILLIS := 9_223_372_036_854

  lemma DeadlineIsExact(ms: UInt64)
    ensures Millis(ms) == ms * NANOS_PER_MILLI <==> ms <= MAX_MILLIS
  {
  }

  // ----- reading one packet

  function ProcBroadcast(s: Bytes): Parsed<Call> {
    var (message, s) :- ParseBlob(s);
    Success((HandleBroadcast(message), s))
  }

  function ProcRequest(s: Bytes): Parsed<Call> {
    var (id, s) :- ParseVarint(s);
    var (request, s) :- ParseBlob(s);
    var (timeout, s) :- ParseVarint(s);
    Success((HandleRequest(id, request, Millis(timeout)), s))
  }

  function ProcReply(s: Bytes): Parsed<Call> {
    var (id, s) :- ParseVarint(s);
    var (timeout, s) :- ParseBool(s);
    if timeout then
      Success((HandleReply(id, None, []), s))
    else
      var (success, s) :- ParseBool(s);
      var (blob, s) :- ParseBlob(s);
      Success((if success then HandleReply(id, Some(blob), []) else HandleReply(id, None, blob), s))
  }

  function ProcPublish(s: Bytes): Parsed<Call> {
    var (topic, s) :- ParseBlob(s);
    var (event, s) :- ParseBlob(s);
    Success((HandlePublish(topic, event), s))
  }

  function ProcTunnelInit(s: Bytes): Parsed<Call> {
    var (id, s) :- ParseVarint(s);
    var (chunkLimit, s) :- ParseInt(s);
    Success((HandleTunnelInit(id, chunkLimit), s))
  }

  function ProcTunnelResult(s: Bytes): Parsed<Call> {
    var (id, s) :- ParseVarint(s);
    var (timeout, s) :- ParseBool(s);
    if timeout then
      Success((HandleTunnelResult(id, 0), s))
    else
      var (chunkLimit, s) :- ParseInt(s);
      Success((HandleTunnelResult(id, chunkLimit), s))
  }

  function ProcTunnelAllowance(s: Bytes): Parsed<Call> {
    var (id, s) :- ParseVarint(s);
    var (space, s) :- ParseInt(s);
    Success((HandleTunnelAllowance(id, space), s))
  }

  function ProcTunnelTransfer(s: Bytes): Parsed<Call> {
    var (id, s) :- ParseVarint(s);
    var (size, s) :- ParseInt(s);
    var (payload, s) :- ParseBlob(s);
    Success((HandleTunnelTransfer(id, size, payload), s))
  }

  function ProcTunnelClose(s: Bytes): Parsed<Call> {
    var (id, s) :- ParseVarint(s);
    var (reason, s) :- ParseBlob(s);
    Success((HandleTunnelClose(id, reason), s))
  }

  function Proc(op: Byte, s: Bytes): Parsed<Call> {
    if op == OP_BROADCAST then ProcBroadcast(s)
    else if op == OP_REQUEST then ProcRequest(s)
    else if op == OP_REPLY then ProcReply(s)
    else if op == OP_PUBLISH then ProcPublish(s)
    else if op == OP_TUN_INIT then ProcTunnelInit(s)
    else if op == OP_TUN_CONFIRM then ProcTunnelResult(s)
    else if op == OP_TUN_ALLOW then ProcTunnelAllowance(s)
    else if op == OP_TUN_TRANSFER then ProcTunnelTransfer(s)
    else if op == OP_TUN_CLOSE then ProcTunnelClose(s)
    else Failure(BadOpcode(op))
  }

  // ----- the receiver loop

  /** How a run of `process` ends: the calls made, the bytes never read (after a close) and the failure. */
  datatype Outcome = Outcome(calls: seq<Call>, rest: Bytes, failure: Option<Error>)

  function Process(s: Bytes): Outcome
    decreases |s|
  {
    if s == [] then Outcome([], [], Some(Eof))
    else if s[0] == OP_CLOSE then
      match ParseBlob(s[1..])
      case Failure(e) => Outcome([], [], Some(e))
      case Success((reason, rest)) =>
        Outcome([], rest, if |reason| > 0 then Some(Dropped(reason)) else None)
    else
      match Proc(s[0], s[1..])
      case Failure(e) => Outcome([], [], Some(e))
      case Success((call, rest)) =>
        ProcConsumes(s[0], s[1..]);
        var o := Process(rest);
        o.(calls := [call] + o.calls)
  }

  lemma ProcConsumes(op: Byte, s: Bytes)
    ensures Proc(op, s).Success? ==> |Proc(op, s).value.1| <= |s|
  {
    hide ParseVarint, ParseBool, ParseBlob, Millis;
  }

  // ----- the relay's side

  datatype Verdict = TimedOut | Answered(answer: Answer)

  datatype Inbound =
    | BroadcastIn(message: Blob)
    | RequestIn(id: UInt64, request: Blob, timeout: UInt64)
    | ReplyIn(id: UInt64, verdict: Verdict)
    | PublishIn(topic: Blob, event: Blob)
    | TunnelInitIn(id: UInt64, chunkLimit: Int64)
    | TunnelResultIn(id: UInt64, result: Option<Int64>)
    | TunnelAllowanceIn(id: UInt64, space: Int64)
    | TunnelTransferIn(id: UInt64, size: Int64, payload: Blob)
    | TunnelCloseIn(id: UInt64, reason: Blob)

  function InboundOp(p: Inbound): Byte {
    match p
    case BroadcastIn(_) => OP_BROADCAST
    case RequestIn(_, _, _) => OP_REQUEST
    case ReplyIn(_, _) => OP_REPLY
    case PublishIn(_, _) => OP_PUBLISH
    case TunnelInitIn(_, _) => OP_TUN_INIT
    case TunnelResultIn(_, _) => OP_TUN_CONFIRM
    case TunnelAllowanceIn(_, _) => OP_TUN_ALLOW
    case TunnelTransferIn(_, _, _) => OP_TUN_TRANSFER
    case TunnelCloseIn(_, _) => OP_TUN_CLOSE
  }

  function EncodeVerdict(v: Verdict): Bytes {
    match v
    case TimedOut => EncodeBool(true)
    case Answered(answer) => EncodeBool(false) + EncodeAnswer(answer)
  }

  function EncodeResult(limit: Option<Int64>): Bytes {
    match limit
    case None => EncodeBool(true)
    case Some(n) => EncodeBool(false) + EncodeInt(n)
  }

  function EncodeInboundBody(p: Inbound): Bytes {
    match p
    case BroadcastIn(message) => EncodeBlob(message)
    case RequestIn(id, request, timeout) => EncodeVarint(id) + EncodeBlob(request) + EncodeVarint(timeout)
    case ReplyIn(id, verdict) => EncodeVarint(id) + EncodeVerdict(verdict)
    case PublishIn(topic, event) => EncodeBlob(topic) + EncodeBlob(event)
    case TunnelInitIn(id, chunkLimit) => EncodeVarint(id) + EncodeInt(chunkLimit)
    case TunnelResultIn(id, chunkLimit) => EncodeVarint(id) + EncodeResult(chunkLimit)
    case TunnelAllowanceIn(id, space) => EncodeVarint(id) + EncodeInt(space)
    case TunnelTransferIn(id, size, payload) => EncodeVarint(id) + EncodeInt(size) + EncodeBlob(payload)
    case TunnelCloseIn(id, reason) => EncodeVarint(id) + EncodeBlob(reason)
  }

  function EncodeInbound(p: Inbound): Bytes {
    [InboundOp(p)] + EncodeInboundBody(p)
  }

  function EncodeInboundAll(ps: seq<Inbound>): Bytes {
    if ps == [] then [] else EncodeInbound(ps[0]) + EncodeInboundAll(ps[1..])
  }

  function EncodeClose(reason: Blob): Bytes {
    [OP_CLOSE] + EncodeBlob(reason)
  }

  /** The handler call a packet stands for. */
  function Deliver(p: Inbound): Call {
    match p
    case BroadcastIn(message) => HandleBroadcast(message)
    case RequestIn(id, request, timeout) => HandleRequest(id, request, Millis(timeout))
    case ReplyIn(id, TimedOut) => HandleReply(id, None, [])
    case ReplyIn(id, Answered(Replied(reply))) => HandleReply(id, Some(reply), [])
    case ReplyIn(id, Answered(Faulted(fault))) => HandleReply(id, None, fault)
    case PublishIn(topic, event) => HandlePublish(topic, event)
    case TunnelInitIn(id, chunkLimit) => HandleTunnelInit(id, chunkLimit)
    case TunnelResultIn(id, None) => HandleTunnelResult(id, 0)
    case TunnelResultIn(id, Some(n)) => HandleTunnelResult(id, n)
    case TunnelAllowanceIn(id, space) => HandleTunnelAllowance(id, space)
    case TunnelTransferIn(id, size, payload) => HandleTunnelTransfer(id, size, payload)
    case TunnelCloseIn(id, reason) => HandleTunnelClose(id, reason)
  }

  function DeliverAll(ps: seq<Inbound>): seq<Call> {
    seq(|ps|, i requires 0 <= i < |ps| => Deliver(ps[i]))
  }

  // ----- round trips

  lemma VerdictRoundTrip(id: UInt64, v: Verdict, t: Bytes)
    ensures ProcReply(EncodeVarint(id) + EncodeVerdict(v) + t) == Success((Deliver(ReplyIn(id, v)), t))
  {
    hide ParseVarint, EncodeVarint, ParseBool, EncodeBool, ParseBlob, EncodeBlob;
    Assoc3(EncodeVarint(id), EncodeVerdict(v), t);
    VarintRoundTrip(id, EncodeVerdict(v) + t);
    match v
    case TimedOut => BoolRoundTrip(true, t);
    case Answered(answer) =>
      Assoc3(EncodeBool(false), EncodeAnswer(answer), t);
      BoolRoundTrip(false, EncodeAnswer(answer) + t);
      var blob := if answer.Replied? then answer.reply else answer.fault;
      Assoc3(EncodeBool(answer.Replied?), EncodeBlob(blob), t);
      BoolRoundTrip(answer.Replied?, EncodeBlob(blob) + t);
      BlobRoundTrip(blob, t);
  }

  lemma InboundRoundTrip(p: Inbound, t: Bytes)
    ensures Proc(InboundOp(p), EncodeInboundBody(p) + t) == Success((Deliver(p), t))
  {
    hide ParseVarint, EncodeVarint, ParseBool, EncodeBool, ParseBlob, EncodeBlob, ParseInt, EncodeInt, Millis, ProcReply;
    match p
    case BroadcastIn(message) => BlobRoundTrip(message, t);
    case RequestIn(id, request, timeout) =>
      Assoc4(EncodeVarint(id), EncodeBlob(request), EncodeVarint(timeout), t);
      VarintRoundTrip(id, EncodeBlob(request) + (EncodeVarint(timeout) + t));
      BlobRoundTrip(request, EncodeVarint(timeout) + t);
      VarintRoundTrip(timeout, t);
    case ReplyIn(id, verdict) => VerdictRoundTrip(id, verdict, t);
    case PublishIn(topic, event) => TwoBlobs(topic, event, t);
    case TunnelInitIn(id, chunkLimit) => VarintThenInt(id, chunkLimit, t);
    case TunnelResultIn(id, None) =>
      Assoc3(EncodeVarint(id), EncodeBool(true), t);
      VarintRoundTrip(id, EncodeBool(true) + t);
      BoolRoundTrip(true, t);
    case TunnelResultIn(id, Some(n)) =>
      Assoc4(EncodeVarint(id), EncodeBool(false), EncodeInt(n), t);
      Assoc3(EncodeVarint(id), EncodeBool(false), EncodeInt(n));
      VarintRoundTrip(id, EncodeBool(false) + (EncodeInt(n) + t));
      BoolRoundTrip(false, EncodeInt(n) + t);
      IntFieldRoundTrip(n, t);
    case TunnelAllowanceIn(id, space) => VarintThenInt(id, space, t);
    case TunnelTransferIn(id, size, payload) =>
      Assoc4(EncodeVarint(id), EncodeInt(size), EncodeBlob(payload), t);
      VarintRoundTrip(id, EncodeInt(size) + (EncodeBlob(payload) + t));
      IntFieldRoundTrip(size, EncodeBlob(payload) + t);
      BlobRoundTrip(payload, t);
    case TunnelCloseIn(id, reason) =>
      Assoc3(EncodeVarint(id), EncodeBlob(reason), t);
      VarintRoundTrip(id, EncodeBlob(reason) + t);
      BlobRoundTrip(reason, t);
  }

  lemma ProcessPacket(p: Inbound, t: Bytes)
    ensures var o := Process(t);
            Process(EncodeInbound(p) + t) == o.(calls := [Deliver(p)] + o.calls)
  {
    hide Proc, EncodeInboundBody, Deliver;
    assert (EncodeInbound(p) + t)[1..] == EncodeInboundBody(p) + t;
    InboundRoundTrip(p, t);
  }

  /** A stream of packets followed by anything: the packets are dispatched, the rest is processed as if alone. */
  lemma {:induction false} ProcessPackets(ps: seq<Inbound>, t: Bytes)
    ensures var o := Process(t);
            Process(EncodeInboundAll(ps) + t) == o.(calls := DeliverAll(ps) + o.calls)
  {
    hide Process, EncodeInbound, Deliver;
    if ps == [] {
      assert EncodeInboundAll(ps) + t == t;
    } else {
      Assoc3(EncodeInbound(ps[0]), EncodeInboundAll(ps[1..]), t);
      ProcessPacket(ps[0], EncodeInboundAll(ps[1..]) + t);
      ProcessPackets(ps[1..], t);
      assert DeliverAll(ps) == [Deliver(ps[0])] + DeliverAll(ps[1..]);
    }
  }

  lemma ProcessClose(reason: Blob, t: Bytes)
    ensures Process(EncodeClose(reason) + t)
         == Outcome([], t, if reason == [] then None else Some(Dropped(reason)))
  {
    assert (EncodeClose(reason) + t)[1..] == EncodeBlob(reason) + t;
    BlobRoundTrip(reason, t);
  }

  /** Everything a relay sends up to its close is dispatched, in order, and nothing after the close is read. */
  lemma ProcessSession(ps: seq<Inbound>, reason: Blob, t: Bytes)
    ensures Process(EncodeInboundAll(ps) + EncodeClose(reason) + t)
         == Outcome(DeliverAll(ps), t, if reason == [] then None else Some(Dropped(reason)))
  {
    hide EncodeClose, Process, EncodeInboundAll;
    Assoc3(EncodeInboundAll(ps), EncodeClose(reason), t);
    ProcessPackets(ps, EncodeClose(reason) + t);
    ProcessClose(reason, t);
  }

  // ----- what is refused

  /** Exactly the nine opcodes of packets a client receives are dispatched; whatever follows any other is not read. */
  lemma UnknownOpcode(op: Byte, s: Bytes)
    ensures Proc(op, s) == Failure(BadOpcode(op)) <==> op !in {0x03, 0x04, 0x05, 0x08, 0x09, 0x0a, 0x0b, 0x0c, 0x0d}
  {
    hide ParseVarint, ParseBool, ParseBlob, Millis;
  }

  /** A packet that cannot be read ends the loop with its error, and no handler is called for it. */
  lemma ProcessFails(op: Byte, s: Bytes)
    ensures op != 0x02 && Proc(op, s).Failure? ==> Process([op] + s) == Outcome([], [], Some(Proc(op, s).error))
    ensures op == 0x02 && ParseBlob(s).Failure? ==> Process([op] + s) == Outcome([], [], Some(ParseBlob(s).error))
    ensures Process([]) == Outcome([], [], Some(Eof))
  {
    hide Proc, ParseBlob;
    assert ([op] + s)[1..] == s;
  }

  /** An unknown opcode, after any packets: they are dispatched, and then the loop fails. */
  lemma ProcessUnknown(ps: seq<Inbound>, op: Byte, s: Bytes)
    requires op !in {0x02, 0x03, 0x04, 0x05, 0x08, 0x09, 0x0a, 0x0b, 0x0c, 0x0d}
    ensures Process(EncodeInboundAll(ps) + ([op] + s)) == Outcome(DeliverAll(ps), [], Some(BadOpcode(op)))
  {
    hide Proc, Process, EncodeInboundAll;
    UnknownOpcode(op, s);
    ProcessFails(op, s);
    ProcessPackets(ps, [op] + s);
    assert DeliverAll(ps) + [] == DeliverAll(ps);
  }

  /** Every packet a relay sends, as the bytes of the relay protocol, and the handler call it leads to. */
  lemma Dispatches(p: Inbound, t: Bytes)
    ensures match p
            case BroadcastIn(message) => Proc(0x03, EncodeBlob(message) + t) == Success((HandleBroadcast(message), t))
            case RequestIn(id, request, timeout) =>
              Proc(0x04, EncodeVarint(id) + EncodeBlob(request) + EncodeVarint(timeout) + t)
              == Success((HandleRequest(id, request, Millis(timeout)), t))
            case ReplyIn(id, TimedOut) =>
              Proc(0x05, EncodeVarint(id) + [1] + t) == Success((HandleReply(id, None, []), t))
            case ReplyIn(id, Answered(Replied(reply))) =>
              Proc(0x05, EncodeVarint(id) + ([0] + ([1] + EncodeBlob(reply))) + t)
              == Success((HandleReply(id, Some(reply), []), t))
            case ReplyIn(id, Answered(Faulted(fault))) =>
              Proc(0x05, EncodeVarint(id) + ([0] + ([0] + EncodeBlob(fault))) + t)
              == Success((HandleReply(id, None, fault), t))
            case PublishIn(topic, event) =>
              Proc(0x08, EncodeBlob(topic) + EncodeBlob(event) + t) == Success((HandlePublish(topic, event), t))
            case TunnelInitIn(id, chunkLimit) =>
              Proc(0x09, EncodeVarint(id) + EncodeInt(chunkLimit) + t) == Success((HandleTunnelInit(id, chunkLimit), t))
            case TunnelResultIn(id, None) =>
              Proc(0x0a, EncodeVarint(id) + [1] + t) == Success((HandleTunnelResult(id, 0), t))
            case TunnelResultIn(id, Some(n)) =>
              Proc(0x0a, EncodeVarint(id) + ([0] + EncodeInt(n)) + t) == Success((HandleTunnelResult(id, n), t))
            case TunnelAllowanceIn(id, space) =>
              Proc(0x0b, EncodeVarint(id) + EncodeInt(space) + t) == Success((HandleTunnelAllowance(id, space), t))
            case TunnelTransferIn(id, size, payload) =>
              Proc(0x0c, EncodeVarint(id) + EncodeInt(size) + EncodeBlob(payload) + t)
              == Success((HandleTunnelTransfer(id, size, payload), t))
            case TunnelCloseIn(id, reason) =>
              Proc(0x0d, EncodeVarint(id) + EncodeBlob(reason) + t) == Success((HandleTunnelClose(id, reason), t))
  {
    hide Proc, Millis, EncodeVarint, EncodeBlob, EncodeInt;
    InboundRoundTrip(p, t);
  }

  // ----- the handshake

  /** The relay's answer to a connection request: the protocol version it speaks, or an error. */
  function ProcInit(s: Bytes): Parsed<Blob> {
    if s == [] then Failure(Eof)
    else if s[0] != OP_INIT && s[0] != OP_DENY then Failure(BadOpcode(s[0]))
    else
      var (_, rest) :- ParseMagic(RELAY_MAGIC, s[1..]);
      var (text, rest) :- ParseBlob(rest);
      if s[0] == OP_INIT then Success((text, rest)) else Failure(Denied(text))
  }

  /** Whatever the relay answers: the first byte, the magic and the text alone decide what the client makes of it:
      it is connected exactly when the relay accepts with the right magic, and a refusal carries the relay's reason. */
  lemma HandshakeRoundTrip(op: Byte, magic: Blob, text: Blob, t: Bytes)
    ensures ProcInit([op] + (EncodeBlob(magic) + EncodeBlob(text) + t))
         == if op > 0x01 then Failure(BadOpcode(op))
            else if magic != Ascii("iris-relay-magic") then Failure(BadMagic(magic))
            else if op == 0x00 then Success((text, t))
            else Failure(Denied(text))
    ensures ProcInit([]) == Failure(Eof)
  {
    hide ParseBlob, EncodeBlob, Ascii;
    var fields := EncodeBlob(magic) + EncodeBlob(text) + t;
    assert ([op] + fields)[1..] == fields;
    TwoBlobs(magic, text, t);
  }

  // ----- arbitrary byte streams

  lemma ProcExtends(op: Byte, s: Bytes, t: Bytes)
    ensures Extends(Proc(op, s), Proc(op, s + t), t)
  {
    hide ParseVarint, ParseBool, ParseBlob, Millis;
    VarintExtends(s, t);
    BlobExtends(s, t);
    if ParseVarint(s).Success? {
      var s1 := ParseVarint(s).value.1;
      VarintExtends(s1, t);
      BoolExtends(s1, t);
      BlobExtends(s1, t);
      if op == OP_REPLY || op == OP_TUN_CONFIRM {
        if ParseBool(s1).Success? {
          var s2 := ParseBool(s1).value.1;
          BoolExtends(s2, t);
          VarintExtends(s2, t);
          if ParseBool(s2).Success? {
            BlobExtends(ParseBool(s2).value.1, t);
          }
        }
      } else if op == OP_REQUEST && ParseBlob(s1).Success? {
        VarintExtends(ParseBlob(s1).value.1, t);
      } else if op == OP_TUN_TRANSFER && ParseVarint(s1).Success? {
        BlobExtends(ParseVarint(s1).value.1, t);
      }
    }
    if op == OP_PUBLISH && ParseBlob(s).Success? {
      BlobExtends(ParseBlob(s).value.1, t);
    }
  }

  /** The relay's close was read. */
  predicate Closed(o: Outcome) {
    o.failure == None || o.failure.value.Dropped?
  }

  lemma OnlyCloseDrops(op: Byte, s: Bytes)
    ensures Proc(op, s).Failure? ==> !Proc(op, s).error.Dropped?
  {
    hide ParseVarint, ParseBool, ParseBlob, Millis;
  }

  /** What the loop has done after a prefix of the stream is never undone by more bytes:
      it has dispatched a prefix, and unless it ran out of input its verdict is already final. */
  lemma {:induction false} ProcessExtends(s: Bytes, t: Bytes)
    ensures var short, long := Process(s), Process(s + t);
            && short.calls <= long.calls
            && (short.failure != Some(Eof) ==> long.calls == short.calls && long.failure == short.failure)
            && (Closed(short) ==> long.rest == short.rest + t)
    decreases |s|
  {
    if s != [] {
      hide Proc, ParseBlob;
      assert (s + t)[1..] == s[1..] + t;
      if s[0] == OP_CLOSE {
        BlobExtends(s[1..], t);
      } else {
        ProcExtends(s[0], s[1..], t);
        ProcConsumes(s[0], s[1..]);
        OnlyCloseDrops(s[0], s[1..]);
        match Proc(s[0], s[1..])
        case Failure(_) =>
        case Success((_, rest)) => ProcessExtends(rest, t);
      }
    }
  }

  /** Cut anywhere before its end, a session has dispatched a prefix of its packets and fails for want of input. */
  lemma ProcessTruncated(ps: seq<Inbound>, reason: Blob, cut: Bytes, missing: Bytes)
    requires cut + missing == EncodeInboundAll(ps) + EncodeClose(reason)
    requires missing != []
    ensures Process(cut).failure == Some(Eof)
    ensures Process(cut).calls <= DeliverAll(ps)
  {
    hide Process, EncodeClose, EncodeInboundAll;
    ProcessSession(ps, reason, []);
    assert EncodeInboundAll(ps) + EncodeClose(reason) + [] == cut + missing;
    ProcessExtends(cut, missing);
  }
}
