/** The packets of proto.go that the client sends, with a reference decoder. The relay's packets and the loop that
    reads them are in `Receiver`. */
module Packets {
  import opened Basics
  import opened Wire

  const OP_INIT: Byte := 0x00
  const OP_DENY: Byte := 0x01
  const OP_CLOSE: Byte := 0x02
  const OP_BROADCAST: Byte := 0x03
  const OP_REQUEST: Byte := 0x04
  const OP_REPLY: Byte := 0x05
  const OP_SUBSCRIBE: Byte := 0x06
  const OP_UNSUBSCRIBE: Byte := 0x07
  const OP_PUBLISH: Byte := 0x08
  const OP_TUN_INIT: Byte := 0x09
  const OP_TUN_CONFIRM: Byte := 0x0a
  const OP_TUN_ALLOW: Byte := 0x0b
  const OP_TUN_TRANSFER: Byte := 0x0c
  const OP_TUN_CLOSE: Byte := 0x0d

  function Ascii(s: string): Bytes {
    seq(|s|, i requires 0 <= i < |s| => s[i] as int % 256)
  }

  const PROTO_VERSION: Blob := Ascii("v1.0-draft2")
  const CLIENT_MAGIC: Blob := Ascii("iris-client-magic")
  const RELAY_MAGIC: Blob := Ascii("iris-relay-magic")

  // ----- what the client sends

  /** The outcome of a served request, as it travels. */
  datatype Answer = Replied(reply: Blob) | Faulted(fault: Blob)

  /** What `sendReply` sends: a fault, if it has a text, travels instead of the reply. */
  function AnswerFor(reply: Blob, fault: Blob): Answer {
    if |fault| == 0 then Replied(reply) else Faulted(fault)
  }

  datatype Outbound =
    | Init(cluster: Blob)
    | Close
    | Broadcast(cluster: Blob, message: Blob)
    | Request(id: UInt64, cluster: Blob, request: Blob, timeout: Int64)
    | Reply(id: UInt64, answer: Answer)
    | Subscribe(topic: Blob)
    | Unsubscribe(topic: Blob)
    | Publish(topic: Blob, event: Blob)
    | TunnelInit(id: UInt64, cluster: Blob, timeout: Int64)
    | TunnelConfirm(buildId: UInt64, id: UInt64)
    | TunnelAllowance(id: UInt64, space: Int64)
    | TunnelTransfer(id: UInt64, sizeOrCont: Int64, payload: Blob)
    | TunnelClose(id: UInt64)

  function EncodeInt(i: Int64): Bytes {
    EncodeVarint(ToUInt64(i))
  }

  function EncodeAnswer(a: Answer): Bytes {
    match a
    case Replied(reply) => EncodeBool(true) + EncodeBlob(reply)
    case Faulted(fault) => EncodeBool(false) + EncodeBlob(fault)
  }

  function EncodeBody(p: Outbound): Bytes {
    match p
    case Init(cluster) => EncodeBlob(CLIENT_MAGIC) + EncodeBlob(PROTO_VERSION) + EncodeBlob(cluster)
    case Close => []
    case Broadcast(cluster, message) => EncodeBlob(cluster) + EncodeBlob(message)
    case Request(id, cluster, request, timeout) =>
      EncodeVarint(id) + EncodeBlob(cluster) + EncodeBlob(request) + EncodeInt(timeout)
    case Reply(id, answer) => EncodeVarint(id) + EncodeAnswer(answer)
    case Subscribe(topic) => EncodeBlob(topic)
    case Unsubscribe(topic) => EncodeBlob(topic)
    case Publish(topic, event) => EncodeBlob(topic) + EncodeBlob(event)
    case TunnelInit(id, cluster, timeout) => EncodeVarint(id) + EncodeBlob(cluster) + EncodeInt(timeout)
    case TunnelConfirm(buildId, id) => EncodeVarint(buildId) + EncodeVarint(id)
    case TunnelAllowance(id, space) => EncodeVarint(id) + EncodeInt(space)
    case TunnelTransfer(id, sizeOrCont, payload) => EncodeVarint(id) + EncodeInt(sizeOrCont) + EncodeBlob(payload)
    case TunnelClose(id) => EncodeVarint(id)
  }

  function OutboundOp(p: Outbound): Byte {
    match p
    case Init(_) => OP_INIT
    case Close => OP_CLOSE
    case Broadcast(_, _) => OP_BROADCAST
    case Request(_, _, _, _) => OP_REQUEST
    case Reply(_, _) => OP_REPLY
    case Subscribe(_) => OP_SUBSCRIBE
    case Unsubscribe(_) => OP_UNSUBSCRIBE
    case Publish(_, _) => OP_PUBLISH
    case TunnelInit(_, _, _) => OP_TUN_INIT
    case TunnelConfirm(_, _) => OP_TUN_CONFIRM
    case TunnelAllowance(_, _) => OP_TUN_ALLOW
    case TunnelTransfer(_, _, _) => OP_TUN_TRANSFER
    case TunnelClose(_) => OP_TUN_CLOSE
  }

  function Encode(p: Outbound): Bytes {
    [OutboundOp(p)] + EncodeBody(p)
  }

  /** Every packet the client sends, as the bytes of the relay protocol. */
  lemma Layout(p: Outbound)
    ensures match p
            case Init(cluster) =>
              Encode(p) == [0x00] + EncodeBlob(Ascii("iris-client-magic")) + EncodeBlob(Ascii("v1.0-draft2")) + EncodeBlob(cluster)
            case Close => Encode(p) == [0x02]
            case Broadcast(cluster, message) => Encode(p) == [0x03] + EncodeBlob(cluster) + EncodeBlob(message)
            case Request(id, cluster, request, timeout) =>
              Encode(p) == [0x04] + EncodeVarint(id) + EncodeBlob(cluster) + EncodeBlob(request) + EncodeInt(timeout)
            case Reply(id, Replied(reply)) => Encode(p) == [0x05] + EncodeVarint(id) + [1] + EncodeBlob(reply)
            case Reply(id, Faulted(fault)) => Encode(p) == [0x05] + EncodeVarint(id) + [0] + EncodeBlob(fault)
            case Subscribe(topic) => Encode(p) == [0x06] + EncodeBlob(topic)
            case Unsubscribe(topic) => Encode(p) == [0x07] + EncodeBlob(topic)
            case Publish(topic, event) => Encode(p) == [0x08] + EncodeBlob(topic) + EncodeBlob(event)
            case TunnelInit(id, cluster, timeout) =>
              Encode(p) == [0x09] + EncodeVarint(id) + EncodeBlob(cluster) + EncodeInt(timeout)
            case TunnelConfirm(buildId, id) => Encode(p) == [0x0a] + EncodeVarint(buildId) + EncodeVarint(id)
            case TunnelAllowance(id, space) => Encode(p) == [0x0b] + EncodeVarint(id) + EncodeInt(space)
            case TunnelTransfer(id, size, payload) =>
              Encode(p) == [0x0c] + EncodeVarint(id) + EncodeInt(size) + EncodeBlob(payload)
            case TunnelClose(id) => Encode(p) == [0x0d] + EncodeVarint(id)
  {
    hide EncodeVarint, EncodeBlob, EncodeInt, Ascii;
    var op := [OutboundOp(p)];
    match p
    case Init(cluster) => Append3(op, EncodeBlob(CLIENT_MAGIC), EncodeBlob(PROTO_VERSION), EncodeBlob(cluster));
    case Close => assert op + [] == op;
    case Broadcast(cluster, message) => Assoc3(op, EncodeBlob(cluster), EncodeBlob(message));
    case Request(id, cluster, request, timeout) =>
      Append3(op, EncodeVarint(id), EncodeBlob(cluster), EncodeBlob(request));
      Assoc3(op, EncodeVarint(id) + EncodeBlob(cluster) + EncodeBlob(request), EncodeInt(timeout));
    case Reply(id, Replied(reply)) => Assoc4(op, EncodeVarint(id), [1], EncodeBlob(reply));
    case Reply(id, Faulted(fault)) => Assoc4(op, EncodeVarint(id), [0], EncodeBlob(fault));
    case Publish(topic, event) => Assoc3(op, EncodeBlob(topic), EncodeBlob(event));
    case TunnelInit(id, cluster, timeout) => Append3(op, EncodeVarint(id), EncodeBlob(cluster), EncodeInt(timeout));
    case TunnelConfirm(buildId, id) => Assoc3(op, EncodeVarint(buildId), EncodeVarint(id));
    case TunnelAllowance(id, space) => Assoc3(op, EncodeVarint(id), EncodeInt(space));
    case TunnelTransfer(id, size, payload) => Append3(op, EncodeVarint(id), EncodeInt(size), EncodeBlob(payload));
    case _ =>
  }

  function EncodeAll(ps: seq<Outbound>): Bytes {
    if ps == [] then [] else Encode(ps[0]) + EncodeAll(ps[1..])
  }

  lemma {:induction false} EncodeAllSnoc(ps: seq<Outbound>, p: Outbound)
    ensures EncodeAll(ps + [p]) == EncodeAll(ps) + Encode(p)
  {
    if ps == [] {
      assert ps + [p] == [p];
      assert EncodeAll([]) == [];
    } else {
      assert (ps + [p])[1..] == ps[1..] + [p];
      EncodeAllSnoc(ps[1..], p);
    }
  }

  // ----- a reference decoder for the client's packets, as the relay needs one

  function ParseInt(s: Bytes): Parsed<Int64> {
    var (u, rest) :- ParseVarint(s);
    Success((ToInt64(u), rest))
  }

  function ParseAnswer(s: Bytes): Parsed<Answer> {
    var (success, s1) :- ParseBool(s);
    var (blob, s2) :- ParseBlob(s1);
    Success((if success then Replied(blob) else Faulted(blob), s2))
  }

  function ParseMagic(magic: Blob, s: Bytes): Parsed<()> {
    var (m, rest) :- ParseBlob(s);
    if m == magic then Success(((), rest)) else Failure(BadMagic(m))
  }

  function ParseInit(s: Bytes): Parsed<Outbound> {
    var (_, s) :- ParseMagic(CLIENT_MAGIC, s);
    var (_, s) :- ParseMagic(PROTO_VERSION, s);
    var (cluster, s) :- ParseBlob(s);
    Success((Init(cluster), s))
  }

  function ParseBroadcast(s: Bytes): Parsed<Outbound> {
    var (cluster, s) :- ParseBlob(s);
    var (message, s) :- ParseBlob(s);
    Success((Broadcast(cluster, message), s))
  }

  function ParseRequest(s: Bytes): Parsed<Outbound> {
    var (id, s) :- ParseVarint(s);
    var (cluster, s) :- ParseBlob(s);
    var (request, s) :- ParseBlob(s);
    var (timeout, s) :- ParseInt(s);
    Success((Request(id, cluster, request, timeout), s))
  }

  function ParseReply(s: Bytes): Parsed<Outbound> {
    var (id, s) :- ParseVarint(s);
    var (answer, s) :- ParseAnswer(s);
    Success((Reply(id, answer), s))
  }

  function ParseSubscribe(s: Bytes): Parsed<Outbound> {
    var (topic, s) :- ParseBlob(s);
    Success((Subscribe(topic), s))
  }

  function ParseUnsubscribe(s: Bytes): Parsed<Outbound> {
    var (topic, s) :- ParseBlob(s);
    Success((Unsubscribe(topic), s))
  }

  function ParsePublish(s: Bytes): Parsed<Outbound> {
    var (topic, s) :- ParseBlob(s);
    var (event, s) :- ParseBlob(s);
    Success((Publish(topic, event), s))
  }

  function ParseTunnelInit(s: Bytes): Parsed<Outbound> {
    var (id, s) :- ParseVarint(s);
    var (cluster, s) :- ParseBlob(s);
    var (timeout, s) :- ParseInt(s);
    Success((TunnelInit(id, cluster, timeout), s))
  }

  function ParseTunnelConfirm(s: Bytes): Parsed<Outbound> {
    var (buildId, s) :- ParseVarint(s);
    var (id, s) :- ParseVarint(s);
    Success((TunnelConfirm(buildId, id), s))
  }

  function ParseTunnelAllowance(s: Bytes): Parsed<Outbound> {
    var (id, s) :- ParseVarint(s);
    var (space, s) :- ParseInt(s);
    Success((TunnelAllowance(id, space), s))
  }

  function ParseTunnelTransfer(s: Bytes): Parsed<Outbound> {
    var (id, s) :- ParseVarint(s);
    var (size, s) :- ParseInt(s);
    var (payload, s) :- ParseBlob(s);
    Success((TunnelTransfer(id, size, payload), s))
  }

  function ParseTunnelClose(s: Bytes): Parsed<Outbound> {
    var (id, s) :- ParseVarint(s);
    Success((TunnelClose(id), s))
  }

  function ParseBody(op: Byte, s: Bytes): Parsed<Outbound> {
    if op == OP_INIT then ParseInit(s)
    else if op == OP_CLOSE then Success((Close, s))
    else if op == OP_BROADCAST then ParseBroadcast(s)
    else if op == OP_REQUEST then ParseRequest(s)
    else if op == OP_REPLY then ParseReply(s)
    else if op == OP_SUBSCRIBE then ParseSubscribe(s)
    else if op == OP_UNSUBSCRIBE then ParseUnsubscribe(s)
    else if op == OP_PUBLISH then ParsePublish(s)
    else if op == OP_TUN_INIT then ParseTunnelInit(s)
    else if op == OP_TUN_CONFIRM then ParseTunnelConfirm(s)
    else if op == OP_TUN_ALLOW then ParseTunnelAllowance(s)
    else if op == OP_TUN_TRANSFER then ParseTunnelTransfer(s)
    else if op == OP_TUN_CLOSE then ParseTunnelClose(s)
    else Failure(BadOpcode(op))
  }

  function ParseOutbound(s: Bytes): Parsed<Outbound> {
    if s == [] then Failure(Eof) else ParseBody(s[0], s[1..])
  }

  lemma IntFieldRoundTrip(i: Int64, t: Bytes)
    ensures ParseInt(EncodeInt(i) + t) == Success((i, t))
  {
    VarintRoundTrip(ToUInt64(i), t);
    IntRoundTrip(i);
  }

  lemma AnswerRoundTrip(a: Answer, t: Bytes)
    ensures ParseAnswer(EncodeAnswer(a) + t) == Success((a, t))
  {
    var blob := if a.Replied? then a.reply else a.fault;
    assert EncodeAnswer(a) + t == EncodeBool(a.Replied?) + (EncodeBlob(blob) + t);
    BoolRoundTrip(a.Replied?, EncodeBlob(blob) + t);
    BlobRoundTrip(blob, t);
  }

  lemma Assoc3(a: Bytes, b: Bytes, t: Bytes)
    ensures a + b + t == a + (b + t)
  {
  }

  lemma Assoc4(a: Bytes, b: Bytes, c: Bytes, t: Bytes)
    ensures a + b + c + t == a + (b + (c + t))
  {
  }

  lemma Append3(before: Bytes, x: Bytes, y: Bytes, z: Bytes)
    ensures before + x + y + z == before + (x + y + z)
  {
  }

  lemma TwoBlobs(a: Blob, b: Blob, t: Bytes)
    ensures ParseBlob(EncodeBlob(a) + EncodeBlob(b) + t) == Success((a, EncodeBlob(b) + t))
    ensures ParseBlob(EncodeBlob(b) + t) == Success((b, t))
  {
    Assoc3(EncodeBlob(a), EncodeBlob(b), t);
    BlobRoundTrip(a, EncodeBlob(b) + t);
    BlobRoundTrip(b, t);
  }

  lemma VarintThenInt(id: UInt64, i: Int64, t: Bytes)
    ensures ParseVarint(EncodeVarint(id) + EncodeInt(i) + t) == Success((id, EncodeInt(i) + t))
    ensures ParseInt(EncodeInt(i) + t) == Success((i, t))
  {
    Assoc3(EncodeVarint(id), EncodeInt(i), t);
    VarintRoundTrip(id, EncodeInt(i) + t);
    IntFieldRoundTrip(i, t);
  }

  lemma BodyRoundTrip(p: Outbound, t: Bytes)
    ensures ParseBody(OutboundOp(p), EncodeBody(p) + t) == Success((p, t))
  {
    hide EncodeVarint, ParseVarint, EncodeBlob, ParseBlob, EncodeInt, ParseInt, EncodeAnswer, ParseAnswer;
    match p
    case Init(cluster) =>
      Assoc4(EncodeBlob(CLIENT_MAGIC), EncodeBlob(PROTO_VERSION), EncodeBlob(cluster), t);
      BlobRoundTrip(CLIENT_MAGIC, EncodeBlob(PROTO_VERSION) + (EncodeBlob(cluster) + t));
      BlobRoundTrip(PROTO_VERSION, EncodeBlob(cluster) + t);
      BlobRoundTrip(cluster, t);
    case Close => assert [] + t == t;
    case Broadcast(cluster, message) => TwoBlobs(cluster, message, t);
    case Request(id, cluster, request, timeout) =>
      var rest := EncodeInt(timeout) + t;
      Assoc4(EncodeVarint(id), EncodeBlob(cluster), EncodeBlob(request), rest);
      Assoc3(EncodeVarint(id) + EncodeBlob(cluster) + EncodeBlob(request), EncodeInt(timeout), t);
      VarintRoundTrip(id, EncodeBlob(cluster) + (EncodeBlob(request) + rest));
      BlobRoundTrip(cluster, EncodeBlob(request) + rest);
      BlobRoundTrip(request, rest);
      IntFieldRoundTrip(timeout, t);
    case Reply(id, answer) =>
      Assoc3(EncodeVarint(id), EncodeAnswer(answer), t);
      VarintRoundTrip(id, EncodeAnswer(answer) + t);
      AnswerRoundTrip(answer, t);
    case Subscribe(topic) => BlobRoundTrip(topic, t);
    case Unsubscribe(topic) => BlobRoundTrip(topic, t);
    case Publish(topic, event) => TwoBlobs(topic, event, t);
    case TunnelInit(id, cluster, timeout) =>
      Assoc4(EncodeVarint(id), EncodeBlob(cluster), EncodeInt(timeout), t);
      VarintRoundTrip(id, EncodeBlob(cluster) + (EncodeInt(timeout) + t));
      BlobRoundTrip(cluster, EncodeInt(timeout) + t);
      IntFieldRoundTrip(timeout, t);
    case TunnelConfirm(buildId, id) =>
      Assoc3(EncodeVarint(buildId), EncodeVarint(id), t);
      VarintRoundTrip(buildId, EncodeVarint(id) + t);
      VarintRoundTrip(id, t);
    case TunnelAllowance(id, space) => VarintThenInt(id, space, t);
    case TunnelTransfer(id, size, payload) =>
      Assoc4(EncodeVarint(id), EncodeInt(size), EncodeBlob(payload), t);
      VarintRoundTrip(id, EncodeInt(size) + (EncodeBlob(payload) + t));
      IntFieldRoundTrip(size, EncodeBlob(payload) + t);
      BlobRoundTrip(payload, t);
    case TunnelClose(id) => VarintRoundTrip(id, t);
  }

  /** Every packet the client sends is read back as that packet, and nothing after it is touched. */
  lemma OutboundRoundTrip(p: Outbound, t: Bytes)
    ensures ParseOutbound(Encode(p) + t) == Success((p, t))
  {
    hide ParseBody, EncodeBody;
    BodyRoundTrip(p, t);
    assert (Encode(p) + t)[1..] == EncodeBody(p) + t;
  }

  /** All the packets at the head of a stream. */
  function ReadAll(s: Bytes): seq<Outbound>
    decreases |s|
  {
    match ParseOutbound(s)
    case Failure(_) => []
    case Success((p, rest)) =>
      ParseConsumes(s);
      [p] + ReadAll(rest)
  }

  lemma ParseConsumes(s: Bytes)
    ensures ParseOutbound(s).Success? ==> |ParseOutbound(s).value.1| < |s|
  {
    hide ParseVarint, ParseBool, ParseBlob;
  }

  lemma {:induction false} ReadAllRoundTrip(ps: seq<Outbound>)
    ensures ReadAll(EncodeAll(ps)) == ps
  {
    if ps != [] {
      hide ParseOutbound, Encode;
      OutboundRoundTrip(ps[0], EncodeAll(ps[1..]));
      ReadAllRoundTrip(ps[1..]);
    }
  }

  /** The byte stream determines the packets: two lists with the same encoding are the same list. */
  lemma StreamUnambiguous(ps: seq<Outbound>, qs: seq<Outbound>)
    requires EncodeAll(ps) == EncodeAll(qs)
    ensures ps == qs
  {
    ReadAllRoundTrip(ps);
    ReadAllRoundTrip(qs);
  }
}
