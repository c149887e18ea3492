/** The socket half of the source's `Connection`: the buffered writer, the reader and the receiver loop,
    updated in place. Every method is proved against the codec functions. */
module Socket {
  import opened Basics
  import opened Wire
  import opened Packets
  import R = Receiver

  /** Gluing what was there before, the opcode and the body. */
  lemma Packed(before: Bytes, p: Outbound, after: Bytes)
    requires after == before + [OutboundOp(p)] + EncodeBody(p)
    ensures after == before + Encode(p)
  {
    hide EncodeBody;
  }

  class Connection {
    var input: Bytes                 // bytes the relay has sent and the loop has not read
    var sockBuf: Bytes               // bytes written and not flushed
    var wire: Bytes                  // bytes the relay can see
    var sockWait: int                // pending writes
    var calls: seq<R.Call>           // handler calls made, oldest first
    var open: bool                   // the socket has not been closed
    var term: bool                   // the termination channel is closed
    var closings: seq<Option<Error>> // calls of `handleClose` and the failures they report, oldest first

    constructor (stream: Bytes)
      ensures input == stream && sockBuf == wire == [] && sockWait == 0 && calls == []
      ensures open && !term && closings == []
    {
      input, sockBuf, wire, sockWait, calls, open, term, closings := stream, [], [], 0, [], true, false, [];
    }

    // ----- writing

    method SendByte(data: Byte)
      modifies this`sockBuf
      ensures sockBuf == old(sockBuf) + [data]
    {
      sockBuf := sockBuf + [data];
    }

    method SendBool(data: bool)
      modifies this`sockBuf
      ensures sockBuf == old(sockBuf) + EncodeBool(data)
    {
      if data {
        SendByte(1);
      } else {
        SendByte(0);
      }
    }

    method SendVarint(data: UInt64)
      modifies this`sockBuf
      ensures sockBuf == old(sockBuf) + EncodeVarint(data)
    {
      var n := data;
      while n > 127
        invariant sockBuf + EncodeVarint(n) == old(sockBuf) + EncodeVarint(data)
      {
        ghost var before := sockBuf;
        SendByte(128 + n % 128);
        Assoc3(before, [128 + n % 128], EncodeVarint(n / 128));
        n := n / 128;
      }
      SendByte(n);
    }

    /** `sendVarint(uint64(data))`. */
    method SendInt(data: Int64)
      modifies this`sockBuf
      ensures sockBuf == old(sockBuf) + EncodeInt(data)
    {
      SendVarint(ToUInt64(data));
    }

    method SendBinary(data: Blob)
      modifies this`sockBuf
      ensures sockBuf == old(sockBuf) + EncodeBlob(data)
    {
      SendVarint(|data|);
      Assoc3(old(sockBuf), EncodeVarint(|data|), data);
      sockBuf := sockBuf + data;
    }

    /** The fields a packet consists of are appended to `sockBuf` between `BeginPacket` and `EndPacket`. */
    method BeginPacket()
      modifies this`sockWait
      ensures sockWait == old(sockWait) + 1
    {
      sockWait := sockWait + 1;
    }

    method EndPacket()
      modifies this`sockWait, this`sockBuf, this`wire
      ensures sockWait == old(sockWait) - 1
      ensures wire + sockBuf == old(wire) + old(sockBuf)
      ensures if sockWait == 0 then sockBuf == [] else wire == old(wire)
    {
      sockWait := sockWait - 1;
      if sockWait == 0 {
        wire, sockBuf := wire + sockBuf, [];
      }
    }

    /** Exactly the packet `p` has been written; it has been flushed too unless other writers are pending. */
    twostate predicate Sent(p: Outbound)
      reads this
    {
      && sockWait == old(sockWait)
      && wire + sockBuf == old(wire) + old(sockBuf) + Encode(p)
      && (if sockWait == 0 then sockBuf == [] else wire == old(wire))
    }

    /** The closures of the `send*` functions: every packet is written field by field, in this order. */
    method WritePacket(p: Outbound)
      modifies this`sockBuf
      ensures sockBuf == old(sockBuf) + Encode(p)
    {
      hide EncodeVarint, EncodeBlob, EncodeInt, EncodeBool;
      ghost var b := sockBuf;
      match p {
        case Init(cluster) =>
          SendByte(OP_INIT);
          SendBinary(CLIENT_MAGIC);
          SendBinary(PROTO_VERSION);
          SendBinary(cluster);
          Append3(b + [OP_INIT], EncodeBlob(CLIENT_MAGIC), EncodeBlob(PROTO_VERSION), EncodeBlob(cluster));
        case Close =>
          SendByte(OP_CLOSE);
        case Broadcast(cluster, message) =>
          SendByte(OP_BROADCAST);
          SendBinary(cluster);
          SendBinary(message);
          Assoc3(b + [OP_BROADCAST], EncodeBlob(cluster), EncodeBlob(message));
        case Request(id, cluster, request, timeout) =>
          SendByte(OP_REQUEST);
          SendVarint(id);
          SendBinary(cluster);
          SendBinary(request);
          SendInt(timeout);
          Append3(b + [OP_REQUEST], EncodeVarint(id), EncodeBlob(cluster), EncodeBlob(request));
          Assoc3(b + [OP_REQUEST], EncodeVarint(id) + EncodeBlob(cluster) + EncodeBlob(request), EncodeInt(timeout));
        case Reply(id, Replied(reply)) =>
          SendByte(OP_REPLY);
          SendVarint(id);
          SendBool(true);
          SendBinary(reply);
          Assoc4(b + [OP_REPLY], EncodeVarint(id), EncodeBool(true), EncodeBlob(reply));
        case Reply(id, Faulted(fault)) =>
          SendByte(OP_REPLY);
          SendVarint(id);
          SendBool(false);
          SendBinary(fault);
          Assoc4(b + [OP_REPLY], EncodeVarint(id), EncodeBool(false), EncodeBlob(fault));
        case Subscribe(topic) =>
          SendByte(OP_SUBSCRIBE);
          SendBinary(topic);
        case Unsubscribe(topic) =>
          SendByte(OP_UNSUBSCRIBE);
          SendBinary(topic);
        case Publish(topic, event) =>
          SendByte(OP_PUBLISH);
          SendBinary(topic);
          SendBinary(event);
          Assoc3(b + [OP_PUBLISH], EncodeBlob(topic), EncodeBlob(event));
        case TunnelInit(id, cluster, timeout) =>
          SendByte(OP_TUN_INIT);
          SendVarint(id);
          SendBinary(cluster);
          SendInt(timeout);
          Append3(b + [OP_TUN_INIT], EncodeVarint(id), EncodeBlob(cluster), EncodeInt(timeout));
        case TunnelConfirm(buildId, id) =>
          SendByte(OP_TUN_CONFIRM);
          SendVarint(buildId);
          SendVarint(id);
          Assoc3(b + [OP_TUN_CONFIRM], EncodeVarint(buildId), EncodeVarint(id));
        case TunnelAllowance(id, space) =>
          SendByte(OP_TUN_ALLOW);
          SendVarint(id);
          SendInt(space);
          Assoc3(b + [OP_TUN_ALLOW], EncodeVarint(id), EncodeInt(space));
        case TunnelTransfer(id, sizeOrCont, payload) =>
          SendByte(OP_TUN_TRANSFER);
          SendVarint(id);
          SendInt(sizeOrCont);
          SendBinary(payload);
          Append3(b + [OP_TUN_TRANSFER], EncodeVarint(id), EncodeInt(sizeOrCont), EncodeBlob(payload));
        case TunnelClose(id) =>
          SendByte(OP_TUN_CLOSE);
          SendVarint(id);
      }
      Packed(b, p, sockBuf);
    }

    method SendPacket(p: Outbound)
      modifies this`sockWait, this`sockBuf, this`wire
      ensures Sent(p)
    {
      hide Encode;
      BeginPacket();
      WritePacket(p);
      Assoc3(wire, old(sockBuf), Encode(p));
      EndPacket();
    }

    /** A fault, if it has a text, travels instead of the reply. */
    method SendReply(id: UInt64, reply: Blob, fault: Blob)
      modifies this`sockWait, this`sockBuf, this`wire
      ensures Sent(Reply(id, AnswerFor(reply, fault)))
    {
      var success := |fault| == 0;
      SendPacket(Reply(id, if success then Replied(reply) else Faulted(fault)));
    }

    // ----- reading

    /** A read agrees with its parser, and leaves the input where the parser does. */
    ghost predicate Reads<T>(p: Parsed<T>, r: Result<T, Error>)
      reads this`input
    {
      match p
      case Success((v, rest)) => r == Success(v) && input == rest
      case Failure(e) => r == Failure(e)
    }

    method RecvByte() returns (r: Result<Byte, Error>)
      modifies this`input
      ensures if old(input) == [] then r == Failure(Eof) && input == []
              else r == Success(old(input)[0]) && input == old(input)[1..]
    {
      if input == [] {
        return Failure(Eof);
      }
      r := Success(input[0]);
      input := input[1..];
    }

    method RecvBool() returns (r: Result<bool, Error>)
      modifies this`input
      ensures Reads(ParseBool(old(input)), r)
    {
      var b :- RecvByte();
      if b == 0 {
        return Success(false);
      } else if b == 1 {
        return Success(true);
      } else {
        return Failure(BadBool(b));
      }
    }

    method RecvVarint() returns (r: Result<UInt64, Error>)
      modifies this`input
      ensures Reads(ParseVarint(old(input)), r)
    {
      ghost var s := input;
      var num: UInt64 := 0;
      var i := 0;
      while true
        invariant i <= |s| && input == s[i..]
        invariant forall k :: 0 <= k < i ==> s[k] > 127
        invariant num == Value(s[..i]) % TWO_TO_64
        decreases |s| - i
      {
        if input == [] {
          Unterminated(s);
        }
        var chunk :- RecvByte();
        ShiftAndAdd(s[..i], chunk);
        assert s[..i + 1] == s[..i] + [chunk];
        num := (num + ShiftLeft(chunk % 128, 7 * i)) % TWO_TO_64;
        i := i + 1;
        if chunk <= 127 {
          break;
        }
      }
      ParseTerminated(s[..i], s[i..]);
      assert s == s[..i] + s[i..];
      return Success(num);
    }

    method RecvBinary() returns (r: Result<Blob, Error>)
      modifies this`input
      ensures Reads(ParseBlob(old(input)), r)
    {
      var size :- RecvVarint();
      if size >= TWO_TO_63 {
        return Failure(LengthPanic(size));
      }
      if size > |input| {
        return Failure(Eof);
      }
      r := Success(input[..size]);
      input := input[size..];
    }

    method RecvInt() returns (r: Result<Int64, Error>)
      modifies this`input
      ensures Reads(ParseInt(old(input)), r)
    {
      var u :- RecvVarint();
      return Success(ToInt64(u));
    }

    method ProcInit() returns (r: Result<Blob, Error>)
      modifies this`input
      ensures Reads(R.ProcInit(old(input)), r)
    {
      var op :- RecvByte();
      if op != OP_INIT && op != OP_DENY {
        return Failure(BadOpcode(op));
      }
      var magic :- RecvBinary();
      if magic != RELAY_MAGIC {
        return Failure(BadMagic(magic));
      }
      var text :- RecvBinary();
      return if op == OP_INIT then Success(text) else Failure(Denied(text));
    }

    // ----- one packet

    /** The packet was read and its handler called once, or nothing was called and the parser's error returned. */
    twostate predicate Dispatched(new p: Parsed<R.Call>, new r: Result<(), Error>)
      reads this`input, this`calls
    {
      match p
      case Success((call, rest)) => r == Success(()) && input == rest && calls == old(calls) + [call]
      case Failure(e) => r == Failure(e) && calls == old(calls)
    }

    method Dispatch(call: R.Call)
      modifies this`calls
      ensures calls == old(calls) + [call]
    {
      calls := calls + [call];
    }

    /** The dispatch on the opcode, and the `proc*` function it selects. */
    method ProcPacket(op: Byte) returns (r: Result<(), Error>)
      modifies this`input, this`calls
      ensures Dispatched(R.Proc(op, old(input)), r)
    {
      hide ParseVarint, ParseBool, ParseBlob, ParseInt, R.Millis;
      if op == OP_BROADCAST {
        var message :- RecvBinary();
        Dispatch(R.HandleBroadcast(message));
      } else if op == OP_REQUEST {
        var id :- RecvVarint();
        var request :- RecvBinary();
        var timeout :- RecvVarint();
        Dispatch(R.HandleRequest(id, request, R.Millis(timeout)));
      } else if op == OP_REPLY {
        var id :- RecvVarint();
        var timeout :- RecvBool();
        if timeout {
          Dispatch(R.HandleReply(id, None, []));
        } else {
          var success :- RecvBool();
          var data :- RecvBinary();
          Dispatch(if success then R.HandleReply(id, Some(data), []) else R.HandleReply(id, None, data));
        }
      } else if op == OP_PUBLISH {
        var topic :- RecvBinary();
        var event :- RecvBinary();
        Dispatch(R.HandlePublish(topic, event));
      } else if op == OP_TUN_INIT {
        var id :- RecvVarint();
        var chunkLimit :- RecvInt();
        Dispatch(R.HandleTunnelInit(id, chunkLimit));
      } else if op == OP_TUN_CONFIRM {
        var id :- RecvVarint();
        var timeout :- RecvBool();
        if timeout {
          Dispatch(R.HandleTunnelResult(id, 0));
        } else {
          var chunkLimit :- RecvInt();
          Dispatch(R.HandleTunnelResult(id, chunkLimit));
        }
      } else if op == OP_TUN_ALLOW {
        var id :- RecvVarint();
        var space :- RecvInt();
        Dispatch(R.HandleTunnelAllowance(id, space));
      } else if op == OP_TUN_TRANSFER {
        var id :- RecvVarint();
        var size :- RecvInt();
        var payload :- RecvBinary();
        Dispatch(R.HandleTunnelTransfer(id, size, payload));
      } else if op == OP_TUN_CLOSE {
        var id :- RecvVarint();
        var reason :- RecvBinary();
        Dispatch(R.HandleTunnelClose(id, reason));
      } else {
        return Failure(BadOpcode(op));
      }
      return Success(());
    }

    // ----- the receiver loop

    /** One turn of the loop: a packet is dispatched, or the relay closes gracefully, or the connection fails. */
    method ProcessNext() returns (closed: bool, failure: Option<Error>)
      modifies this`input, this`calls
      ensures closed ==> failure == None
      ensures var o := R.Process(old(input));
              if closed || failure.Some? then
                && calls == old(calls) && o.calls == [] && o.failure == failure
                && (R.Closed(o) ==> o.rest == input)
              else
                && |input| < |old(input)|
                && |calls| == |old(calls)| + 1 && calls[..|old(calls)|] == old(calls)
                && o == R.Process(input).(calls := [calls[|old(calls)|]] + R.Process(input).calls)
    {
      hide R.Proc, ParseBlob;
      closed, failure := false, None;
      var op := RecvByte();
      if op.Failure? {
        failure := Some(op.error);
      } else if op.value == OP_CLOSE {
        var reason := RecvBinary();
        if reason.Failure? {
          failure := Some(reason.error);
        } else if |reason.value| > 0 {
          failure := Some(Dropped(reason.value));
        } else {
          closed := true;
        }
      } else {
        R.ProcConsumes(op.value, input);
        R.OnlyCloseDrops(op.value, input);
        var r := ProcPacket(op.value);
        if r.Failure? {
          failure := Some(r.error);
        }
      }
    }

    /** Reads packets until the relay closes or the connection drops; then the socket is closed, every blocked caller
        is told, and the failure, if any, is reported to `handleClose` and returned. */
    method Process() returns (failure: Option<Error>)
      modifies this`input, this`calls, this`open, this`term, this`closings
      ensures var o := R.Process(old(input));
              && calls == old(calls) + o.calls
              && failure == o.failure
              && (R.Closed(o) ==> input == o.rest)
      ensures !open && term && closings == old(closings) + [failure]
    {
      hide R.Process;
      ghost var o := R.Process(input);
      ghost var done: seq<R.Call> := [];
      failure := None;
      var closed := false;
      while !closed && failure == None
        invariant calls == old(calls) + done && closings == old(closings)
        invariant closed ==> failure == None
        invariant if closed || failure.Some?
                  then o.calls == done && o.failure == failure && (R.Closed(o) ==> o.rest == input)
                  else o == R.Process(input).(calls := done + R.Process(input).calls)
        decreases !closed && failure == None, |input|
      {
        ghost var before := calls;
        closed, failure := ProcessNext();
        done := done + calls[|before|..];
      }
      open := false;
      term := true;
      HandleClose(failure);
    }

    /** Called once, when the loop has ended. */
    method HandleClose(reason: Option<Error>)
      modifies this`closings
      ensures closings == old(closings) + [reason]
    {
      closings := closings + [reason];
    }
  }
}
