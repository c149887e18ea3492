/** The writer's stream read by a peer's receiver loop. Three packets have the same form in both directions:
    topic events, tunnel allowances and tunnel transfers. */
module EndToEnd {
  import opened Basics
  import opened Wire
  import opened Packets
  import opened Receiver
  import W = Writer

  predicate Shared(p: Outbound) {
    p.Publish? || p.TunnelAllowance? || p.TunnelTransfer?
  }

  function AsInbound(p: Outbound): Inbound
    requires Shared(p)
  {
    match p
    case Publish(topic, event) => PublishIn(topic, event)
    case TunnelAllowance(id, space) => TunnelAllowanceIn(id, space)
    case TunnelTransfer(id, size, payload) => TunnelTransferIn(id, size, payload)
  }

  predicate AllShared(ps: seq<Outbound>) {
    forall p :: p in ps ==> Shared(p)
  }

  /** The handler calls a list of packets stands for. */
  function Calls(ps: seq<Outbound>): seq<Call>
    requires AllShared(ps)
  {
    seq(|ps|, i requires 0 <= i < |ps| => Deliver(AsInbound(ps[i])))
  }

  function AllInbound(ps: seq<Outbound>): seq<Inbound>
    requires AllShared(ps)
  {
    seq(|ps|, i requires 0 <= i < |ps| => AsInbound(ps[i]))
  }

  lemma SamePacket(p: Outbound)
    requires Shared(p)
    ensures Encode(p) == EncodeInbound(AsInbound(p))
  {
    hide EncodeVarint, EncodeBlob, EncodeInt;
  }

  lemma {:induction false} SameBytes(ps: seq<Outbound>)
    requires AllShared(ps)
    ensures EncodeAll(ps) == EncodeInboundAll(AllInbound(ps))
  {
    hide Encode, EncodeInbound, AsInbound;
    if ps != [] {
      assert AllInbound(ps)[1..] == AllInbound(ps[1..]);
      SamePacket(ps[0]);
      SameBytes(ps[1..]);
    }
  }

  /** A stream of shared packets is dispatched packet by packet, with nothing left over. */
  lemma ProcessShared(ps: seq<Outbound>)
    requires AllShared(ps)
    ensures Process(EncodeAll(ps)) == Outcome(Calls(ps), [], Some(Eof))
  {
    hide EncodeAll, EncodeInboundAll, Deliver;
    var qs := AllInbound(ps);
    SameBytes(ps);
    ProcessPackets(qs, []);
    assert EncodeInboundAll(qs) + [] == EncodeInboundAll(qs);
    assert DeliverAll(qs) == Calls(ps);
  }

  /** Every packet handed to the writer in a run. */
  ghost predicate OnlyShared(steps: seq<W.Step>) {
    forall step :: step in steps && step.Enter? ==> Shared(step.packet)
  }

  lemma {:induction false} SharedCalls(steps: seq<W.Step>)
    requires W.Run(steps).Some? && OnlyShared(steps)
    ensures forall c :: c in W.Run(steps).value.calls ==> Shared(W.Run(steps).value.calls[c].packet)
  {
    if steps != [] {
      var k := |steps| - 1;
      assert steps[k] in steps;
      SharedCalls(steps[..k]);
      hide Encode;
      var s := W.Run(steps[..k]).value;
    }
  }

  lemma SharedLog(steps: seq<W.Step>)
    requires W.Run(steps).Some? && OnlyShared(steps)
    ensures AllShared(W.PacketsOf(W.Run(steps).value.log))
  {
    hide W.Run, Encode, EncodeAll;
    W.Invariant(steps);
    SharedCalls(steps);
  }

  /** However the senders interleave, once they have all returned the peer has dispatched exactly their packets,
      in lock order, and no byte is left over. */
  lemma SendersToHandlers(steps: seq<W.Step>)
    requires W.Run(steps).Some? && OnlyShared(steps) && W.Quiescent(W.Run(steps).value)
    ensures AllShared(W.PacketsOf(W.Run(steps).value.log))
    ensures Process(W.Run(steps).value.wire) == Outcome(Calls(W.PacketsOf(W.Run(steps).value.log)), [], Some(Eof))
  {
    hide W.Run, Process, EncodeAll;
    SharedLog(steps);
    W.AllFlushed(steps);
    ProcessShared(W.PacketsOf(W.Run(steps).value.log));
  }

  /** The packet the lock holder is still writing, if any. */
  function Current(s: W.State): seq<Outbound> {
    match s.lock
    case None => []
    case Some(c) => if c in s.calls && s.calls[c].phase.Writing? then [s.calls[c].packet] else []
  }

  /** At any moment of any run, what the peer has dispatched is a prefix of the packets in lock order,
      and it is waiting for input: it never sees a violation of the protocol. */
  lemma PeerSeesPrefix(steps: seq<W.Step>)
    requires W.Run(steps).Some? && OnlyShared(steps)
    ensures var s := W.Run(steps).value;
            var ps := W.PacketsOf(s.log) + Current(s);
            && AllShared(ps)
            && Process(s.wire).calls <= Calls(ps)
            && Process(s.wire).failure == Some(Eof)
  {
    hide W.Run, Process, Encode, EncodeAll;
    W.Invariant(steps);
    SharedCalls(steps);
    SharedLog(steps);
    var s := W.Run(steps).value;
    var ps := W.PacketsOf(s.log) + Current(s);
    var missing := Missing(s);
    ProcessShared(ps);
    ProcessExtends(s.wire, missing);
  }

  /** The bytes between what is on the wire and the end of the current packet. */
  lemma Missing(s: W.State) returns (missing: Bytes)
    requires W.Inv(s)
    ensures s.wire + missing == EncodeAll(W.PacketsOf(s.log) + Current(s))
  {
    hide Encode, EncodeAll, W.LogInv, W.CountInv;
    var log := W.PacketsOf(s.log);
    if Current(s) == [] {
      assert log + [] == log && EncodeAll(log) + [] == EncodeAll(log);
      missing := s.buffer;
    } else {
      var call := s.calls[s.lock.value];
      var bytes, k := Encode(call.packet), call.phase.written;
      EncodeAllSnoc(log, call.packet);
      missing := s.buffer + bytes[k..];
      assert bytes == bytes[..k] + bytes[k..];
      Assoc3(s.wire, s.buffer, bytes[k..]);
      Assoc3(EncodeAll(log), bytes[..k], bytes[k..]);
    }
  }
}
