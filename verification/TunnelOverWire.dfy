/** A tunnel end to end: chunks sent as packets through the shared writer, among any other traffic, read by the
    peer's receiver loop and reassembled there. The relay passes packets on in order. */
module TunnelOverWire {
  import opened Basics
  import opened Flow
  import P = Packets
  import R = Receiver
  import E = EndToEnd
  import W = Writer

  // ----- the chunks of one tunnel, as packets, as handler calls and as calls of `sendPacket`

  predicate Carries(p: P.Outbound, id: UInt64) {
    p.TunnelTransfer? && p.id == id
  }

  predicate Arrives(call: R.Call, id: UInt64) {
    call.HandleTunnelTransfer? && call.id == id
  }

  predicate WellSized(p: P.Outbound, id: UInt64) {
    Carries(p, id) ==> p.sizeOrCont >= 0
  }

  predicate AllWellSized(ps: seq<P.Outbound>, id: UInt64) {
    forall p :: p in ps ==> WellSized(p, id)
  }

  predicate AllHandleable(calls: seq<R.Call>, id: UInt64) {
    forall call :: call in calls && Arrives(call, id) ==> call.size >= 0
  }

  predicate EntersWellSized(steps: seq<W.Step>, id: UInt64) {
    forall step :: step in steps && step.Enter? ==> WellSized(step.packet, id)
  }

  /** The chunk this packet carries for the tunnel, if any. */
  function ChunkIn(p: P.Outbound, id: UInt64): seq<Chunk>
    requires WellSized(p, id)
  {
    if Carries(p, id) then [Chunk(p.sizeOrCont, p.payload)] else []
  }

  function ChunksSent(ps: seq<P.Outbound>, id: UInt64): seq<Chunk>
    requires AllWellSized(ps, id)
  {
    if ps == [] then [] else ChunkIn(ps[0], id) + ChunksSent(ps[1..], id)
  }

  /** The chunks the peer's loop hands to the tunnel. */
  function ChunksHandled(calls: seq<R.Call>, id: UInt64): seq<Chunk>
    requires AllHandleable(calls, id)
  {
    if calls == [] then []
    else
      (if Arrives(calls[0], id) then [Chunk(calls[0].size, calls[0].payload)] else []) + ChunksHandled(calls[1..], id)
  }

  /** The chunks handed to `sendPacket` in a run, in the order of the calls. */
  function ChunksEntered(steps: seq<W.Step>, id: UInt64): seq<Chunk>
    requires EntersWellSized(steps, id)
  {
    if steps == [] then []
    else
      var k := |steps| - 1;
      ChunksEntered(steps[..k], id) + if steps[k].Enter? then ChunkIn(steps[k].packet, id) else []
  }

  /** The tunnel has one sender: a chunk is handed over only when the calls for all earlier ones have returned. */
  ghost predicate OneSender(steps: seq<W.Step>, id: UInt64) {
    forall k :: 0 <= k < |steps| && steps[k].Enter? && Carries(steps[k].packet, id) && W.Run(steps[..k]).Some? ==>
      var s := W.Run(steps[..k]).value;
      forall c :: c in s.calls && Carries(s.calls[c].packet, id) ==> s.calls[c].phase == W.Done
  }

  lemma {:induction false} ChunksSentConcat(xs: seq<P.Outbound>, ys: seq<P.Outbound>, id: UInt64)
    requires AllWellSized(xs, id) && AllWellSized(ys, id)
    ensures AllWellSized(xs + ys, id) && ChunksSent(xs + ys, id) == ChunksSent(xs, id) + ChunksSent(ys, id)
  {
    hide WellSized, ChunkIn;
    if xs == [] {
      assert xs + ys == ys;
    } else {
      assert (xs + ys)[1..] == xs[1..] + ys;
      ChunksSentConcat(xs[1..], ys, id);
    }
  }

  lemma {:induction false} ChunksHandledConcat(xs: seq<R.Call>, ys: seq<R.Call>, id: UInt64)
    requires AllHandleable(xs + ys, id)
    ensures AllHandleable(xs, id) && AllHandleable(ys, id)
    ensures ChunksHandled(xs + ys, id) == ChunksHandled(xs, id) + ChunksHandled(ys, id)
  {
    assert forall call :: call in xs + ys <==> call in xs || call in ys;
    if xs == [] {
      assert xs + ys == ys;
    } else {
      assert (xs + ys)[1..] == xs[1..] + ys;
      ChunksHandledConcat(xs[1..], ys, id);
    }
  }

  lemma {:induction false} SameChunks(ps: seq<P.Outbound>, id: UInt64)
    requires E.AllShared(ps) && AllWellSized(ps, id)
    ensures AllHandleable(E.Calls(ps), id) && ChunksHandled(E.Calls(ps), id) == ChunksSent(ps, id)
  {
    if ps == [] {
      assert E.Calls(ps) == [];
    } else {
      assert E.Calls(ps)[1..] == E.Calls(ps[1..]);
      assert E.Calls(ps) == [E.Calls(ps)[0]] + E.Calls(ps[1..]);
      assert E.Shared(ps[0]) && E.Calls(ps)[0] == R.Deliver(E.AsInbound(ps[0]));
      assert WellSized(ps[0], id);
      SameChunks(ps[1..], id);
    }
  }

  // ----- one sender's chunks are logged in the order it sent them

  function Unfinished(s: W.State, id: UInt64): set<nat> {
    set c | c in s.calls && Carries(s.calls[c].packet, id) && !W.Finished(s.calls[c].phase)
  }

  ghost predicate CallsWellSized(s: W.State, id: UInt64) {
    && (forall c :: c in s.calls ==> WellSized(s.calls[c].packet, id))
    && AllWellSized(W.PacketsOf(s.log), id)
  }

  /** All chunks handed over have been logged, in order, but possibly for the last one. */
  ghost predicate InOrder(s: W.State, id: UInt64, entered: seq<Chunk>) {
    && CallsWellSized(s, id)
    && var logged := ChunksSent(W.PacketsOf(s.log), id);
       || (Unfinished(s, id) == {} && logged == entered)
       || (exists c :: c in s.calls && Unfinished(s, id) == {c} && logged + ChunkIn(s.calls[c].packet, id) == entered)
  }

  lemma EnterInOrder(s: W.State, step: W.Step, id: UInt64, entered: seq<Chunk>)
    requires W.Enabled(s, step) && step.Enter? && InOrder(s, id, entered) && WellSized(step.packet, id)
    requires Carries(step.packet, id) ==> Unfinished(s, id) == {}
    ensures InOrder(W.Next(s, step), id, entered + ChunkIn(step.packet, id))
  {
    hide P.Encode, ChunksSent, WellSized;
    var s' := W.Next(s, step);
    if Carries(step.packet, id) {
      assert Unfinished(s', id) == {step.call};
    } else {
      assert Unfinished(s', id) == Unfinished(s, id);
      assert entered + [] == entered;
    }
  }

  lemma FinishInOrder(s: W.State, step: W.Step, id: UInt64, entered: seq<Chunk>)
    requires W.Enabled(s, step) && step.Finish? && InOrder(s, id, entered)
    ensures InOrder(W.Next(s, step), id, entered)
  {
    hide P.Encode, ChunksSent, WellSized;
    var s', p := W.Next(s, step), s.calls[step.call].packet;
    assert W.PacketsOf(s'.log) == W.PacketsOf(s.log) + [p];
    ChunksSentConcat(W.PacketsOf(s.log), [p], id);
    SentOne(p, id);
    if Carries(p, id) {
      assert step.call in Unfinished(s, id);
      assert Unfinished(s', id) == Unfinished(s, id) - {step.call};
    } else {
      assert Unfinished(s', id) == Unfinished(s, id);
    }
  }

  lemma SentOne(p: P.Outbound, id: UInt64)
    requires WellSized(p, id)
    ensures AllWellSized([p], id) && ChunksSent([p], id) == ChunkIn(p, id)
  {
    assert [p][1..] == [];
  }

  lemma OtherInOrder(s: W.State, step: W.Step, id: UInt64, entered: seq<Chunk>)
    requires W.Enabled(s, step) && !step.Enter? && !step.Finish? && InOrder(s, id, entered)
    ensures InOrder(W.Next(s, step), id, entered)
  {
    hide P.Encode, ChunksSent, WellSized;
    assert Unfinished(W.Next(s, step), id) == Unfinished(s, id);
  }

  lemma {:induction false} SenderOrder(steps: seq<W.Step>, id: UInt64)
    requires W.Run(steps).Some? && EntersWellSized(steps, id) && OneSender(steps, id)
    ensures InOrder(W.Run(steps).value, id, ChunksEntered(steps, id))
  {
    if steps == [] {
      assert W.PacketsOf([]) == [];
    } else {
      var k := |steps| - 1;
      var s, step, entered := W.Run(steps[..k]).value, steps[k], ChunksEntered(steps[..k], id);
      OneSenderBefore(steps, id);
      SenderOrder(steps[..k], id);
      hide InOrder, ChunksSent, P.Encode;
      assert step in steps;
      if step.Enter? {
        EnterInOrder(s, step, id, entered);
      } else if step.Finish? {
        FinishInOrder(s, step, id, entered);
      } else {
        OtherInOrder(s, step, id, entered);
      }
      assert entered + [] == entered;
    }
  }

  lemma OneSenderBefore(steps: seq<W.Step>, id: UInt64)
    requires steps != [] && OneSender(steps, id)
    ensures OneSender(steps[..|steps| - 1], id)
  {
    hide W.Run;
    var before := steps[..|steps| - 1];
    assert forall k :: 0 <= k < |before| ==> before[..k] == steps[..k] && before[k] == steps[k];
  }

  /** What has been logged and what is being written are the chunks handed over, in order, but possibly for the last. */
  lemma LoggedPrefix(s: W.State, id: UInt64, entered: seq<Chunk>)
    requires InOrder(s, id, entered)
    ensures var ps := W.PacketsOf(s.log) + E.Current(s);
            && AllWellSized(ps, id) && ChunksSent(ps, id) <= entered
            && (W.Quiescent(s) ==> ChunksSent(ps, id) == entered)
  {
    hide P.Encode, ChunksSent, WellSized;
    var logged := W.PacketsOf(s.log);
    if E.Current(s) == [] {
      assert logged + [] == logged;
    } else {
      var p := s.calls[s.lock.value].packet;
      ChunksSentConcat(logged, [p], id);
      SentOne(p, id);
      assert Carries(p, id) ==> s.lock.value in Unfinished(s, id);
    }
  }

  /** Chunks that all fit fit up to any point, and what follows fits from there. */
  lemma {:induction false} FitSplit(a: Assembly, xs: seq<Chunk>, ys: seq<Chunk>)
    requires AllFit(a, xs + ys)
    ensures AllFit(a, xs) && AllFit(Replay(a, xs).assembly, ys)
    decreases |xs|
  {
    hide Transfer, Fits;
    if xs == [] {
      assert xs + ys == ys;
    } else {
      assert (xs + ys)[1..] == xs[1..] + ys && (xs + ys)[0] == xs[0];
      FitSplit(Transfer(a, xs[0]).assembly, xs[1..], ys);
    }
  }

  /** A sender hands the chunks of these sending attempts to the shared writer one call after another, among any
      other traffic. At any moment the messages the peer has assembled are a prefix of the fully sent ones, and all
      of them once the writers have returned. */
  lemma MessagesArrive(steps: seq<W.Step>, id: UInt64, ts: seq<Attempt>, limit: nat)
    requires W.Run(steps).Some? && E.OnlyShared(steps) && AllProper(ts, limit)
    requires EntersWellSized(steps, id) && OneSender(steps, id)
    requires ChunksEntered(steps, id) == Stream(ts, limit)
    ensures var s := W.Run(steps).value;
            && AllHandleable(R.Process(s.wire).calls, id)
            && var cs := ChunksHandled(R.Process(s.wire).calls, id);
               && AllFit(Nothing, cs)
               && Replay(Nothing, cs).pushed <= FullySent(ts, limit)
               && (W.Quiescent(s) ==> Replay(Nothing, cs).pushed == FullySent(ts, limit))
  {
    hide W.Run, R.Process, P.Encode, P.EncodeAll, Replay, AllFit, ChunksSent, ChunksHandled, ChunksEntered, Stream,
      FullySent, Abandoned, InOrder, OneSender;
    var s := W.Run(steps).value;
    var ps, calls := W.PacketsOf(s.log) + E.Current(s), R.Process(s.wire).calls;
    SenderOrder(steps, id);
    LoggedPrefix(s, id, Stream(ts, limit));
    E.PeerSeesPrefix(steps);
    SameChunks(ps, id);
    var later := E.Calls(ps)[|calls|..];
    assert E.Calls(ps) == calls + later;
    ChunksHandledConcat(calls, later, id);
    var cs := ChunksHandled(calls, id);
    var missing := Stream(ts, limit)[|cs|..];
    assert Stream(ts, limit) == cs + missing;
    Reassemble(Nothing, ts, limit);
    FitSplit(Nothing, cs, missing);
    ReplayConcat(Nothing, cs, missing);
    if W.Quiescent(s) {
      E.SendersToHandlers(steps);
      assert E.Current(s) == [];
      assert W.PacketsOf(s.log) + [] == W.PacketsOf(s.log);
    }
  }
}
