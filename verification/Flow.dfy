/** The building blocks of a tunnel (tunnel.go) as functions on values: chunking, reassembly, and the two
    signalled counters. `Tunnel.Endpoint` updates them in place; `Link` runs two endpoints against each other. */
module Flow {
  import opened Basics

  /** Size of a tunnel's input buffer: the allowance granted on construction. */
  const TUNNEL_BUFFER: nat := 64 * 1024 * 1024

  // ----- chunking

  /** `size` is the length of the message on its first chunk and 0 on the later ones. */
  datatype Chunk = Chunk(size: nat, payload: Bytes)

  function End(m: Bytes, limit: nat, pos: nat): nat {
    if pos + limit > |m| then |m| else pos + limit
  }

  function ChunkAt(m: Bytes, limit: nat, pos: nat): Chunk
    requires pos <= |m|
  {
    Chunk(if pos == 0 then |m| else 0, m[pos..End(m, limit, pos)])
  }

  /** Where the message stands after `count` more chunks. */
  function Reach(m: Bytes, limit: nat, pos: nat, count: nat): (r: nat)
    requires limit > 0 && pos <= |m|
    ensures pos <= r <= |m|
    ensures pos < |m| && count > 0 ==> pos < r
    decreases count
  {
    if count == 0 || pos == |m| then pos else Reach(m, limit, End(m, limit, pos), count - 1)
  }

  /** The next `count` chunks from `pos` on, or as many as there are. */
  function Chunks(m: Bytes, limit: nat, pos: nat, count: nat): seq<Chunk>
    requires limit > 0 && pos <= |m|
    decreases count
  {
    if count == 0 || pos == |m| then []
    else [ChunkAt(m, limit, pos)] + Chunks(m, limit, End(m, limit, pos), count - 1)
  }

  lemma {:induction false} ChunksSnoc(m: Bytes, limit: nat, pos: nat, count: nat)
    requires limit > 0 && pos <= |m| && Reach(m, limit, pos, count) < |m|
    ensures var r := Reach(m, limit, pos, count);
            && Chunks(m, limit, pos, count + 1) == Chunks(m, limit, pos, count) + [ChunkAt(m, limit, r)]
            && Reach(m, limit, pos, count + 1) == End(m, limit, r)
    decreases count
  {
    hide ChunkAt;
    if count == 0 {
      assert Chunks(m, limit, End(m, limit, pos), 0) == [];
    } else {
      ChunksSnoc(m, limit, End(m, limit, pos), count - 1);
    }
  }

  /** Bytes carried by a sequence of chunks. */
  function Volume(cs: seq<Chunk>): nat {
    if cs == [] then 0 else |cs[0].payload| + Volume(cs[1..])
  }

  lemma {:induction false} VolumeConcat(a: seq<Chunk>, b: seq<Chunk>)
    ensures Volume(a + b) == Volume(a) + Volume(b)
  {
    if a == [] {
      assert a + b == b;
    } else {
      assert (a + b)[1..] == a[1..] + b;
      VolumeConcat(a[1..], b);
    }
  }

  // ----- reassembly

  /** The message being assembled: none, or a slice of capacity `size`. */
  datatype Assembly = Nothing | Building(size: nat, bytes: Bytes)

  /** What the arrival of chunks does: the new assembly, the messages completed and the allowances granted. */
  datatype Arrival = Arrival(assembly: Assembly, pushed: seq<Bytes>, granted: seq<nat>)

  function Held(a: Assembly): nat {
    if a.Building? then |a.bytes| else 0
  }

  /** The chunk opens a message it does not overflow, or continues one without overflowing it. */
  predicate Fits(a: Assembly, c: Chunk) {
    if c.size != 0 then |c.payload| <= c.size
    else a.Building? && |a.bytes| + |c.payload| <= a.size
  }

  /** What is granted back when a new message displaces this assembly. */
  function Discarded(a: Assembly): seq<nat> {
    if a.Building? then [|a.bytes|] else []
  }

  function Transfer(a: Assembly, c: Chunk): Arrival
    requires Fits(a, c)
  {
    var granted := if c.size != 0 then Discarded(a) else [];
    var current := if c.size != 0 then Building(c.size, []) else a;
    var bytes := current.bytes + c.payload;
    if |bytes| == current.size then Arrival(Nothing, [bytes], granted)
    else Arrival(Building(current.size, bytes), [], granted)
  }

  /** One arrival after another. */
  function Then(x: Arrival, y: Arrival): Arrival {
    Arrival(y.assembly, x.pushed + y.pushed, x.granted + y.granted)
  }

  lemma ThenAssoc(x: Arrival, y: Arrival, z: Arrival)
    ensures Then(Then(x, y), z) == Then(x, Then(y, z))
  {
    assert x.pushed + y.pushed + z.pushed == x.pushed + (y.pushed + z.pushed);
    assert x.granted + y.granted + z.granted == x.granted + (y.granted + z.granted);
  }

  /** Every chunk fits when its turn comes. */
  predicate AllFit(a: Assembly, cs: seq<Chunk>)
    decreases |cs|
  {
    cs == [] || (Fits(a, cs[0]) && AllFit(Transfer(a, cs[0]).assembly, cs[1..]))
  }

  function Replay(a: Assembly, cs: seq<Chunk>): Arrival
    requires AllFit(a, cs)
    decreases |cs|
  {
    if cs == [] then Arrival(a, [], [])
    else
      var first := Transfer(a, cs[0]);
      Then(first, Replay(first.assembly, cs[1..]))
  }

  lemma ReplayNone(a: Assembly)
    ensures AllFit(a, []) && Replay(a, []) == Arrival(a, [], [])
  {
  }

  lemma ReplayCons(a: Assembly, c: Chunk, cs: seq<Chunk>)
    requires Fits(a, c) && AllFit(Transfer(a, c).assembly, cs)
    ensures AllFit(a, [c] + cs)
    ensures Replay(a, [c] + cs) == Then(Transfer(a, c), Replay(Transfer(a, c).assembly, cs))
  {
    hide Transfer, Fits, Then;
    assert ([c] + cs)[1..] == cs;
  }

  lemma {:induction false} ReplayConcat(a: Assembly, xs: seq<Chunk>, ys: seq<Chunk>)
    requires AllFit(a, xs) && AllFit(Replay(a, xs).assembly, ys)
    ensures AllFit(a, xs + ys)
    ensures Replay(a, xs + ys) == Then(Replay(a, xs), Replay(Replay(a, xs).assembly, ys))
    decreases |xs|
  {
    hide Transfer, Fits;
    if xs == [] {
      assert xs + ys == ys;
    } else {
      var first, tail := Transfer(a, xs[0]), xs[1..] + ys;
      ReplayConcat(first.assembly, xs[1..], ys);
      ReplayCons(a, xs[0], tail);
      assert [xs[0]] + tail == xs + ys;
      ThenAssoc(first, Replay(first.assembly, xs[1..]), Replay(Replay(a, xs).assembly, ys));
    }
  }

  lemma ReplayLast(a: Assembly, cs: seq<Chunk>, c: Chunk)
    requires AllFit(a, cs) && Fits(Replay(a, cs).assembly, c)
    ensures AllFit(a, cs + [c]) && Replay(a, cs + [c]) == Then(Replay(a, cs), Transfer(Replay(a, cs).assembly, c))
  {
    hide Transfer, Fits;
    var r := Replay(a, cs);
    ReplayNone(Transfer(r.assembly, c).assembly);
    ReplayCons(r.assembly, c, []);
    assert [c] + [] == [c];
    ReplayConcat(a, cs, [c]);
  }

  /** One more chunk, with `later` ones still to come. */
  lemma ReplaySnoc(a: Assembly, cs: seq<Chunk>, c: Chunk, later: seq<Chunk>)
    requires AllFit(a, cs) && AllFit(Replay(a, cs).assembly, [c] + later)
    ensures var r := Replay(a, cs);
            && Fits(r.assembly, c)
            && AllFit(a, cs + [c]) && Replay(a, cs + [c]) == Then(r, Transfer(r.assembly, c))
            && AllFit(Transfer(r.assembly, c).assembly, later)
  {
    hide Transfer, Fits;
    assert ([c] + later)[1..] == later;
    ReplayLast(a, cs, c);
  }

  lemma TransferConserves(a: Assembly, c: Chunk)
    requires Fits(a, c)
    ensures var r := Transfer(a, c);
            Held(a) + |c.payload| == Held(r.assembly) + Size(r.pushed) + Sum(r.granted)
  {
  }

  /** No byte is lost or counted twice: each ends up in the assembly, in a completed message or in a grant. */
  lemma {:induction false} ReplayConserves(a: Assembly, cs: seq<Chunk>)
    requires AllFit(a, cs)
    ensures var r := Replay(a, cs);
            Held(a) + Volume(cs) == Held(r.assembly) + Size(r.pushed) + Sum(r.granted)
    decreases |cs|
  {
    if cs != [] {
      hide Transfer, Fits, Held, Size, Sum;
      var first := Transfer(a, cs[0]);
      var rest := Replay(first.assembly, cs[1..]);
      TransferConserves(a, cs[0]);
      ReplayConserves(first.assembly, cs[1..]);
      SizeConcat(first.pushed, rest.pushed);
      SumConcat(first.granted, rest.granted);
    } else {
      assert Size([]) == 0 && Sum([]) == 0;
    }
  }

  // ----- chunking and reassembly are inverse

  /** A chunk of a message whose earlier bytes have been assembled extends or completes it. */
  lemma TransferNext(m: Bytes, limit: nat, pos: nat)
    requires limit > 0 && 0 < pos < |m|
    ensures var a, c, end := Building(|m|, m[..pos]), ChunkAt(m, limit, pos), End(m, limit, pos);
            && Fits(a, c)
            && Transfer(a, c) == if end == |m| then Arrival(Nothing, [m], []) else Arrival(Building(|m|, m[..end]), [], [])
  {
    assert m[..pos] + ChunkAt(m, limit, pos).payload == m[..End(m, limit, pos)];
    assert m[..|m|] == m;
  }

  /** The first chunk of a message discards what was under assembly. */
  lemma TransferFirst(a: Assembly, m: Bytes, limit: nat)
    requires limit > 0 && m != []
    ensures var c, end := ChunkAt(m, limit, 0), End(m, limit, 0);
            && Fits(a, c)
            && Transfer(a, c) == if end == |m| then Arrival(Nothing, [m], Discarded(a))
                                 else Arrival(Building(|m|, m[..end]), [], Discarded(a))
  {
    assert [] + ChunkAt(m, limit, 0).payload == m[..End(m, limit, 0)];
    assert m[..|m|] == m;
  }

  /** Once `m[..pos]` has been assembled, the chunks that follow build up the rest of the message. */
  lemma {:induction false} ReplayTail(m: Bytes, limit: nat, pos: nat, count: nat)
    requires limit > 0 && 0 < pos < |m|
    ensures var a, cs, r := Building(|m|, m[..pos]), Chunks(m, limit, pos, count), Reach(m, limit, pos, count);
            && AllFit(a, cs)
            && Replay(a, cs) == if r == |m| then Arrival(Nothing, [m], []) else Arrival(Building(|m|, m[..r]), [], [])
    decreases count
  {
    if count > 0 {
      hide Replay, AllFit, ChunkAt, Transfer, Fits;
      var a, end := Building(|m|, m[..pos]), End(m, limit, pos);
      TransferNext(m, limit, pos);
      if end < |m| {
        ReplayTail(m, limit, end, count - 1);
      } else {
        ReplayNone(Nothing);
      }
      ReplayCons(a, ChunkAt(m, limit, pos), Chunks(m, limit, end, count - 1));
    }
  }

  /** One sending attempt: the first `count` chunks of a message, or all of them if there are fewer. */
  datatype Attempt = Attempt(message: Bytes, count: nat)

  predicate Proper(t: Attempt, limit: nat) {
    limit > 0 && t.message != []
  }

  function Emitted(t: Attempt, limit: nat): seq<Chunk>
    requires Proper(t, limit)
  {
    Chunks(t.message, limit, 0, t.count)
  }

  /** How many bytes of the message the attempt sends. */
  function Cut(t: Attempt, limit: nat): (n: nat)
    requires Proper(t, limit)
    ensures n <= |t.message|
    ensures n == 0 <==> t.count == 0
  {
    Reach(t.message, limit, 0, t.count)
  }

  predicate Complete(t: Attempt, limit: nat)
    requires Proper(t, limit)
  {
    Cut(t, limit) == |t.message|
  }

  /** Whatever was being assembled, the chunks of an attempt discard it, granting its bytes back,
      and then leave the whole message in the queue or a proper prefix of it under assembly. */
  lemma ReplayAttempt(a: Assembly, t: Attempt, limit: nat)
    requires Proper(t, limit) && t.count > 0
    ensures AllFit(a, Emitted(t, limit))
    ensures Replay(a, Emitted(t, limit)) ==
            if Complete(t, limit) then Arrival(Nothing, [t.message], Discarded(a))
            else Arrival(Building(|t.message|, t.message[..Cut(t, limit)]), [], Discarded(a))
  {
    hide Replay, AllFit, ChunkAt, Transfer, Fits, Discarded;
    var m, end := t.message, End(t.message, limit, 0);
    TransferFirst(a, m, limit);
    if end < |m| {
      ReplayTail(m, limit, end, t.count - 1);
    } else {
      ReplayNone(Nothing);
    }
    ReplayCons(a, ChunkAt(m, limit, 0), Chunks(m, limit, end, t.count - 1));
    assert Discarded(a) + [] == Discarded(a);
  }

  predicate AllProper(ts: seq<Attempt>, limit: nat) {
    forall t :: t in ts ==> Proper(t, limit)
  }

  /** The chunks of all attempts, one attempt after the other. */
  function Stream(ts: seq<Attempt>, limit: nat): seq<Chunk>
    requires AllProper(ts, limit)
  {
    if ts == [] then [] else Emitted(ts[0], limit) + Stream(ts[1..], limit)
  }

  /** The messages all of whose chunks were sent. */
  function FullySent(ts: seq<Attempt>, limit: nat): seq<Bytes>
    requires AllProper(ts, limit)
  {
    if ts == [] then []
    else (if Complete(ts[0], limit) then [ts[0].message] else []) + FullySent(ts[1..], limit)
  }

  /** The sizes of the abandoned pieces, each granted back by the next attempt that sends anything;
      `left` is the size of the piece, if any, left over from before. */
  function Abandoned(left: seq<nat>, ts: seq<Attempt>, limit: nat): seq<nat>
    requires AllProper(ts, limit)
    decreases |ts|
  {
    if ts == [] then []
    else if ts[0].count == 0 then Abandoned(left, ts[1..], limit)
    else left + Abandoned(if Complete(ts[0], limit) then [] else [Cut(ts[0], limit)], ts[1..], limit)
  }

  /** Chunk and reassemble: exactly the fully sent messages come out, byte for byte and in order,
      and exactly the abandoned pieces are granted back. */
  lemma {:induction false} Reassemble(a: Assembly, ts: seq<Attempt>, limit: nat)
    requires AllProper(ts, limit)
    ensures AllFit(a, Stream(ts, limit))
    ensures Replay(a, Stream(ts, limit)).pushed == FullySent(ts, limit)
    ensures Replay(a, Stream(ts, limit)).granted == Abandoned(Discarded(a), ts, limit)
    decreases |ts|
  {
    if ts == [] {
      ReplayNone(a);
    } else {
      hide Replay, AllFit, Emitted, Cut;
      var t := ts[0];
      if t.count == 0 {
        assert Emitted(t, limit) == [] by {
          EmittedNone(t, limit);
        }
        assert [] + Stream(ts[1..], limit) == Stream(ts[1..], limit);
        assert [] + FullySent(ts[1..], limit) == FullySent(ts[1..], limit);
        Reassemble(a, ts[1..], limit);
      } else {
        ReplayAttempt(a, t, limit);
        Reassemble(Replay(a, Emitted(t, limit)).assembly, ts[1..], limit);
        ReplayConcat(a, Emitted(t, limit), Stream(ts[1..], limit));
      }
    }
  }

  lemma EmittedNone(t: Attempt, limit: nat)
    requires Proper(t, limit) && t.count == 0
    ensures Emitted(t, limit) == []
  {
  }

  // ----- the signalled counters

  /** The space the sender may still use, and its one-slot wake-up channel. */
  datatype Allowance = Allowance(space: int, signal: bool)

  function Drain(a: Allowance, need: nat): (r: (bool, Allowance))
    ensures r.1.space == a.space - if r.0 then need else 0
    ensures a.space >= 0 ==> r.1.space >= 0
    ensures if r.0 then r.1.signal == a.signal else !r.1.signal && r.1.space < need
  {
    if a.space >= need then (true, a.(space := a.space - need)) else (false, a.(signal := false))
  }

  function Allow(a: Allowance, space: int): Allowance {
    Allowance(a.space + space, true)
  }

  /** The messages waiting for the application, and the one-slot arrival channel. */
  datatype Inbox = Inbox(queue: seq<Bytes>, signal: bool)

  function Fetch(b: Inbox): (r: (Option<Bytes>, Inbox))
    ensures b.queue == (if r.0.Some? then [r.0.value] else []) + r.1.queue
    ensures if r.0.Some? then r.1.signal == b.signal else !r.1.signal && r.1.queue == []
  {
    if b.queue != [] then (Some(b.queue[0]), b.(queue := b.queue[1..])) else (None, b.(signal := false))
  }

  function Enqueue(b: Inbox, ms: seq<Bytes>): Inbox {
    if ms == [] then b else Inbox(b.queue + ms, true)
  }
}
