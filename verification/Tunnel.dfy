/** The endpoint object of tunnel.go, updated in place. Its methods are proved to do what the functions of `Flow`
    say; `Send` and `Recv` run against a script of what happens around them while they are blocked. */
module Tunnel {
  import opened Basics
  import opened Flow

  /** What a blocked `Send` sees: an allowance arriving, its deadline, or the end of the tunnel. */
  datatype SendEvent = Allowed(space: nat) | SendExpired | SendTerminated

  /** What a blocked `Recv` sees. */
  datatype RecvEvent = Arrived(chunk: Chunk) | RecvExpired | RecvTerminated

  /** `StillBlocked` is the outcome when the script ends while the call is waiting. */
  datatype Failure = EmptyMessage | ErrClosed | ErrTimeout | StillBlocked

  /** The space granted by a script of nothing but allowances, up to its last event. */
  function Granted(events: seq<SendEvent>): nat {
    if events == [] then 0 else (if events[0].Allowed? then events[0].space else 0) + Granted(events[1..])
  }

  lemma {:induction false} GrantedConcat(xs: seq<SendEvent>, ys: seq<SendEvent>)
    ensures Granted(xs + ys) == Granted(xs) + Granted(ys)
  {
    if xs == [] {
      assert xs + ys == ys;
    } else {
      assert (xs + ys)[1..] == xs[1..] + ys;
      GrantedConcat(xs[1..], ys);
    }
  }

  predicate AllAllowed(events: seq<SendEvent>) {
    forall i :: 0 <= i < |events| ==> events[i].Allowed?
  }

  /** The first `k` events grant what is needed, on top of the space there was, before anything ends the wait. */
  predicate Pays(space: int, need: nat, script: seq<SendEvent>, k: nat) {
    k <= |script| && AllAllowed(script[..k]) && space + Granted(script[..k]) >= need
  }

  /** Enough is granted before anything ends the wait. */
  ghost predicate CanPay(space: int, need: nat, script: seq<SendEvent>) {
    exists k: nat :: Pays(space, need, script, k)
  }

  /** No fewer events do. */
  ghost predicate PaysFirst(space: int, need: nat, script: seq<SendEvent>, k: nat) {
    Pays(space, need, script, k) && forall j :: 0 <= j < k ==> !Pays(space, need, script, j)
  }

  /** Why a wait over these events ended in this failure. */
  predicate Explains(used: seq<SendEvent>, rest: seq<SendEvent>, why: Failure) {
    match why
    case EmptyMessage => false
    case ErrTimeout => used != [] && used[|used| - 1] == SendExpired && AllAllowed(used[..|used| - 1])
    case ErrClosed => used != [] && used[|used| - 1] == SendTerminated && AllAllowed(used[..|used| - 1])
    case StillBlocked => rest == [] && AllAllowed(used)
  }

  /** The chunks among the events. */
  function Arrivals(events: seq<RecvEvent>): seq<Chunk> {
    if events == [] then []
    else (if events[0].Arrived? then [events[0].chunk] else []) + Arrivals(events[1..])
  }

  predicate AllArrived(events: seq<RecvEvent>) {
    forall i :: 0 <= i < |events| ==> events[i].Arrived?
  }

  /** The first `k` events complete a message before anything ends the wait. */
  predicate Completes(a: Assembly, script: seq<RecvEvent>, k: nat) {
    && k <= |script| && AllArrived(script[..k])
    && AllFit(a, Arrivals(script[..k])) && Replay(a, Arrivals(script[..k])).pushed != []
  }

  ghost predicate CanComplete(a: Assembly, script: seq<RecvEvent>) {
    exists k: nat :: Completes(a, script, k)
  }

  /** No fewer events do. */
  ghost predicate CompletesFirst(a: Assembly, script: seq<RecvEvent>, k: nat) {
    Completes(a, script, k) && forall j :: 0 <= j < k ==> !Completes(a, script, j)
  }

  /** Why a blocked `Recv` gave up after `used` events. */
  predicate WaitEnded(script: seq<RecvEvent>, used: nat, why: Failure)
    requires used <= |script|
  {
    match why
    case EmptyMessage => false
    case ErrTimeout => used > 0 && script[used - 1] == RecvExpired && AllArrived(script[..used - 1])
    case ErrClosed => used > 0 && script[used - 1] == RecvTerminated && AllArrived(script[..used - 1])
    case StillBlocked => used == |script| && AllArrived(script)
  }

  /** Only chunks have arrived, and not enough of them before the last. */
  ghost predicate NoneBefore(a: Assembly, script: seq<RecvEvent>, used: nat) {
    used <= |script| && AllArrived(script[..used]) && forall k :: 0 <= k < used ==> !Completes(a, script, k)
  }

  lemma NoneBeforeNext(a: Assembly, script: seq<RecvEvent>, used: nat)
    requires NoneBefore(a, script, used) && !Completes(a, script, used)
    requires used < |script| && script[used].Arrived?
    ensures NoneBefore(a, script, used + 1)
  {
    hide Completes;
  }

  /** Once a wait has ended in vain, chunks that arrive later make no difference. */
  lemma NeverCompletes(a: Assembly, script: seq<RecvEvent>, used: nat)
    requires NoneBefore(a, script, used) && !Completes(a, script, used)
    requires used == |script| || !script[used].Arrived?
    ensures !CanComplete(a, script)
    ensures used == |script| ==> WaitEnded(script, used, StillBlocked)
    ensures used < |script| && script[used] == RecvExpired ==> WaitEnded(script, used + 1, ErrTimeout)
    ensures used < |script| && script[used] == RecvTerminated ==> WaitEnded(script, used + 1, ErrClosed)
  {
    hide Arrivals, Replay, AllFit;
    forall k: nat | used < k <= |script|
      ensures !Completes(a, script, k)
    {
      assert script[..k][used] == script[used];
    }
    if used == |script| {
      assert script[..used] == script;
    } else {
      assert script[..used + 1 - 1] == script[..used];
    }
  }

  /** Whether a message is complete, told by the queue. */
  lemma CompletesNow(a: Assembly, script: seq<RecvEvent>, used: nat)
    requires NoneBefore(a, script, used) && AllFit(a, Arrivals(script[..used]))
    ensures Completes(a, script, used) <==> Replay(a, Arrivals(script[..used])).pushed != []
    ensures Completes(a, script, used) ==> CompletesFirst(a, script, used) && CanComplete(a, script)
  {
    hide Arrivals, Replay, AllFit;
  }

  lemma NothingArrived(a: Assembly, script: seq<RecvEvent>)
    ensures AllFit(a, Arrivals(script[..0])) && Replay(a, Arrivals(script[..0])) == Arrival(a, [], [])
  {
    assert script[..0] == [];
  }

  lemma {:induction false} ArrivalsConcat(xs: seq<RecvEvent>, ys: seq<RecvEvent>)
    ensures Arrivals(xs + ys) == Arrivals(xs) + Arrivals(ys)
  {
    if xs == [] {
      assert xs + ys == ys;
    } else {
      assert (xs + ys)[1..] == xs[1..] + ys && (xs + ys)[0] == xs[0];
      var head := if xs[0].Arrived? then [xs[0].chunk] else [];
      assert Arrivals(xs + ys) == head + Arrivals(xs[1..] + ys);
      ArrivalsConcat(xs[1..], ys);
      assert head + (Arrivals(xs[1..]) + Arrivals(ys)) == head + Arrivals(xs[1..]) + Arrivals(ys);
    }
  }

  lemma ArrivalsSnoc(script: seq<RecvEvent>, used: nat)
    requires used < |script|
    ensures var c := if script[used].Arrived? then [script[used].chunk] else [];
            && Arrivals(script[..used + 1]) == Arrivals(script[..used]) + c
            && Arrivals(script[used..]) == c + Arrivals(script[used + 1..])
  {
    assert script[..used + 1] == script[..used] + [script[used]];
    ArrivalsConcat(script[..used], [script[used]]);
    assert script[used..][1..] == script[used + 1..];
  }

  /** Once a wait has ended in vain, events further down the script make no difference. */
  lemma NeverPaid(space: int, need: nat, script: seq<SendEvent>, used: nat, why: Failure)
    requires used <= |script| && Explains(script[..used], script[used..], why)
    requires space + Granted(script[..used]) < need
    ensures !CanPay(space, need, script)
  {
    forall k: nat | k <= used
      ensures Granted(script[..k]) <= Granted(script[..used])
    {
      assert script[..used] == script[..k] + script[k..used];
      GrantedConcat(script[..k], script[k..used]);
    }
    forall k: nat | used < k <= |script|
      ensures !AllAllowed(script[..k])
    {
      assert script[..k][used - 1] == script[..used][used - 1];
    }
    forall k: nat | k <= |script|
      ensures !Pays(space, need, script, k)
    {
      if k <= used {
        assert Granted(script[..k]) <= Granted(script[..used]);
      } else {
        assert !AllAllowed(script[..k]);
      }
    }
  }

  lemma AllowedConcat(xs: seq<SendEvent>, ys: seq<SendEvent>)
    ensures AllAllowed(xs + ys) <==> AllAllowed(xs) && AllAllowed(ys)
  {
    forall i | 0 <= i < |ys|
      ensures (xs + ys)[|xs| + i] == ys[i]
    {
    }
    if AllAllowed(xs + ys) {
      forall i | 0 <= i < |ys|
        ensures ys[i].Allowed?
      {
        assert (xs + ys)[|xs| + i] == ys[i];
      }
      assert forall i :: 0 <= i < |xs| ==> (xs + ys)[i] == xs[i];
    }
  }

  /** A wait on what is left of the script, seen as part of the whole script. */
  lemma ScriptSplit(script: seq<SendEvent>, used: nat, n: nat)
    requires used + n <= |script| && AllAllowed(script[..used])
    ensures Granted(script[..used + n]) == Granted(script[..used]) + Granted(script[used..][..n])
    ensures AllAllowed(script[..used + n]) <==> AllAllowed(script[used..][..n])
    ensures forall why :: Explains(script[used..][..n], script[used..][n..], why)
                     ==> Explains(script[..used + n], script[used + n..], why)
  {
    hide AllAllowed;
    assert script[..used + n] == script[..used] + script[used..][..n];
    GrantedConcat(script[..used], script[used..][..n]);
    AllowedConcat(script[..used], script[used..][..n]);
    assert script[used..][n..] == script[used + n..];
    if n > 0 {
      assert script[..used + n][..used + n - 1] == script[..used] + script[used..][..n][..n - 1];
      AllowedConcat(script[..used], script[used..][..n][..n - 1]);
    }
  }

  /** What pays for the next bytes, after the first ones have been paid for. */
  lemma PaysNext(space: int, paid: nat, need: nat, script: seq<SendEvent>, used: nat, n: nat)
    requires Pays(space, paid, script, used)
    ensures Pays(space + Granted(script[..used]) - paid, need, script[used..], n)
       <==> Pays(space, paid + need, script, used + n)
  {
    if used + n <= |script| {
      ScriptSplit(script, used, n);
    }
  }

  lemma PaysFirstNext(space: int, paid: nat, need: nat, script: seq<SendEvent>, used: nat, n: nat)
    requires PaysFirst(space, paid, script, used)
    requires PaysFirst(space + Granted(script[..used]) - paid, need, script[used..], n)
    ensures PaysFirst(space, paid + need, script, used + n)
  {
    PaysNext(space, paid, need, script, used, n);
    var total := paid + need;
    forall j: nat | j < used + n
      ensures !Pays(space, total, script, j)
    {
      if j < used {
        assert !Pays(space, paid, script, j);
      } else {
        PaysNext(space, paid, need, script, used, j - used);
      }
    }
  }

  /** If the next chunk of a message is never paid for, neither is the message. */
  lemma NeverPaidNext(space: int, paid: nat, need: nat, total: nat, script: seq<SendEvent>, used: nat)
    requires PaysFirst(space, paid, script, used) && paid + need <= total
    requires !CanPay(space + Granted(script[..used]) - paid, need, script[used..])
    ensures !CanPay(space, total, script)
  {
    hide AllAllowed, Granted;
    forall k: nat | Pays(space, total, script, k)
      ensures false
    {
      assert Pays(space, paid, script, k);
      assert Pays(space, paid + need, script, k);
      PaysNext(space, paid, need, script, used, k - used);
    }
  }

  lemma NothingToPay(space: int, script: seq<SendEvent>)
    requires space >= 0
    ensures PaysFirst(space, 0, script, 0)
  {
  }

  lemma PaidCanPay(space: int, need: nat, script: seq<SendEvent>, used: nat)
    requires PaysFirst(space, need, script, used)
    ensures CanPay(space, need, script)
  {
  }

  /** The wait for one chunk, seen as part of the wait for the message. */
  lemma NextWait(space: int, paid: nat, need: nat, total: nat, script: seq<SendEvent>, used: nat, n: nat,
                 r: Result<(), Failure>)
    requires PaysFirst(space, paid, script, used) && used + n <= |script| && paid + need <= total
    requires var left := space + Granted(script[..used]) - paid;
             && (r.Success? ==> PaysFirst(left, need, script[used..], n))
             && (r.Failure? ==> !CanPay(left, need, script[used..]) && Explains(script[used..][..n], script[used..][n..], r.error))
    ensures Granted(script[..used + n]) == Granted(script[..used]) + Granted(script[used..][..n])
    ensures r.Success? ==> PaysFirst(space, paid + need, script, used + n)
    ensures r.Failure? ==> !CanPay(space, total, script) && Explains(script[..used + n], script[used + n..], r.error)
    ensures r.Failure? ==> r.error != EmptyMessage
  {
    hide CanPay, Granted;
    ScriptSplit(script, used, n);
    if r.Success? {
      PaysFirstNext(space, paid, need, script, used, n);
    } else {
      NeverPaidNext(space, paid, need, total, script, used);
    }
  }

  lemma NoChunks(m: Bytes, limit: nat)
    requires limit > 0
    ensures Reach(m, limit, 0, 0) == 0 && Chunks(m, limit, 0, 0) == []
  {
  }

  class Endpoint {
    var chunkLimit: nat
    var chunkBuf: Assembly
    var itoaBuf: seq<Bytes>
    var itoaSign: bool
    var atoiSpace: int
    var atoiSign: bool
    var transfers: seq<Chunk>    // chunks handed to the connection, oldest first
    var allowances: seq<nat>     // allowances sent to the remote side

    constructor (chunkLimit: nat)
      ensures this.chunkLimit == chunkLimit && chunkBuf == Nothing && Inbound() == Inbox([], false)
      ensures Outbound() == Allowance(0, false) && transfers == [] && allowances == []
    {
      this.chunkLimit := chunkLimit;
      chunkBuf, itoaBuf, itoaSign, atoiSpace, atoiSign, transfers, allowances := Nothing, [], false, 0, false, [], [];
    }

    function Inbound(): Inbox
      reads this
    {
      Inbox(itoaBuf, itoaSign)
    }

    function Outbound(): Allowance
      reads this
    {
      Allowance(atoiSpace, atoiSign)
    }

    // ----- sending

    method DrainAllowance(need: nat) returns (enough: bool)
      modifies this`atoiSpace, this`atoiSign
      ensures (enough, Outbound()) == Drain(old(Outbound()), need)
    {
      if atoiSpace >= need {
        atoiSpace := atoiSpace - need;
        return true;
      }
      atoiSign := false;
      return false;
    }

    method HandleAllowance(space: nat)
      modifies this`atoiSpace, this`atoiSign
      ensures Outbound() == Allow(old(Outbound()), space)
    {
      atoiSpace := atoiSpace + space;
      atoiSign := true;
    }

    /** Blocks until the chunk can be paid for: it is sent exactly if the allowances that arrive before the deadline and
        the end of the tunnel suffice, and then without waiting for any more. */
    method SendChunk(chunk: Chunk, script: seq<SendEvent>) returns (r: Result<(), Failure>, used: nat)
      requires atoiSpace >= 0
      modifies this`atoiSpace, this`atoiSign, this`transfers
      ensures used <= |script| && atoiSpace >= 0
      ensures r.Success? ==>
                && transfers == old(transfers) + [chunk]
                && atoiSpace + |chunk.payload| == old(atoiSpace) + Granted(script[..used])
      ensures r.Failure? ==>
                && transfers == old(transfers)
                && atoiSpace == old(atoiSpace) + Granted(script[..used]) < |chunk.payload|
                && Explains(script[..used], script[used..], r.error)
      ensures r.Success? <==> CanPay(old(atoiSpace), |chunk.payload|, script)
      ensures used > 0 || r.Failure? ==> !atoiSign
      ensures r.Success? ==> PaysFirst(old(atoiSpace), |chunk.payload|, script, used)
    {
      used := 0;
      while true
        invariant used <= |script| && transfers == old(transfers)
        invariant atoiSpace == old(atoiSpace) + Granted(script[..used])
        invariant AllAllowed(script[..used]) && (used > 0 ==> !atoiSign)
        invariant forall k :: 0 <= k < used ==> !Pays(old(atoiSpace), |chunk.payload|, script, k)
        decreases |script| - used
      {
        var enough := DrainAllowance(|chunk.payload|);
        if enough {
          transfers := transfers + [chunk];
          assert Pays(old(atoiSpace), |chunk.payload|, script, used);
          return Success(()), used;
        }
        if used == |script| {
          NeverPaid(old(atoiSpace), |chunk.payload|, script, used, StillBlocked);
          return Failure(StillBlocked), used;
        }
        var event := script[used];
        assert script[..used + 1] == script[..used] + [event];
        GrantedConcat(script[..used], [event]);
        used := used + 1;
        match event {
          case Allowed(space) =>
            HandleAllowance(space);
            atoiSign := false;
          case SendExpired =>
            NeverPaid(old(atoiSpace), |chunk.payload|, script, used, ErrTimeout);
            return Failure(ErrTimeout), used;
          case SendTerminated =>
            NeverPaid(old(atoiSpace), |chunk.payload|, script, used, ErrClosed);
            return Failure(ErrClosed), used;
        }
      }
    }

    /** One turn of the loop of `Send`: the chunk that starts at `pos`. */
    method SendNext(message: Bytes, pos: nat, script: seq<SendEvent>) returns (end: nat, r: Result<(), Failure>, used: nat)
      requires chunkLimit > 0 && atoiSpace >= 0 && pos < |message|
      modifies this`atoiSpace, this`atoiSign, this`transfers
      ensures used <= |script| && atoiSpace >= 0
      ensures end == End(message, chunkLimit, pos) == pos + |ChunkAt(message, chunkLimit, pos).payload|
      ensures r.Success? ==>
                && transfers == old(transfers) + [ChunkAt(message, chunkLimit, pos)]
                && atoiSpace + end - pos == old(atoiSpace) + Granted(script[..used])
                && PaysFirst(old(atoiSpace), end - pos, script, used)
      ensures r.Failure? ==>
                && transfers == old(transfers)
                && atoiSpace == old(atoiSpace) + Granted(script[..used]) < end - pos
                && Explains(script[..used], script[used..], r.error) && !CanPay(old(atoiSpace), end - pos, script)
    {
      hide CanPay, PaysFirst, Explains, Granted;
      end := pos + chunkLimit;
      if end > |message| {
        end := |message|;
      }
      var sizeOrCont := |message|;
      if pos != 0 {
        sizeOrCont := 0;
      }
      r, used := SendChunk(Chunk(sizeOrCont, message[pos..end]), script);
    }

    /** Sends the message chunk by chunk. A failed send has handed over its first `count` chunks, paid for
        exactly those, and is short of the allowance for the next one. */
    method Send(message: Bytes, script: seq<SendEvent>) returns (r: Result<(), Failure>, ghost count: nat, used: nat)
      requires chunkLimit > 0 && atoiSpace >= 0
      modifies this`atoiSpace, this`atoiSign, this`transfers
      ensures used <= |script| && atoiSpace >= 0
      ensures transfers == old(transfers) + Chunks(message, chunkLimit, 0, count)
      ensures atoiSpace + Reach(message, chunkLimit, 0, count) == old(atoiSpace) + Granted(script[..used])
      ensures message == [] <==> r == Failure(EmptyMessage)
      ensures r.Success? <==> message != [] && Reach(message, chunkLimit, 0, count) == |message|
      ensures r.Failure? && message != [] ==>
                && atoiSpace < |ChunkAt(message, chunkLimit, Reach(message, chunkLimit, 0, count)).payload|
                && Explains(script[..used], script[used..], r.error)
      ensures r.Success? <==> message != [] && CanPay(old(atoiSpace), |message|, script)
      ensures r.Success? ==> PaysFirst(old(atoiSpace), |message|, script, used)
    {
      count, used := 0, 0;
      if |message| == 0 {
        return Failure(EmptyMessage), 0, 0;
      }
      var pos := 0;
      assert Granted(script[..0]) == 0;
      hide Explains, Granted, Chunks, Reach, CanPay, PaysFirst, Pays, AllAllowed, ChunkAt, End;
      assert PaysFirst(atoiSpace, 0, script, 0) by {
        NothingToPay(atoiSpace, script);
      }
      assert Reach(message, chunkLimit, 0, 0) == 0 && Chunks(message, chunkLimit, 0, 0) == [] by {
        NoChunks(message, chunkLimit);
      }
      while pos < |message|
        invariant 0 <= pos <= |message| && atoiSpace >= 0 && used <= |script|
        invariant pos == Reach(message, chunkLimit, 0, count)
        invariant transfers == old(transfers) + Chunks(message, chunkLimit, 0, count)
        invariant atoiSpace + pos == old(atoiSpace) + Granted(script[..used])
        invariant PaysFirst(old(atoiSpace), pos, script, used)
        decreases |message| - pos
      {
        var end, result, n := SendNext(message, pos, script[used..]);
        NextWait(old(atoiSpace), pos, end - pos, |message|, script, used, n, result);
        used := used + n;
        if result.Failure? {
          return result, count, used;
        }
        ghost var sent := Chunks(message, chunkLimit, 0, count);
        ChunksSnoc(message, chunkLimit, 0, count);
        assert transfers == old(transfers) + (sent + [ChunkAt(message, chunkLimit, pos)]);
        count := count + 1;
        pos := end;
      }
      PaidCanPay(old(atoiSpace), |message|, script, used);
      return Success(()), count, used;
    }

    // ----- receiving

    method HandleTransfer(size: nat, chunk: Bytes)
      requires Fits(chunkBuf, Chunk(size, chunk))
      modifies this`chunkBuf, this`itoaBuf, this`itoaSign, this`allowances
      ensures var r := Transfer(old(chunkBuf), Chunk(size, chunk));
              && chunkBuf == r.assembly
              && Inbound() == Enqueue(old(Inbound()), r.pushed)
              && allowances == old(allowances) + r.granted
    {
      if size != 0 {
        if chunkBuf.Building? {
          allowances := allowances + [|chunkBuf.bytes|];
        }
        chunkBuf := Building(size, []);
      }
      chunkBuf := chunkBuf.(bytes := chunkBuf.bytes + chunk);
      if |chunkBuf.bytes| == chunkBuf.size {
        itoaBuf := itoaBuf + [chunkBuf.bytes];
        chunkBuf := Nothing;
        itoaSign := true;
      }
    }

    /** Takes the oldest message, granting its bytes back, or clears the arrival signal. */
    method FetchMessage() returns (message: Option<Bytes>)
      modifies this`itoaBuf, this`itoaSign, this`allowances
      ensures (message, Inbound()) == Fetch(old(Inbound()))
      ensures allowances == old(allowances) + if message.Some? then [|message.value|] else []
    {
      if itoaBuf != [] {
        message := Some(itoaBuf[0]);
        itoaBuf := itoaBuf[1..];
        allowances := allowances + [|message.value|];
      } else {
        itoaSign := false;
        message := None;
      }
    }

    /** `HandleTransfer` for the chunk after `seen`, with `later` ones still to come. */
    method HandleArrival(chunk: Chunk, ghost a0: Assembly, ghost seen: seq<Chunk>, ghost later: seq<Chunk>,
                         ghost before: seq<nat>)
      requires AllFit(a0, seen) && AllFit(chunkBuf, [chunk] + later) && chunkBuf == Replay(a0, seen).assembly
      requires itoaBuf == Replay(a0, seen).pushed && allowances == before + Replay(a0, seen).granted
      requires itoaSign <==> itoaBuf != []
      modifies this`chunkBuf, this`itoaBuf, this`itoaSign, this`allowances
      ensures AllFit(a0, seen + [chunk]) && AllFit(chunkBuf, later)
      ensures chunkBuf == Replay(a0, seen + [chunk]).assembly && itoaBuf == Replay(a0, seen + [chunk]).pushed
      ensures allowances == before + Replay(a0, seen + [chunk]).granted
      ensures itoaSign <==> itoaBuf != []
    {
      hide Replay, AllFit, Transfer, Fits;
      ReplaySnoc(a0, seen, chunk, later);
      ghost var r := Transfer(chunkBuf, chunk);
      assert before + Replay(a0, seen).granted + r.granted == before + (Replay(a0, seen).granted + r.granted);
      HandleTransfer(chunk.size, chunk.payload);
    }

    /** Blocks until the arrival signal is raised, while chunks are being handled. */
    method AwaitArrival(script: seq<RecvEvent>) returns (r: Result<(), Failure>, used: nat)
      requires AllFit(chunkBuf, Arrivals(script)) && itoaBuf == [] && !itoaSign
      modifies this`chunkBuf, this`itoaBuf, this`itoaSign, this`allowances
      ensures used <= |script| && AllFit(old(chunkBuf), Arrivals(script[..used]))
      ensures var a := Replay(old(chunkBuf), Arrivals(script[..used]));
              chunkBuf == a.assembly && itoaBuf == a.pushed && allowances == old(allowances) + a.granted
      ensures if r.Success? then itoaBuf != [] else itoaBuf == []
      ensures r.Failure? ==> WaitEnded(script, used, r.error)
      ensures r.Success? <==> CanComplete(old(chunkBuf), script)
      ensures r.Success? ==> CompletesFirst(old(chunkBuf), script, used)
      ensures itoaSign <==> r.Success?
    {
      ghost var a0, seen, later := chunkBuf, Arrivals([]), Arrivals(script);
      assert script[..0] == [] && script[0..] == script;
      hide Arrivals, Replay, AllFit, Transfer, Fits;
      ReplayNone(a0);
      assert NoneBefore(a0, script, 0);
      hide NoneBefore, Completes, CompletesFirst, CanComplete, WaitEnded;
      used := 0;
      while !itoaSign
        invariant used <= |script| && seen == Arrivals(script[..used]) && later == Arrivals(script[used..])
        invariant AllFit(a0, seen) && chunkBuf == Replay(a0, seen).assembly && AllFit(chunkBuf, later)
        invariant itoaBuf == Replay(a0, seen).pushed && allowances == old(allowances) + Replay(a0, seen).granted
        invariant itoaSign <==> itoaBuf != []
        invariant NoneBefore(a0, script, used)
        decreases |script| - used
      {
        CompletesNow(a0, script, used);
        if used == |script| {
          NeverCompletes(a0, script, used);
          return Failure(StillBlocked), used;
        }
        var event := script[used];
        ArrivalsSnoc(script, used);
        assert seen + [] == seen;
        match event {
          case Arrived(chunk) =>
            NoneBeforeNext(a0, script, used);
            used := used + 1;
            later := Arrivals(script[used..]);
            HandleArrival(chunk, a0, seen, later, old(allowances));
            seen := seen + [chunk];
          case RecvExpired =>
            NeverCompletes(a0, script, used);
            return Failure(ErrTimeout), used + 1;
          case RecvTerminated =>
            NeverCompletes(a0, script, used);
            return Failure(ErrClosed), used + 1;
        }
      }
      CompletesNow(a0, script, used);
      return Success(()), used;
    }

    /** The second half of `Recv`, with nothing queued. The panic on a raised signal without a message
        cannot happen. */
    method RecvBlocking(script: seq<RecvEvent>) returns (r: Result<Bytes, Failure>, used: nat)
      requires AllFit(chunkBuf, Arrivals(script)) && itoaBuf == [] && !itoaSign
      modifies this`chunkBuf, this`itoaBuf, this`itoaSign, this`allowances
      ensures used <= |script| && AllFit(old(chunkBuf), Arrivals(script[..used]))
      ensures var a := Replay(old(chunkBuf), Arrivals(script[..used]));
              && chunkBuf == a.assembly
              && a.pushed == (if r.Success? then [r.value] else []) + itoaBuf
              && allowances == old(allowances) + a.granted + (if r.Success? then [|r.value|] else [])
      ensures r.Failure? ==> itoaBuf == []
      ensures r.Failure? ==> WaitEnded(script, used, r.error)
      ensures r.Success? <==> CanComplete(old(chunkBuf), script)
      ensures r.Success? ==> CompletesFirst(old(chunkBuf), script, used)
      ensures !itoaSign
    {
      hide Arrivals, Replay, AllFit, Fetch, WaitEnded, CanComplete, CompletesFirst;
      var signalled;
      signalled, used := AwaitArrival(script);
      if signalled.Failure? {
        return Failure(signalled.error), used;
      }
      itoaSign := false;
      var message := FetchMessage();
      if message == None {
        assert false;
      }
      return Success(message.value), used;
    }

    /** Returns the oldest message, blocking until one is complete. Nothing is lost: what was queued and what the
        chunks complete meanwhile is the message returned followed by what is queued now. */
    method Recv(script: seq<RecvEvent>) returns (r: Result<Bytes, Failure>, used: nat)
      requires AllFit(chunkBuf, Arrivals(script))
      modifies this`chunkBuf, this`itoaBuf, this`itoaSign, this`allowances
      ensures used <= |script| && AllFit(old(chunkBuf), Arrivals(script[..used]))
      ensures var a := Replay(old(chunkBuf), Arrivals(script[..used]));
              && chunkBuf == a.assembly
              && old(itoaBuf) + a.pushed == (if r.Success? then [r.value] else []) + itoaBuf
              && allowances == old(allowances) + a.granted + (if r.Success? then [|r.value|] else [])
      ensures old(itoaBuf) != [] ==> used == 0
      ensures r.Failure? ==> itoaBuf == []
      ensures r.Failure? ==> WaitEnded(script, used, r.error)
      ensures r.Success? <==> old(itoaBuf) != [] || CanComplete(old(chunkBuf), script)
      ensures r.Success? && old(itoaBuf) == [] ==> CompletesFirst(old(chunkBuf), script, used)
      ensures old(itoaBuf) == [] ==> !itoaSign
    {
      hide Arrivals, Replay, AllFit, Fetch, WaitEnded, CanComplete, CompletesFirst;
      var message := FetchMessage();
      if message.Some? {
        NothingArrived(chunkBuf, script);
        assert old(itoaBuf) + [] == [message.value] + itoaBuf;
        assert old(allowances) + [] + [|message.value|] == allowances;
        return Success(message.value), 0;
      }
      r, used := RecvBlocking(script);
      ghost var pushed := Replay(old(chunkBuf), Arrivals(script[..used])).pushed;
      assert old(itoaBuf) + pushed == pushed;
    }
  }
}
