/** One direction of a tunnel: the sending application, the chunks and allowances in flight, and the receiving
    endpoint, as a state machine over the atomic steps of tunnel.go. Chunks stay in order; allowances are sent
    by goroutines of their own and arrive in any order. One `Send` and one `Recv` are active at a time. */
module Link {
  import opened Basics
  import opened Flow

  /** Where `Send` stands with the chunk of its message that starts at `pos`. */
  datatype Sender =
    | Idle
    | Trying(m: Bytes, pos: nat)    // about to ask for allowance
    | Waiting(m: Bytes, pos: nat)   // blocked until a grant, the deadline or termination
    | Paid(m: Bytes, pos: nat)      // allowance taken, chunk not yet handed to the connection

  /** Where `Recv` stands. */
  datatype Reader = Free | Blocked | Woken

  datatype State = State(
    limit: nat,
    sender: Sender,
    allowance: Allowance,
    data: seq<Chunk>,        // chunks in flight, oldest first
    grants: seq<nat>,        // allowances in flight, in no particular order
    assembly: Assembly,
    inbox: Inbox,
    reader: Reader,
    faulty: bool,            // a chunk did not fit, or `Recv` panicked
    sent: seq<Bytes>,        // messages whose last chunk was handed over, oldest first
    received: seq<Bytes>)    // messages `Recv` returned, oldest first

  function Init(limit: nat): State {
    State(limit, Idle, Allowance(0, false), [], [TUNNEL_BUFFER], Nothing, Inbox([], false), Free, false, [], [])
  }

  datatype Step =
    | Start(m: Bytes)
    | TryDrain
    | Transmit
    | Wake
    | Abandon
    | Grant(i: nat)
    | Deliver
    | Recv
    | Notice
    | Take
    | GiveUp

  predicate Busy(s: State) {
    !s.sender.Idle?
  }

  function Current(s: State): Chunk
    requires Busy(s) && s.sender.pos <= |s.sender.m|
  {
    ChunkAt(s.sender.m, s.limit, s.sender.pos)
  }

  /** The bytes the sender needs allowance for. */
  function Need(s: State): nat
    requires Busy(s) && s.sender.pos <= |s.sender.m|
  {
    |Current(s).payload|
  }

  predicate Enabled(s: State, step: Step) {
    match step
    case Start(m) => s.sender.Idle? && m != []
    case TryDrain => s.sender.Trying? && s.sender.pos <= |s.sender.m|
    case Transmit => s.sender.Paid? && s.sender.pos <= |s.sender.m|
    case Wake => s.sender.Waiting? && s.allowance.signal
    case Abandon => s.sender.Waiting?
    case Grant(i) => i < |s.grants|
    case Deliver => s.data != []
    case Recv => s.reader.Free?
    case Notice => s.reader.Blocked? && s.inbox.signal
    case Take => s.reader.Woken?
    case GiveUp => s.reader.Blocked?
  }

  /** The application takes the oldest message, whose bytes are granted back. */
  function Fetched(s: State, m: Bytes, inbox: Inbox): State {
    s.(inbox := inbox, reader := Free, received := s.received + [m], grants := s.grants + [|m|])
  }

  function Next(s: State, step: Step): State
    requires Enabled(s, step)
  {
    match step
    case Start(m) => s.(sender := Trying(m, 0))
    case TryDrain =>
      var (enough, allowance) := Drain(s.allowance, Need(s));
      s.(allowance := allowance,
         sender := if enough then Paid(s.sender.m, s.sender.pos) else Waiting(s.sender.m, s.sender.pos))
    case Transmit =>
      var m, end := s.sender.m, End(s.sender.m, s.limit, s.sender.pos);
      var s' := s.(data := s.data + [Current(s)]);
      if end == |m| then s'.(sender := Idle, sent := s.sent + [m]) else s'.(sender := Trying(m, end))
    case Wake => s.(allowance := s.allowance.(signal := false), sender := Trying(s.sender.m, s.sender.pos))
    case Abandon => s.(sender := Idle)
    case Grant(i) => s.(allowance := Allow(s.allowance, s.grants[i]), grants := RemoveAt(s.grants, i))
    case Deliver =>
      if !Fits(s.assembly, s.data[0]) then s.(faulty := true) else
      var r := Transfer(s.assembly, s.data[0]);
      s.(data := s.data[1..], assembly := r.assembly, inbox := Enqueue(s.inbox, r.pushed), grants := s.grants + r.granted)
    case Recv =>
      var (m, inbox) := Fetch(s.inbox);
      if m.Some? then Fetched(s, m.value, inbox) else s.(inbox := inbox, reader := Blocked)
    case Notice => s.(inbox := s.inbox.(signal := false), reader := Woken)
    case Take =>
      var (m, inbox) := Fetch(s.inbox);
      if m.Some? then Fetched(s, m.value, inbox) else s.(faulty := true)
    case GiveUp => s.(reader := Free)
  }

  /** The state a run of steps leads to, if each is enabled when its turn comes. */
  function Exec(s: State, steps: seq<Step>): Option<State>
    decreases |steps|
  {
    if steps == [] then Some(s)
    else if Enabled(s, steps[0]) then Exec(Next(s, steps[0]), steps[1..])
    else None
  }

  lemma ExecOne(s: State, step: Step)
    requires Enabled(s, step)
    ensures Exec(s, [step]) == Some(Next(s, step))
  {
    hide Next, Enabled;
    assert Exec(Next(s, step), []) == Some(Next(s, step));
  }

  lemma {:induction false} ExecConcat(s: State, xs: seq<Step>, ys: seq<Step>)
    requires Exec(s, xs).Some?
    ensures Exec(s, xs + ys) == Exec(Exec(s, xs).value, ys)
    decreases |xs|
  {
    hide Next, Enabled;
    if xs == [] {
      assert xs + ys == ys;
    } else {
      assert (xs + ys)[1..] == xs[1..] + ys;
      ExecConcat(Next(s, xs[0]), xs[1..], ys);
    }
  }

  // ----- the invariant

  predicate SenderInv(s: State) {
    s.limit > 0 && (Busy(s) ==> s.sender.pos < |s.sender.m|)
  }

  /** What will be under assembly, once everything in flight has arrived, is what the sender has sent
      of its current message; between messages it may be the abandoned prefix of an earlier one. */
  predicate Agrees(a: Assembly, sender: Sender) {
    if !sender.Idle? && sender.pos > 0 then
      sender.pos < |sender.m| && a == Building(|sender.m|, sender.m[..sender.pos])
    else
      a.Building? ==> 0 < |a.bytes| < a.size
  }

  /** Received, then queued, then completed by what is in flight: exactly the messages sent, in order. */
  ghost predicate StreamInv(s: State) {
    && AllFit(s.assembly, s.data)
    && s.sent == s.received + s.inbox.queue + Replay(s.assembly, s.data).pushed
    && Agrees(Replay(s.assembly, s.data).assembly, s.sender)
  }

  function InHand(s: State): nat {
    if s.sender.Paid? && s.sender.pos <= |s.sender.m| then Need(s) else 0
  }

  /** Every byte of the buffer is accounted for. */
  ghost predicate CreditInv(s: State) {
    && s.allowance.space >= 0
    && s.allowance.space + InHand(s) + Volume(s.data) + Held(s.assembly) + Size(s.inbox.queue) + Sum(s.grants)
       == TUNNEL_BUFFER
  }

  /** No wake-up is lost on either side, and `Recv` finds a message whenever it is woken. */
  ghost predicate SignalInv(s: State) {
    && (s.sender.Waiting? && s.sender.pos <= |s.sender.m| && !s.allowance.signal ==> s.allowance.space < Need(s))
    && (s.reader.Blocked? ==> (s.inbox.signal <==> s.inbox.queue != []))
    && (s.reader.Woken? ==> s.inbox.queue != [])
    && !s.faulty
  }

  ghost predicate Inv(s: State) {
    SenderInv(s) && StreamInv(s) && CreditInv(s) && SignalInv(s)
  }

  lemma InitInv(limit: nat)
    requires limit > 0
    ensures Inv(Init(limit))
  {
    assert Sum([TUNNEL_BUFFER]) == TUNNEL_BUFFER + Sum([]);
  }

  /** The next chunk fits what the sender's earlier ones built up, and extends or completes it. */
  lemma NextChunk(a: Assembly, s: State)
    requires SenderInv(s) && Busy(s) && Agrees(a, s.sender)
    ensures Fits(a, Current(s))
    ensures var m, end, r := s.sender.m, End(s.sender.m, s.limit, s.sender.pos), Transfer(a, Current(s));
            if end == |m| then r.assembly == Nothing && r.pushed == [m]
            else r.assembly == Building(|m|, m[..end]) && r.pushed == []
  {
    if s.sender.pos == 0 {
      TransferFirst(a, s.sender.m, s.limit);
    } else {
      TransferNext(s.sender.m, s.limit, s.sender.pos);
    }
  }

  lemma TransmitStream(s: State)
    requires SenderInv(s) && StreamInv(s) && s.sender.Paid?
    ensures StreamInv(Next(s, Transmit))
    ensures var a, s' := Replay(s.assembly, s.data).assembly, Next(s, Transmit);
            Fits(a, Current(s)) && Replay(s'.assembly, s'.data).assembly == Transfer(a, Current(s)).assembly
  {
    var r, c := Replay(s.assembly, s.data), Current(s);
    NextChunk(r.assembly, s);
    hide Replay, AllFit, Fits, Transfer;
    ReplayLast(s.assembly, s.data, c);
    var done := Transfer(r.assembly, c).pushed;
    assert s.received + s.inbox.queue + (r.pushed + done) == s.sent + done;
  }

  /** A message fetched moves from the queue to the received ones; nothing else about the stream changes. */
  lemma FetchStream(s: State, s': State)
    requires StreamInv(s) && s.inbox.queue != []
    requires s' == Fetched(s, s.inbox.queue[0], s.inbox.(queue := s.inbox.queue[1..]))
    ensures StreamInv(s')
  {
    hide Replay, AllFit, Agrees;
    assert s.inbox.queue == [s.inbox.queue[0]] + s.inbox.queue[1..];
    assert s'.received + s'.inbox.queue == s.received + s.inbox.queue;
  }

  lemma StreamPreserved(s: State, step: Step)
    requires SenderInv(s) && StreamInv(s) && Enabled(s, step)
    ensures StreamInv(Next(s, step))
  {
    hide Replay, AllFit, Fetched, Transfer, Fits;
    match step
    case Transmit => TransmitStream(s);
    case Deliver => DeliverStream(s);
    case Recv => if s.inbox.queue != [] { FetchStream(s, Next(s, step)); }
    case Take => if s.inbox.queue != [] { FetchStream(s, Next(s, step)); }
    case _ =>
  }

  lemma DeliverStream(s: State)
    requires StreamInv(s) && s.data != []
    ensures StreamInv(Next(s, Deliver)) && Fits(s.assembly, s.data[0])
    ensures var s' := Next(s, Deliver);
            Replay(s'.assembly, s'.data).assembly == Replay(s.assembly, s.data).assembly
  {
    hide Transfer, Fits, Agrees;
  }

  lemma DeliverCredit(s: State)
    requires CreditInv(s) && s.data != []
    ensures CreditInv(Next(s, Deliver))
  {
    if Fits(s.assembly, s.data[0]) {
      hide Transfer, Fits, Held, Size, Sum;
      var r := Transfer(s.assembly, s.data[0]);
      TransferConserves(s.assembly, s.data[0]);
      SumConcat(s.grants, r.granted);
      SizeConcat(s.inbox.queue, r.pushed);
      assert Size([]) == 0;
    }
  }

  lemma TransmitCredit(s: State)
    requires SenderInv(s) && CreditInv(s) && s.sender.Paid?
    ensures CreditInv(Next(s, Transmit))
  {
    VolumeConcat(s.data, [Current(s)]);
  }

  /** Fetching a message moves its bytes from the queue to the grants. */
  lemma FetchCredit(s: State)
    requires s.inbox.queue != []
    ensures var m := s.inbox.queue[0];
            Size(s.inbox.queue[1..]) + Sum(s.grants + [|m|]) == Size(s.inbox.queue) + Sum(s.grants)
  {
    SumConcat(s.grants, [|s.inbox.queue[0]|]);
  }

  lemma CreditPreserved(s: State, step: Step)
    requires SenderInv(s) && CreditInv(s) && Enabled(s, step)
    ensures CreditInv(Next(s, step))
  {
    hide Volume, Size, Sum, Transfer, Held, Fits;
    match step
    case Transmit => TransmitCredit(s);
    case Grant(i) => SumRemoveAt(s.grants, i);
    case Deliver => DeliverCredit(s);
    case Recv => if s.inbox.queue != [] { FetchCredit(s); }
    case Take => if s.inbox.queue != [] { FetchCredit(s); }
    case _ =>
  }

  lemma SignalPreserved(s: State, step: Step)
    requires SenderInv(s) && StreamInv(s) && SignalInv(s) && Enabled(s, step)
    ensures SignalInv(Next(s, step))
  {
    hide Transfer, Replay, Agrees;
  }

  lemma InvPreserved(s: State, step: Step)
    requires Inv(s) && Enabled(s, step)
    ensures Inv(Next(s, step))
  {
    StreamPreserved(s, step);
    CreditPreserved(s, step);
    SignalPreserved(s, step);
    hide StreamInv, CreditInv, SignalInv;
  }

  lemma {:induction false} Invariant(s: State, steps: seq<Step>)
    requires Inv(s) && Exec(s, steps).Some?
    ensures Inv(Exec(s, steps).value) && Exec(s, steps).value.limit == s.limit
    decreases |steps|
  {
    hide Inv;
    if steps != [] {
      InvPreserved(s, steps[0]);
      Invariant(Next(s, steps[0]), steps[1..]);
    }
  }

  // ----- what the invariant means

  /** `s` is reachable on a tunnel with this chunk limit. */
  ghost predicate Reaches(limit: nat, steps: seq<Step>, s: State) {
    limit > 0 && Exec(Init(limit), steps) == Some(s)
  }

  lemma ReachableInv(limit: nat, steps: seq<Step>, s: State)
    requires Reaches(limit, steps, s)
    ensures Inv(s) && s.limit == limit
  {
    InitInv(limit);
    Invariant(Init(limit), steps);
  }

  /** In order and byte for byte: what the receiver has is always a prefix of what the sender has fully sent,
      and once nothing is in flight or queued it is all of it. */
  lemma OrderedDelivery(limit: nat, steps: seq<Step>, s: State)
    requires Reaches(limit, steps, s)
    ensures s.received <= s.sent
    ensures s.data == [] && s.inbox.queue == [] ==> s.received == s.sent
    ensures AllFit(s.assembly, s.data) && s.sent == s.received + s.inbox.queue + Replay(s.assembly, s.data).pushed
  {
    hide Exec, AllFit;
    ReachableInv(limit, steps, s);
  }

  /** Flow control: the bytes a tunnel holds, anywhere, never exceed its buffer. */
  lemma CreditConserved(limit: nat, steps: seq<Step>, s: State)
    requires Reaches(limit, steps, s)
    ensures s.allowance.space + InHand(s) + Volume(s.data) + Held(s.assembly) + Size(s.inbox.queue) + Sum(s.grants)
         == TUNNEL_BUFFER == 67_108_864
    ensures 0 <= s.allowance.space <= TUNNEL_BUFFER
    ensures Held(s.assembly) + Size(s.inbox.queue) <= TUNNEL_BUFFER
  {
    hide Exec;
    ReachableInv(limit, steps, s);
  }

  /** The panic in `Recv` is unreachable, every chunk fits, and nobody waits for a signal that was already given. */
  lemma NoLostSignals(limit: nat, steps: seq<Step>, s: State)
    requires Reaches(limit, steps, s)
    ensures !s.faulty
    ensures s.reader.Blocked? ==> (s.inbox.signal <==> s.inbox.queue != [])
    ensures s.sender.Waiting? && !s.allowance.signal ==> s.sender.pos < |s.sender.m| && s.allowance.space < Need(s)
  {
    hide Exec;
    ReachableInv(limit, steps, s);
  }

  // ----- a signal wakes a waiting call once

  function Wakes(steps: seq<Step>): nat {
    if steps == [] then 0 else (if steps[0].Wake? then 1 else 0) + Wakes(steps[1..])
  }

  function Grants(steps: seq<Step>): nat {
    if steps == [] then 0 else (if steps[0].Grant? then 1 else 0) + Grants(steps[1..])
  }

  function Notices(steps: seq<Step>): nat {
    if steps == [] then 0 else (if steps[0].Notice? then 1 else 0) + Notices(steps[1..])
  }

  function Raised(signal: bool): nat {
    if signal then 1 else 0
  }

  function Arrived(s: State): nat {
    |s.received| + |s.inbox.queue|
  }

  lemma SignalStep(s: State, step: Step)
    requires Enabled(s, step)
    ensures var s' := Next(s, step);
            && Wakes([step]) + Raised(s'.allowance.signal) <= Grants([step]) + Raised(s.allowance.signal)
            && Notices([step]) + Raised(s'.inbox.signal) + Arrived(s) <= Arrived(s') + Raised(s.inbox.signal)
  {
    hide Fits;
  }

  lemma {:induction false} SignalsBounded(s: State, steps: seq<Step>)
    requires Exec(s, steps).Some?
    ensures var s' := Exec(s, steps).value;
            && Wakes(steps) + Raised(s'.allowance.signal) <= Grants(steps) + Raised(s.allowance.signal)
            && Notices(steps) + Raised(s'.inbox.signal) + Arrived(s) <= Arrived(s') + Raised(s.inbox.signal)
    decreases |steps|
  {
    if steps != [] {
      SignalStep(s, steps[0]);
      SignalsBounded(Next(s, steps[0]), steps[1..]);
      assert [steps[0]][1..] == [];
      hide Next, Enabled, Raised, Arrived;
    }
  }

  /** Nobody is woken twice for the same reason: a sender at most once per allowance that arrived, the receiver at most
      once per message completed. */
  lemma WakesAreEarned(limit: nat, steps: seq<Step>, s: State)
    requires Reaches(limit, steps, s)
    ensures Wakes(steps) <= Grants(steps)
    ensures Notices(steps) <= |s.received| + |s.inbox.queue|
  {
    hide Exec;
    SignalsBounded(Init(limit), steps);
  }
}
