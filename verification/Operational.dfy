/** Which chunk limits keep a tunnel operational whatever sends are given up, and how it wedges under the others. */
module Operational {
  import opened Basics
  import opened Flow
  import opened Link
  import opened Progress

  /** Only messages that fit the buffer are sent. */
  predicate InRange(steps: seq<Step>) {
    forall step :: step in steps && step.Start? ==> |step.m| <= TUNNEL_BUFFER
  }

  /** Whatever was given up before, every message can reach the application, if all of them fit the buffer. */
  ghost predicate AlwaysOperational(limit: nat) {
    forall steps, s :: InRange(steps) && Reaches(limit, steps, s) && Busy(s) ==> Deliverable(s)
  }

  /** Whatever was sent and given up before, every message that fits the buffer can reach the application. */
  ghost predicate AlwaysRecovers(limit: nat) {
    forall steps, s :: Reaches(limit, steps, s) && Busy(s) && |s.sender.m| <= TUNNEL_BUFFER ==> Deliverable(s)
  }

  // ----- chunk limits that divide the buffer, or are not below it

  predicate Aligned(limit: nat)
    requires limit > 0
  {
    limit >= TUNNEL_BUFFER || TUNNEL_BUFFER % limit == 0
  }

  /** Only whole chunks lie between the start of a message and the sender, or are held back at the receiver. */
  ghost predicate MultipleInv(s: State) {
    && Inv(s)
    && (Busy(s) ==> s.sender.pos % s.limit == 0)
    && (Final(s).Building? ==> |Final(s).bytes| % s.limit == 0)
  }

  ghost predicate FittingInv(s: State) {
    && Inv(s)
    && (Busy(s) ==> |s.sender.m| <= TUNNEL_BUFFER)
    && (Final(s).Building? ==> Final(s).size <= TUNNEL_BUFFER)
  }

  lemma NextMultiple(a: nat, d: nat)
    requires d > 0 && a % d == 0
    ensures (a + d) % d == 0
  {
    var q, q', r := a / d, (a + d) / d, (a + d) % d;
    assert a == d * q && a + d == d * q' + r;
    assert r == d * (q + 1 - q');
    Scale(d, q + 1 - q');
  }

  lemma Scale(d: int, k: int)
    requires d > 0
    ensures k >= 1 ==> d * k >= d
    ensures k == 0 ==> d * k == 0
    ensures k <= -1 ==> d * k <= -d
  {
  }

  lemma MultipleTransmit(s: State)
    requires MultipleInv(s) && s.sender.Paid?
    ensures MultipleInv(Next(s, Transmit))
  {
    hide Exec, Replay, AllFit, Transfer, Fits;
    InvPreserved(s, Transmit);
    TransmitStream(s);
    NextChunk(Final(s), s);
    NextMultiple(s.sender.pos, s.limit);
  }

  lemma MultiplePreserved(s: State, step: Step)
    requires MultipleInv(s) && Enabled(s, step)
    ensures MultipleInv(Next(s, step))
  {
    hide CreditInv, SignalInv, Replay, AllFit, Transfer, Agrees;
    InvPreserved(s, step);
    if step.Deliver? {
      DeliverStream(s);
    } else if step.Transmit? {
      MultipleTransmit(s);
    } else {
      assert Next(s, step).assembly == s.assembly && Next(s, step).data == s.data;
    }
  }

  lemma {:induction false} MultipleInvariant(s: State, steps: seq<Step>)
    requires MultipleInv(s) && Exec(s, steps).Some?
    ensures MultipleInv(Exec(s, steps).value)
    decreases |steps|
  {
    if steps != [] {
      MultiplePreserved(s, steps[0]);
      hide MultipleInv, Next, Enabled;
      MultipleInvariant(Next(s, steps[0]), steps[1..]);
    }
  }

  lemma FittingPreserved(s: State, step: Step)
    requires FittingInv(s) && Enabled(s, step)
    requires step.Start? ==> |step.m| <= TUNNEL_BUFFER
    ensures FittingInv(Next(s, step))
  {
    hide CreditInv, SignalInv, Replay, AllFit, Transfer, Fits;
    InvPreserved(s, step);
    if step.Deliver? {
      DeliverStream(s);
    } else if step.Transmit? {
      TransmitStream(s);
      NextChunk(Final(s), s);
    } else {
      assert Next(s, step).assembly == s.assembly && Next(s, step).data == s.data;
    }
  }

  lemma {:induction false} FittingInvariant(s: State, steps: seq<Step>)
    requires FittingInv(s) && InRange(steps) && Exec(s, steps).Some?
    ensures FittingInv(Exec(s, steps).value)
    decreases |steps|
  {
    if steps != [] {
      assert steps[0] in steps;
      FittingPreserved(s, steps[0]);
      hide FittingInv, Next, Enabled;
      FittingInvariant(Next(s, steps[0]), steps[1..]);
    }
  }

  lemma MultiplesApart(a: nat, b: nat, d: nat)
    requires d > 0 && a % d == 0 && b % d == 0 && a < b
    ensures a + d <= b
  {
    var x, y := a / d, b / d;
    assert a == d * x && b == d * y;
    assert x + 1 <= y;
    assert d * (x + 1) <= d * y;
  }

  /** Whole chunks of a message that fits leave room for one more. */
  lemma RoomForChunk(held: nat, limit: nat)
    requires limit > 0 && Aligned(limit)
    requires 0 < held < TUNNEL_BUFFER && held % limit == 0
    ensures held + limit <= TUNNEL_BUFFER
  {
    if limit < TUNNEL_BUFFER {
      MultiplesApart(held, TUNNEL_BUFFER, limit);
    }
  }

  lemma AlignedCompletable(s: State)
    requires MultipleInv(s) && FittingInv(s) && Busy(s) && Aligned(s.limit)
    ensures Completable(s)
  {
    hide CreditInv, SignalInv, Replay, AllFit, Aligned;
    if s.sender.pos == 0 && Held(Final(s)) > 0 {
      RoomForChunk(Held(Final(s)), s.limit);
    }
  }

  // ----- filling the receiver chunk by chunk

  lemma PushInv(s: State)
    requires Inv(s) && s.sender.Trying? && s.data == [] && Need(s) <= s.allowance.space
    ensures var paid := Next(s, TryDrain);
            Inv(paid) && paid.sender.Paid? && Inv(Next(paid, Transmit)) && Inv(Next(Next(paid, Transmit), Deliver))
  {
    hide StreamInv, CreditInv, SignalInv;
    var paid := Next(s, TryDrain);
    InvPreserved(s, TryDrain);
    InvPreserved(paid, Transmit);
    InvPreserved(Next(paid, Transmit), Deliver);
  }

  lemma ExecThree(s: State, x: Step, y: Step, z: Step)
    requires Enabled(s, x) && Enabled(Next(s, x), y) && Enabled(Next(Next(s, x), y), z)
    ensures Exec(s, [x, y, z]) == Some(Next(Next(Next(s, x), y), z))
  {
    hide Next, Enabled;
    ExecOne(Next(Next(s, x), y), z);
    assert [y, z][1..] == [z] && [x, y, z][1..] == [y, z];
    assert Exec(Next(s, x), [y, z]) == Some(Next(Next(Next(s, x), y), z));
  }

  /** One chunk is paid for, sent and delivered. */
  lemma PushChunk(s: State) returns (s': State)
    requires Inv(s) && s.sender.Trying? && s.data == []
    requires s.sender.pos + s.limit < |s.sender.m| && s.limit <= s.allowance.space
    requires s.sender.pos == 0 ==> s.assembly == Nothing
    ensures Exec(s, [TryDrain, Transmit, Deliver]) == Some(s')
    ensures Inv(s') && s'.sender == Trying(s.sender.m, s.sender.pos + s.limit) && s'.data == []
    ensures s'.allowance.space == s.allowance.space - s.limit
    ensures s' == s.(sender := s'.sender, allowance := s'.allowance, assembly := s'.assembly)
  {
    var paid := Next(s, TryDrain);
    var sent := Next(paid, Transmit);
    s' := Next(sent, Deliver);
    PushInv(s);
    NextChunk(s.assembly, paid);
    hide Inv, Exec, Transfer, Agrees;
    assert s.grants + [] == s.grants;
    ExecThree(s, TryDrain, Transmit, Deliver);
  }

  /** `k` chunks in a row. */
  lemma {:induction false} Fill(s: State, k: nat) returns (steps: seq<Step>, s': State)
    requires Inv(s) && s.sender.Trying? && s.data == []
    requires s.sender.pos + Times(k, s.limit) < |s.sender.m| && Times(k, s.limit) <= s.allowance.space
    requires s.sender.pos == 0 ==> s.assembly == Nothing
    ensures Exec(s, steps) == Some(s') && InRange(steps)
    ensures Inv(s') && s'.sender == Trying(s.sender.m, s.sender.pos + Times(k, s.limit))
    ensures s'.allowance.space == s.allowance.space - Times(k, s.limit)
    ensures s' == s.(sender := s'.sender, allowance := s'.allowance, assembly := s'.assembly)
    decreases k
  {
    assert s.limit > 0;
    hide Inv;
    if k == 0 {
      steps, s' := [], s;
    } else {
      var push := [TryDrain, Transmit, Deliver];
      assert InRange(push);
      hide Exec, InRange;
      var s1 := PushChunk(s);
      var rest;
      rest, s' := Fill(s1, k - 1);
      ExecConcat(s, push, rest);
      InRangeConcat(push, rest);
      steps := [TryDrain, Transmit, Deliver] + rest;
    }
  }

  function Zeros(n: nat): Bytes {
    seq(n, _ => 0)
  }

  /** The tunnel has been constructed, the initial allowance has arrived and a send has begun. */
  lemma Opening(limit: nat, m: Bytes) returns (s: State)
    requires limit > 0 && m != []
    ensures Exec(Init(limit), [Grant(0), Start(m)]) == Some(s) && Inv(s)
    ensures s == Init(limit).(grants := [], allowance := Allowance(TUNNEL_BUFFER, true), sender := Trying(m, 0))
  {
    var granted := Next(Init(limit), Grant(0));
    s := Next(granted, Start(m));
    assert RemoveAt([TUNNEL_BUFFER], 0) == [];
    assert [Grant(0), Start(m)][1..] == [Start(m)];
    assert Exec(s, []) == Some(s);
    assert Exec(granted, [Start(m)]) == Some(s);
    ReachableInv(limit, [Grant(0), Start(m)], s);
  }

  // ----- chunk limits that leave a remainder

  /** A one-byte message is left in the receiver's queue. */
  lemma QueueByte(limit: nat) returns (steps: seq<Step>, s: State)
    requires limit > 0
    ensures InRange(steps) && Exec(Init(limit), steps) == Some(s) && Inv(s)
    ensures s.limit == limit && s.sender.Idle? && s.data == [] && s.assembly == Nothing
    ensures s.allowance.space == TUNNEL_BUFFER - 1
  {
    var s0 := Opening(limit, [0]);
    PushInv(s0);
    NextChunk(Nothing, Next(s0, TryDrain));
    s := Next(Next(Next(s0, TryDrain), Transmit), Deliver);
    hide Inv, Exec, Transfer, Agrees;
    ExecThree(s0, TryDrain, Transmit, Deliver);
    ExecConcat(Init(limit), [Grant(0), Start([0])], [TryDrain, Transmit, Deliver]);
    steps := [Grant(0), Start([0])] + [TryDrain, Transmit, Deliver];
  }

  /** The sender runs out of allowance, gives up, and begins another message. */
  lemma GiveUpAndRestart(s: State, m: Bytes) returns (s': State)
    requires Inv(s) && s.sender.Trying? && s.allowance.space < Need(s) && m != []
    ensures Exec(s, [TryDrain, Abandon, Start(m)]) == Some(s') && Inv(s')
    ensures s' == s.(allowance := s'.allowance, sender := Trying(m, 0)) && s'.allowance.space == s.allowance.space
  {
    var waiting := Next(s, TryDrain);
    var idle := Next(waiting, Abandon);
    s' := Next(idle, Start(m));
    InvPreserved(s, TryDrain);
    InvPreserved(waiting, Abandon);
    InvPreserved(idle, Start(m));
    hide Inv;
    ExecThree(s, TryDrain, Abandon, Start(m));
  }

  lemma Remainder(limit: nat) returns (q: nat)
    requires limit > 0 && !Aligned(limit)
    ensures 0 < Times(q, limit) < TUNNEL_BUFFER < Times(q, limit) + limit
  {
    q := TUNNEL_BUFFER / limit;
    assert TUNNEL_BUFFER == q * limit + TUNNEL_BUFFER % limit;
    TimesIsProduct(q, limit);
  }

  /** A queued byte keeps the last chunk of a message of the buffer's size from being paid for. */
  lemma LeavePrefix(limit: nat) returns (steps: seq<Step>, s: State)
    requires limit > 0 && !Aligned(limit)
    ensures InRange(steps) && Exec(Init(limit), steps) == Some(s) && Inv(s)
    ensures s.limit == limit && s.data == [] && s.sender.Trying? && s.allowance.space < Need(s)
    ensures |s.sender.m| == TUNNEL_BUFFER && 0 < s.sender.pos && s.sender.pos + limit > TUNNEL_BUFFER
  {
    var m := Zeros(TUNNEL_BUFFER);
    var q := Remainder(limit);
    var queueing, s0 := QueueByte(limit);
    var s1 := Next(s0, Start(m));
    InvPreserved(s0, Start(m));
    hide Inv, Exec;
    var filling;
    filling, s := Fill(s1, q);
    ExecOne(s0, Start(m));
    ExecConcat(s0, [Start(m)], filling);
    ExecConcat(Init(limit), queueing, [Start(m)] + filling);
    InRangeConcat(queueing, [Start(m)] + filling);
    InRangeConcat([Start(m)], filling);
    steps := queueing + ([Start(m)] + filling);
  }

  /** With a remainder, a send given up at the wrong moment leaves a tunnel on which a message of exactly the
      buffer's size has no way through. */
  lemma MisalignedSticks(limit: nat) returns (steps: seq<Step>, s: State)
    requires limit > 0 && !Aligned(limit)
    ensures InRange(steps) && Reaches(limit, steps, s)
    ensures Busy(s) && |s.sender.m| == TUNNEL_BUFFER && !Deliverable(s)
  {
    var filling, s0 := LeavePrefix(limit);
    s := GiveUpAndRestart(s0, s0.sender.m);
    assert Held(Final(s)) == s0.sender.pos;
    hide Inv, Exec;
    var tail := [TryDrain, Abandon, Start(s0.sender.m)];
    ExecConcat(Init(limit), filling, tail);
    InRangeConcat(filling, tail);
    steps := filling + tail;
    assert Reaches(limit, steps, s);
    hide Deliverable, Reaches;
    CompletesIff(limit, steps, s);
  }

  lemma InRangeConcat(xs: seq<Step>, ys: seq<Step>)
    ensures InRange(xs + ys) <==> InRange(xs) && InRange(ys)
  {
    assert forall step :: step in xs + ys <==> step in xs || step in ys;
  }

  /** A tunnel stays operational, for every message that fits its buffer and whatever sends are given up,
      exactly when the chunk limit divides the buffer or is no smaller than it. */
  lemma OperationalIff(limit: nat)
    requires limit > 0
    ensures AlwaysOperational(limit) <==> Aligned(limit)
  {
    if Aligned(limit) {
      forall steps, s | InRange(steps) && Reaches(limit, steps, s) && Busy(s)
        ensures Deliverable(s)
      {
        ReachableInv(limit, steps, s);
        InitInv(limit);
        MultipleInvariant(Init(limit), steps);
        FittingInvariant(Init(limit), steps);
        CompletesIff(limit, steps, s);
        AlignedCompletable(s);
      }
    } else {
      var steps, s := MisalignedSticks(limit);
    }
  }

  // ----- messages larger than the buffer

  /** All of the buffer is held back by an abandoned message, nothing is in flight, and nothing can be paid for. */
  ghost predicate Wedged(s: State) {
    && Inv(s)
    && s.allowance.space == 0 && s.data == [] && s.grants == [] && s.inbox.queue == []
    && !s.sender.Paid? && (Busy(s) ==> s.sender.pos == 0)
  }

  /** Nothing either application can do, giving up and starting over included, frees a wedged tunnel. */
  lemma {:induction false} WedgedForever(s: State, steps: seq<Step>)
    requires Wedged(s) && Exec(s, steps).Some?
    ensures Wedged(Exec(s, steps).value) && Exec(s, steps).value.sent == s.sent
    decreases |steps|
  {
    if steps != [] {
      WedgedStep(s, steps[0]);
      hide Wedged, Next, Enabled;
      WedgedForever(Next(s, steps[0]), steps[1..]);
    }
  }

  lemma WedgedStep(s: State, step: Step)
    requires Wedged(s) && Enabled(s, step)
    ensures Wedged(Next(s, step)) && Next(s, step).sent == s.sent
  {
    InvPreserved(s, step);
  }

  /** `Send` does not refuse a message larger than the buffer: under a chunk limit that divides the buffer,
      starting one on a new tunnel and giving it up wedges the tunnel. */
  lemma OversizeWedges(limit: nat, m: Bytes) returns (steps: seq<Step>, s: State)
    requires 0 < limit && TUNNEL_BUFFER % limit == 0 && |m| > TUNNEL_BUFFER
    ensures Reaches(limit, steps, s) && s.sender.Idle? && Wedged(s)
  {
    var q := TUNNEL_BUFFER / limit;
    assert TUNNEL_BUFFER == q * limit;
    TimesIsProduct(q, limit);
    var s0 := Opening(limit, m);
    var filling, s1 := Fill(s0, q);
    var waiting := Next(s1, TryDrain);
    s := Next(waiting, Abandon);
    InvPreserved(s1, TryDrain);
    InvPreserved(waiting, Abandon);
    hide Inv, Exec;
    ExecTwo(s1, TryDrain, Abandon);
    ExecConcat(s0, filling, [TryDrain, Abandon]);
    ExecConcat(Init(limit), [Grant(0), Start(m)], filling + [TryDrain, Abandon]);
    steps := [Grant(0), Start(m)] + (filling + [TryDrain, Abandon]);
  }

  lemma ExecTwo(s: State, x: Step, y: Step)
    requires Enabled(s, x) && Enabled(Next(s, x), y)
    ensures Exec(s, [x, y]) == Some(Next(Next(s, x), y))
  {
    hide Next, Enabled;
    ExecOne(Next(s, x), y);
    assert [x, y][1..] == [y];
  }

  /** No message is ever sent again, whatever either application does. */
  ghost predicate Silenced(s: State) {
    forall steps :: Exec(s, steps).Some? ==> Exec(s, steps).value.sent == s.sent
  }

  /** The sender goes on with its message as long as it can and then gives it up. */
  lemma {:induction false} StandDown(s: State) returns (steps: seq<Step>, s': State)
    requires MultipleInv(s)
    ensures Exec(s, steps) == Some(s') && MultipleInv(s') && s'.limit == s.limit
    ensures s'.sender.Idle? && |s.sent| <= |s'.sent|
    decreases if Busy(s) then |s.sender.m| - s.sender.pos else 0,
              if s.sender.Idle? then 0 else if s.sender.Trying? then 2 else 1
  {
    if s.sender.Idle? {
      steps, s' := [], s;
    } else {
      var step := match s.sender case Trying(_, _) => TryDrain case Waiting(_, _) => Abandon case _ => Transmit;
      MultiplePreserved(s, step);
      hide StreamInv, CreditInv, SignalInv, Final;
      var rest;
      rest, s' := StandDown(Next(s, step));
      steps := [step] + rest;
      assert steps[1..] == rest;
    }
  }

  /** With room for one more byte a message of one byte can be sent. */
  lemma OneMoreByte(s: State) returns (steps: seq<Step>)
    requires Inv(s) && s.sender.Idle? && Held(Final(s)) < TUNNEL_BUFFER
    ensures Exec(s, steps).Some? && |Exec(s, steps).value.sent| > |s.sent|
  {
    var s1 := Next(s, Start([0]));
    InvPreserved(s, Start([0]));
    assert Completable(s1);
    hide Inv, Completable;
    var rest := Progress.Complete(s1);
    steps := [Start([0])] + rest;
    assert steps[1..] == rest;
  }

  lemma NotSilenced(s: State)
    requires MultipleInv(s) && TUNNEL_BUFFER % s.limit != 0
    ensures !Silenced(s)
  {
    var steps, s' := StandDown(s);
    HeldBound(s');
    assert Held(Final(s')) < TUNNEL_BUFFER;
    hide Inv, Exec, Final;
    var more := OneMoreByte(s');
    ExecConcat(s, steps, more);
    assert |Exec(s, steps + more).value.sent| > |s.sent|;
  }

  lemma WedgedSilenced(s: State)
    requires Wedged(s)
    ensures Silenced(s)
  {
    hide Exec, Wedged;
    forall steps | Exec(s, steps).Some?
      ensures Exec(s, steps).value.sent == s.sent
    {
      WedgedForever(s, steps);
    }
  }

  /** A tunnel can get into a state in which nothing is ever sent again exactly if the chunk limit divides the buffer. */
  lemma WedgesIff(limit: nat)
    requires limit > 0
    ensures (exists steps, s :: Reaches(limit, steps, s) && Silenced(s)) <==> TUNNEL_BUFFER % limit == 0
    ensures (exists steps, s :: Reaches(limit, steps, s) && Wedged(s)) <==> TUNNEL_BUFFER % limit == 0
  {
    hide Exec, Inv, MultipleInv, Wedged, Silenced;
    if TUNNEL_BUFFER % limit == 0 {
      var steps, s := OversizeWedges(limit, Zeros(TUNNEL_BUFFER + 1));
      WedgedSilenced(s);
    } else {
      forall steps, s | Reaches(limit, steps, s)
        ensures !Silenced(s) && !Wedged(s)
      {
        ReachableInv(limit, steps, s);
        InitMultiple(limit);
        MultipleInvariant(Init(limit), steps);
        NotSilenced(s);
        if Wedged(s) {
          WedgedSilenced(s);
        }
      }
    }
  }

  lemma InitMultiple(limit: nat)
    requires limit > 0
    ensures MultipleInv(Init(limit))
  {
    InitInv(limit);
  }

  lemma WedgedHolds(s: State)
    requires Wedged(s)
    ensures Final(s).Building? && |Final(s).bytes| == TUNNEL_BUFFER
  {
  }

  /** Under a chunk limit above the buffer a message is paid for in one piece or not at all. */
  ghost predicate WholeInv(s: State) {
    Inv(s) && s.limit > TUNNEL_BUFFER && Final(s) == Nothing && (Busy(s) ==> s.sender.pos == 0)
  }

  lemma WholeTransmit(s: State)
    requires WholeInv(s) && s.sender.Paid?
    ensures WholeInv(Next(s, Transmit))
  {
    InvPreserved(s, Transmit);
    HeldBound(s);
    hide CreditInv, SignalInv, Replay, AllFit, Transfer, Fits;
    TransmitStream(s);
    NextChunk(Final(s), s);
  }

  lemma WholePreserved(s: State, step: Step)
    requires WholeInv(s) && Enabled(s, step)
    ensures WholeInv(Next(s, step))
  {
    hide CreditInv, SignalInv, Replay, AllFit, Transfer, Agrees;
    InvPreserved(s, step);
    if step.Deliver? {
      DeliverStream(s);
    } else if step.Transmit? {
      WholeTransmit(s);
    } else {
      assert Next(s, step).assembly == s.assembly && Next(s, step).data == s.data;
    }
  }

  lemma {:induction false} WholeInvariant(s: State, steps: seq<Step>)
    requires WholeInv(s) && Exec(s, steps).Some?
    ensures WholeInv(Exec(s, steps).value)
    decreases |steps|
  {
    if steps != [] {
      WholePreserved(s, steps[0]);
      hide WholeInv, Next, Enabled;
      WholeInvariant(Next(s, steps[0]), steps[1..]);
    }
  }

  /** After an oversize message was given up, a one-byte message has no way through. */
  lemma OversizeSticks(limit: nat) returns (steps: seq<Step>, s: State)
    requires 0 < limit && TUNNEL_BUFFER % limit == 0
    ensures Reaches(limit, steps, s) && Busy(s) && s.sender.m == [0] && !Deliverable(s)
  {
    var history, wedged := OversizeWedges(limit, Zeros(TUNNEL_BUFFER + 1));
    WedgedHolds(wedged);
    s := Next(wedged, Start([0]));
    ReachableInv(limit, history, wedged);
    InvPreserved(wedged, Start([0]));
    assert !Completable(s);
    hide Inv, Exec, Completable;
    ExecOne(wedged, Start([0]));
    ExecConcat(Init(limit), history, [Start([0])]);
    steps := history + [Start([0])];
    assert Reaches(limit, steps, s);
    hide Deliverable, Reaches;
    CompletesIff(limit, steps, s);
  }

  /** Messages that fit the buffer get through, whatever was sent and given up before and however large it was,
      exactly if the chunk limit is above the buffer. */
  lemma RecoversIff(limit: nat)
    requires limit > 0
    ensures AlwaysRecovers(limit) <==> limit > TUNNEL_BUFFER
  {
    hide Deliverable;
    if limit > TUNNEL_BUFFER {
      forall steps, s | Reaches(limit, steps, s) && Busy(s) && |s.sender.m| <= TUNNEL_BUFFER
        ensures Deliverable(s)
      {
        InitInv(limit);
        WholeInvariant(Init(limit), steps);
        CompletesIff(limit, steps, s);
        hide Exec, CreditInv, SignalInv, Replay, AllFit;
      }
    } else if TUNNEL_BUFFER % limit == 0 {
      var steps, s := OversizeSticks(limit);
    } else {
      var steps, s := MisalignedSticks(limit);
    }
  }
}
