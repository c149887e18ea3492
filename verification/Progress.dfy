/** When a message gets through a tunnel, and when the tunnel is stuck for good. */
module Progress {
  import opened Basics
  import opened Flow
  import opened Link

  /** What will be under assembly at the receiver once everything in flight has arrived. */
  function Final(s: State): Assembly
    requires AllFit(s.assembly, s.data)
  {
    Replay(s.assembly, s.data).assembly
  }

  /** The message fits the buffer, and so does its next chunk beside what the receiver holds back. */
  ghost predicate Completable(s: State)
    requires Inv(s) && Busy(s)
  {
    |s.sender.m| <= TUNNEL_BUFFER && Held(Final(s)) + Need(s) <= TUNNEL_BUFFER
  }

  predicate NoAbandon(steps: seq<Step>) {
    forall step :: step in steps ==> !step.Abandon?
  }

  // ----- everything in flight can settle

  predicate Settled(s: State) {
    s.data == [] && s.inbox.queue == [] && s.grants == [] && s.reader.Free?
  }

  function Work(s: State): nat {
    4 * |s.data| + 2 * |s.inbox.queue| + |s.grants| + match s.reader { case Free => 0 case Woken => 1 case Blocked => 2 }
  }

  /** As long as something is in flight or queued, it can be moved on without the sender doing anything. */
  lemma SettleStep(s: State) returns (step: Step)
    requires Inv(s) && !Settled(s)
    ensures Enabled(s, step) && !step.Abandon?
    ensures var s' := Next(s, step);
            && Inv(s') && Work(s') < Work(s)
            && s'.sender == s.sender && s'.sent == s.sent && s'.limit == s.limit
            && Final(s') == Final(s)
  {
    step := match s.reader
      case Blocked => if s.inbox.signal then Notice else GiveUp
      case Woken => Take
      case Free => if s.data != [] then Deliver else if s.inbox.queue != [] then Recv else Grant(0);
    InvPreserved(s, step);
    if step.Deliver? {
      DeliverStream(s);
    }
    hide StreamInv, CreditInv, Replay, Agrees;
  }

  lemma {:induction false} Settle(s: State) returns (steps: seq<Step>, s': State)
    requires Inv(s)
    ensures NoAbandon(steps) && Exec(s, steps) == Some(s') && Inv(s') && Settled(s')
    ensures s'.sender == s.sender && s'.sent == s.sent && s'.limit == s.limit
    ensures Final(s') == Final(s)
    decreases Work(s)
  {
    if Settled(s) {
      steps, s' := [], s;
    } else {
      var step := SettleStep(s);
      var rest;
      rest, s' := Settle(Next(s, step));
      steps := [step] + rest;
      hide Inv, Next, Enabled, Final, Settled, Work;
      assert steps[1..] == rest;
    }
  }

  /** Once all has settled, the sender has every byte of the buffer except those the receiver is assembling. */
  lemma SettledSpace(s: State)
    requires Inv(s) && Settled(s) && !s.sender.Paid?
    ensures s.allowance.space == TUNNEL_BUFFER - Held(Final(s))
  {
  }

  /** What the receiver holds back and what the sender has in hand are paid for out of the same buffer. */
  lemma HeldBound(s: State)
    requires Inv(s)
    ensures s.allowance.space + InHand(s) + Held(Final(s)) <= TUNNEL_BUFFER
  {
    ReplayConserves(s.assembly, s.data);
  }

  /** A settled tunnel has a sender waiting in vain only if its chunk does not fit beside the bytes held back. */
  lemma StuckMeansFull(s: State)
    requires Inv(s) && Settled(s) && s.sender.Waiting? && !s.allowance.signal
    ensures Held(Final(s)) + Need(s) > TUNNEL_BUFFER
  {
    SettledSpace(s);
  }

  // ----- a message that can be completed

  lemma AfterTransmit(s: State)
    requires Inv(s) && s.sender.Paid? && Completable(s)
    ensures var s' := Next(s, Transmit);
            && Inv(s') && s'.limit == s.limit
            && (if s'.sender.Idle? then s'.sent == s.sent + [s.sender.m]
                else s'.sent == s.sent && s'.sender == Trying(s.sender.m, End(s.sender.m, s.limit, s.sender.pos))
                     && Completable(s'))
  {
    InvPreserved(s, Transmit);
  }

  /** With everything settled a completable chunk is paid for. */
  lemma Pay(s: State) returns (steps: seq<Step>, s': State)
    requires Inv(s) && Settled(s) && (s.sender.Trying? || s.sender.Waiting?) && Completable(s)
    ensures NoAbandon(steps) && Exec(s, steps) == Some(s')
    ensures Inv(s') && s'.sender == Paid(s.sender.m, s.sender.pos) && s'.sent == s.sent && s'.limit == s.limit
    ensures Final(s') == Final(s)
  {
    SettledSpace(s);
    var trying := s;
    steps := [];
    if s.sender.Waiting? {
      assert Enabled(s, Wake);
      trying := Next(s, Wake);
      steps := [Wake];
      InvPreserved(s, Wake);
    }
    s' := Next(trying, TryDrain);
    InvPreserved(trying, TryDrain);
    hide Inv, Final;
    assert Exec(s', []) == Some(s');
    assert Exec(trying, [TryDrain]) == Some(s');
    steps := steps + [TryDrain];
    if s.sender.Waiting? {
      assert steps[1..] == [TryDrain];
    } else {
      assert steps == [TryDrain];
    }
  }

  /** A completable message can be brought to its end from wherever the sender stands; the bytes left are the measure. */
  lemma {:induction false} Complete(s: State) returns (steps: seq<Step>)
    requires Inv(s) && Busy(s) && Completable(s)
    ensures NoAbandon(steps) && Exec(s, steps).Some?
    ensures Exec(s, steps).value.sent == s.sent + [s.sender.m]
    decreases |s.sender.m| - s.sender.pos, if s.sender.Paid? then 0 else 1
  {
    if s.sender.Paid? {
      AfterTransmit(s);
      var s' := Next(s, Transmit);
      hide Inv, Completable, Next;
      if s'.sender.Idle? {
        steps := [Transmit];
        assert Exec(s', []) == Some(s');
      } else {
        var rest := Complete(s');
        steps := [Transmit] + rest;
        assert steps[1..] == rest;
      }
    } else {
      var settling, s1 := Settle(s);
      var paying, s2 := Pay(s1);
      hide Inv, Exec;
      var rest := Complete(s2);
      ExecConcat(s, settling, paying + rest);
      ExecConcat(s1, paying, rest);
      steps := settling + (paying + rest);
    }
  }

  // ----- a message that cannot

  lemma HopelessStep(s: State, step: Step)
    requires Inv(s) && Busy(s) && !Completable(s) && Enabled(s, step) && !step.Abandon?
    ensures var s' := Next(s, step);
            Inv(s') && Busy(s') && s'.sender.m == s.sender.m && s'.sent == s.sent && !Completable(s')
  {
    InvPreserved(s, step);
    HeldBound(s);
    if step.Deliver? {
      DeliverStream(s);
    }
    hide CreditInv, SignalInv, Replay, Transfer;
  }

  lemma {:induction false} Hopeless(s: State, steps: seq<Step>)
    requires Inv(s) && Busy(s) && !Completable(s)
    requires NoAbandon(steps) && Exec(s, steps).Some?
    ensures Exec(s, steps).value.sent == s.sent
    decreases |steps|
  {
    if steps != [] {
      HopelessStep(s, steps[0]);
      hide Inv, Completable, Next, Enabled, Busy;
      Hopeless(Next(s, steps[0]), steps[1..]);
    }
  }

  /** Some continuation in which the message is not given up ends with the receiving application having it. */
  ghost predicate Deliverable(s: State) {
    Busy(s) && exists steps :: NoAbandon(steps) && Exec(s, steps).Some?
                            && s.sent + [s.sender.m] <= Exec(s, steps).value.received
  }

  /** Once the last chunk has been handed over, settling brings the message to the application. */
  lemma Arrives(s: State)
    requires Inv(s) && Busy(s) && Completable(s)
    ensures Deliverable(s)
  {
    var sending := Complete(s);
    hide Inv, Completable, Exec, Settled;
    Invariant(s, sending);
    var settling, s' := Settle(Exec(s, sending).value);
    ExecConcat(s, sending, settling);
    SettledReceived(s');
    assert NoAbandon(sending + settling);
  }

  lemma SettledReceived(s: State)
    requires Inv(s) && Settled(s)
    ensures s.received == s.sent
  {
  }

  lemma ReceivedWereSent(s: State)
    requires Inv(s)
    ensures s.received <= s.sent
  {
    hide AllFit, Replay;
  }

  /** The sender's message can reach the application without being given up exactly when it is completable. */
  lemma CompletesIff(limit: nat, history: seq<Step>, s: State)
    requires Reaches(limit, history, s) && Busy(s)
    ensures Inv(s)
    ensures Completable(s) <==> Deliverable(s)
  {
    ReachableInv(limit, history, s);
    if Completable(s) {
      Arrives(s);
    } else {
      forall steps | NoAbandon(steps) && Exec(s, steps).Some?
        ensures !(s.sent + [s.sender.m] <= Exec(s, steps).value.received)
      {
        Hopeless(s, steps);
        Invariant(s, steps);
        ReceivedWereSent(Exec(s, steps).value);
      }
    }
  }

  // ----- as long as no send is given up

  /** Nothing of an earlier message is held back. */
  ghost predicate Clean(s: State) {
    Inv(s) && (s.sender.Idle? || s.sender.pos == 0 ==> Final(s) == Nothing)
  }

  lemma CleanPreserved(s: State, step: Step)
    requires Clean(s) && Enabled(s, step) && !step.Abandon?
    ensures Clean(Next(s, step))
  {
    hide CreditInv, SignalInv, Replay, AllFit, Transfer, Fits;
    InvPreserved(s, step);
    if step.Deliver? {
      DeliverStream(s);
    } else if step.Transmit? {
      TransmitStream(s);
      NextChunk(Final(s), s);
    } else {
      assert Next(s, step).assembly == s.assembly && Next(s, step).data == s.data;
    }
  }

  lemma {:induction false} CleanInvariant(s: State, steps: seq<Step>)
    requires Clean(s) && NoAbandon(steps) && Exec(s, steps).Some?
    ensures Clean(Exec(s, steps).value)
    decreases |steps|
  {
    if steps != [] {
      CleanPreserved(s, steps[0]);
      hide Clean, Next, Enabled;
      CleanInvariant(Next(s, steps[0]), steps[1..]);
    }
  }

  /** As long as no send has been given up, a message reaches the application exactly if it fits the buffer,
      whatever the chunk limit. */
  lemma DeliveredUnlessAbandoned(limit: nat, history: seq<Step>, s: State)
    requires Reaches(limit, history, s) && NoAbandon(history) && Busy(s)
    ensures Deliverable(s) <==> |s.sender.m| <= TUNNEL_BUFFER
  {
    CompletesIff(limit, history, s);
    InitInv(limit);
    CleanInvariant(Init(limit), history);
    hide Exec, Deliverable, CreditInv, SignalInv, Replay, AllFit;
  }
}
