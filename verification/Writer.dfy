/** The batched writer `sendPacket` of proto.go under any number of concurrent calls, as a state machine over
    its atomic steps. The buffer may spill to the wire at any moment; writes do not fail. */
module Writer {
  import opened Basics
  import opened Packets

  /** How far a call of `sendPacket` has come. Between `Acquire` and `Release` it holds the socket lock. */
  datatype Phase =
    | Waiting                 // counted in `sockWait`, queueing for the lock
    | Writing(written: nat)   // this many bytes of the packet are in the buffer
    | Flushing                // counted out, and the counter was zero
    | Leaving                 // nothing left to do but to release the lock
    | Done

  datatype Call = Call(packet: Outbound, phase: Phase)

  /** A completed packet, with the call that wrote it. */
  datatype Entry = Entry(call: nat, packet: Outbound)

  datatype State = State(
    calls: map<nat, Call>,
    sockWait: int,
    lock: Option<nat>,
    buffer: Bytes,
    wire: Bytes,
    log: seq<Entry>)

  const INIT := State(map[], 0, None, [], [], [])

  datatype Step =
    | Enter(call: nat, packet: Outbound)
    | Acquire(call: nat)
    | Write(call: nat, n: nat)
    | Finish(call: nat)
    | Flush(call: nat)
    | Release(call: nat)
    | Spill(n: nat)

  predicate At(s: State, c: nat, phase: Phase) {
    c in s.calls && s.calls[c].phase == phase
  }

  predicate Enabled(s: State, step: Step) {
    match step
    case Enter(c, _) => c !in s.calls && s.sockWait < TWO_TO_31 - 1
    case Acquire(c) => At(s, c, Waiting) && s.lock == None
    case Write(c, n) =>
      && c in s.calls && s.calls[c].phase.Writing?
      && s.calls[c].phase.written + n <= |Encode(s.calls[c].packet)|
    case Finish(c) => c in s.calls && At(s, c, Writing(|Encode(s.calls[c].packet)|))
    case Flush(c) => At(s, c, Flushing)
    case Release(c) => At(s, c, Leaving)
    case Spill(n) => n <= |s.buffer|
  }

  function SetPhase(s: State, c: nat, phase: Phase): State
    requires c in s.calls
  {
    s.(calls := s.calls[c := s.calls[c].(phase := phase)])
  }

  function Next(s: State, step: Step): State
    requires Enabled(s, step)
  {
    match step
    case Enter(c, packet) => s.(calls := s.calls[c := Call(packet, Waiting)], sockWait := s.sockWait + 1)
    case Acquire(c) => SetPhase(s, c, Writing(0)).(lock := Some(c))
    case Write(c, n) =>
      var written := s.calls[c].phase.written;
      var chunk := Encode(s.calls[c].packet)[written..written + n];
      SetPhase(s, c, Writing(written + n)).(buffer := s.buffer + chunk)
    case Finish(c) =>
      SetPhase(s, c, if s.sockWait - 1 == 0 then Flushing else Leaving).(
        sockWait := s.sockWait - 1, log := s.log + [Entry(c, s.calls[c].packet)])
    case Flush(c) => SetPhase(s, c, Leaving).(wire := s.wire + s.buffer, buffer := [])
    case Release(c) => SetPhase(s, c, Done).(lock := None)
    case Spill(n) => s.(wire := s.wire + s.buffer[..n], buffer := s.buffer[n..])
  }

  /** The state after a run, if every step is enabled when its turn comes. */
  function Run(steps: seq<Step>): Option<State> {
    if steps == [] then Some(INIT)
    else
      var k := |steps| - 1;
      match Run(steps[..k])
      case None => None
      case Some(s) => if Enabled(s, steps[k]) then Some(Next(s, steps[k])) else None
  }

  // ----- the invariant

  function Pending(s: State): set<nat> {
    set c | c in s.calls && (s.calls[c].phase.Waiting? || s.calls[c].phase.Writing?)
  }

  predicate Finished(phase: Phase) {
    phase.Flushing? || phase.Leaving? || phase.Done?
  }

  function PacketsOf(log: seq<Entry>): seq<Outbound> {
    seq(|log|, i requires 0 <= i < |log| => log[i].packet)
  }

  /** What the lock holder has written of its packet. */
  function Partial(s: State): Bytes {
    match s.lock
    case None => []
    case Some(c) =>
      if c in s.calls && s.calls[c].phase.Writing? && s.calls[c].phase.written <= |Encode(s.calls[c].packet)|
      then Encode(s.calls[c].packet)[..s.calls[c].phase.written]
      else []
  }

  ghost predicate LockInv(s: State) {
    && (s.lock.Some? ==> s.lock.value in s.calls)
    && (forall c :: c in s.calls ==>
          (s.lock == Some(c) <==> s.calls[c].phase.Writing? || s.calls[c].phase.Flushing? || s.calls[c].phase.Leaving?))
    && (forall c :: c in s.calls && s.calls[c].phase.Writing? ==>
          s.calls[c].phase.written <= |Encode(s.calls[c].packet)|)
  }

  /** Whole packets in lock order, then what the lock holder has written of its own. */
  ghost predicate StreamInv(s: State) {
    s.wire + s.buffer == EncodeAll(PacketsOf(s.log)) + Partial(s)
  }

  /** Every finished call has exactly one entry in the log, and there are no others. */
  ghost predicate LogInv(s: State) {
    && (forall i :: 0 <= i < |s.log| ==>
          && s.log[i].call in s.calls
          && Finished(s.calls[s.log[i].call].phase)
          && s.log[i].packet == s.calls[s.log[i].call].packet)
    && (forall c :: c in s.calls && Finished(s.calls[c].phase) ==> Entry(c, s.calls[c].packet) in s.log)
    && (forall i, j :: 0 <= i < j < |s.log| ==> s.log[i].call != s.log[j].call)
  }

  /** Nobody is writing or about to flush. */
  predicate Unattended(s: State) {
    match s.lock
    case None => true
    case Some(c) => At(s, c, Leaving)
  }

  ghost predicate CountInv(s: State) {
    && s.sockWait == |Pending(s)|
    && (Unattended(s) && s.buffer != [] ==> s.sockWait > 0)
  }

  ghost predicate Inv(s: State) {
    LockInv(s) && StreamInv(s) && LogInv(s) && CountInv(s)
  }

  lemma PendingAfter(s: State, c: nat, phase: Phase)
    requires c in s.calls
    ensures Pending(SetPhase(s, c, phase))
         == if phase.Waiting? || phase.Writing? then Pending(s) + {c} else Pending(s) - {c}
  {
  }

  /** A call changing phase is counted as pending, before and after, by its phase alone. */
  lemma PhaseCounts(s: State, c: nat, phase: Phase, before: bool)
    requires c in s.calls && before == (s.calls[c].phase.Waiting? || s.calls[c].phase.Writing?)
    ensures var after := phase.Waiting? || phase.Writing?;
            |Pending(SetPhase(s, c, phase))| == |Pending(s)| + (if after then 1 else 0) - (if before then 1 else 0)
    ensures SetPhase(s, c, phase).(calls := s.calls) == s && At(SetPhase(s, c, phase), c, phase)
    ensures before ==> |Pending(s)| > 0
  {
    PendingAfter(s, c, phase);
    assert before <==> c in Pending(s);
    if before {
      assert Pending(s) == Pending(s) - {c} + {c};
    }
  }

  lemma CountPreserved(s: State, step: Step)
    requires Inv(s) && Enabled(s, step)
    ensures CountInv(Next(s, step))
  {
    hide Encode, EncodeAll, StreamInv, LogInv, SetPhase;
    match step
    case Enter(c, _) => assert Pending(Next(s, step)) == Pending(s) + {c};
    case Acquire(c) => PhaseCounts(s, c, Writing(0), true);
    case Write(c, n) => PhaseCounts(s, c, Writing(s.calls[c].phase.written + n), true);
    case Finish(c) => PhaseCounts(s, c, if s.sockWait - 1 == 0 then Flushing else Leaving, true);
    case Flush(c) => PhaseCounts(s, c, Leaving, false);
    case Release(c) => PhaseCounts(s, c, Done, false);
    case Spill(_) => assert Pending(Next(s, step)) == Pending(s);
  }

  lemma StreamPreserved(s: State, step: Step)
    requires Inv(s) && Enabled(s, step)
    ensures StreamInv(Next(s, step))
  {
    hide Encode, EncodeAll, LogInv, CountInv;
    match step
    case Write(c, n) =>
      var bytes, k := Encode(s.calls[c].packet), s.calls[c].phase.written;
      assert bytes[..k + n] == bytes[..k] + bytes[k..k + n];
      Assoc3(s.wire, s.buffer, bytes[k..k + n]);
      Assoc3(EncodeAll(PacketsOf(s.log)), bytes[..k], bytes[k..k + n]);
    case Finish(c) =>
      var packet := s.calls[c].packet;
      EncodeAllSnoc(PacketsOf(s.log), packet);
      assert PacketsOf(s.log + [Entry(c, packet)]) == PacketsOf(s.log) + [packet];
      assert Encode(packet)[..|Encode(packet)|] == Encode(packet);
    case _ =>
  }

  lemma LogPreserved(s: State, step: Step)
    requires Inv(s) && Enabled(s, step)
    ensures LogInv(Next(s, step))
  {
    hide Encode, EncodeAll, StreamInv, CountInv;
    if step.Finish? {
      assert (s.log + [Entry(step.call, s.calls[step.call].packet)])[|s.log|].call == step.call;
    }
  }

  lemma LockPreserved(s: State, step: Step)
    requires Inv(s) && Enabled(s, step)
    ensures LockInv(Next(s, step))
  {
    hide Encode, EncodeAll, StreamInv, LogInv, CountInv;
  }

  lemma {:induction false} Invariant(steps: seq<Step>)
    requires Run(steps).Some?
    ensures Inv(Run(steps).value)
  {
    if steps != [] {
      var k := |steps| - 1;
      Invariant(steps[..k]);
      var s := Run(steps[..k]).value;
      CountPreserved(s, steps[k]);
      StreamPreserved(s, steps[k]);
      LogPreserved(s, steps[k]);
      LockPreserved(s, steps[k]);
    }
  }

  // ----- what the invariant means

  predicate Quiescent(s: State) {
    forall c :: c in s.calls ==> s.calls[c].phase == Done
  }

  /** Once all callers have returned, everything they wrote is on the wire: whole packets, in lock order, each once. */
  lemma AllFlushed(steps: seq<Step>)
    requires Run(steps).Some? && Quiescent(Run(steps).value)
    ensures var s := Run(steps).value;
            && s.buffer == []
            && s.wire == EncodeAll(PacketsOf(s.log))
            && ReadAll(s.wire) == PacketsOf(s.log)
            && (forall c :: c in s.calls <==> exists i :: 0 <= i < |s.log| && s.log[i].call == c)
            && (forall i, j :: 0 <= i < j < |s.log| ==> s.log[i].call != s.log[j].call)
  {
    hide Run, Encode, EncodeAll;
    Invariant(steps);
    var s := Run(steps).value;
    assert Pending(s) == {};
    assert Unattended(s);
    assert s.wire + [] == s.wire && EncodeAll(PacketsOf(s.log)) + [] == EncodeAll(PacketsOf(s.log));
    ReadAllRoundTrip(PacketsOf(s.log));
    forall c | c in s.calls
      ensures exists i :: 0 <= i < |s.log| && s.log[i].call == c
    {
      var i :| 0 <= i < |s.log| && s.log[i] == Entry(c, s.calls[c].packet);
    }
  }

  /** The writer never gets stuck: while some call has not returned, one of the calls can take a step. */
  lemma NoDeadlock(steps: seq<Step>) returns (step: Step)
    requires Run(steps).Some? && !Quiescent(Run(steps).value)
    ensures Enabled(Run(steps).value, step) && !step.Enter? && !step.Spill?
    ensures step.Write? ==> step.n > 0
  {
    hide Run, Encode, EncodeAll;
    Invariant(steps);
    var s := Run(steps).value;
    match s.lock {
      case None =>
        var c :| c in s.calls && s.calls[c].phase != Done;
        step := Acquire(c);
      case Some(c) =>
        match s.calls[c].phase {
          case Writing(k) =>
            var size := |Encode(s.calls[c].packet)|;
            step := if k < size then Write(c, size - k) else Finish(c);
          case Flushing => step := Flush(c);
          case Leaving => step := Release(c);
        }
    }
  }

  /** What has been logged stays where it is. */
  lemma {:induction false} LogGrows(before: seq<Step>, after: seq<Step>)
    requires Run(before + after).Some?
    ensures Run(before).Some? && Run(before).value.log <= Run(before + after).value.log
  {
    if after == [] {
      assert before + after == before;
    } else {
      var k := |after| - 1;
      assert (before + after)[..|before| + k] == before + after[..k];
      LogGrows(before, after[..k]);
      hide Encode;
    }
  }

  /** Lock order respects program order: a call that was finished before another one began comes first on the wire,
      whatever happens afterwards. */
  lemma ProgramOrder(before: seq<Step>, after: seq<Step>, a: nat, b: nat)
    requires Run(before).Some? && Run(before + after).Some?
    requires var s := Run(before).value; a in s.calls && Finished(s.calls[a].phase) && b !in s.calls
    ensures var log := Run(before + after).value.log;
            && (exists i :: 0 <= i < |log| && log[i].call == a)
            && (forall i, j :: 0 <= i < |log| && 0 <= j < |log| && log[i].call == a && log[j].call == b ==> i < j)
  {
    hide Run, StreamInv, CountInv;
    Invariant(before);
    Invariant(before + after);
    LogGrows(before, after);
    var early, log := Run(before).value.log, Run(before + after).value.log;
    var first :| 0 <= first < |early| && early[first].call == a;
    assert log[first] == early[first];
    forall j | 0 <= j < |early|
      ensures log[j].call != b
    {
      assert log[j] == early[j];
    }
  }

  lemma RunSnoc(steps: seq<Step>, step: Step)
    requires Run(steps).Some? && Enabled(Run(steps).value, step)
    ensures Run(steps + [step]) == Some(Next(Run(steps).value, step))
  {
    assert (steps + [step])[..|steps|] == steps;
    hide Next, Enabled;
  }

  function Unreturned(s: State): set<nat> {
    set c | c in s.calls && s.calls[c].phase != Done
  }

  /** How many more steps the lock holder may take before it releases the lock. */
  function Distance(s: State): nat {
    if s.lock == None || s.lock.value !in s.calls then 5
    else
      var call := s.calls[s.lock.value];
      match call.phase
      case Writing(k) => if k < |Encode(call.packet)| then 4 else 3
      case Flushing => 2
      case _ => 1
  }

  function Remaining(s: State): nat {
    6 * |Unreturned(s)| + Distance(s)
  }

  predicate OwnStep(step: Step) {
    !step.Enter? && !step.Spill?
  }

  /** Some call can take a step that brings the end of all calls closer. */
  lemma Advance(s: State) returns (step: Step)
    requires Inv(s) && !Quiescent(s)
    ensures Enabled(s, step) && OwnStep(step)
    ensures var s' := Next(s, step);
            s'.calls.Keys == s.calls.Keys && Remaining(s') < Remaining(s)
  {
    hide Encode, EncodeAll, StreamInv, LogInv, CountInv;
    match s.lock {
      case None =>
        var c :| c in s.calls && s.calls[c].phase != Done;
        step := Acquire(c);
      case Some(c) =>
        match s.calls[c].phase {
          case Writing(k) =>
            var size := |Encode(s.calls[c].packet)|;
            step := if k < size then Write(c, size - k) else Finish(c);
          case Flushing => step := Flush(c);
          case Leaving =>
            step := Release(c);
            assert Unreturned(Next(s, step)) == Unreturned(s) - {c} && c in Unreturned(s);
        }
    }
    if !step.Release? {
      assert Unreturned(Next(s, step)) == Unreturned(s);
    }
  }

  /** After these further steps, none of them a new call, all calls have returned. */
  ghost predicate Returned(steps: seq<Step>, more: seq<Step>) {
    && (forall step :: step in more ==> OwnStep(step))
    && Run(steps).Some? && Run(steps + more).Some?
    && Quiescent(Run(steps + more).value)
    && Run(steps + more).value.calls.Keys == Run(steps).value.calls.Keys
  }

  lemma ReturnedNone(steps: seq<Step>)
    requires Run(steps).Some? && Quiescent(Run(steps).value)
    ensures Returned(steps, [])
  {
    hide Run, Quiescent;
    assert steps + [] == steps;
  }

  lemma ReturnedCons(steps: seq<Step>, step: Step, rest: seq<Step>)
    requires Returned(steps + [step], rest) && OwnStep(step)
    requires Run(steps).Some? && Run(steps + [step]).value.calls.Keys == Run(steps).value.calls.Keys
    ensures Returned(steps, [step] + rest)
  {
    hide Run, Quiescent, OwnStep;
    assert steps + ([step] + rest) == steps + [step] + rest;
  }

  /** From every reachable state, without further calls, all calls can return; `AllFlushed` says what the wire holds then. */
  lemma {:induction false} AllReturn(steps: seq<Step>) returns (more: seq<Step>)
    requires Run(steps).Some?
    ensures Returned(steps, more)
    decreases Remaining(Run(steps).value)
  {
    hide *;
    var s := Run(steps).value;
    if Quiescent(s) {
      more := [];
      ReturnedNone(steps);
    } else {
      Invariant(steps);
      var step := Advance(s);
      RunSnoc(steps, step);
      var rest := AllReturn(steps + [step]);
      more := [step] + rest;
      ReturnedCons(steps, step, rest);
    }
  }

  /** One call running on its own, from `Enter` to `Release`. */
  function Alone(s: State, c: nat, p: Outbound): State
    requires Enabled(s, Enter(c, p)) && s.lock == None
  {
    var writing := Next(Next(s, Enter(c, p)), Acquire(c));
    var finished := Next(Next(writing, Write(c, |Encode(p)|)), Finish(c));
    Next(if At(finished, c, Flushing) then Next(finished, Flush(c)) else finished, Release(c))
  }

  /** On its own a call does to the buffer, the wire and the counter exactly what `Socket.Connection.SendPacket`
      promises. */
  lemma AloneSends(s: State, c: nat, p: Outbound)
    requires Enabled(s, Enter(c, p)) && s.lock == None
    ensures var after := Alone(s, c, p);
            && after.sockWait == s.sockWait
            && after.wire + after.buffer == s.wire + s.buffer + Encode(p)
            && (if s.sockWait == 0 then after.buffer == [] else after.wire == s.wire)
            && after.lock == None && after.log == s.log + [Entry(c, p)]
            && after.calls == s.calls[c := Call(p, Done)]
  {
    hide Encode;
    assert Encode(p)[0..|Encode(p)|] == Encode(p);
  }

  lemma AloneEnabled(s: State, c: nat, p: Outbound)
    requires Enabled(s, Enter(c, p)) && s.lock == None
    ensures Enabled(Next(s, Enter(c, p)), Acquire(c))
    ensures var s2 := Next(Next(s, Enter(c, p)), Acquire(c));
            && Enabled(s2, Write(c, |Encode(p)|)) && Enabled(Next(s2, Write(c, |Encode(p)|)), Finish(c))
            && var s4 := Next(Next(s2, Write(c, |Encode(p)|)), Finish(c));
               && (At(s4, c, Flushing) || At(s4, c, Leaving))
               && (At(s4, c, Flushing) ==> Enabled(s4, Flush(c)) && Enabled(Next(s4, Flush(c)), Release(c)))
  {
    hide Encode;
  }

  lemma AloneRuns(steps: seq<Step>, c: nat, p: Outbound) returns (more: seq<Step>)
    requires Run(steps).Some? && Run(steps).value.lock == None && Enabled(Run(steps).value, Enter(c, p))
    ensures Run(steps + more) == Some(Alone(Run(steps).value, c, p))
  {
    hide Run, Encode, Next;
    var s, write := Run(steps).value, Write(c, |Encode(p)|);
    AloneEnabled(s, c, p);
    var s4 := Next(Next(Next(Next(s, Enter(c, p)), Acquire(c)), write), Finish(c));
    RunFour(steps, Enter(c, p), Acquire(c), write, Finish(c));
    more := [Enter(c, p), Acquire(c), write, Finish(c)];
    if At(s4, c, Flushing) {
      RunSnoc(steps + more, Flush(c));
      assert steps + more + [Flush(c)] == steps + (more + [Flush(c)]);
      more := more + [Flush(c)];
    }
    RunSnoc(steps + more, Release(c));
    assert steps + more + [Release(c)] == steps + (more + [Release(c)]);
    more := more + [Release(c)];
  }

  lemma RunFour(steps: seq<Step>, x: Step, y: Step, z: Step, w: Step)
    requires Run(steps).Some? && Enabled(Run(steps).value, x)
    requires var s1 := Next(Run(steps).value, x); Enabled(s1, y) && Enabled(Next(s1, y), z) && Enabled(Next(Next(s1, y), z), w)
    ensures Run(steps + [x, y, z, w]) == Some(Next(Next(Next(Next(Run(steps).value, x), y), z), w))
  {
    hide Run, Next, Enabled;
    RunSnoc(steps, x);
    RunSnoc(steps + [x], y);
    RunSnoc(steps + [x] + [y], z);
    RunSnoc(steps + [x] + [y] + [z], w);
    assert steps + [x] + [y] + [z] + [w] == steps + [x, y, z, w];
  }

  /** Calls 0, 1, ... have sent these packets and returned. */
  ghost predicate Sent(s: State, ps: seq<Outbound>) {
    && Quiescent(s) && s.lock == None && s.sockWait == 0
    && PacketsOf(s.log) == ps
    && (forall c :: c in s.calls <==> 0 <= c < |ps|)
  }

  lemma SentSnoc(s: State, ps: seq<Outbound>, p: Outbound)
    requires Sent(s, ps)
    ensures Enabled(s, Enter(|ps|, p)) && Sent(Alone(s, |ps|, p), ps + [p])
  {
    hide Encode, Alone;
    AloneSends(s, |ps|, p);
    assert PacketsOf(s.log + [Entry(|ps|, p)]) == PacketsOf(s.log) + [p];
  }

  /** Any list of packets can be sent, one call after the other: all of them are on the wire when the last call returns. */
  lemma {:induction false} SentInTurn(ps: seq<Outbound>) returns (steps: seq<Step>)
    ensures Run(steps).Some? && Sent(Run(steps).value, ps) && Run(steps).value.wire == EncodeAll(ps)
  {
    if ps == [] {
      steps := [];
    } else {
      hide *;
      var k := |ps| - 1;
      var before := SentInTurn(ps[..k]);
      var s := Run(before).value;
      SentSnoc(s, ps[..k], ps[k]);
      assert ps[..k] + [ps[k]] == ps;
      SentLock(s, ps[..k]);
      var more := AloneRuns(before, k, ps[k]);
      steps := before + more;
      SentWire(steps, ps);
    }
  }

  lemma SentLock(s: State, ps: seq<Outbound>)
    requires Sent(s, ps)
    ensures s.lock == None
  {
  }

  lemma SentWire(steps: seq<Step>, ps: seq<Outbound>)
    requires Run(steps).Some? && Sent(Run(steps).value, ps)
    ensures Run(steps).value.wire == EncodeAll(ps)
  {
    AllFlushed(steps);
  }

  /** The peer may see any part of a packet that is being written. */
  lemma PartsAreSeen(p: Outbound, n: nat) returns (steps: seq<Step>)
    requires n <= |Encode(p)|
    ensures Run(steps).Some? && Run(steps).value.wire == Encode(p)[..n]
  {
    hide Encode;
    assert Run([]) == Some(INIT);
    RunSnoc([], Enter(0, p));
    RunSnoc([] + [Enter(0, p)], Acquire(0));
    var written := [] + [Enter(0, p)] + [Acquire(0)];
    RunSnoc(written, Write(0, n));
    assert Encode(p)[0..n] == Encode(p)[..n];
    RunSnoc(written + [Write(0, n)], Spill(n));
    steps := written + [Write(0, n)] + [Spill(n)];
  }
}
