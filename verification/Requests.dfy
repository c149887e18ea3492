/** The table of pending requests (connection.go, events.go): every `Request` call registers a reply and an error
    channel of one slot each under a new id, and the receiver loop delivers results by id. */
module Requests {
  import opened Basics
  import opened Wire
  import R = Receiver
  import P = Packets

  /** What a `Request` call returns. */
  datatype Result = Reply(reply: Blob) | RemoteError(fault: Blob) | ErrTimeout | ErrClosed | SendFailed

  /** The two channels of a request; each holds at most one value. */
  datatype Table = Table(reqIdx: nat, reqReps: map<nat, Option<Blob>>, reqErrs: map<nat, Option<Result>>)

  const EMPTY := Table(0, map[], map[])

  function Register(t: Table): Table {
    Table(t.reqIdx + 1, t.reqReps[t.reqIdx := None], t.reqErrs[t.reqIdx := None])
  }

  /** The result a call of `handleReply` carries. */
  function Carried(reply: Option<Blob>, fault: Blob): Result {
    match reply
    case Some(data) => Reply(data)
    case None => if fault == [] then ErrTimeout else RemoteError(fault)
  }

  /** A result can be delivered exactly to a pending request whose channel for it is free. */
  predicate CanPost(t: Table, id: nat, r: Result) {
    if r.Reply? then id in t.reqReps && t.reqReps[id] == None else id in t.reqErrs && t.reqErrs[id] == None
  }

  function Post(t: Table, id: nat, r: Result): Table
    requires CanPost(t, id, r)
  {
    if r.Reply? then t.(reqReps := t.reqReps[id := Some(r.reply)]) else t.(reqErrs := t.reqErrs[id := Some(r)])
  }

  function Remove(t: Table, id: nat): Table {
    t.(reqReps := t.reqReps - {id}, reqErrs := t.reqErrs - {id})
  }

  /** The table object, updated in place under its lock. */
  class RequestTable {
    var reqIdx: nat
    var reqReps: map<nat, Option<Blob>>
    var reqErrs: map<nat, Option<Result>>

    constructor ()
      ensures View() == EMPTY
    {
      reqIdx, reqReps, reqErrs := 0, map[], map[];
    }

    function View(): Table
      reads this
    {
      Table(reqIdx, reqReps, reqErrs)
    }

    method Begin() returns (id: nat)
      modifies this
      ensures id == old(reqIdx) && View() == Register(old(View()))
    {
      id := reqIdx;
      reqIdx := reqIdx + 1;
      reqReps := reqReps[id := None];
      reqErrs := reqErrs[id := None];
    }

    /** The send to the request's channel blocks when there is no channel or its slot is taken. */
    method HandleReply(id: nat, reply: Option<Blob>, fault: Blob) returns (blocks: bool)
      modifies this`reqReps, this`reqErrs
      ensures blocks <==> !CanPost(old(View()), id, Carried(reply, fault))
      ensures View() == if blocks then old(View()) else Post(old(View()), id, Carried(reply, fault))
    {
      if reply == None {
        var err := if |fault| == 0 then ErrTimeout else RemoteError(fault);
        if id !in reqErrs || reqErrs[id] != None {
          return true;
        }
        reqErrs := reqErrs[id := Some(err)];
      } else {
        if id !in reqReps || reqReps[id] != None {
          return true;
        }
        reqReps := reqReps[id := reply];
      }
      return false;
    }

    method CleanUp(id: nat)
      modifies this`reqReps, this`reqErrs
      ensures View() == Remove(old(View()), id)
    {
      reqReps := reqReps - {id};
      reqErrs := reqErrs - {id};
    }
  }

  // ----- callers, relay and receiver loop, interleaved

  datatype Phase =
    | Sending(issued: bool)      // in `sendRequest`; `issued` once the packet is on its way
    | Selecting                  // waiting for a result or for termination
    | Returning(result: Result)  // about to clean up
    | Done(result: Result)

  /** A result the receiver loop cannot deliver yet. */
  datatype Delivery = Delivery(id: nat, result: Result)

  /** While a delivery is pending the receiver loop holds the table's lock for reading: no call can register
      or clean up, and no packet is read. */
  datatype State = State(
    table: Table,
    callers: map<nat, Phase>,
    answers: map<nat, Result>,   // for the proofs: what the relay has answered
    closed: set<nat>,            // requests whose channels are closed
    term: bool,                  // the receiver loop has ended
    pending: Option<Delivery>,   // what the receiver loop waits to deliver in `handleReply`
    panicked: bool)              // a send hit a closed channel

  const INIT := State(EMPTY, map[], map[], {}, false, None, false)

  datatype Step =
    | Begin
    | Issue(id: nat)
    | SendDone(id: nat)
    | SendFail(id: nat)
    | Answer(id: nat, reply: Option<Blob>, fault: Blob)
    | Resume
    | Terminate
    | Select(id: nat, result: Result)
    | CleanUp(id: nat)

  predicate In(s: State, id: nat, phase: Phase) {
    id in s.callers && s.callers[id] == phase
  }

  /** The results the `select` of a waiting call may choose from. */
  predicate Ready(s: State, id: nat, r: Result) {
    || (r == ErrClosed && s.term)
    || (r.Reply? && id in s.table.reqReps && s.table.reqReps[id] == Some(r.reply))
    || (id in s.table.reqErrs && s.table.reqErrs[id] == Some(r))
  }

  predicate Enabled(s: State, step: Step) {
    match step
    case Begin => s.pending == None
    case Issue(id) => In(s, id, Sending(false))
    case SendDone(id) => In(s, id, Sending(true))
    case SendFail(id) => In(s, id, Sending(false))
    case Answer(_, _, _) => !s.term && s.pending == None && !s.panicked
    case Resume => s.pending.Some? && CanPost(s.table, s.pending.value.id, s.pending.value.result)
    case Terminate => !s.term && s.pending == None && !s.panicked
    case Select(id, r) => In(s, id, Selecting) && Ready(s, id, r)
    case CleanUp(id) => id in s.callers && s.callers[id].Returning? && s.pending == None
  }

  /** Receiving empties the slot. */
  function Taken(t: Table, id: nat, r: Result): Table {
    if r == ErrClosed then t
    else if r.Reply? then t.(reqReps := t.reqReps[id := None])
    else t.(reqErrs := t.reqErrs[id := None])
  }

  /** The receiver loop delivers, or waits until it can. */
  function Delivered(s: State, id: nat, r: Result): State {
    if !CanPost(s.table, id, r) then s.(pending := Some(Delivery(id, r)))
    else if id in s.closed then s.(panicked := true)
    else s.(table := Post(s.table, id, r), pending := None)
  }

  function Next(s: State, step: Step): State
    requires Enabled(s, step)
  {
    match step
    case Begin => s.(table := Register(s.table), callers := s.callers[s.table.reqIdx := Sending(false)])
    case Issue(id) => s.(callers := s.callers[id := Sending(true)])
    case SendDone(id) => s.(callers := s.callers[id := Selecting])
    case SendFail(id) => s.(callers := s.callers[id := Returning(SendFailed)])
    case Answer(id, reply, fault) =>
      var r := Carried(reply, fault);
      Delivered(s.(answers := s.answers[id := r]), id, r)
    case Resume => Delivered(s, s.pending.value.id, s.pending.value.result)
    case Terminate => s.(term := true)
    case Select(id, r) => s.(table := Taken(s.table, id, r), callers := s.callers[id := Returning(r)])
    case CleanUp(id) =>
      s.(table := Remove(s.table, id), closed := s.closed + {id},
         callers := s.callers[id := Done(s.callers[id].result)])
  }

  predicate Answered(history: seq<Step>, id: nat) {
    exists i :: 0 <= i < |history| && history[i].Answer? && history[i].id == id
  }

  /** The relay answers requests it has received, each at most once. */
  predicate Faithful(history: seq<Step>, step: Step) {
    step.Answer? ==> Issue(step.id) in history && !Answered(history, step.id)
  }

  /** The state after a run with a faithful relay. */
  function Run(steps: seq<Step>): Option<State> {
    if steps == [] then Some(INIT)
    else
      var k := |steps| - 1;
      match Run(steps[..k])
      case None => None
      case Some(s) => if Enabled(s, steps[k]) && Faithful(steps[..k], steps[k]) then Some(Next(s, steps[k])) else None
  }

  /** The request has not been cleaned up. */
  predicate Live(s: State, id: nat) {
    id in s.callers && !s.callers[id].Done?
  }

  /** Both maps hold exactly the calls that have not cleaned up, under ids never used before. */
  ghost predicate DomainInv(s: State) {
    && (forall id :: id in s.table.reqReps <==> Live(s, id))
    && (forall id :: id in s.table.reqErrs <==> Live(s, id))
    && (forall id :: id in s.callers <==> 0 <= id < s.table.reqIdx)
    && (forall id :: id in s.closed <==> id in s.callers && s.callers[id].Done?)
  }

  /** The channels of a request hold this result, in the slot it belongs to, or nothing. */
  predicate Holds(t: Table, id: nat, r: Option<Result>) {
    && id in t.reqReps && id in t.reqErrs
    && t.reqReps[id] == (if r.Some? && r.value.Reply? then Some(r.value.reply) else None)
    && t.reqErrs[id] == (if r.Some? && !r.value.Reply? then r else None)
  }

  function AnswerTo(s: State, id: nat): Option<Result> {
    if id in s.answers then Some(s.answers[id]) else None
  }

  /** A result a call may return: the answer to its own request, or the reason there is none. */
  predicate Own(s: State, id: nat, r: Result) {
    || (r == ErrClosed && s.term)
    || (r == SendFailed && AnswerTo(s, id) == None)
    || AnswerTo(s, id) == Some(r)
  }

  /** One call, at any point of its life. */
  predicate CallInv(s: State, id: nat)
    requires id in s.callers
  {
    && (id in s.answers ==> !s.answers[id].ErrClosed? && !s.answers[id].SendFailed?)
    && match s.callers[id]
       case Sending(issued) => Holds(s.table, id, AnswerTo(s, id)) && (id in s.answers ==> issued)
       case Selecting => Holds(s.table, id, AnswerTo(s, id))
       case Returning(r) =>
         Own(s, id, r) && (r == SendFailed || AnswerTo(s, id) == Some(r) ==> Holds(s.table, id, None))
       case Done(r) => Own(s, id, r)
  }

  ghost predicate Inv(s: State) {
    && DomainInv(s)
    && (forall id :: id in s.callers ==> CallInv(s, id))
    && (forall id :: id in s.answers ==> id in s.callers)
    && s.pending == None && !s.panicked
  }

  /** The packet of the request has left. */
  predicate Issued(s: State, id: nat) {
    && id in s.callers
    && s.callers[id] != Sending(false)
    && s.callers[id] != Returning(SendFailed) && s.callers[id] != Done(SendFailed)
  }

  /** What a faithful relay does, in terms of the state. */
  predicate Expected(s: State, step: Step) {
    step.Answer? ==> Issued(s, step.id) && step.id !in s.answers
  }

  predicate SameSlots(t: Table, t': Table, id: nat) {
    && (id in t.reqReps <==> id in t'.reqReps) && (id in t.reqReps ==> t.reqReps[id] == t'.reqReps[id])
    && (id in t.reqErrs <==> id in t'.reqErrs) && (id in t.reqErrs ==> t.reqErrs[id] == t'.reqErrs[id])
  }

  lemma SameCall(s: State, s': State, id: nat)
    requires id in s.callers && id in s'.callers && s.callers[id] == s'.callers[id]
    requires AnswerTo(s, id) == AnswerTo(s', id) && SameSlots(s.table, s'.table, id) && (s.term ==> s'.term)
    requires CallInv(s, id)
    ensures CallInv(s', id)
  {
    assert id in s.answers <==> id in s'.answers;
  }

  /** The step is about one request. */
  predicate Concerns(step: Step) {
    !step.Begin? && !step.Terminate? && !step.Resume?
  }

  /** Nothing a step does to one request shows in another. */
  lemma OthersUntouched(s: State, step: Step, id: nat)
    requires Inv(s) && Enabled(s, step) && id in s.callers
    requires Concerns(step) ==> id != step.id
    requires Next(s, step).pending == None && !Next(s, step).panicked
    ensures CallInv(Next(s, step), id)
  {
    hide CallInv, Ready, Carried;
    SameCall(s, Next(s, step), id);
  }

  /** An answer from a faithful relay meets a free channel: the call it is for is still waiting. */
  lemma AnswerProceeds(s: State, step: Step)
    requires Inv(s) && step.Answer? && Enabled(s, step) && Expected(s, step)
    ensures CanPost(s.table, step.id, Carried(step.reply, step.fault)) && step.id !in s.closed
    ensures s.callers[step.id] == Sending(true) || s.callers[step.id] == Selecting
  {
    assert CallInv(s, step.id);
  }

  lemma CallPreserved(s: State, step: Step)
    requires Inv(s) && Enabled(s, step) && Expected(s, step)
    ensures step.Begin? ==> CallInv(Next(s, step), s.table.reqIdx)
    ensures Concerns(step) ==> step.id in s.callers && CallInv(Next(s, step), step.id)
    ensures Next(s, step).pending == None && !Next(s, step).panicked
  {
    if step.Answer? {
      AnswerProceeds(s, step);
    }
    if Concerns(step) {
      assert CallInv(s, step.id);
    } else {
      assert s.table.reqIdx !in s.callers;
    }
  }

  lemma AnswerDomain(s: State, step: Step)
    requires Inv(s) && step.Answer? && Enabled(s, step) && Expected(s, step)
    ensures DomainInv(Next(s, step))
  {
    AnswerProceeds(s, step);
    hide CallInv, Ready, Expected, Issued, Carried;
  }

  lemma DomainPreserved(s: State, step: Step)
    requires Inv(s) && Enabled(s, step) && Expected(s, step)
    ensures DomainInv(Next(s, step))
  {
    hide CallInv, Expected, Issued, Carried, Post, CanPost;
    if step.Answer? {
      AnswerDomain(s, step);
    } else if step.Select? {
      assert step.result != ErrClosed ==> step.id in s.table.reqReps && step.id in s.table.reqErrs;
    }
  }

  lemma InvPreserved(s: State, step: Step)
    requires Inv(s) && Enabled(s, step) && Expected(s, step)
    ensures Inv(Next(s, step))
  {
    DomainPreserved(s, step);
    CallPreserved(s, step);
    hide CallInv, DomainInv, Expected;
    forall id | id in Next(s, step).callers
      ensures CallInv(Next(s, step), id)
    {
      if id in s.callers && (!Concerns(step) || id != step.id) {
        OthersUntouched(s, step, id);
      }
    }
  }

  ghost predicate AnswersRecorded(steps: seq<Step>, s: State) {
    && (forall id :: id in s.answers ==> Answered(steps, id))
    && (forall id, reply, fault :: Answer(id, reply, fault) in steps ==>
          id in s.answers && s.answers[id] == Carried(reply, fault))
  }

  /** The state agrees with the steps that led to it. */
  ghost predicate Recorded(steps: seq<Step>, s: State) {
    && (s.term <==> Terminate in steps)
    && (forall id :: Issue(id) in steps ==> Issued(s, id))
    && AnswersRecorded(steps, s)
    && (forall id :: In(s, id, Returning(SendFailed)) || In(s, id, Done(SendFailed)) ==> SendFail(id) in steps)
  }

  lemma AnsweredIn(steps: seq<Step>, id: nat)
    ensures Answered(steps, id) <==> exists reply, fault :: Answer(id, reply, fault) in steps
  {
    if i :| 0 <= i < |steps| && steps[i].Answer? && steps[i].id == id {
      assert Answer(id, steps[i].reply, steps[i].fault) in steps;
    }
    forall reply, fault | Answer(id, reply, fault) in steps
      ensures Answered(steps, id)
    {
      var i :| 0 <= i < |steps| && steps[i] == Answer(id, reply, fault);
    }
  }

  lemma Appended(steps: seq<Step>, step: Step)
    ensures forall x :: x in steps + [step] <==> x in steps || x == step
    ensures forall id :: Answered(steps + [step], id) <==> Answered(steps, id) || (step.Answer? && step.id == id)
  {
    var after := steps + [step];
    forall id | Answered(steps, id)
      ensures Answered(after, id)
    {
      var i :| 0 <= i < |steps| && steps[i].Answer? && steps[i].id == id;
      assert after[i] == steps[i];
    }
    assert after[|steps|] == step;
  }

  lemma IssuedStays(s: State, step: Step, id: nat)
    requires Inv(s) && Enabled(s, step) && Expected(s, step)
    requires Issued(s, id) || step == Issue(id)
    ensures Issued(Next(s, step), id)
  {
    CallPreserved(s, step);
    if id in s.callers {
      assert CallInv(s, id);
    }
    assert s.table.reqIdx !in s.callers;
  }

  lemma FailedSends(s: State, step: Step, id: nat)
    requires Inv(s) && Enabled(s, step) && Expected(s, step)
    requires In(Next(s, step), id, Returning(SendFailed)) || In(Next(s, step), id, Done(SendFailed))
    ensures In(s, id, Returning(SendFailed)) || In(s, id, Done(SendFailed)) || step == SendFail(id)
  {
    if id in s.callers {
      assert CallInv(s, id);
    }
  }

  lemma AnswersPreserved(steps: seq<Step>, s: State, step: Step)
    requires Inv(s) && AnswersRecorded(steps, s) && Enabled(s, step) && Faithful(steps, step) && Expected(s, step)
    ensures AnswersRecorded(steps + [step], Next(s, step))
  {
    Appended(steps, step);
    if step.Answer? {
      AnswerProceeds(s, step);
      AnsweredIn(steps, step.id);
    }
    hide Inv, Issued, Answered, Carried, CanPost, Post, Taken, Ready, Remove, Register;
  }

  lemma RecordedPreserved(steps: seq<Step>, s: State, step: Step)
    requires Inv(s) && Recorded(steps, s) && Enabled(s, step) && Faithful(steps, step)
    ensures Expected(s, step) && Recorded(steps + [step], Next(s, step))
  {
    assert Expected(s, step);
    CallPreserved(s, step);
    Appended(steps, step);
    var s' := Next(s, step);
    forall id | Issue(id) in steps + [step]
      ensures Issued(s', id)
    {
      IssuedStays(s, step, id);
    }
    forall id | In(s', id, Returning(SendFailed)) || In(s', id, Done(SendFailed))
      ensures SendFail(id) in steps + [step]
    {
      FailedSends(s, step, id);
    }
    hide Inv, Issued, AnswersRecorded, In, CanPost, Post, Taken, Ready, Remove, Register;
    AnswersPreserved(steps, s, step);
  }

  lemma {:induction false} Invariant(steps: seq<Step>)
    requires Run(steps).Some?
    ensures Inv(Run(steps).value) && Recorded(steps, Run(steps).value)
  {
    if steps != [] {
      var k := |steps| - 1;
      Invariant(steps[..k]);
      hide Inv, Recorded, Faithful, Next, Enabled;
      assert steps == steps[..k] + [steps[k]];
      RecordedPreserved(steps[..k], Run(steps[..k]).value, steps[k]);
      InvPreserved(Run(steps[..k]).value, steps[k]);
    }
  }

  // ----- what the invariant means

  /** Any continuation, whatever the relay answers. */
  function Exec(s: State, steps: seq<Step>): Option<State>
    decreases |steps|
  {
    if steps == [] then Some(s)
    else if Enabled(s, steps[0]) then Exec(Next(s, steps[0]), steps[1..])
    else None
  }

  /** With a faithful relay the receiver loop never blocks on a reply and never sends on a closed channel. A call that
      has ended returns the answer the relay gave to its own request, if there was one, unless the connection ended;
      without an answer the connection ended, or the packet never left. */
  lemma OwnAnswers(steps: seq<Step>, id: nat)
    requires Run(steps).Some?
    ensures Run(steps).value.pending == None && !Run(steps).value.panicked
    ensures var s := Run(steps).value;
            id in s.callers && (s.callers[id].Returning? || s.callers[id].Done?) ==>
              var r := s.callers[id].result;
              && (forall reply, fault :: Answer(id, reply, fault) in steps ==>
                    r == Carried(reply, fault) || (r == ErrClosed && Terminate in steps))
              && (!Answered(steps, id) ==> (r == ErrClosed && Terminate in steps) || (r == SendFailed && SendFail(id) in steps))
  {
    Invariant(steps);
    hide Run, Carried;
    var s := Run(steps).value;
    if id in s.callers {
      assert CallInv(s, id);
      forall reply, fault | Answer(id, reply, fault) in steps
        ensures s.answers[id] == Carried(reply, fault)
      {
      }
    }
  }

  /** The maps always have the same keys, those of the calls in progress; they are empty once all have returned. */
  lemma MapsMatch(steps: seq<Step>)
    requires Run(steps).Some?
    ensures var s := Run(steps).value;
            && s.table.reqReps.Keys == s.table.reqErrs.Keys
            && ((forall id :: id in s.callers ==> s.callers[id].Done?) ==> s.table.reqReps == map[] && s.table.reqErrs == map[])
  {
    hide Run;
    Invariant(steps);
  }

  /** A waiting call that has been answered can return the answer. */
  lemma NoCallForgotten(steps: seq<Step>, id: nat, reply: Option<Blob>, fault: Blob)
    requires Run(steps).Some? && In(Run(steps).value, id, Selecting) && Answer(id, reply, fault) in steps
    ensures var s, r := Run(steps).value, Carried(reply, fault);
            && Exec(s, [Select(id, r), CleanUp(id)]).Some?
            && In(Exec(s, [Select(id, r), CleanUp(id)]).value, id, Done(r))
  {
    hide Run;
    Invariant(steps);
    assert CallInv(Run(steps).value, id);
    CanReturn(Run(steps).value, id, Carried(reply, fault));
  }

  /** When the connection ends every waiting call can return that it has. */
  lemma TerminationReleases(steps: seq<Step>, id: nat)
    requires Run(steps).Some? && In(Run(steps).value, id, Selecting) && Terminate in steps
    ensures var s := Run(steps).value;
            && Exec(s, [Select(id, ErrClosed), CleanUp(id)]).Some?
            && In(Exec(s, [Select(id, ErrClosed), CleanUp(id)]).value, id, Done(ErrClosed))
  {
    hide Run;
    Invariant(steps);
    CanReturn(Run(steps).value, id, ErrClosed);
  }

  lemma CanReturn(s: State, id: nat, r: Result)
    requires Enabled(s, Select(id, r)) && s.pending == None
    ensures Exec(s, [Select(id, r), CleanUp(id)]).Some?
    ensures In(Exec(s, [Select(id, r), CleanUp(id)]).value, id, Done(r))
  {
    var s1 := Next(s, Select(id, r));
    assert [Select(id, r), CleanUp(id)][1..] == [CleanUp(id)];
    assert Exec(s1, [CleanUp(id)]) == Exec(Next(s1, CleanUp(id)), []);
  }

  lemma RunSnoc(steps: seq<Step>, step: Step)
    requires Run(steps).Some? && Enabled(Run(steps).value, step) && Faithful(steps, step)
    ensures Run(steps + [step]) == Some(Next(Run(steps).value, step))
  {
    assert (steps + [step])[..|steps|] == steps;
    hide Next, Enabled, Faithful;
  }

  /** A new call, up to the point where it waits. */
  lemma Called(steps: seq<Step>) returns (id: nat, calling: seq<Step>, s': State)
    requires Run(steps).Some?
    ensures id == Run(steps).value.table.reqIdx && calling == steps + [Begin] + [Issue(id)] + [SendDone(id)]
    ensures var s := Run(steps).value;
            && id !in s.callers && id !in s.table.reqReps && id !in s.table.reqErrs && id !in s.closed
            && Run(calling) == Some(s')
            && s' == s.(table := Register(s.table), callers := s.callers[id := Selecting])
            && In(s', id, Selecting) && s'.pending == None && !s'.panicked && (s'.term <==> Terminate in steps)
    ensures Issue(id) in calling && !Answered(calling, id)
  {
    Invariant(steps);
    var s := Run(steps).value;
    id := s.table.reqIdx;
    assert id !in s.callers;
    var s1 := Next(s, Begin);
    var s2 := Next(s1, Issue(id));
    s' := Next(s2, SendDone(id));
    assert s'.callers == s.callers[id := Selecting];
    AnsweredIn(steps, id);
    assert !Answered(steps, id);
    Appended(steps, Begin);
    Appended(steps + [Begin], Issue(id));
    Appended(steps + [Begin] + [Issue(id)], SendDone(id));
    calling := steps + [Begin] + [Issue(id)] + [SendDone(id)];
    hide Run, Answered, Next, Recorded, Inv;
    RunSnoc(steps, Begin);
    RunSnoc(steps + [Begin], Issue(id));
    RunSnoc(steps + [Begin] + [Issue(id)], SendDone(id));
  }

  /** An answer to a waiting call whose channels are empty lands in the channel of its kind. */
  lemma Lands(s: State, id: nat, reply: Option<Blob>, fault: Blob)
    requires In(s, id, Selecting) && Holds(s.table, id, None) && id !in s.closed
    requires !s.term && s.pending == None && !s.panicked
    ensures Enabled(s, Answer(id, reply, fault))
    ensures var s', r := Next(s, Answer(id, reply, fault)), Carried(reply, fault);
            && s'.callers == s.callers && s'.pending == None
            && s'.table == Post(s.table, id, r) && Enabled(s', Select(id, r))
  {
  }

  lemma Ends(s: State, id: nat, r: Result)
    requires In(s, id, Returning(r)) && s.pending == None
    ensures Enabled(s, CleanUp(id))
    ensures Next(s, CleanUp(id)).table == Remove(s.table, id)
    ensures Next(s, CleanUp(id)).callers == s.callers[id := Done(r)]
  {
  }

  lemma TableRestored(t: Table, r: Result)
    requires t.reqIdx !in t.reqReps && t.reqIdx !in t.reqErrs && !r.ErrClosed?
    ensures var id := t.reqIdx;
            && CanPost(Register(t), id, r)
            && Remove(Taken(Post(Register(t), id, r), id, r), id) == t.(reqIdx := id + 1)
            && Remove(Register(t), id) == t.(reqIdx := id + 1)
  {
    var id := t.reqIdx;
    assert Remove(Register(t), id) == t.(reqIdx := id + 1);
    var t' := Taken(Post(Register(t), id, r), id, r);
    assert t'.reqReps == Register(t).reqReps && t'.reqErrs == Register(t).reqErrs;
  }

  /** A call that waits under a new id, answered, leaves the table `t` as it was before the call. */
  lemma AnsweredCall(t: Table, s: State, reply: Option<Blob>, fault: Blob) returns (s2: State, s3: State, s4: State)
    requires t.reqIdx !in t.reqReps && t.reqIdx !in t.reqErrs && s.table == Register(t)
    requires In(s, t.reqIdx, Selecting) && t.reqIdx !in s.closed && !s.term && s.pending == None && !s.panicked
    ensures var id, r := t.reqIdx, Carried(reply, fault);
            && Enabled(s, Answer(id, reply, fault)) && s2 == Next(s, Answer(id, reply, fault))
            && Enabled(s2, Select(id, r)) && s3 == Next(s2, Select(id, r))
            && Enabled(s3, CleanUp(id)) && s4 == Next(s3, CleanUp(id))
            && s4.callers == s.callers[id := Done(r)] && s4.table == t.(reqIdx := id + 1)
  {
    var id, r := t.reqIdx, Carried(reply, fault);
    TableRestored(t, r);
    Lands(s, id, reply, fault);
    s2 := Next(s, Answer(id, reply, fault));
    s3 := Next(s2, Select(id, r));
    hide Carried, Post, CanPost, Register, Delivered;
    assert s3.callers == s.callers[id := Returning(r)];
    Ends(s3, id, r);
    s4 := Next(s3, CleanUp(id));
    assert s.callers[id := Returning(r)][id := Done(r)] == s.callers[id := Done(r)];
  }

  /** As long as the connection lasts a new call can be made and answered: it returns the answer, and leaves the table
      as it was. */
  lemma Served(steps: seq<Step>, reply: Option<Blob>, fault: Blob)
    requires Run(steps).Some? && Terminate !in steps
    ensures var s := Run(steps).value;
            var id, r := s.table.reqIdx, Carried(reply, fault);
            var call := steps + [Begin] + [Issue(id)] + [SendDone(id)] + [Answer(id, reply, fault)] + [Select(id, r)] + [CleanUp(id)];
            && Run(call).Some?
            && Run(call).value.callers == s.callers[id := Done(r)]
            && Run(call).value.table == s.table.(reqIdx := id + 1)
  {
    hide *;
    var s, r := Run(steps).value, Carried(reply, fault);
    var id, calling, s1 := Called(steps);
    var s2, s3, s4 := AnsweredCall(s.table, s1, reply, fault);
    assert s.callers[id := Selecting][id := Done(r)] == s.callers[id := Done(r)];
    var answer, select, cleanUp := Answer(id, reply, fault), Select(id, r), CleanUp(id);
    RunAnswer(calling, answer);
    RunLast(calling + [answer], select);
    RunLast(calling + [answer] + [select], cleanUp);
  }

  /** A step other than an answer can be appended to a run whenever it is enabled. */
  lemma RunLast(steps: seq<Step>, step: Step)
    requires Run(steps).Some? && Enabled(Run(steps).value, step) && !step.Answer?
    ensures Run(steps + [step]) == Some(Next(Run(steps).value, step))
  {
    RunSnoc(steps, step);
  }

  /** An answer can if the relay is faithful. */
  lemma RunAnswer(steps: seq<Step>, step: Step)
    requires Run(steps).Some? && Enabled(Run(steps).value, step) && step.Answer?
    requires Issue(step.id) in steps && !Answered(steps, step.id)
    ensures Run(steps + [step]) == Some(Next(Run(steps).value, step))
  {
    RunSnoc(steps, step);
  }

  /** A call whose packet cannot be sent returns at once and leaves the table as it was. */
  lemma NotSent(steps: seq<Step>)
    requires Run(steps).Some?
    ensures var s := Run(steps).value;
            var id := s.table.reqIdx;
            var call := steps + [Begin] + [SendFail(id)] + [CleanUp(id)];
            && Run(call).Some?
            && Run(call).value.callers == s.callers[id := Done(SendFailed)]
            && Run(call).value.table == s.table.(reqIdx := id + 1)
  {
    Invariant(steps);
    var s := Run(steps).value;
    var id := s.table.reqIdx;
    assert id !in s.callers;
    TableRestored(s.table, SendFailed);
    assert Enabled(s, Begin);
    var s1 := Next(s, Begin);
    assert Enabled(s1, SendFail(id));
    var s2 := Next(s1, SendFail(id));
    assert s2.table == Register(s.table) && s2.callers == s.callers[id := Sending(false)][id := Returning(SendFailed)];
    Ends(s2, id, SendFailed);
    assert s.callers[id := Sending(false)][id := Returning(SendFailed)][id := Done(SendFailed)]
        == s.callers[id := Done(SendFailed)];
    hide *;
    RunLast(steps, Begin);
    RunLast(steps + [Begin], SendFail(id));
    RunLast(steps + [Begin] + [SendFail(id)], CleanUp(id));
  }

  // ----- without the assumption on the relay

  /** The request has been answered before, with the same kind of answer. */
  ghost predicate Repeats(history: seq<Step>, id: nat, reply: Option<Blob>) {
    exists reply0, fault0 :: Answer(id, reply0, fault0) in history && (reply0.Some? <==> reply.Some?)
  }

  /** After any run the faithful relay takes part in, one more answer blocks the receiver loop exactly if it is for a
      request that is not pending, or repeats an answer not yet picked up. */
  lemma BlocksIff(steps: seq<Step>, id: nat, reply: Option<Blob>, fault: Blob)
    requires Run(steps).Some? && Enabled(Run(steps).value, Answer(id, reply, fault))
    ensures var s := Run(steps).value;
            Next(s, Answer(id, reply, fault)).pending.Some?
            <==> !Live(s, id) || (!s.callers[id].Returning? && Repeats(steps, id, reply))
  {
    hide Run;
    Invariant(steps);
    if Live(Run(steps).value, id) {
      assert CallInv(Run(steps).value, id);
      RepeatsAnswer(steps, id, reply);
    }
  }

  lemma RepeatsAnswer(steps: seq<Step>, id: nat, reply: Option<Blob>)
    requires Run(steps).Some?
    ensures var answers := Run(steps).value.answers;
            Repeats(steps, id, reply) <==> id in answers && (answers[id].Reply? <==> reply.Some?)
  {
    hide Run, Inv;
    Invariant(steps);
    AnsweredIn(steps, id);
  }

  /** The receiver loop waits for a channel that does not exist. */
  ghost predicate Stuck(s: State, id: nat) {
    s.pending.Some? && s.pending.value.id == id && id !in s.table.reqReps && id !in s.table.reqErrs && !s.term
  }

  /** What can still happen leaves the loop stuck; no call registers and none returns. */
  lemma StuckStep(s: State, step: Step, id: nat)
    requires Stuck(s, id) && Enabled(s, step)
    ensures var s' := Next(s, step);
            && Stuck(s', id) && s'.pending == s.pending
            && s'.callers.Keys == s.callers.Keys
            && (forall c :: c in s.callers ==> (s'.callers[c].Done? <==> s.callers[c].Done?))
  {
  }

  lemma {:induction false} StuckForever(s: State, steps: seq<Step>, id: nat)
    requires Stuck(s, id) && Exec(s, steps).Some?
    ensures var s' := Exec(s, steps).value;
            && Stuck(s', id) && s'.pending == s.pending
            && s'.callers.Keys == s.callers.Keys
            && (forall c :: c in s.callers ==> (s'.callers[c].Done? <==> s.callers[c].Done?))
    decreases |steps|
  {
    if steps != [] {
      StuckStep(s, steps[0], id);
      hide Stuck, Next, Enabled;
      StuckForever(Next(s, steps[0]), steps[1..], id);
    }
  }

  /** After an answer to a request that is not pending the receiver loop is blocked for good, with the table's lock
      held: whatever happens, no packet is read, the connection does not terminate, no call registers, and none of
      those in progress ever returns. */
  lemma StrayAnswer(history: seq<Step>, id: nat, reply: Option<Blob>, fault: Blob, steps: seq<Step>)
    requires Run(history).Some? && !Live(Run(history).value, id)
    requires Enabled(Run(history).value, Answer(id, reply, fault))
    requires Exec(Next(Run(history).value, Answer(id, reply, fault)), steps).Some?
    ensures var s := Run(history).value;
            var s' := Exec(Next(s, Answer(id, reply, fault)), steps).value;
            && s'.pending == Some(Delivery(id, Carried(reply, fault))) && !s'.term
            && s'.callers.Keys == s.callers.Keys
            && (forall c :: Live(s, c) ==> Live(s', c))
  {
    hide Run, Exec;
    Invariant(history);
    StuckForever(Next(Run(history).value, Answer(id, reply, fault)), steps, id);
  }

  /** The caller picks up the earlier answer, and the repeated one takes its place. */
  lemma PickUp(s: State, id: nat, r: Result) returns (steps: seq<Step>)
    requires id in s.callers && (s.callers[id] == Sending(true) || s.callers[id] == Selecting)
    requires s.pending.Some? && s.pending.value.id == id && (s.pending.value.result.Reply? <==> r.Reply?)
    requires Holds(s.table, id, Some(r)) && r != ErrClosed && id !in s.closed
    ensures Exec(s, steps).Some? && Exec(s, steps).value.pending == None
    decreases if s.callers[id] == Selecting then 0 else 1
  {
    if s.callers[id] == Selecting {
      steps := [Select(id, r), Resume];
      var s1 := Next(s, Select(id, r));
      assert steps[1..] == [Resume] && Enabled(s1, Resume);
      assert Exec(s1, [Resume]) == Exec(Next(s1, Resume), []);
    } else {
      var s1 := Next(s, SendDone(id));
      var rest := PickUp(s1, id, r);
      steps := [SendDone(id)] + rest;
      assert steps[1..] == rest;
    }
  }

  /** An answer that blocks the receiver loop does so for good exactly if its request is not pending. */
  lemma BlockedForGoodIff(history: seq<Step>, id: nat, reply: Option<Blob>, fault: Blob)
    requires Run(history).Some? && Enabled(Run(history).value, Answer(id, reply, fault))
    requires Next(Run(history).value, Answer(id, reply, fault)).pending.Some?
    ensures var s := Run(history).value;
            (forall steps :: Exec(Next(s, Answer(id, reply, fault)), steps).Some? ==>
               Exec(Next(s, Answer(id, reply, fault)), steps).value.pending.Some?)
            <==> !Live(s, id)
  {
    hide Run, Exec;
    Invariant(history);
    var s := Run(history).value;
    var s' := Next(s, Answer(id, reply, fault));
    if Live(s, id) {
      BlocksIff(history, id, reply, fault);
      RepeatsAnswer(history, id, reply);
      assert CallInv(s, id);
      var steps := PickUp(s', id, s.answers[id]);
    } else {
      forall steps | Exec(s', steps).Some?
        ensures Exec(s', steps).value.pending.Some?
      {
        StrayAnswer(history, id, reply, fault, steps);
      }
    }
  }

  // ----- from the wire to the caller

  /** What the relay meant. */
  function Meant(v: R.Verdict): Result {
    match v
    case TimedOut => ErrTimeout
    case Answered(Replied(reply)) => Reply(reply)
    case Answered(Faulted(fault)) => RemoteError(fault)
  }

  /** The relay's verdict is read as one call of the reply handler for that request, and the caller gets what the
      relay meant exactly unless that is an error without text, which arrives as a timeout. */
  lemma VerdictReachesCaller(id: UInt64, v: R.Verdict, t: Bytes)
    ensures var p := R.ProcReply(EncodeVarint(id) + R.EncodeVerdict(v) + t);
            && p.Success? && p.value.0.HandleReply? && p.value.0.id == id && p.value.1 == t
            && (Carried(p.value.0.reply, p.value.0.fault) == Meant(v)
                <==> (v.Answered? && v.answer.Faulted? ==> |v.answer.fault| > 0))
  {
    hide R.ProcReply, R.EncodeVerdict;
    R.VerdictRoundTrip(id, v, t);
  }

  /** The text of a handler's error, as `handleRequest` takes it. */
  function FaultText(err: Option<Blob>): Blob {
    if err.Some? then err.value else []
  }

  /** What a request handler meant by its two results. */
  function Handled(reply: Blob, err: Option<Blob>): Result {
    match err
    case None => Reply(reply)
    case Some(text) => RemoteError(text)
  }

  /** A handler's results, sent by `sendReply` and passed on by the relay, reach the caller as they were meant exactly
      if there is no error or the error has a text: an error without text arrives as a successful reply. */
  lemma HandlerReachesCaller(id: UInt64, reply: Blob, err: Option<Blob>, t: Bytes)
    ensures var v := R.Answered(P.AnswerFor(reply, FaultText(err)));
            var p := R.ProcReply(EncodeVarint(id) + R.EncodeVerdict(v) + t);
            && p.Success? && p.value.0.HandleReply? && p.value.0.id == id && p.value.1 == t
            && (Carried(p.value.0.reply, p.value.0.fault) == Handled(reply, err) <==> err == None || |err.value| > 0)
            && (err == Some([]) ==> Carried(p.value.0.reply, p.value.0.fault) == Reply(reply))
  {
    hide R.ProcReply, R.EncodeVerdict;
    R.VerdictRoundTrip(id, R.Answered(P.AnswerFor(reply, FaultText(err))), t);
  }
}
