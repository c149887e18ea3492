/** Bounded admission of inbound work: the pattern of `handleBroadcast`, `handleRequest` and `topic.handlePublish`.
    A producer loads the counter, compares, adds, and schedules; workers subtract concurrently. */
module Admission {
  import opened Basics

  /** A producer between its load of the counter and its decision. */
  datatype Check = Check(size: nat, seen: int)

  datatype State = State(
    used: int,             // the int32 counter
    checks: seq<Check>,    // loaded, not yet compared and added
    added: seq<nat>,       // added to the counter, not yet scheduled
    queued: seq<nat>,      // scheduled, not yet picked up
    started: seq<nat>)     // picked up by a worker, not yet subtracted

  const INIT := State(0, [], [], [], [])

  datatype Step =
    | Load(size: nat)
    | Decide(i: nat)
    | Schedule(i: nat)
    | Pick(i: nat)
    | Subtract(i: nat)

  /** At most `producers` are between load and decision, and items are at most `size` bytes long. */
  datatype Setup = Setup(limit: nat, producers: nat, size: nat)

  predicate Passes(c: Check, limit: nat) {
    c.seen + c.size <= limit
  }

  predicate Enabled(p: Setup, s: State, step: Step) {
    match step
    case Load(size) => size <= p.size && |s.checks| < p.producers
    case Decide(i) => i < |s.checks|
    case Schedule(i) => i < |s.added|
    case Pick(i) => i < |s.queued|
    case Subtract(i) => i < |s.started|
  }

  function Next(p: Setup, s: State, step: Step): State
    requires Enabled(p, s, step)
  {
    match step
    case Load(size) => s.(checks := s.checks + [Check(size, s.used)])
    case Decide(i) =>
      var c, rest := s.checks[i], RemoveAt(s.checks, i);
      if Passes(c, p.limit)
      then s.(checks := rest, used := ToInt32(s.used + c.size), added := s.added + [c.size])
      else s.(checks := rest)
    case Schedule(i) => s.(added := RemoveAt(s.added, i), queued := s.queued + [s.added[i]])
    case Pick(i) => s.(queued := RemoveAt(s.queued, i), started := s.started + [s.queued[i]])
    case Subtract(i) => s.(started := RemoveAt(s.started, i), used := ToInt32(s.used - s.started[i]))
  }

  function Exec(p: Setup, s: State, steps: seq<Step>): Option<State>
    decreases |steps|
  {
    if steps == [] then Some(s)
    else if Enabled(p, s, steps[0]) then Exec(p, Next(p, s, steps[0]), steps[1..])
    else None
  }

  /** Bytes admitted and not yet subtracted by the worker that runs them. */
  function Outstanding(s: State): nat {
    Sum(s.added) + Sum(s.queued) + Sum(s.started)
  }

  /** The most the checks in progress may still add. */
  function Promised(checks: seq<Check>, limit: nat): nat {
    if checks == [] then 0
    else (if Passes(checks[0], limit) then checks[0].size else 0) + Promised(checks[1..], limit)
  }

  /** The longest item that can be admitted. */
  function Item(p: Setup): nat {
    if p.size <= p.limit then p.size else p.limit
  }

  function Bound(p: Setup): nat {
    if p.producers == 0 || p.size == 0 then 0 else p.limit + (p.producers - 1) * Item(p)
  }

  predicate Plausible(p: Setup, checks: seq<Check>) {
    forall i :: 0 <= i < |checks| ==> checks[i].size <= p.size && checks[i].seen >= 0
  }

  ghost predicate Inv(p: Setup, s: State) {
    && s.used == Outstanding(s)
    && s.used + Promised(s.checks, p.limit) <= Bound(p)
    && |s.checks| <= p.producers
    && Plausible(p, s.checks)
  }

  lemma {:induction false} PromisedConcat(a: seq<Check>, b: seq<Check>, limit: nat)
    ensures Promised(a + b, limit) == Promised(a, limit) + Promised(b, limit)
  {
    if a == [] {
      assert a + b == b;
    } else {
      assert (a + b)[1..] == a[1..] + b;
      PromisedConcat(a[1..], b, limit);
    }
  }

  lemma PromisedRemoveAt(checks: seq<Check>, i: nat, limit: nat)
    requires i < |checks|
    ensures Promised(RemoveAt(checks, i), limit)
         == Promised(checks, limit) - if Passes(checks[i], limit) then checks[i].size else 0
  {
    hide Promised;
    var before, at, after := checks[..i], [checks[i]], checks[i + 1..];
    assert checks == before + at + after;
    PromisedOne(checks[i], limit);
    PromisedConcat(before, after, limit);
    PromisedConcat(before + at, after, limit);
    PromisedConcat(before, at, limit);
  }

  lemma {:induction false} PromisedBound(p: Setup, checks: seq<Check>)
    requires Plausible(p, checks)
    ensures Promised(checks, p.limit) <= Times(|checks|, Item(p))
  {
    if checks != [] {
      PromisedBound(p, checks[1..]);
    }
  }

  /** While a further producer may still load, the others promise at most one item each. */
  lemma RoomForOneMore(p: Setup, checks: seq<Check>)
    requires |checks| < p.producers && p.size > 0 && Plausible(p, checks)
    ensures p.limit + Promised(checks, p.limit) <= Bound(p)
  {
    PromisedBound(p, checks);
    TimesMonotone(|checks|, p.producers - 1, Item(p));
    TimesIsProduct(p.producers - 1, Item(p));
  }

  lemma LoadPreserved(p: Setup, s: State, size: nat)
    requires Inv(p, s) && Enabled(p, s, Load(size))
    ensures Inv(p, Next(p, s, Load(size)))
  {
    PromisedConcat(s.checks, [Check(size, s.used)], p.limit);
    PromisedOne(Check(size, s.used), p.limit);
    if p.size > 0 {
      RoomForOneMore(p, s.checks);
    }
    hide Bound, Promised, Sum;
  }

  lemma PromisedOne(c: Check, limit: nat)
    ensures Promised([c], limit) == if Passes(c, limit) then c.size else 0
  {
  }

  lemma DecidePreserved(p: Setup, s: State, i: nat)
    requires Inv(p, s) && Bound(p) < TWO_TO_31 && i < |s.checks|
    ensures Inv(p, Next(p, s, Decide(i)))
  {
    hide Bound, Promised, Sum;
    var c := s.checks[i];
    PromisedRemoveAt(s.checks, i, p.limit);
    SumConcat(s.added, [c.size]);
    SumOne(c.size);
  }

  lemma MovePreserved(p: Setup, s: State, step: Step)
    requires Inv(p, s) && Bound(p) < TWO_TO_31 && Enabled(p, s, step) && !step.Load? && !step.Decide?
    ensures Inv(p, Next(p, s, step))
  {
    hide Promised, Bound, Plausible;
    match step
    case Schedule(i) =>
      SumRemoveAt(s.added, i);
      SumConcat(s.queued, [s.added[i]]);
    case Pick(i) =>
      SumRemoveAt(s.queued, i);
      SumConcat(s.started, [s.queued[i]]);
    case Subtract(i) =>
      SumRemoveAt(s.started, i);
  }

  /** In every interleaving the counter is exactly the bytes admitted and not yet started, never negative, and
      exceeds the limit by at most one item for each further producer. The bound has to fit the int32 counter. */
  lemma {:induction false} Bounded(p: Setup, s: State, steps: seq<Step>)
    requires Inv(p, s) && Bound(p) < TWO_TO_31 && Exec(p, s, steps).Some?
    ensures Inv(p, Exec(p, s, steps).value)
    decreases |steps|
  {
    if steps != [] {
      var step := steps[0];
      match step {
        case Load(size) => LoadPreserved(p, s, size);
        case Decide(i) => DecidePreserved(p, s, i);
        case _ => MovePreserved(p, s, step);
      }
      hide Inv, Next, Enabled;
      Bounded(p, Next(p, s, step), steps[1..]);
    }
  }

  lemma AdmissionBound(p: Setup, steps: seq<Step>)
    requires Bound(p) < TWO_TO_31 && Exec(p, INIT, steps).Some?
    ensures var s := Exec(p, INIT, steps).value;
            0 <= s.used == Outstanding(s) <= Bound(p)
  {
    Bounded(p, INIT, steps);
  }

  // ----- the bound is reached

  lemma {:induction false} ExecConcat(p: Setup, s: State, xs: seq<Step>, ys: seq<Step>)
    requires Exec(p, s, xs).Some?
    ensures Exec(p, s, xs + ys) == Exec(p, Exec(p, s, xs).value, ys)
    decreases |xs|
  {
    hide Next, Enabled;
    if xs == [] {
      assert xs + ys == ys;
    } else {
      assert (xs + ys)[1..] == xs[1..] + ys;
      ExecConcat(p, Next(p, s, xs[0]), xs[1..], ys);
    }
  }

  function Repeat<T>(x: T, n: nat): seq<T> {
    if n == 0 then [] else [x] + Repeat(x, n - 1)
  }

  /** One item is checked and admitted with nobody else in between. */
  lemma AdmitOne(p: Setup, s: State, size: nat)
    requires p.producers > 0 && size <= p.size && s.checks == [] && s.used + size <= p.limit
    ensures var s' := s.(used := ToInt32(s.used + size), added := s.added + [size]);
            Exec(p, s, [Load(size), Decide(0)]) == Some(s') && Outstanding(s') == Outstanding(s) + size
  {
    var s1 := Next(p, s, Load(size));
    var s2 := Next(p, s1, Decide(0));
    assert [Load(size), Decide(0)][1..] == [Decide(0)];
    assert Exec(p, s1, [Decide(0)]) == Exec(p, s2, []);
    SumConcat(s.added, [size]);
    SumOne(size);
  }

  /** `n` one-byte items admitted one after the other; beyond int32 the counter wraps and lets more in. */
  lemma {:induction false} FillTo(p: Setup, s: State, n: nat) returns (steps: seq<Step>, s': State)
    requires p.producers > 0 && p.size > 0 && s.checks == []
    requires (0 <= s.used && s.used + n <= p.limit < TWO_TO_31) || s.used < TWO_TO_31 <= p.limit
    ensures Exec(p, s, steps) == Some(s') && s'.checks == []
    ensures Outstanding(s') == Outstanding(s) + n
    ensures p.limit < TWO_TO_31 ==> s'.used == s.used + n
    decreases n
  {
    hide Next, Outstanding;
    if n == 0 {
      steps, s' := [], s;
    } else {
      AdmitOne(p, s, 1);
      var one := [Load(1), Decide(0)];
      var s1 := Exec(p, s, one).value;
      var rest;
      rest, s' := FillTo(p, s1, n - 1);
      ExecConcat(p, s, one, rest);
      steps := one + rest;
    }
  }

  /** `n` producers load the counter before any of them adds to it. */
  lemma {:induction false} LoadAll(p: Setup, s: State, n: nat, size: nat)
    requires |s.checks| + n <= p.producers && size <= p.size
    ensures Exec(p, s, Repeat(Load(size), n)) == Some(s.(checks := s.checks + Repeat(Check(size, s.used), n)))
    decreases n
  {
    var c := Check(size, s.used);
    if n == 0 {
      assert s.checks + [] == s.checks;
    } else {
      var s1 := Next(p, s, Load(size));
      LoadAll(p, s1, n - 1, size);
      assert s.checks + [c] + Repeat(c, n - 1) == s.checks + Repeat(c, n);
      assert Repeat(Load(size), n)[1..] == Repeat(Load(size), n - 1);
    }
  }

  /** Then all of them add, whatever the counter says by then. */
  lemma {:induction false} DecideAll(p: Setup, s: State, n: nat, c: Check)
    requires s.checks == Repeat(c, n) && Passes(c, p.limit)
    ensures Exec(p, s, Repeat(Decide(0), n)).Some?
    ensures Outstanding(Exec(p, s, Repeat(Decide(0), n)).value) == Outstanding(s) + Times(n, c.size)
    decreases n
  {
    if n > 0 {
      var s1 := Next(p, s, Decide(0));
      assert s1.checks == Repeat(c, n - 1);
      DecideAll(p, s1, n - 1, c);
      assert Repeat(Decide(0), n)[1..] == Repeat(Decide(0), n - 1);
      SumConcat(s.added, [c.size]);
      SumOne(c.size);
    }
  }

  /** For every number of producers there is an interleaving that admits as much as the bound allows. */
  lemma AdmitBound(p: Setup) returns (steps: seq<Step>)
    requires p.limit < TWO_TO_31
    ensures Exec(p, INIT, steps).Some? && Outstanding(Exec(p, INIT, steps).value) == Bound(p)
  {
    assert Outstanding(INIT) == 0;
    if p.producers == 0 || p.size == 0 {
      return [];
    }
    var item := Item(p);
    var base := p.limit - item;
    TimesIsProduct(p.producers, item);
    TimesIsProduct(p.producers - 1, item);
    assert Times(p.producers, item) == item + Times(p.producers - 1, item);
    hide Outstanding, Times;
    var filling, s := FillTo(p, INIT, base);
    var c := Check(item, s.used);
    var loads, decides := Repeat(Load(item), p.producers), Repeat(Decide(0), p.producers);
    LoadAll(p, s, p.producers, item);
    assert s.checks + Repeat(c, p.producers) == Repeat(c, p.producers);
    var s1 := Exec(p, s, loads).value;
    assert Outstanding(s1) == Outstanding(s) by {
      SameOutstanding(s, s1);
    }
    DecideAll(p, s1, p.producers, c);
    ExecConcat(p, s, loads, decides);
    ExecConcat(p, INIT, filling, loads + decides);
    steps := filling + (loads + decides);
  }

  lemma SameOutstanding(s: State, s': State)
    requires s' == s.(checks := s'.checks)
    ensures Outstanding(s') == Outstanding(s)
  {
  }

  /** The excess is real: for every number of producers there is an interleaving that reaches the bound. */
  lemma BoundReached(p: Setup) returns (steps: seq<Step>)
    requires Bound(p) < TWO_TO_31
    ensures Exec(p, INIT, steps).Some? && Exec(p, INIT, steps).value.used == Bound(p)
  {
    if p.producers == 0 || p.size == 0 {
      steps := [];
    } else {
      hide Exec, Outstanding;
      BoundIsLimit(p);
      steps := AdmitBound(p);
      AdmissionBound(p, steps);
    }
  }

  /** The bound is the limit itself exactly with one producer or nothing to store. */
  lemma BoundIsLimit(p: Setup)
    requires p.producers > 0 && p.size > 0
    ensures Bound(p) >= p.limit
    ensures Bound(p) == p.limit <==> p.producers == 1 || p.limit == 0
  {
    if p.producers > 1 {
      TimesIsProduct(p.producers - 1, Item(p));
      TimesMonotone(1, p.producers - 1, Item(p));
      assert Times(1, Item(p)) == Item(p);
      TimesZero(p.producers - 1);
    }
  }

  lemma {:induction false} TimesZero(k: nat)
    ensures Times(k, 0) == 0
  {
    if k > 0 {
      TimesZero(k - 1);
    }
  }

  /** With a limit beyond int32 the counter wraps before the limit is reached, and no bound holds at all. */
  lemma AdmitAny(p: Setup, n: nat) returns (steps: seq<Step>)
    requires p.producers > 0 && p.size > 0 && p.limit >= TWO_TO_31
    ensures Exec(p, INIT, steps).Some? && Outstanding(Exec(p, INIT, steps).value) == n
  {
    assert Outstanding(INIT) == 0;
    var s;
    steps, s := FillTo(p, INIT, n);
  }

  lemma {:induction false} CounterIsInt32(p: Setup, s: State, steps: seq<Step>)
    requires s.used < TWO_TO_31 && Exec(p, s, steps).Some?
    ensures Exec(p, s, steps).value.used < TWO_TO_31
    decreases |steps|
  {
    if steps != [] {
      CounterIsInt32(p, Next(p, s, steps[0]), steps[1..]);
    }
  }

  /** The counter says what is outstanding in every interleaving exactly if the bound fits an int32. */
  lemma CounterExactIff(p: Setup)
    ensures (forall steps :: Exec(p, INIT, steps).Some? ==>
               Exec(p, INIT, steps).value.used == Outstanding(Exec(p, INIT, steps).value))
       <==> Bound(p) < TWO_TO_31
  {
    hide Exec, Outstanding, Bound;
    if Bound(p) < TWO_TO_31 {
      forall steps | Exec(p, INIT, steps).Some?
        ensures Exec(p, INIT, steps).value.used == Outstanding(Exec(p, INIT, steps).value)
      {
        AdmissionBound(p, steps);
      }
    } else {
      var steps;
      if p.limit < TWO_TO_31 {
        steps := AdmitBound(p);
      } else {
        BoundNeedsWork(p);
        steps := AdmitAny(p, TWO_TO_31);
      }
      CounterIsInt32(p, INIT, steps);
    }
  }

  lemma BoundNeedsWork(p: Setup)
    requires Bound(p) > 0
    ensures p.producers > 0 && p.size > 0
  {
  }

  /** The memory limit is kept in every interleaving exactly when there is only one producer and the limit fits an
      int32, or when there is nothing to store: so for broadcasts and requests, which the receiver loop admits itself,
      and not for topic events, each admitted by a goroutine of its own. */
  lemma LimitKeptIff(p: Setup)
    ensures (forall steps :: Exec(p, INIT, steps).Some? ==> Outstanding(Exec(p, INIT, steps).value) <= p.limit)
       <==> || p.producers == 0 || p.size == 0 || p.limit == 0
            || (p.producers == 1 && p.limit < TWO_TO_31)
  {
    hide Exec, Outstanding;
    if p.producers > 0 && p.size > 0 {
      BoundIsLimit(p);
    }
    hide Bound;
    if p.producers == 0 || p.size == 0 || p.limit == 0 || (p.producers == 1 && p.limit < TWO_TO_31) {
      forall steps | Exec(p, INIT, steps).Some?
        ensures Outstanding(Exec(p, INIT, steps).value) <= p.limit
      {
        WithinLimit(p);
        AdmissionBound(p, steps);
      }
    } else if p.limit < TWO_TO_31 {
      var steps := AdmitBound(p);
    } else {
      var steps := AdmitAny(p, p.limit + 1);
    }
  }

  lemma WithinLimit(p: Setup)
    requires p.producers == 0 || p.size == 0 || p.limit == 0 || (p.producers == 1 && p.limit < TWO_TO_31)
    ensures Bound(p) <= p.limit && Bound(p) < TWO_TO_31
  {
    if p.producers > 0 && p.size > 0 {
      BoundIsLimit(p);
    }
  }

  // ----- memory is freed

  predicate Idle(s: State) {
    s.checks == [] && s.added == [] && s.queued == [] && s.started == []
  }

  predicate NoLoad(steps: seq<Step>) {
    forall step :: step in steps ==> !step.Load?
  }

  function Work(s: State): nat {
    4 * |s.checks| + 3 * |s.added| + 2 * |s.queued| + |s.started|
  }

  lemma DrainStep(p: Setup, s: State) returns (step: Step)
    requires Inv(p, s) && Bound(p) < TWO_TO_31 && !Idle(s)
    ensures Enabled(p, s, step) && !step.Load?
    ensures Inv(p, Next(p, s, step)) && Work(Next(p, s, step)) < Work(s)
  {
    hide Inv, Bound;
    if s.checks != [] {
      step := Decide(0);
      DecidePreserved(p, s, 0);
    } else {
      step := if s.added != [] then Schedule(0) else if s.queued != [] then Pick(0) else Subtract(0);
      MovePreserved(p, s, step);
    }
  }

  /** Once no more items arrive, the workers can free all memory, from wherever everybody stands. */
  lemma {:induction false} DrainAll(p: Setup, s: State) returns (steps: seq<Step>, s': State)
    requires Inv(p, s) && Bound(p) < TWO_TO_31
    ensures NoLoad(steps) && Exec(p, s, steps) == Some(s')
    ensures Inv(p, s') && Idle(s') && s'.used == 0
    decreases Work(s)
  {
    if Idle(s) {
      steps, s' := [], s;
    } else {
      hide Inv, Next, Enabled, Idle, Work, Bound;
      var step := DrainStep(p, s);
      var rest;
      rest, s' := DrainAll(p, Next(p, s, step));
      steps := [step] + rest;
      assert steps[1..] == rest;
    }
  }

  /** No run uses up the memory for good: from every reachable state the workers can bring the counter back to zero,
      and then any item that fits the limit is admitted. */
  lemma MemoryIsFreed(p: Setup, history: seq<Step>, s: State, size: nat) returns (steps: seq<Step>, idle: State)
    requires Bound(p) < TWO_TO_31 && Exec(p, INIT, history) == Some(s)
    ensures NoLoad(steps) && Exec(p, s, steps) == Some(idle) && Idle(idle) && idle.used == 0
    ensures p.producers > 0 && size <= Item(p) ==>
              && Exec(p, idle, [Load(size), Decide(0)]).Some?
              && var after := Exec(p, idle, [Load(size), Decide(0)]).value;
                 after.used == size && after.added == [size] && Outstanding(after) == size
  {
    Bounded(p, INIT, history);
    hide Exec, Inv, Outstanding, Bound, Item;
    steps, idle := DrainAll(p, s);
    if p.producers > 0 && size <= Item(p) {
      AdmittedFrom(p, idle, size);
    }
  }

  lemma AdmittedFrom(p: Setup, idle: State, size: nat)
    requires Bound(p) < TWO_TO_31 && Idle(idle) && idle.used == 0
    requires p.producers > 0 && size <= Item(p)
    ensures Exec(p, idle, [Load(size), Decide(0)]).Some?
    ensures var after := Exec(p, idle, [Load(size), Decide(0)]).value;
            after.used == size && after.added == [size] && Outstanding(after) == size
  {
    ItemFits(p);
    AdmitOne(p, idle, size);
    assert Sum([]) == 0;
    assert [] + [size] == [size];
    hide Exec;
  }

  lemma ItemFits(p: Setup)
    requires Bound(p) < TWO_TO_31
    ensures Item(p) <= p.limit && Item(p) <= p.size
    ensures p.producers > 0 ==> Item(p) < TWO_TO_31
  {
    if p.producers > 0 && p.size > 0 {
      BoundIsLimit(p);
    }
  }

  // ----- one producer, in place

  /** The queue of one producer, as the receiver loop and the workers update it. */
  class Throttle {
    const limit: nat
    var used: int
    var queue: seq<Bytes>

    predicate Valid()
      reads this
    {
      used == Size(queue) <= limit < TWO_TO_31
    }

    constructor (limit: nat)
      requires limit < TWO_TO_31
      ensures Valid() && queue == [] && this.limit == limit
    {
      this.limit := limit;
      used, queue := 0, [];
    }

    /** Admits the message if it fits beside everything not yet started, and drops it otherwise. */
    method Handle(message: Bytes) returns (admitted: bool)
      requires Valid()
      modifies this
      ensures Valid()
      ensures admitted <==> Size(old(queue)) + |message| <= limit
      ensures queue == old(queue) + if admitted then [message] else []
    {
      admitted := used + |message| <= limit;
      if admitted {
        SizeConcat(queue, [message]);
        used := ToInt32(used + |message|);
        queue := queue + [message];
      }
    }

    /** A worker takes the oldest message and frees its memory before running the handler. */
    method Start() returns (message: Bytes)
      requires Valid() && queue != []
      modifies this
      ensures Valid()
      ensures old(queue) == [message] + queue
    {
      message := queue[0];
      used := ToInt32(used - |message|);
      queue := queue[1..];
    }
  }
}
