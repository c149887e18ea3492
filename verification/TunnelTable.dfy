/** The table of live tunnels (tunnel.go, events.go). Every access holds its lock, so each step is atomic:
    construction registers a tunnel, the application gets it or construction fails and removes it,
    the relay closes it, or the whole connection drops. */
module TunnelTable {
  import opened Basics

  /** How far construction has come. */
  datatype Stage =
    | Opening     // registered, waiting for the relay
    | Returned    // handed to the application
    | Failed      // about to be removed
    | Removed

  datatype Tunnel = Tunnel(stage: Stage, closes: nat)   // `closes`: how often the termination channel was closed

  /** `live` is `None` once the connection has dropped. */
  datatype State = State(tunIdx: nat, live: Option<set<nat>>, tunnels: map<nat, Tunnel>)

  const INIT := State(0, Some({}), map[])

  datatype Step =
    | New                      // newTunnel
    | Return(id: nat)          // construction succeeds
    | Fail(id: nat)            // construction fails
    | Remove(id: nat)          // and the tunnel is deleted from the table
    | CloseOne(id: nat)        // handleTunnelClose
    | Drop                     // handleClose of the connection

  predicate At(s: State, id: nat, stage: Stage) {
    id in s.tunnels && s.tunnels[id].stage == stage
  }

  predicate Enabled(s: State, step: Step) {
    match step
    case Return(id) => At(s, id, Opening)
    case Fail(id) => At(s, id, Opening)
    case Remove(id) => At(s, id, Failed)
    case _ => true
  }

  function SetStage(s: State, id: nat, stage: Stage): State
    requires id in s.tunnels
  {
    s.(tunnels := s.tunnels[id := s.tunnels[id].(stage := stage)])
  }

  /** Closes the termination channels of these tunnels. */
  function CloseAll(tunnels: map<nat, Tunnel>, ids: set<nat>): map<nat, Tunnel> {
    map id | id in tunnels :: if id in ids then tunnels[id].(closes := tunnels[id].closes + 1) else tunnels[id]
  }

  function Next(s: State, step: Step): State
    requires Enabled(s, step)
  {
    match step
    case New =>
      if s.live == None then s
      else State(s.tunIdx + 1, Some(s.live.value + {s.tunIdx}), s.tunnels[s.tunIdx := Tunnel(Opening, 0)])
    case Return(id) => SetStage(s, id, Returned)
    case Fail(id) => SetStage(s, id, Failed)
    case Remove(id) =>
      SetStage(s, id, Removed).(live := if s.live.Some? then Some(s.live.value - {id}) else None)
    case CloseOne(id) =>
      if s.live.Some? && id in s.live.value
      then s.(live := Some(s.live.value - {id}), tunnels := CloseAll(s.tunnels, {id}))
      else s
    case Drop =>
      if s.live.Some? then s.(live := None, tunnels := CloseAll(s.tunnels, s.live.value)) else s
  }

  function Exec(s: State, steps: seq<Step>): Option<State>
    decreases |steps|
  {
    if steps == [] then Some(s)
    else if Enabled(s, steps[0]) then Exec(Next(s, steps[0]), steps[1..])
    else None
  }

  /** A tunnel is live with its channel open, or closed exactly once, or was removed before anyone had it. */
  ghost predicate Inv(s: State) {
    && (forall id :: id in s.tunnels <==> 0 <= id < s.tunIdx)
    && (s.live.Some? ==> forall id :: id in s.live.value ==>
          id in s.tunnels && s.tunnels[id].closes == 0 && s.tunnels[id].stage != Removed)
    && (forall id :: id in s.tunnels && (s.live == None || id !in s.live.value) ==>
          s.tunnels[id].closes == 1 || (s.tunnels[id].stage == Removed && s.tunnels[id].closes == 0))
  }

  lemma {:induction false} Invariant(s: State, steps: seq<Step>)
    requires Inv(s) && Exec(s, steps).Some?
    ensures Inv(Exec(s, steps).value) && s.tunIdx <= Exec(s, steps).value.tunIdx
    ensures s.live == None ==> Exec(s, steps).value.live == None && Exec(s, steps).value.tunnels.Keys == s.tunnels.Keys
    decreases |steps|
  {
    if steps != [] {
      assert Inv(Next(s, steps[0]));
      Invariant(Next(s, steps[0]), steps[1..]);
    }
  }

  /** In every run no channel is closed twice, live tunnels are open, and ids are the numbers handed out so far. */
  lemma TunnelLifecycle(steps: seq<Step>)
    requires Exec(INIT, steps).Some?
    ensures var s := Exec(INIT, steps).value;
            && (forall id :: id in s.tunnels ==> s.tunnels[id].closes <= 1)
            && (s.live.Some? ==> forall id :: id in s.live.value ==> id in s.tunnels && s.tunnels[id].closes == 0)
            && (forall id :: id in s.tunnels <==> 0 <= id < s.tunIdx)
  {
    hide Exec;
    Invariant(INIT, steps);
  }

  /** A tunnel the application holds is in the table, or its channel is closed: so a call blocked on it always
      either can still be answered or is released. */
  lemma NoneStranded(steps: seq<Step>, id: nat)
    requires Exec(INIT, steps).Some? && At(Exec(INIT, steps).value, id, Returned)
    ensures var s := Exec(INIT, steps).value;
            s.tunnels[id].closes == if s.live.Some? && id in s.live.value then 0 else 1
  {
    hide Exec;
    Invariant(INIT, steps);
  }

  lemma {:induction false} ExecConcat(s: State, xs: seq<Step>, ys: seq<Step>)
    requires Exec(s, xs).Some?
    ensures Exec(s, xs + ys) == Exec(Exec(s, xs).value, ys)
    decreases |xs|
  {
    hide Next, Enabled;
    if xs == [] {
      assert xs + ys == ys;
    } else {
      assert (xs + ys)[1..] == xs[1..] + ys;
      ExecConcat(Next(s, xs[0]), xs[1..], ys);
    }
  }

  /** After a drop every tunnel the application ever gets, then or later, has its channel closed,
      and no tunnel is ever added. */
  lemma DropReleasesAll(before: seq<Step>, after: seq<Step>, id: nat)
    requires Exec(INIT, before).Some? && Exec(INIT, before + [Drop] + after).Some?
    ensures var s, s' := Exec(INIT, before).value, Exec(INIT, before + [Drop] + after).value;
            && s'.live == None && s'.tunnels.Keys == s.tunnels.Keys
            && (At(s', id, Returned) ==> s'.tunnels[id].closes == 1)
            && (s.live.Some? && id in s.live.value ==> id in s'.tunnels && s'.tunnels[id].closes == 1)
  {
    var s := Exec(INIT, before).value;
    Invariant(INIT, before);
    var dropped := Next(s, Drop);
    assert Exec(s, [Drop]) == Exec(dropped, []);
    assert Inv(dropped) && dropped.live == None && dropped.tunnels.Keys == s.tunnels.Keys;
    ExecConcat(INIT, before, [Drop]);
    ExecConcat(INIT, before + [Drop], after);
    Invariant(dropped, after);
    if s.live.Some? && id in s.live.value {
      ClosesStay(dropped, after, id);
    }
  }

  /** A closed channel stays closed. */
  lemma {:induction false} ClosesStay(s: State, steps: seq<Step>, id: nat)
    requires Inv(s) && Exec(s, steps).Some? && id in s.tunnels && s.tunnels[id].closes == 1
    ensures id in Exec(s, steps).value.tunnels && Exec(s, steps).value.tunnels[id].closes == 1
    decreases |steps|
  {
    if steps != [] {
      var s' := Next(s, steps[0]);
      assert Inv(s') && id in s'.tunnels && s'.tunnels[id].closes >= 1;
      ClosesStay(s', steps[1..], id);
    }
  }

  /** The relay's close takes a live tunnel out of the table and closes its channel once, and for good, and touches no
      other; for any other id nothing happens. */
  lemma CloseReleases(before: seq<Step>, after: seq<Step>, id: nat)
    requires Exec(INIT, before).Some? && Exec(INIT, before + [CloseOne(id)] + after).Some?
    ensures var s := Exec(INIT, before).value;
            var s', s'' := Next(s, CloseOne(id)), Exec(INIT, before + [CloseOne(id)] + after).value;
            var live := s.live.Some? && id in s.live.value;
            && (s'.live.Some? ==> id !in s'.live.value)
            && (s''.live.Some? && id in s.tunnels ==> id !in s''.live.value)
            && (live ==> id in s''.tunnels && s''.tunnels[id].closes == 1 && s'.live == Some(s.live.value - {id}))
            && (!live ==> s' == s)
            && (forall other :: other != id && other in s.tunnels ==> other in s'.tunnels && s'.tunnels[other] == s.tunnels[other])
  {
    var s := Exec(INIT, before).value;
    Invariant(INIT, before);
    var closed := Next(s, CloseOne(id));
    assert Exec(s, [CloseOne(id)]) == Exec(closed, []);
    assert Inv(closed);
    ExecConcat(INIT, before, [CloseOne(id)]);
    ExecConcat(INIT, before + [CloseOne(id)], after);
    if id in s.tunnels {
      NeverRelisted(closed, after, id);
    }
    if s.live.Some? && id in s.live.value {
      ClosesStay(closed, after, id);
    }
  }

  /** A tunnel that has left the table never comes back. */
  lemma {:induction false} NeverRelisted(s: State, steps: seq<Step>, id: nat)
    requires Inv(s) && Exec(s, steps).Some? && id in s.tunnels && (s.live.Some? ==> id !in s.live.value)
    ensures Exec(s, steps).value.live.Some? ==> id !in Exec(s, steps).value.live.value
    decreases |steps|
  {
    if steps != [] {
      var s' := Next(s, steps[0]);
      assert Inv(s') && id in s'.tunnels && (s'.live.Some? ==> id !in s'.live.value);
      NeverRelisted(s', steps[1..], id);
    }
  }

  /** While the connection lasts a tunnel can be constructed: it gets a new id, is live and open in the application's
      hands, and no other tunnel changes. Construction can fail too, and then the table is as it was. */
  lemma Constructs(steps: seq<Step>)
    requires Exec(INIT, steps).Some? && Drop !in steps
    ensures var s := Exec(INIT, steps).value;
            var id := s.tunIdx;
            && s.live.Some? && id !in s.tunnels
            && Exec(s, [New, Return(id)])
               == Some(State(id + 1, Some(s.live.value + {id}), s.tunnels[id := Tunnel(Returned, 0)]))
            && Exec(s, [New, Fail(id), Remove(id)])
               == Some(State(id + 1, s.live, s.tunnels[id := Tunnel(Removed, 0)]))
  {
    var s := Exec(INIT, steps).value;
    var id := s.tunIdx;
    Invariant(INIT, steps);
    StaysUp(INIT, steps);
    hide Exec;
    var s1 := Next(s, New);
    assert s1 == State(id + 1, Some(s.live.value + {id}), s.tunnels[id := Tunnel(Opening, 0)]);
    var s2, f2 := Next(s1, Return(id)), Next(s1, Fail(id));
    var f3 := Next(f2, Remove(id));
    assert s2.tunnels == s.tunnels[id := Tunnel(Returned, 0)];
    assert f2.tunnels == s.tunnels[id := Tunnel(Failed, 0)];
    assert f3.tunnels == s.tunnels[id := Tunnel(Removed, 0)];
    assert s.live.value + {id} - {id} == s.live.value;
    ExecTwo(s, New, Return(id));
    ExecThree(s, New, Fail(id), Remove(id));
  }

  lemma ExecTwo(s: State, x: Step, y: Step)
    requires Enabled(s, x) && Enabled(Next(s, x), y)
    ensures Exec(s, [x, y]) == Some(Next(Next(s, x), y))
  {
    hide Next, Enabled;
    assert [x, y][1..] == [y];
    assert Exec(Next(s, x), [y]) == Exec(Next(Next(s, x), y), []);
  }

  lemma ExecThree(s: State, x: Step, y: Step, z: Step)
    requires Enabled(s, x) && Enabled(Next(s, x), y) && Enabled(Next(Next(s, x), y), z)
    ensures Exec(s, [x, y, z]) == Some(Next(Next(Next(s, x), y), z))
  {
    hide Next, Enabled;
    assert [x, y, z][1..] == [y, z];
    ExecTwo(Next(s, x), y, z);
  }

  /** Only a drop ends the table. */
  lemma {:induction false} StaysUp(s: State, steps: seq<Step>)
    requires s.live.Some? && Exec(s, steps).Some? && Drop !in steps
    ensures Exec(s, steps).value.live.Some?
    decreases |steps|
  {
    if steps != [] {
      assert steps[0] in steps;
      StaysUp(Next(s, steps[0]), steps[1..]);
    }
  }

  // ----- the table object

  class Table {
    var tunIdx: nat
    var tunLive: Option<set<nat>>
    var tunnels: map<nat, Tunnel>   // every tunnel object ever made

    constructor ()
      ensures View() == INIT
    {
      tunIdx, tunLive, tunnels := 0, Some({}), map[];
    }

    function View(): State
      reads this
    {
      State(tunIdx, tunLive, tunnels)
    }

    method NewTunnel() returns (id: Option<nat>)
      modifies this
      ensures View() == Next(old(View()), New)
      ensures id == if old(tunLive) == None then None else Some(old(tunIdx))
      ensures id == None ==> View() == old(View())
      ensures id.Some? ==>
                && tunLive == Some(old(tunLive).value + {id.value})
                && tunnels == old(tunnels)[id.value := Tunnel(Opening, 0)]
    {
      if tunLive == None {
        return None;
      }
      id := Some(tunIdx);
      tunnels := tunnels[tunIdx := Tunnel(Opening, 0)];
      tunLive := Some(tunLive.value + {tunIdx});
      tunIdx := tunIdx + 1;
    }

    method HandleTunnelClose(id: nat)
      modifies this`tunLive, this`tunnels
      ensures View() == Next(old(View()), CloseOne(id))
      ensures tunLive.Some? ==> id !in tunLive.value
      ensures tunnels.Keys == old(tunnels).Keys
      ensures var live := old(tunLive).Some? && id in old(tunLive).value;
              forall t :: t in tunnels ==>
                tunnels[t] == old(tunnels)[t].(closes := old(tunnels)[t].closes + if live && t == id then 1 else 0)
    {
      if tunLive.Some? && id in tunLive.value {
        tunnels := CloseAll(tunnels, {id});
        tunLive := Some(tunLive.value - {id});
      }
    }

    /** Goes through the live tunnels one by one, in any order. */
    method HandleClose()
      requires Inv(View())
      modifies this`tunLive, this`tunnels
      ensures View() == Next(old(View()), Drop)
      ensures tunLive == None && tunnels.Keys == old(tunnels).Keys
      ensures forall t :: t in tunnels ==>
                var live := old(tunLive).Some? && t in old(tunLive).value;
                tunnels[t] == old(tunnels)[t].(closes := if live then 1 else old(tunnels)[t].closes)
    {
      if tunLive == None {
        return;
      }
      var todo := tunLive.value;
      while todo != {}
        invariant todo <= old(tunLive).value && tunLive == old(tunLive)
        invariant tunnels == CloseAll(old(tunnels), old(tunLive).value - todo)
        decreases todo
      {
        var id :| id in todo;
        tunnels := CloseAll(tunnels, {id});
        todo := todo - {id};
      }
      tunLive := None;
    }
  }
}
