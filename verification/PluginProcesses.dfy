/** The plugin registries of several processes over one store: what a hold protects, and what it does not. */
module PluginProcesses {
  import opened Domain
  import opened Dependencies
  import opened PluginLives

  /** A process's own part. */
  datatype Own = Own(calls: set<Call>, instances: set<Identity>, task: Task)

  datatype System = System(states: map<Identity, State>, holds: set<Hold>, owns: map<ProcessId, Own>)

  function OwnOf(s: System, p: ProcessId): Own {
    if p in s.owns then s.owns[p] else Own({}, {}, Idle)
  }

  /** The store and the process, without the others. */
  function View(s: System, p: ProcessId): Life {
    var o := OwnOf(s, p);
    Life(s.states, s.holds, o.calls, o.instances, o.task)
  }

  function Written(s: System, p: ProcessId, l: Life): System {
    System(l.states, l.holds, s.owns[p := Own(l.calls, l.instances, l.task)])
  }

  /** One step of one process. */
  datatype Step = Step(process: ProcessId, event: LifeEvent)

  function Do(s: System, x: Step): System {
    Written(s, x.process, ApplyLife(View(s, x.process), x.event))
  }

  function DoAll(s: System, steps: seq<Step>): System
    decreases |steps|
  {
    if steps == [] then s else DoAll(Do(s, steps[0]), steps[1..])
  }

  const NEW_SYSTEM := System(map[], {}, map[])

  // ---------------------------------------------------------------- held versions

  /** Every version that a run holds is ready or draining. */
  ghost predicate HeldUsable(s: System) {
    forall h :: h in s.holds ==> Usable(s.states, h.version)
  }

  /** The step writes what its reads no longer warrant: the end of a call disposes a version that is held by now, or a
      hold is restored on a version that is not usable by now. */
  predicate Stale(s: System, x: Step) {
    var o := OwnOf(s, x.process);
    || (x.event.Finish? && o.task.Leaving? && o.task.cleared && Held(s.holds, o.task.version))
    || (x.event.Restore? && o.task.Restoring? && !Usable(s.states, o.task.hold.version))
  }

  /** A sweep inside a transaction spares every version that a run goes on holding. */
  lemma SparesHeld(l: Life, e: LifeEvent, h: Hold)
    requires h in l.holds && h in ApplyLife(l, e).holds
    ensures Disposes(l, e, h.version) ==> e.Finish? && l.task == Leaving(h.version, true)
  {
    if e.Release? && !Blocked(l, e) {
      assert h in l.holds - HoldsOf(l, e.run);
    }
  }

  /** A step keeps every held version usable exactly unless it is stale. */
  lemma HeldStaysUsableIff(s: System, x: Step)
    requires HeldUsable(s)
    ensures HeldUsable(Do(s, x)) <==> !Stale(s, x)
  {
    hide Disposes, ApplyLife;
    var l, e := View(s, x.process), x.event;
    var n := ApplyLife(l, e);
    if Stale(s, x) {
      StaleHarms(s, x);
    } else {
      forall h | h in n.holds ensures Usable(n.states, h.version) {
        if h in l.holds {
          DisposesIff(l, e, h.version);
          SparesHeld(l, e, h);
        } else {
          GainsHoldIff(l, e, h);
          GainedUsable(l, e, h);
        }
      }
    }
  }

  lemma GainedUsable(l: Life, e: LifeEvent, h: Hold)
    requires h !in l.holds && h in ApplyLife(l, e).holds && Usable(l.states, h.version)
    ensures Usable(ApplyLife(l, e).states, h.version)
  {
    GainsHoldIff(l, e, h);
    DisposesIff(l, e, h.version);
  }

  lemma StaleHarms(s: System, x: Step)
    requires HeldUsable(s) && Stale(s, x)
    ensures !HeldUsable(Do(s, x))
  {
    var o, n := OwnOf(s, x.process), Do(s, x);
    if x.event.Finish? {
      var h :| h in s.holds && h.version == o.task.version;
      assert h in n.holds && !Usable(n.states, h.version);
    } else {
      assert o.task.hold in n.holds && !Usable(n.states, o.task.hold.version);
    }
  }

  ghost predicate NoneStale(s: System, steps: seq<Step>)
    decreases |steps|
  {
    steps != [] ==> !Stale(s, steps[0]) && NoneStale(Do(s, steps[0]), steps[1..])
  }

  /** Over all processes: as long as no step is stale, a version that a run holds is neither disposed nor failed. */
  lemma {:induction false} HeldIsNeverDisposed(s: System, steps: seq<Step>)
    requires HeldUsable(s) && NoneStale(s, steps)
    ensures HeldUsable(DoAll(s, steps))
    decreases |steps|
  {
    hide HeldUsable, Do, Stale;
    if steps != [] {
      HeldStaysUsableIff(s, steps[0]);
      HeldIsNeverDisposed(Do(s, steps[0]), steps[1..]);
    }
  }

  // ---------------------------------------------------------------- when the end of a call goes stale

  predicate RenewedBy(s: System, x: Step, v: Identity) {
    Renews(View(s, x.process), x.event, v)
  }

  predicate DormantIn(s: System, v: Identity, holds: set<Hold>) {
    v in s.states && !s.states[v].Ready? && forall h :: h in s.holds && h.version == v ==> h in holds
  }

  ghost predicate NoneRenews(s: System, steps: seq<Step>, v: Identity)
    decreases |steps|
  {
    steps != [] ==> !RenewedBy(s, steps[0], v) && NoneRenews(Do(s, steps[0]), steps[1..], v)
  }

  /** Over all processes: a version that is not ready gains no hold and does not become ready, until a process loads it
      anew or restores a lost hold of it. */
  lemma {:induction false} DrainingGainsNone(s: System, steps: seq<Step>, v: Identity, holds: set<Hold>)
    requires DormantIn(s, v, holds) && NoneRenews(s, steps, v)
    ensures DormantIn(DoAll(s, steps), v, holds)
    decreases |steps|
  {
    hide ApplyLife, Renews;
    if steps != [] {
      DormantStays(View(s, steps[0].process), steps[0].event, v, holds);
      DrainingGainsNone(Do(s, steps[0]), steps[1..], v, holds);
    }
  }

  /** So between its read of the holds and its write, the end of a call goes stale only if another process loads the
      version anew or restores a hold of it. */
  lemma FinishIsFresh(s: System, steps: seq<Step>, p: ProcessId, v: Identity, fails: bool)
    requires OwnOf(s, p).task == Leaving(v, false) && v in s.states && !s.states[v].Ready?
    requires OwnOf(Do(s, Step(p, Clear)), p).task == Leaving(v, true)
    requires NoneRenews(Do(s, Step(p, Clear)), steps, v)
    requires OwnOf(DoAll(Do(s, Step(p, Clear)), steps), p).task == Leaving(v, true)
    ensures !Stale(DoAll(Do(s, Step(p, Clear)), steps), Step(p, Finish(fails)))
  {
    var c := Do(s, Step(p, Clear));
    assert Unused(View(s, p), v);
    DrainingGainsNone(c, steps, v, {});
  }

  ghost predicate NoneDisposes(s: System, steps: seq<Step>, v: Identity)
    decreases |steps|
  {
    steps != [] ==>
      !Disposes(View(s, steps[0].process), steps[0].event, v) && NoneDisposes(Do(s, steps[0]), steps[1..], v)
  }

  /** And between its reads and its write, the restoring of a hold goes stale only if a process disposes the version. */
  lemma {:induction false} RestoreIsFresh(s: System, steps: seq<Step>, p: ProcessId, h: Hold)
    requires Usable(s.states, h.version) && NoneDisposes(s, steps, h.version)
    requires OwnOf(DoAll(s, steps), p).task == Restoring(h)
    ensures !Stale(DoAll(s, steps), Step(p, Restore))
    decreases |steps|
  {
    hide Disposes, ApplyLife;
    if steps != [] {
      DisposesIff(View(s, steps[0].process), steps[0].event, h.version);
      RestoreIsFresh(Do(s, steps[0]), steps[1..], p, h);
    }
  }

  // ---------------------------------------------------------------- calls in flight

  predicate InCall(s: System, q: ProcessId, c: Call) {
    c in OwnOf(s, q).calls
  }

  /** Every call in flight still has its hold. */
  ghost predicate Attended(s: System) {
    forall q, c :: InCall(s, q, c) ==> c.hold in s.holds
  }

  /** The step releases a run that has a call in flight, in whatever process. */
  ghost predicate Abandons(s: System, x: Step) {
    && x.event.Release? && OwnOf(s, x.process).task.Idle?
    && exists q, c :: InCall(s, q, c) && c.hold.run == x.event.run
  }

  /** A step leaves every call its hold exactly unless it releases a run that has a call in flight. */
  lemma AttendedStaysIff(s: System, x: Step)
    requires Attended(s)
    ensures Attended(Do(s, x)) <==> !Abandons(s, x)
  {
    hide Unused, Ends, Sweeps;
    var n := Do(s, x);
    if Abandons(s, x) {
      var q, c :| InCall(s, q, c) && c.hold.run == x.event.run;
      assert InCall(n, q, c) && c.hold !in n.holds;
    } else {
      forall q, c | InCall(n, q, c) ensures c.hold in n.holds {
        assert InCall(s, q, c) || x.event == LifeEvent.Enter(c);
      }
    }
  }

  ghost predicate NoneAbandons(s: System, steps: seq<Step>)
    decreases |steps|
  {
    steps != [] ==> !Abandons(s, steps[0]) && NoneAbandons(Do(s, steps[0]), steps[1..])
  }

  /** Over all processes: if runs are released only without a call in flight, and no step is stale, every version that a
      call uses is ready or draining. */
  lemma {:induction false} InUseIsNotDisposed(s: System, steps: seq<Step>, q: ProcessId, c: Call)
    requires HeldUsable(s) && Attended(s) && NoneStale(s, steps) && NoneAbandons(s, steps)
    requires InCall(DoAll(s, steps), q, c)
    ensures c.hold in DoAll(s, steps).holds && Usable(DoAll(s, steps).states, c.hold.version)
    decreases |steps|
  {
    hide HeldUsable, Attended, Do, Stale, Abandons;
    if steps == [] {
      AttendedUsable(s, q, c);
    } else {
      HeldStaysUsableIff(s, steps[0]);
      AttendedStaysIff(s, steps[0]);
      InUseIsNotDisposed(Do(s, steps[0]), steps[1..], q, c);
    }
  }

  lemma AttendedUsable(s: System, q: ProcessId, c: Call)
    requires HeldUsable(s) && Attended(s) && InCall(s, q, c)
    ensures c.hold in s.holds && Usable(s.states, c.hold.version)
  {}

  /** A step of one process takes the version from another process's call exactly if its own guards let it dispose the
      version, whatever the call; and unless it is stale, the call's hold has been given up by then. */
  lemma DisposesInUseIff(s: System, x: Step, q: ProcessId, c: Call)
    requires InCall(s, q, c) && q != x.process && Usable(s.states, c.hold.version)
    ensures InCall(Do(s, x), q, c)
    ensures !Usable(Do(s, x).states, c.hold.version) <==> Disposes(View(s, x.process), x.event, c.hold.version)
    ensures !Usable(Do(s, x).states, c.hold.version) && !Stale(s, x) ==> c.hold !in Do(s, x).holds
  {
    hide Disposes, ApplyLife;
    var l, e, v := View(s, x.process), x.event, c.hold.version;
    DisposesIff(l, e, v);
    if Disposes(l, e, v) && c.hold in ApplyLife(l, e).holds {
      DisposedUnheld(l, e, c.hold);
    }
  }

  lemma DisposedUnheld(l: Life, e: LifeEvent, h: Hold)
    requires Disposes(l, e, h.version) && h in ApplyLife(l, e).holds
    ensures e.Finish? && l.task == Leaving(h.version, true) && Held(l.holds, h.version)
  {
    hide Ends, Unused, Sweeps;
    if h in l.holds {
      SparesHeld(l, e, h);
    } else {
      GainsHoldIff(l, e, h);
    }
  }

  /** A process in the middle of disposing a version has no call of it. */
  predicate OwnTask(l: Life) {
    l.task.Leaving? && l.task.cleared ==> !Called(l.calls, l.task.version)
  }

  /** A process spares its own calls. */
  lemma SparesOwnCalls(l: Life, e: LifeEvent, v: Identity)
    requires OwnTask(l)
    ensures OwnTask(ApplyLife(l, e))
    ensures Disposes(l, e, v) ==> !Called(ApplyLife(l, e).calls, v)
  {}

  // ---------------------------------------------------------------- what goes wrong

  /** Some steps from an empty store lead here, none of them stale. */
  ghost predicate Reached(s: System) {
    exists steps :: NoneStale(NEW_SYSTEM, steps) && s == DoAll(NEW_SYSTEM, steps)
  }

  lemma Continues(s: System, x: Step)
    requires Reached(s) && !Stale(s, x)
    ensures Reached(Do(s, x))
  {
    hide Do, Stale;
    var steps :| NoneStale(NEW_SYSTEM, steps) && s == DoAll(NEW_SYSTEM, steps);
    OneMoreStep(NEW_SYSTEM, steps, x);
  }

  lemma {:induction false} OneMoreStep(s: System, steps: seq<Step>, x: Step)
    requires NoneStale(s, steps) && !Stale(DoAll(s, steps), x)
    ensures NoneStale(s, steps + [x]) && DoAll(s, steps + [x]) == Do(DoAll(s, steps), x)
    decreases |steps|
  {
    hide Do, Stale;
    if steps == [] {
      assert steps + [x] == [x] && [x][1..] == [];
      assert DoAll(Do(s, x), []) == Do(s, x) && NoneStale(Do(s, x), []);
    } else {
      assert (steps + [x])[0] == steps[0] && (steps + [x])[1..] == steps[1..] + [x];
      OneMoreStep(Do(s, steps[0]), steps[1..], x);
    }
  }

  lemma StartsEmpty()
    ensures Reached(NEW_SYSTEM)
  {
    var none: seq<Step> := [];
    assert NoneStale(NEW_SYSTEM, none) && DoAll(NEW_SYSTEM, none) == NEW_SYSTEM;
  }

  /** Two processes and one version; process 2 has no call and is in the middle of nothing. */
  function Two(v: Identity, state: State, holds: set<Hold>, calls: set<Call>, task: Task,
               instances: set<Identity>): System {
    System(map[v := state], holds, map[1 := Own(calls, {v}, task), 2 := Own({}, instances, Idle)])
  }

  function One(v: Identity, state: State, holds: set<Hold>, calls: set<Call>, task: Task): Life {
    Life(map[v := state], holds, calls, {v}, task)
  }

  function Other(v: Identity, state: State, holds: set<Hold>, instances: set<Identity>): Life {
    Life(map[v := state], holds, {}, instances, Idle)
  }

  lemma OneActs(v: Identity, state: State, holds: set<Hold>, calls: set<Call>, task: Task, instances: set<Identity>,
                e: LifeEvent, n: Life)
    requires ApplyLife(One(v, state, holds, calls, task), e) == n && n.instances == {v}
    requires n.states.Keys == {v}
    ensures Do(Two(v, state, holds, calls, task, instances), Step(1, e))
         == Two(v, n.states[v], n.holds, n.calls, n.task, instances)
  {
    hide ApplyLife;
    assert n.states == map[v := n.states[v]];
  }

  lemma OtherActs(v: Identity, state: State, holds: set<Hold>, calls: set<Call>, task: Task, instances: set<Identity>,
                  e: LifeEvent, n: Life)
    requires ApplyLife(Other(v, state, holds, instances), e) == n && n.calls == {} && n.task == Idle
    requires n.states.Keys == {v}
    ensures Do(Two(v, state, holds, calls, task, instances), Step(2, e))
         == Two(v, n.states[v], n.holds, calls, task, n.instances)
  {
    hide ApplyLife;
    assert n.states == map[v := n.states[v]];
  }

  /** Both processes load the version. */
  lemma BothLoad(v: Identity)
    ensures Reached(Two(v, Ready, {}, {}, Idle, {v}))
  {
    hide Reached;
    var e := LifeEvent.Load(v);
    StartsEmpty();
    Continues(NEW_SYSTEM, Step(1, e));
    Continues(Do(NEW_SYSTEM, Step(1, e)), Step(2, e));
    assert ApplyLife(View(NEW_SYSTEM, 1), e) == One(v, Ready, {}, {}, Idle);
    var s := Do(NEW_SYSTEM, Step(1, e));
    assert s.owns == map[1 := Own({}, {v}, Idle)];
    assert ApplyLife(View(s, 2), e) == Other(v, Ready, {}, {v});
    assert Do(s, Step(2, e)).owns == map[1 := Own({}, {v}, Idle), 2 := Own({}, {v}, Idle)];
  }

  /** Run 1 holds a version that both processes have loaded, and calls it in process 1; process 2 drains it. */
  lemma Calling(v: Identity)
    ensures Reached(Two(v, Draining, {Hold(v, 1)}, {Call(Hold(v, 1), 0)}, Idle, {v}))
  {
    hide Reached, Do, Stale;
    var one, c := Hold(v, 1), Call(Hold(v, 1), 0);
    BothLoad(v);
    NotStale(Two(v, Ready, {}, {}, Idle, {v}), Step(1, Bind(one)));
    Continues(Two(v, Ready, {}, {}, Idle, {v}), Step(1, Bind(one)));
    OneActs(v, Ready, {}, {}, Idle, {v}, Bind(one), One(v, Ready, {one}, {}, Idle));
    NotStale(Two(v, Ready, {one}, {}, Idle, {v}), Step(1, LifeEvent.Enter(c)));
    Continues(Two(v, Ready, {one}, {}, Idle, {v}), Step(1, LifeEvent.Enter(c)));
    OneActs(v, Ready, {one}, {}, Idle, {v}, LifeEvent.Enter(c), One(v, Ready, {one}, {c}, Idle));
    NotStale(Two(v, Ready, {one}, {c}, Idle, {v}), Step(2, LifeEvent.Drain(v, {})));
    Continues(Two(v, Ready, {one}, {c}, Idle, {v}), Step(2, LifeEvent.Drain(v, {})));
    var d := Other(v, Draining, {one}, {v});
    assert one in d.holds && Held(d.holds, v);
    assert ApplyLife(Other(v, Ready, {one}, {v}), LifeEvent.Drain(v, {})) == d;
    OtherActs(v, Ready, {one}, {c}, Idle, {v}, LifeEvent.Drain(v, {}), d);
  }

  lemma NotStale(s: System, x: Step)
    requires !x.event.Finish? && !x.event.Restore?
    ensures !Stale(s, x)
  {}

  /** The other process releases the run, does not see the call, and disposes the version under it. */
  lemma DisposedUnderCall(v: Identity)
    ensures exists s: System, c: Call, x: Step ::
      && Reached(s) && InCall(s, 1, c) && c.hold.version == v && Usable(s.states, v)
      && x.process == 2 && !Stale(s, x) && InCall(Do(s, x), 1, c)
      && v in Do(s, x).states && Do(s, x).states[v].Disposed?
  {
    hide Reached;
    Calling(v);
    var one, x, c := Hold(v, 1), Step(2, Release(1, {})), Call(Hold(v, 1), 0);
    var s := Two(v, Draining, {one}, {c}, Idle, {v});
    assert one in HoldsOf(View(s, 2), 1);
    assert InCall(s, 1, c) && Ends(View(s, 2), HoldsOf(View(s, 2), 1), v);
    assert Do(s, x).states[v].Disposed? && InCall(Do(s, x), 1, c);
  }

  /** Process 1 has released run 1, and the end of its call has read that the version drains and is not held. */
  lemma Cleared(v: Identity)
    ensures Reached(Two(v, Draining, {}, {}, Leaving(v, true), {v}))
  {
    hide Reached, Do, Stale;
    var one, c := Hold(v, 1), Call(Hold(v, 1), 0);
    Calling(v);
    var s := Two(v, Draining, {one}, {c}, Idle, {v});
    NotStale(s, Step(1, Release(1, {})));
    Continues(s, Step(1, Release(1, {})));
    var l := One(v, Draining, {one}, {c}, Idle);
    assert HoldsOf(l, 1) == {one} && c in l.calls;
    assert ApplyLife(l, Release(1, {})) == One(v, Draining, {}, {c}, Idle);
    OneActs(v, Draining, {one}, {c}, Idle, {v}, Release(1, {}), One(v, Draining, {}, {c}, Idle));
    NotStale(Two(v, Draining, {}, {c}, Idle, {v}), Step(1, LifeEvent.Leave(c)));
    Continues(Two(v, Draining, {}, {c}, Idle, {v}), Step(1, LifeEvent.Leave(c)));
    var left := One(v, Draining, {}, {}, Leaving(v, false));
    assert ApplyLife(One(v, Draining, {}, {c}, Idle), LifeEvent.Leave(c)) == left;
    OneActs(v, Draining, {}, {c}, Idle, {v}, LifeEvent.Leave(c), left);
    NotStale(Two(v, Draining, {}, {}, Leaving(v, false), {v}), Step(1, LifeEvent.Clear));
    Continues(Two(v, Draining, {}, {}, Leaving(v, false), {v}), Step(1, LifeEvent.Clear));
    OneActs(v, Draining, {}, {}, Leaving(v, false), {v}, LifeEvent.Clear, One(v, Draining, {}, {}, Leaving(v, true)));
  }

  /** Before it writes, the other process disposes the version, loads it anew and binds run 2. */
  lemma Renewed(v: Identity)
    ensures Reached(Two(v, Ready, {Hold(v, 2)}, {}, Leaving(v, true), {v}))
  {
    hide Reached, Do, Stale;
    var task := Leaving(v, true);
    Cleared(v);
    NotStale(Two(v, Draining, {}, {}, task, {v}), Step(2, LifeEvent.Drain(v, {})));
    Continues(Two(v, Draining, {}, {}, task, {v}), Step(2, LifeEvent.Drain(v, {})));
    assert ApplyLife(Other(v, Draining, {}, {v}), LifeEvent.Drain(v, {})) == Other(v, Disposed, {}, {});
    OtherActs(v, Draining, {}, {}, task, {v}, LifeEvent.Drain(v, {}), Other(v, Disposed, {}, {}));
    NotStale(Two(v, Disposed, {}, {}, task, {}), Step(2, LifeEvent.Load(v)));
    Continues(Two(v, Disposed, {}, {}, task, {}), Step(2, LifeEvent.Load(v)));
    assert ApplyLife(Other(v, Disposed, {}, {}), LifeEvent.Load(v)) == Other(v, Ready, {}, {v});
    OtherActs(v, Disposed, {}, {}, task, {}, LifeEvent.Load(v), Other(v, Ready, {}, {v}));
    NotStale(Two(v, Ready, {}, {}, task, {v}), Step(2, Bind(Hold(v, 2))));
    Continues(Two(v, Ready, {}, {}, task, {v}), Step(2, Bind(Hold(v, 2))));
    OtherActs(v, Ready, {}, {}, task, {v}, Bind(Hold(v, 2)), Other(v, Ready, {Hold(v, 2)}, {v}));
  }

  /** The end of a call reads that its version drains unheld; the other process disposes it, loads it anew and binds a
      run; the first one then writes, and the run holds a disposed version. */
  lemma StaleDisposal(v: Identity)
    ensures exists s: System, x: Step ::
      && Reached(s) && HeldUsable(s) && Stale(s, x) && Hold(v, 2) in s.holds && Hold(v, 2) in Do(s, x).holds
      && v in Do(s, x).states && Do(s, x).states[v].Disposed?
  {
    hide Reached;
    Renewed(v);
    var s, x := Two(v, Ready, {Hold(v, 2)}, {}, Leaving(v, true), {v}), Step(1, LifeEvent.Finish(false));
    assert Hold(v, 2) in s.holds && Stale(s, x);
    assert Do(s, x).states[v].Disposed?;
  }
}
