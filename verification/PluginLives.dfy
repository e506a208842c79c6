/** Plugin versions, as one process sees and changes them: who may use one, and when one is disposed. */
module PluginLives {
  import opened Domain
  import opened Dependencies
  import opened Plugins

  datatype State = Ready | Draining | Disposed | DisposeFailed

  /** A run's hold on a version. */
  datatype Hold = Hold(version: Identity, run: RunId)

  /** A call in flight. */
  datatype Call = Call(hold: Hold, id: nat)

  /** Two operations read and write in transactions of their own: the end of a call, which has read that its version
      drains, and then that nothing uses it (`cleared`), before it writes; and the restoring of a lost hold. */
  datatype Task = Idle | Leaving(version: Identity, cleared: bool) | Restoring(hold: Hold)

  /** States and holds are stored, and all processes share them; calls in flight, instances and what it is doing are
      the process's own. */
  datatype Life = Life(
    states: map<Identity, State>, holds: set<Hold>, calls: set<Call>, instances: set<Identity>, task: Task)

  predicate Held(holds: set<Hold>, v: Identity) {
    exists h :: h in holds && h.version == v
  }

  predicate Called(calls: set<Call>, v: Identity) {
    exists c :: c in calls && c.hold.version == v
  }

  /** No run holds the version, and no call of this process uses it. */
  predicate Unused(l: Life, v: Identity) {
    !Held(l.holds, v) && !Called(l.calls, v)
  }

  predicate Usable(states: map<Identity, State>, v: Identity) {
    v in states && (states[v].Ready? || states[v].Draining?)
  }

  function Gone(fails: bool): State {
    if fails then DisposeFailed else Disposed
  }

  /** The instance is disposed, unless this raises. */
  function DisposeOne(l: Life, v: Identity, fails: bool): Life {
    l.(states := l.states[v := Gone(fails)], instances := if fails then l.instances else l.instances - {v})
  }

  predicate Sweeps(l: Life, v: Identity) {
    v in l.states && l.states[v].Draining? && Unused(l, v)
  }

  /** `_dispose_if_unused` inside a transaction; `failing` are the versions whose disposal raises. */
  function SweepIn(l: Life, v: Identity, failing: set<Identity>): Life {
    if Sweeps(l, v) then DisposeOne(l, v, v in failing) else l
  }

  function BindIn(l: Life, h: Hold): Life {
    if h.version in l.states && l.states[h.version].Ready? then l.(holds := l.holds + {h}) else l
  }

  /** The hold is read before the state.  If the hold is given up in between, the call might as well have entered
      before that, for a held version is usable. */
  function EnterIn(l: Life, c: Call): Life {
    if c !in l.calls && c.hold in l.holds && c.hold.version in l.instances && Usable(l.states, c.hold.version)
    then l.(calls := l.calls + {c}) else l
  }

  /** The count goes down, and the state is read. */
  function LeaveIn(l: Life, c: Call): Life {
    if c !in l.calls then l
    else
      var v := c.hold.version;
      l.(calls := l.calls - {c},
         task := if v in l.states && l.states[v].Draining? then Leaving(v, false) else Idle)
  }

  /** The holds and the count are read. */
  function ClearIn(l: Life): Life {
    if !l.task.Leaving? || l.task.cleared then l
    else l.(task := if Unused(l, l.task.version) then Leaving(l.task.version, true) else Idle)
  }

  /** The version is disposed, and its record overwritten. */
  function FinishIn(l: Life, fails: bool): Life {
    if !l.task.Leaving? || !l.task.cleared then l else DisposeOne(l, l.task.version, fails).(task := Idle)
  }

  function DrainIn(l: Life, v: Identity, failing: set<Identity>): Life {
    if v !in l.states || l.states[v].Disposed? then l
    else SweepIn(l.(states := l.states[v := Draining]), v, failing)
  }

  /** The draining versions whose last use `dropped` was. */
  predicate Ends(l: Life, dropped: set<Hold>, v: Identity) {
    v in l.states && l.states[v].Draining? && Held(dropped, v) && Unused(l.(holds := l.holds - dropped), v)
  }

  /** All holds of `dropped` are given up. */
  function GiveIn(l: Life, dropped: set<Hold>, failing: set<Identity>): Life {
    l.(states := map v | v in l.states :: if Ends(l, dropped, v) then Gone(v in failing) else l.states[v],
       holds := l.holds - dropped,
       instances := set v | v in l.instances && (Ends(l, dropped, v) ==> v in failing))
  }

  function HoldsOf(l: Life, run: RunId): set<Hold> {
    set h | h in l.holds && h.run == run
  }

  function HoldsOutside(l: Life, live: set<RunId>): set<Hold> {
    set h | h in l.holds && h.run !in live
  }

  /** A version whose instance is there is left as it is. */
  function LoadIn(l: Life, v: Identity): Life {
    if v in l.instances then l
    else l.(states := l.states[v := if v in l.states && l.states[v].Draining? then Draining else Ready],
            instances := l.instances + {v})
  }

  /** A hold of a live run is missing, and its version usable. */
  function MissIn(l: Life, h: Hold): Life {
    if h !in l.holds && Usable(l.states, h.version) then l.(task := Restoring(h)) else l
  }

  function RestoreIn(l: Life): Life {
    if l.task.Restoring? then l.(holds := l.holds + {l.task.hold}, task := Idle) else l
  }

  /** What a process does.  Binding, draining and releasing are each one transaction. */
  datatype LifeEvent =
    | Bind(hold: Hold)
    | Enter(entering: Call)
    | Leave(left: Call)
    | Clear
    | Finish(fails: bool)
    | Drain(drained: Identity, failing: set<Identity>)
    | Release(run: RunId, failing: set<Identity>)
    | Load(loaded: Identity)
    | Miss(lost: Hold)
    | Restore
    | Restart

  /** The process's lock keeps it from starting another operation in the middle of one. */
  predicate Blocked(l: Life, e: LifeEvent) {
    !l.task.Idle? && !e.Clear? && !e.Finish? && !e.Restore? && !e.Restart?
  }

  function ApplyLife(l: Life, e: LifeEvent): Life {
    if Blocked(l, e) then l
    else
      match e
      case Bind(h) => BindIn(l, h)
      case Enter(c) => EnterIn(l, c)
      case Leave(c) => LeaveIn(l, c)
      case Clear => ClearIn(l)
      case Finish(fails) => FinishIn(l, fails)
      case Drain(v, failing) => DrainIn(l, v, failing)
      case Release(run, failing) => GiveIn(l, HoldsOf(l, run), failing)
      case Load(v) => LoadIn(l, v)
      case Miss(h) => MissIn(l, h)
      case Restore => RestoreIn(l)
      case Restart => l.(calls := {}, instances := {}, task := Idle)
  }

  const NEW_LIFE := Life(map[], {}, {}, {}, Idle)

  // ---------------------------------------------------------------- what one operation does

  /** A run gains a hold by binding a version that is ready, or by getting back one that was missed, and in no other
      way. */
  lemma GainsHoldIff(l: Life, e: LifeEvent, h: Hold)
    requires h !in l.holds
    ensures h in ApplyLife(l, e).holds
       <==> || (e == Bind(h) && l.task.Idle? && h.version in l.states && l.states[h.version].Ready?)
            || (e.Restore? && l.task == Restoring(h))
  {
    hide Unused, Ends, Sweeps;
  }

  /** The event disposes the version, or fails to; what it sees of the version before is the guard. */
  predicate Disposes(l: Life, e: LifeEvent, v: Identity) {
    if Blocked(l, e) then false
    else if e.Drain? then
      e.drained == v && v in l.states && !l.states[v].Disposed? && Unused(l, v)
    else if e.Release? then Ends(l, HoldsOf(l, e.run), v)
    else e.Finish? && l.task == Leaving(v, true)
  }

  /** A version that is usable is no longer usable after an event exactly if the event disposes it. */
  lemma DisposesIff(l: Life, e: LifeEvent, v: Identity)
    requires Usable(l.states, v)
    ensures !Usable(ApplyLife(l, e).states, v) <==> Disposes(l, e, v)
  {
    hide Held, Called, Ends;
  }

  /** A call enters with a hold, an instance and a usable version; it ends when it leaves, or with its process. */
  lemma InFlightIff(l: Life, e: LifeEvent, c: Call)
    ensures c !in l.calls ==>
              (c in ApplyLife(l, e).calls <==>
                 && e == Enter(c) && l.task.Idle? && c.hold in l.holds && c.hold.version in l.instances
                 && c.hold.version in l.states
                 && (l.states[c.hold.version].Ready? || l.states[c.hold.version].Draining?))
    ensures c in l.calls ==>
              (c !in ApplyLife(l, e).calls <==> (e == Leave(c) && l.task.Idle?) || e.Restart?)
  {
    hide Unused, Ends, Sweeps;
  }

  /** A hold is given up by the release of its run, and in no other way. */
  lemma LosesHoldIff(l: Life, e: LifeEvent, h: Hold)
    requires h in l.holds
    ensures h !in ApplyLife(l, e).holds <==> e.Release? && e.run == h.run && l.task.Idle?
  {
    hide Unused, Ends, Sweeps;
  }

  /** No call of the process uses the version, and every run that holds it, if any, is the given one. */
  predicate FreeBut(l: Life, v: Identity, run: Option<RunId>) {
    && (forall c :: c in l.calls ==> c.hold.version != v)
    && (forall h :: h in l.holds && h.version == v ==> run == Some(h.run))
  }

  /** The event disposes the version: the drain of one that nothing uses, the release of its last holder, or the end of
      a call that found it unused.  The flag says whether the disposal raises. */
  predicate Ousts(l: Life, e: LifeEvent, v: Identity, raises: bool) {
    match e
    case Drain(x, failing) =>
      && x == v && l.task.Idle? && v in l.states && !l.states[v].Disposed? && FreeBut(l, v, None)
      && raises == (v in failing)
    case Release(run, failing) =>
      && l.task.Idle? && v in l.states && l.states[v].Draining? && FreeBut(l, v, Some(run))
      && (exists h :: h in l.holds && h.version == v) && raises == (v in failing)
    case Finish(fails) => l.task == Leaving(v, true) && raises == fails
    case _ => false
  }

  lemma OustsIff(l: Life, e: LifeEvent, v: Identity)
    ensures (Ousts(l, e, v, true) || Ousts(l, e, v, false)) <==> Disposes(l, e, v)
  {
    if e.Release? {
      var dropped := HoldsOf(l, e.run);
      if Ends(l, dropped, v) {
        var h :| h in dropped && h.version == v;
        forall x | x in l.holds && x.version == v ensures x.run == e.run {
          assert x !in l.holds - dropped;
        }
      }
      if Ousts(l, e, v, true) || Ousts(l, e, v, false) {
        var h :| h in l.holds && h.version == v;
        assert h in dropped;
      }
    }
  }

  /** What an event makes of a version: what is disposed, what drains, what is ready, and what stays as it was. */
  lemma VersionDoes(l: Life, e: LifeEvent, v: Identity)
    ensures var n := ApplyLife(l, e);
            if Ousts(l, e, v, false) then v in n.states && n.states[v].Disposed? && v !in n.instances
            else if Ousts(l, e, v, true) then
              v in n.states && n.states[v].DisposeFailed? && (v in n.instances <==> v in l.instances)
            else if e.Drain? && e.drained == v && l.task.Idle? && v in l.states && !l.states[v].Disposed? then
              v in n.states && n.states[v].Draining? && (v in n.instances <==> v in l.instances)
            else if e == Load(v) && l.task.Idle? && v !in l.instances then
              && v in n.states && v in n.instances
              && (if v in l.states && l.states[v].Draining? then n.states[v].Draining? else n.states[v].Ready?)
            else
              && (v in n.states <==> v in l.states) && (v in l.states ==> n.states[v] == l.states[v])
              && (v in n.instances <==> v in l.instances && !e.Restart?)
  {
    hide Ousts, Held, Called, Ends;
    OustsIff(l, e, v);
    OustsHow(l, e, v);
  }

  lemma OustsHow(l: Life, e: LifeEvent, v: Identity)
    ensures (Ousts(l, e, v, true) || Ousts(l, e, v, false)) && e.Release? ==> v in l.states
    ensures Ousts(l, e, v, true) ==>
              (e.Drain? && v in e.failing) || (e.Release? && v in e.failing) || (e.Finish? && e.fails)
    ensures Ousts(l, e, v, false) ==>
              (e.Drain? && v !in e.failing) || (e.Release? && v !in e.failing) || (e.Finish? && !e.fails)
  {}

  /** What a process is in the middle of: the end of a call of a draining version, until it finds a use or has disposed
      the version, and the restoring of a hold that it missed on a usable one. */
  lemma TaskDoes(l: Life, e: LifeEvent)
    ensures ApplyLife(l, e).task ==
            match e
            case Leave(c) =>
              var v := c.hold.version;
              if l.task.Idle? && c in l.calls && v in l.states && l.states[v].Draining? then Leaving(v, false)
              else l.task
            case Clear =>
              if !l.task.Leaving? || l.task.cleared then l.task
              else if FreeBut(l, l.task.version, None) then Leaving(l.task.version, true) else Idle
            case Finish(_) => if l.task.Leaving? && l.task.cleared then Idle else l.task
            case Miss(h) =>
              if l.task.Idle? && h !in l.holds && h.version in l.states
                 && (l.states[h.version].Ready? || l.states[h.version].Draining?) then Restoring(h) else l.task
            case Restore => if l.task.Restoring? then Idle else l.task
            case Restart => Idle
            case _ => l.task
  {
    hide Ends;
  }

  /** The event may make the version ready, or give a hold of it back. */
  predicate Renews(l: Life, e: LifeEvent, v: Identity) {
    (e.Load? && e.loaded == v) || (e.Restore? && l.task.Restoring? && l.task.hold.version == v)
  }

  /** The version is known and not ready, and no run outside `holds` holds it. */
  predicate Dormant(l: Life, v: Identity, holds: set<Hold>) {
    v in l.states && !l.states[v].Ready? && forall h :: h in l.holds && h.version == v ==> h in holds
  }

  /** A version that is not ready gains no hold and does not become ready, unless the event renews it. */
  lemma DormantStays(l: Life, e: LifeEvent, v: Identity, holds: set<Hold>)
    requires Dormant(l, v, holds) && !Renews(l, e, v)
    ensures Dormant(ApplyLife(l, e), v, holds)
  {
    hide Unused, Ends, Sweeps;
    var n := ApplyLife(l, e);
    forall h | h in n.holds && h.version == v ensures h in holds {
      if h !in l.holds {
        GainsHoldIff(l, e, h);
      }
    }
  }

  // ---------------------------------------------------------------- the registry of one process

  /** Every stored contribution is the last its version's recorded manifest offers under the name. */
  predicate Recorded(manifests: map<Identity, seq<Offer>>, entries: map<Entry, Setting>) {
    forall e :: e in entries ==> e.version in manifests && Last(manifests[e.version], e.name) == Some(entries[e])
  }

  /** Whatever the manifest offers twice, it offers first as last. */
  ghost predicate Level(offers: seq<Offer>) {
    forall name :: Offered(offers, name) ==> First(offers, name) == Last(offers, name)
  }

  ghost predicate AllLevel(manifests: map<Identity, seq<Offer>>) {
    forall v :: v in manifests ==> Level(manifests[v])
  }

  lemma LevelInStep(manifests: map<Identity, seq<Offer>>, b: Board, v: Identity, offers: seq<Offer>)
    requires Recorded(manifests, b.entries) && Level(offers) && (v in manifests ==> manifests[v] == offers)
    ensures InStep(b, v, offers)
  {
    forall name | Offered(offers, name) ensures NameInStep(b, v, offers, name) {}
  }

  lemma ContributedIsRecorded(manifests: map<Identity, seq<Offer>>, b: Board, v: Identity, offers: seq<Offer>)
    requires Recorded(manifests, b.entries) && (v in manifests ==> manifests[v] == offers)
    ensures Recorded(manifests[v := offers], ContributeAll(b, v, offers).entries)
  {
    hide ContributeAll;
    var n := ContributeAll(b, v, offers).entries;
    OthersKept(b, v, offers);
    forall e | e in n
      ensures e.version in manifests[v := offers] && Last(manifests[v := offers][e.version], e.name) == Some(n[e])
    {
      ContributeAllAt(b, v, offers, e.name);
      assert e == Entry(e.version, e.name);
    }
  }

  lemma Loaded(manifests: map<Identity, seq<Offer>>, b: Board, v: Identity, offers: seq<Offer>)
    requires Recorded(manifests, b.entries) && (v in manifests ==> manifests[v] == offers)
    requires AllLevel(manifests) ==> Shown(b)
    ensures AllLevel(manifests[v := offers]) ==> Shown(b) && InStep(b, v, offers)
  {
    hide Shown, InStep, Level, Recorded;
    if AllLevel(manifests[v := offers]) {
      forall x | x in manifests ensures Level(manifests[x]) {
        assert x in manifests[v := offers] && manifests[v := offers][x] == manifests[x];
      }
      assert v in manifests[v := offers];
      LevelInStep(manifests, b, v, offers);
    }
  }

  function Uses(inflight: map<Identity, nat>, v: Identity): nat {
    if v in inflight then inflight[v] else 0
  }

  function CallsOf(calls: set<Call>, v: Identity): set<Call> {
    set c | c in calls && c.hold.version == v
  }

  /** The counts are those of the calls. */
  ghost predicate Counted(inflight: map<Identity, nat>, calls: set<Call>) {
    forall v :: Uses(inflight, v) == |CallsOf(calls, v)|
  }

  lemma CalledIff(inflight: map<Identity, nat>, calls: set<Call>, v: Identity)
    requires Counted(inflight, calls)
    ensures Called(calls, v) <==> Uses(inflight, v) > 0
  {
    if Called(calls, v) {
      var c :| c in calls && c.hold.version == v;
      assert c in CallsOf(calls, v);
    }
    if CallsOf(calls, v) != {} {
      var c :| c in CallsOf(calls, v);
      assert c in calls;
    }
  }

  lemma OneMoreCall(inflight: map<Identity, nat>, calls: set<Call>, c: Call)
    requires Counted(inflight, calls) && c !in calls
    ensures var v := c.hold.version; Counted(inflight[v := Uses(inflight, v) + 1], calls + {c})
  {
    var v := c.hold.version;
    assert CallsOf(calls + {c}, v) == CallsOf(calls, v) + {c};
    forall x | x != v ensures CallsOf(calls + {c}, x) == CallsOf(calls, x) {}
  }

  lemma OneCallLess(inflight: map<Identity, nat>, calls: set<Call>, c: Call)
    requires Counted(inflight, calls) && c in calls
    ensures var v := c.hold.version;
            Uses(inflight, v) > 0 && Counted(inflight[v := (Uses(inflight, v) - 1) as nat], calls - {c})
  {
    var v := c.hold.version;
    assert c in CallsOf(calls, v);
    assert CallsOf(calls - {c}, v) == CallsOf(calls, v) - {c};
    forall x | x != v ensures CallsOf(calls - {c}, x) == CallsOf(calls, x) {}
  }

  class PluginRegistry {
    const extensions: Extensions
    var states: map<Identity, State>
    var manifests: map<Identity, seq<Offer>>
    var holds: set<Hold>
    var inflight: map<Identity, nat>
    var instances: set<Identity>
    /** The calls that `inflight` counts, and what the process is in the middle of. */
    ghost var calls: set<Call>
    ghost var task: Task

    constructor (extensions: Extensions)
      requires extensions.Valid() && extensions.entries == map[] && Shown(extensions.Contents())
      ensures this.extensions == extensions && manifests == map[] && Lives() == NEW_LIFE && Valid()
    {
      this.extensions := extensions;
      states, manifests, holds, inflight, instances := map[], map[], {}, map[], {};
      calls, task := {}, Idle;
    }

    ghost function Lives(): Life
      reads this
    {
      Life(states, holds, calls, instances, task)
    }

    /** Held versions are known, owners are right, and while no manifest contradicts itself, what is published under an
        owned name is what the owner's manifest offers. */
    ghost predicate Valid()
      reads this, extensions
    {
      && extensions.Valid() && Counted(inflight, calls)
      && (forall h :: h in holds ==> h.version in states)
      && manifests.Keys == states.Keys && Recorded(manifests, extensions.entries)
      && (AllLevel(manifests) ==> Shown(extensions.Contents()))
    }

    /** `bind_run`, in the transaction that creates the run: a hold that is there is kept; a new one needs a version
        that is ready. */
    method BindRun(v: Identity, run: RunId) returns (ok: bool)
      requires Valid()
      modifies this`holds
      ensures Valid()
      ensures ok <==> v in states && (Hold(v, run) in old(holds) || states[v].Ready?)
      ensures Lives() == BindIn(old(Lives()), Hold(v, run))
    {
      hide Shown, Recorded, AllLevel, Owned, Counted;
      if v !in states {
        return false;
      } else if Hold(v, run) in holds {
        assert holds == holds + {Hold(v, run)};
        return true;
      } else if !states[v].Ready? {
        return false;
      }
      holds := holds + {Hold(v, run)};
      return true;
    }

    /** The start of `invocation`. */
    method Enter(v: Identity, run: RunId, ghost id: nat) returns (ok: bool)
      requires Valid() && Call(Hold(v, run), id) !in calls
      modifies this`inflight, this`calls
      ensures Valid()
      ensures ok <==> Hold(v, run) in holds && v in instances && Usable(states, v)
      ensures Lives() == EnterIn(old(Lives()), Call(Hold(v, run), id))
    {
      hide Shown, Recorded, AllLevel, Owned, Counted;
      ok := Hold(v, run) in holds && v in instances && v in states && (states[v].Ready? || states[v].Draining?);
      if ok {
        OneMoreCall(inflight, calls, Call(Hold(v, run), id));
        inflight := inflight[v := (if v in inflight then inflight[v] else 0) + 1];
        calls := calls + {Call(Hold(v, run), id)};
      }
    }

    /** The end of `invocation`: the count, and the read of the version's state. */
    method Leave(v: Identity, ghost c: Call) returns (drains: bool)
      requires Valid() && c in calls && c.hold.version == v && v in states
      modifies this`inflight, this`calls, this`task
      ensures Valid() && Lives() == LeaveIn(old(Lives()), c) && drains == task.Leaving?
    {
      hide Shown, Recorded, AllLevel, Owned, Counted;
      OneCallLess(inflight, calls, c);
      inflight := inflight[v := inflight[v] - 1];
      calls := calls - {c};
      drains := states[v].Draining?;
      task := if drains then Leaving(v, false) else Idle;
    }

    /** Its read of the holds and the count. */
    method Clear(v: Identity) returns (unused: bool)
      requires Valid() && task == Leaving(v, false)
      modifies this`task
      ensures Valid() && Lives() == ClearIn(old(Lives())) && unused == task.Leaving?
    {
      hide Shown, Recorded, AllLevel, Owned, Counted;
      CalledIff(inflight, calls, v);
      unused := !Held(holds, v) && (v !in inflight || inflight[v] == 0);
      task := if unused then Leaving(v, true) else Idle;
    }

    /** And its writes. */
    method Finish(v: Identity, fails: bool)
      requires Valid() && task == Leaving(v, true) && v in states
      modifies this`states, this`instances, this`task, extensions
      ensures Valid() && Lives() == FinishIn(old(Lives()), fails)
      ensures extensions.entries == if fails then old(extensions.entries)
                                    else old(extensions.entries) - EntriesBy(old(extensions.entries), v)
    {
      hide Shown, AllLevel, Owned, Counted;
      Dispose(v, fails);
      task := Idle;
    }

    /** The disposal itself: what the version contributed is withdrawn. */
    method Dispose(v: Identity, fails: bool)
      requires Valid() && v in states
      modifies this`states, this`instances, extensions
      ensures Valid() && Lives() == DisposeOne(old(Lives()), v, fails)
      ensures extensions.entries == if fails then old(extensions.entries)
                                    else old(extensions.entries) - EntriesBy(old(extensions.entries), v)
    {
      hide Shown, AllLevel, Owned, Counted;
      if fails {
        states := states[v := DisposeFailed];
      } else {
        extensions.Unregister(v);
        instances := instances - {v};
        states := states[v := Disposed];
      }
    }

    /** `drain`. */
    method Drain(v: Identity, failing: set<Identity>) returns (ok: bool)
      requires Valid()
      modifies this`states, this`instances, extensions
      ensures Valid()
      ensures ok <==> v in old(states)
      ensures Lives() == DrainIn(old(Lives()), v, failing)
    {
      hide Shown, Recorded, AllLevel, Owned, Counted, SweepIn;
      if v !in states {
        return false;
      }
      if !states[v].Disposed? {
        states := states[v := Draining];
        DisposeIfUnused(v, failing);
      }
      return true;
    }

    /** `_dispose_if_unused` in a transaction: only a draining version that no run holds and no call of this process
        uses is disposed. */
    method DisposeIfUnused(v: Identity, failing: set<Identity>)
      requires Valid()
      modifies this`states, this`instances, extensions
      ensures Valid() && Lives() == SweepIn(old(Lives()), v, failing)
      ensures extensions.entries == if old(Sweeps(Lives(), v)) && v !in failing
                                    then old(extensions.entries) - EntriesBy(old(extensions.entries), v)
                                    else old(extensions.entries)
    {
      hide Shown, Recorded, AllLevel, Owned, Counted;
      CalledIff(inflight, calls, v);
      if v in states && states[v].Draining? && !Held(holds, v) && (v !in inflight || inflight[v] == 0) {
        Dispose(v, v in failing);
      }
    }

    /** `release_run`: each hold of the run is dropped, and its version disposed if that was the last use. */
    method ReleaseRun(run: RunId, failing: set<Identity>)
      requires Valid()
      modifies this`holds, this`states, this`instances, extensions
      ensures Valid() && Lives() == GiveIn(old(Lives()), HoldsOf(old(Lives()), run), failing)
    {
      hide Shown, Recorded, AllLevel, Owned, Counted, GiveIn, SweepIn;
      ghost var l := Lives();
      var rest := set h | h in holds && h.run == run;
      ghost var all := rest;
      GivesNothing(l, failing);
      assert all - rest == {};
      while rest != {}
        invariant Valid() && rest <= all && all == HoldsOf(l, run)
        invariant Lives() == GiveIn(l, all - rest, failing)
        decreases |rest|
      {
        var h :| h in rest;
        GivesOneMore(l, all - rest, failing, h);
        holds := holds - {h};
        DisposeIfUnused(h.version, failing);
        assert all - (rest - {h}) == (all - rest) + {h};
        rest := rest - {h};
      }
      assert all - rest == all;
    }

    /** The first half of the manager's `recover`: the holds of runs that are not live are released. */
    method ReleaseDead(live: set<RunId>, failing: set<Identity>)
      requires Valid()
      modifies this`holds, this`states, this`instances, extensions
      ensures Valid() && Lives() == GiveIn(old(Lives()), HoldsOutside(old(Lives()), live), failing)
    {
      hide Shown, Recorded, AllLevel, Owned, Counted, GiveIn;
      ghost var l := Lives();
      var rest := holds;
      ghost var dead := HoldsOutside(l, live);
      ghost var gone: set<Hold> := {};
      GivesNothing(l, failing);
      while rest != {}
        invariant Valid() && rest <= l.holds && gone <= dead
        invariant Lives() == GiveIn(l, gone, failing) && holds == l.holds - gone
        invariant forall h :: h in dead ==> h in rest || h in gone
        decreases |rest|
      {
        var h :| h in rest;
        if h.run !in live {
          ghost var more := HoldsOf(Lives(), h.run);
          GivesTwice(l, gone, more, failing);
          GiveHolds(l, gone + more, failing);
          ReleaseRun(h.run, failing);
          gone := gone + more;
        }
        rest := rest - {h};
      }
      assert gone == dead;
    }

    /** The second half, for one reference of a live run's snapshot: the reads. */
    method MissHold(v: Identity, run: RunId, offers: seq<Offer>) returns (ok: bool)
      requires Valid()
      modifies this`task
      ensures Valid()
      ensures ok <==> || Hold(v, run) in holds
                      || (v in manifests && manifests[v] == offers && Usable(states, v))
      ensures Lives() == if ok then MissIn(old(Lives()), Hold(v, run)) else old(Lives())
    {
      hide Shown, Recorded, AllLevel, Owned, Counted;
      if Hold(v, run) in holds {
        return true;
      } else if v !in manifests || manifests[v] != offers || !(states[v].Ready? || states[v].Draining?) {
        return false;
      }
      task := Restoring(Hold(v, run));
      return true;
    }

    /** And the write. */
    method RestoreHold(v: Identity, run: RunId)
      requires Valid() && task == Restoring(Hold(v, run)) && v in states
      modifies this`holds, this`task
      ensures Valid() && Lives() == RestoreIn(old(Lives()))
    {
      hide Shown, Recorded, AllLevel, Owned, Counted;
      holds := holds + {Hold(v, run)};
      task := Idle;
    }

    /** `load`.  `admitted`: the manifest passed the checks of range, entry point and dependencies; `starts`: its
        implementation can be made.  A version's manifest never changes, and one that drains goes on draining. */
    method Load(v: Identity, offers: seq<Offer>, admitted: bool, starts: bool, rehydrate: bool) returns (ok: bool)
      requires Valid()
      modifies this`states, this`manifests, this`instances, extensions
      ensures Valid()
      ensures var skip := rehydrate && !Usable(old(states), v);
              var same := v !in old(manifests) || old(manifests)[v] == offers;
              var made := admitted && !skip && same && v !in old(instances) && starts
                          && AllFree(old(extensions.Contents()), v, offers) && Unrepeated(offers);
              && (ok <==> admitted && (skip || (same && (v in old(instances) || made))))
              && manifests == (if made then old(manifests)[v := offers] else old(manifests))
              && Lives() == (if made then LoadIn(old(Lives()), v) else old(Lives()))
              && extensions.Contents() == (if made then ContributeAll(old(extensions.Contents()), v, offers)
                                           else old(extensions.Contents()))
    {
      hide Shown, Recorded, AllLevel, AllFree, Unrepeated, Owned, InStep, Counted, ContributeAll;
      if !admitted {
        return false;
      } else if rehydrate && !(v in states && (states[v].Ready? || states[v].Draining?)) {
        return true;
      } else if v in manifests && manifests[v] != offers {
        return false;
      } else if v in instances {
        return true;
      } else if !starts {
        return false;
      }
      ghost var b := extensions.Contents();
      Loaded(manifests, b, v, offers);
      ContributedIsRecorded(manifests, b, v, offers);
      ok := extensions.Register(v, offers);
      if ok {
        states := states[v := if v in states && states[v].Draining? then Draining else Ready];
        manifests := manifests[v := offers];
        instances := instances + {v};
      }
    }

    /** A restart forgets the process's instances and calls; holds, states and manifests are stored. */
    method Restart()
      requires Valid()
      modifies this`inflight, this`instances, this`calls, this`task
      ensures Valid() && Lives() == ApplyLife(old(Lives()), LifeEvent.Restart)
    {
      hide Shown, Recorded, AllLevel, Owned;
      inflight, instances := map[], {};
      calls, task := {}, Idle;
      assert forall v :: CallsOf(calls, v) == {};
    }
  }

  // ---------------------------------------------------------------- giving up holds

  lemma GivesNothing(l: Life, failing: set<Identity>)
    ensures GiveIn(l, {}, failing) == l
  {}

  lemma GiveHolds(l: Life, dropped: set<Hold>, failing: set<Identity>)
    ensures GiveIn(l, dropped, failing).holds == l.holds - dropped
  {}

  lemma SameUse(l: Life, n: Life, v: Identity)
    requires l.holds == n.holds && l.calls == n.calls
    ensures Unused(l, v) == Unused(n, v)
  {}

  lemma FewerHolds(l: Life, dropped: set<Hold>, v: Identity)
    ensures Unused(l, v) ==> Unused(l.(holds := l.holds - dropped), v)
  {
    if Held(l.holds - dropped, v) {
      var h :| h in l.holds - dropped && h.version == v;
      assert h in l.holds;
    }
  }

  /** Giving up one more hold looks at its version, and at no other. */
  lemma GivesOneMore(l: Life, dropped: set<Hold>, failing: set<Identity>, h: Hold)
    requires h in l.holds - dropped
    ensures var n := GiveIn(l, dropped, failing);
            SweepIn(n.(holds := n.holds - {h}), h.version, failing) == GiveIn(l, dropped + {h}, failing)
  {
    hide Unused;
    var v, n := h.version, GiveIn(l, dropped, failing);
    var more, less := l.(holds := l.holds - (dropped + {h})), n.(holds := n.holds - {h});
    forall x ensures Held(dropped + {h}, x) <==> Held(dropped, x) || x == v {
      HeldMore(dropped, h, x);
    }
    forall x ensures Unused(more, x) == Unused(less, x) {
      assert more.holds == less.holds;
      SameUse(more, less, x);
    }
    StillUsed(l, dropped, h);
  }

  lemma HeldMore(dropped: set<Hold>, h: Hold, x: Identity)
    ensures Held(dropped + {h}, x) <==> Held(dropped, x) || x == h.version
  {
    assert h in dropped + {h};
    if Held(dropped, x) {
      var y :| y in dropped && y.version == x;
      assert y in dropped + {h};
    }
  }

  lemma StillUsed(l: Life, dropped: set<Hold>, h: Hold)
    requires h in l.holds - dropped
    ensures !Unused(l.(holds := l.holds - dropped), h.version)
    ensures forall x :: x != h.version ==>
              Unused(l.(holds := l.holds - (dropped + {h})), x) == Unused(l.(holds := l.holds - dropped), x)
  {
    forall x | x != h.version ensures Held(l.holds - (dropped + {h}), x) == Held(l.holds - dropped, x) {
      if Held(l.holds - dropped, x) {
        var y :| y in l.holds - dropped && y.version == x;
        assert y in l.holds - (dropped + {h});
      }
      if Held(l.holds - (dropped + {h}), x) {
        var y :| y in l.holds - (dropped + {h}) && y.version == x;
        assert y in l.holds - dropped;
      }
    }
  }

  /** Giving up holds in two steps is giving them up at once. */
  lemma GivesTwice(l: Life, dropped: set<Hold>, more: set<Hold>, failing: set<Identity>)
    ensures GiveIn(GiveIn(l, dropped, failing), more, failing) == GiveIn(l, dropped + more, failing)
  {
    hide Unused;
    var n := GiveIn(l, dropped, failing);
    assert n.holds - more == l.holds - (dropped + more);
    forall v ensures Ends(l, dropped + more, v) <==> Ends(l, dropped, v) || Ends(n, more, v) {
      HeldEither(dropped, more, v);
      FewerHolds(l.(holds := l.holds - dropped), more, v);
      SameUse(l.(holds := l.holds - (dropped + more)), n.(holds := n.holds - more), v);
      SameUse(l.(holds := l.holds - (dropped + more)), l.(holds := l.holds - dropped - more), v);
      StaysIdle(l, dropped, more, v);
    }
  }

  lemma HeldEither(dropped: set<Hold>, more: set<Hold>, v: Identity)
    ensures Held(dropped + more, v) <==> Held(dropped, v) || Held(more, v)
  {
    if h :| h in dropped + more && h.version == v {
      assert h in dropped || h in more;
    }
    if h :| h in dropped && h.version == v {
      assert h in dropped + more;
    }
    if h :| h in more && h.version == v {
      assert h in dropped + more;
    }
  }

  /** A version that no hold of `more` concerns is used after it as before. */
  lemma StaysIdle(l: Life, dropped: set<Hold>, more: set<Hold>, v: Identity)
    ensures !Held(more, v) ==>
      Unused(l.(holds := l.holds - (dropped + more)), v) == Unused(l.(holds := l.holds - dropped), v)
  {
    if !Held(more, v) {
      if Held(l.holds - dropped, v) {
        var y :| y in l.holds - dropped && y.version == v;
        assert y in l.holds - (dropped + more);
      }
      if Held(l.holds - (dropped + more), v) {
        var y :| y in l.holds - (dropped + more) && y.version == v;
        assert y in l.holds - dropped;
      }
    }
  }
}
