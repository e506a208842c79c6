/** Every event keeps the system's invariant. */
module WorldSteps {
  import opened Domain
  import opened RunMachine
  import opened RunInvariant
  import opened Tables
  import opened TablesInvariant
  import opened RowEvents
  import opened Transactions
  import opened Claiming
  import opened Scans
  import opened Settling
  import opened Gateway
  import opened World
  import opened WorldInvariant

  // ---------------------------------------------------------------- a call's transaction: the history

  lemma NoCallBefore(w: World, s: Slot)
    requires LocksOk(w) && !Known(w.db.cells, s)
    ensures forall lock :: !GrantedOn(w.locks, lock, s) && !AnsweringOn(w.locks, lock, s)
  {
    forall lock | lock in w.locks && lock.slot == s ensures w.locks[lock].phase.Looked? {
      assert LockOk(w, lock);
    }
  }

  lemma GateStarts(x: Operation, y: Operation, starts: nat, locks: Locks, lock: LockKey, g: GateEvent)
    requires lock in locks && Enabled(locks[lock].phase, g) && StartsOnce(x, starts, locks, lock.slot)
    requires y.state.Prepared? ==> x.state.Prepared?
    requires if g.Authorize? then x.state.Prepared? && !y.state.Prepared? else true
    ensures StartsOnce(y, starts, Progress(locks, lock, NextPhase(locks[lock].phase, g, y.revision)), lock.slot)
  {
    var n := Progress(locks, lock, NextPhase(locks[lock].phase, g, y.revision));
    forall l | GrantedOn(n, l, lock.slot) ensures starts == 0 && !y.state.Prepared? {
      assert l == lock || GrantedOn(locks, l, lock.slot);
      assert locks[lock].phase.Granted? ==> GrantedOn(locks, lock, lock.slot);
    }
    forall a, b | GrantedOn(n, a, lock.slot) && GrantedOn(n, b, lock.slot) ensures a == b {
      assert (a == lock || GrantedOn(locks, a, lock.slot)) && (b == lock || GrantedOn(locks, b, lock.slot));
    }
  }

  lemma GateSends(c: Cell, d: Cell, now: Time, sends: nat, locks: Locks, lock: LockKey, g: GateEvent, maxRounds: nat)
    requires lock in locks && Enabled(locks[lock].phase, g) && lock.slot.op in c.ops
    requires GateCell(c, now, lock.slot.op, locks[lock], g, maxRounds) == Ok(d) && lock.slot.op in d.ops
    requires PhaseOk(c.ops, lock.slot.op, locks[lock].phase, false, sends)
    requires SentOnce(c.ops[lock.slot.op], sends, locks, lock.slot, maxRounds)
    ensures SentOnce(d.ops[lock.slot.op], sends,
                     Progress(locks, lock, NextPhase(locks[lock].phase, g, d.ops[lock.slot.op].revision)),
                     lock.slot, maxRounds)
  {
    hide FencePasses, GrantStands, Registered;
    var n := Progress(locks, lock, NextPhase(locks[lock].phase, g, d.ops[lock.slot.op].revision));
    assert forall l :: AnsweringOn(n, l, lock.slot) ==> l == lock || AnsweringOn(locks, l, lock.slot);
    assert !g.TakeAnswer? ==> !AnsweringOn(n, lock, lock.slot) || AnsweringOn(locks, lock, lock.slot);
  }

  lemma NewOperation(op: Operation, locks: Locks, s: Slot, maxRounds: nat)
    requires op.state.Prepared? && op.meta.continuation.None? && (op.tool.kind.HostWait? ==> op.tool.effect.Read?)
    requires forall lock :: !GrantedOn(locks, lock, s) && !AnsweringOn(locks, lock, s)
    ensures OpHistory(op, 0, 0, locks, s, maxRounds)
  {}

  /** The event's own operation. */
  lemma GateOwnHistory(w: World, cfg: Config, lock: LockKey, g: GateEvent, d: Cell)
    requires LocksOk(w) && lock in w.locks && lock.slot !in w.resets && Enabled(w.locks[lock].phase, g)
    requires lock.slot.run in w.db.cells && lock.slot.op in d.ops
    requires Current(w.db.cells[lock.slot.run], w.locks[lock].ctx)
    requires GateCell(w.db.cells[lock.slot.run], w.now, lock.slot.op, w.locks[lock], g, cfg.maxRounds) == Ok(d)
    requires History(w.db.cells, lock.slot, Times(w.starts, lock.slot), Times(w.sends, lock.slot), w.locks,
                     cfg.maxRounds)
    ensures OpHistory(d.ops[lock.slot.op], Times(w.starts, lock.slot), Times(w.sends, lock.slot),
                      Progress(w.locks, lock, NextPhase(w.locks[lock].phase, g, d.ops[lock.slot.op].revision)),
                      lock.slot, cfg.maxRounds)
  {
    hide StartsOnce, SentOnce, FencePasses, GrantStands, Registered, PhaseOk;
    var s, c := lock.slot, w.db.cells[lock.slot.run];
    var n := Progress(w.locks, lock, NextPhase(w.locks[lock].phase, g, d.ops[s.op].revision));
    assert LockOk(w, lock);
    if s.op in c.ops {
      GateStates(c, d, w.now, s.op, w.locks[lock], g, cfg.maxRounds, Times(w.sends, s));
      if !c.ops[s.op].tool.effect.Read? {
        GateStarts(c.ops[s.op], d.ops[s.op], Times(w.starts, s), w.locks, lock, g);
      }
      GateSends(c, d, w.now, Times(w.sends, s), w.locks, lock, g, cfg.maxRounds);
    } else {
      NoCallBefore(w, s);
      assert g.Prepare?;
      forall l ensures !GrantedOn(n, l, s) && !AnsweringOn(n, l, s) {
        assert GrantedOn(n, l, s) || AnsweringOn(n, l, s) ==> GrantedOn(w.locks, l, s) || AnsweringOn(w.locks, l, s);
      }
      NewOperation(d.ops[s.op], n, s, cfg.maxRounds);
    }
  }

  lemma GateStates(c: Cell, d: Cell, now: Time, k: OpKey, call: Call, g: GateEvent, maxRounds: nat, sends: nat)
    requires Enabled(call.phase, g) && k in c.ops && k in d.ops && GateCell(c, now, k, call, g, maxRounds) == Ok(d)
    requires PhaseOk(c.ops, k, call.phase, false, sends)
    ensures d.ops[k].tool == c.ops[k].tool && (d.ops[k].state.Prepared? ==> c.ops[k].state.Prepared?)
    ensures g.Authorize? ==> c.ops[k].state.Prepared? && !d.ops[k].state.Prepared?
  {
    hide FencePasses, GrantStands, Registered;
  }

  // ---------------------------------------------------------------- a call's transaction: the locks

  lemma GateOtherLock(w: World, cfg: Config, lock: LockKey, g: GateEvent, d: Cell, other: LockKey)
    requires lock in w.locks && LockOk(w, lock) && other in w.locks && LockOk(w, other) && other != lock
    requires Enabled(w.locks[lock].phase, g)
    requires GateCell(w.db.cells[lock.slot.run], w.now, lock.slot.op, w.locks[lock], g, cfg.maxRounds) == Ok(d)
    requires lock.slot.op in d.ops && Frames(w.db.cells[lock.slot.run], d, lock.slot.op)
    requires Current(w.db.cells[lock.slot.run], w.locks[lock].ctx)
    ensures var to := w.(db := Update(w.db, w.db.cells[lock.slot.run := d]),
                         locks := Progress(w.locks, lock,
                                           NextPhase(w.locks[lock].phase, g, d.ops[lock.slot.op].revision)));
            other in to.locks && LockOk(to, other)
  {
    hide GateCell, PhaseOk, Enabled;
    var to := w.(db := Update(w.db, w.db.cells[lock.slot.run := d]),
                 locks := Progress(w.locks, lock, NextPhase(w.locks[lock].phase, g, d.ops[lock.slot.op].revision)));
    var s := other.slot;
    if s.run == lock.slot.run && Current(to.db.cells[s.run], to.locks[other].ctx) {
      assert s.op != lock.slot.op;
      SamePhase(w.db.cells[s.run].ops, d.ops, s.op, w.locks[other].phase, s in w.resets, Times(w.sends, s));
    }
  }

  lemma SamePhase(m: map<OpKey, Operation>, n: map<OpKey, Operation>, k: OpKey, phase: Phase, reset: bool, sends: nat)
    requires PhaseOk(m, k, phase, reset, sends) && (k in m <==> k in n) && (k in m ==> n[k] == m[k])
    ensures PhaseOk(n, k, phase, reset, sends)
  {}

  lemma GateOwnLock(w: World, cfg: Config, lock: LockKey, g: GateEvent, d: Cell)
    requires lock in w.locks && LockOk(w, lock) && Enabled(w.locks[lock].phase, g)
    requires GateCell(w.db.cells[lock.slot.run], w.now, lock.slot.op, w.locks[lock], g, cfg.maxRounds) == Ok(d)
    requires lock.slot.op in d.ops && Frames(w.db.cells[lock.slot.run], d, lock.slot.op)
    requires Current(w.db.cells[lock.slot.run], w.locks[lock].ctx)
    requires lock.slot !in w.resets ==>
      History(w.db.cells, lock.slot, Times(w.starts, lock.slot), Times(w.sends, lock.slot), w.locks, cfg.maxRounds)
    ensures var to := w.(db := Update(w.db, w.db.cells[lock.slot.run := d]),
                         locks := Progress(w.locks, lock,
                                           NextPhase(w.locks[lock].phase, g, d.ops[lock.slot.op].revision)));
            lock in to.locks ==> LockOk(to, lock)
  {
    hide GateCell, PhaseOk, Enabled;
    var s := lock.slot;
    GatePhase(w.db.cells[s.run], w.now, s.op, w.locks[lock], g, cfg.maxRounds, s in w.resets, Times(w.sends, s));
  }

  // ---------------------------------------------------------------- a call's transaction

  lemma GateDb(w: World, cfg: Config, lock: LockKey, g: GateEvent, d: Cell)
    requires DbInv(w.db, cfg) && lock in w.locks && LockOk(w, lock) && Enabled(w.locks[lock].phase, g)
    requires GateCell(w.db.cells[lock.slot.run], w.now, lock.slot.op, w.locks[lock], g, cfg.maxRounds) == Ok(d)
    requires Current(w.db.cells[lock.slot.run], w.locks[lock].ctx) && d.run == w.db.cells[lock.slot.run].run
    ensures DbInv(Update(w.db, w.db.cells[lock.slot.run := d]), cfg)
    ensures DbStep(w.db.cells, w.now, w.db.cells[lock.slot.run := d], w.now)
  {
    hide DbInv, CellInv, GateCell, PhaseOk, Runs, Advanced, DbStep, ChildrenDone;
    var s := lock.slot;
    CellOf(w.db, cfg, s.run);
    GateAdvances(w.db.cells[s.run], w.now, s.op, w.locks[lock], g, cfg.maxRounds, s in w.resets, Times(w.sends, s));
    PutKeeps(w.db, s.run, d, w.now, cfg);
    PutStep(w.db, s.run, d, w.now);
  }

  lemma OtherHistory(m: map<RunId, Cell>, n: map<RunId, Cell>, s: Slot, starts: nat, sends: nat, locks: Locks,
                     later: Locks, maxRounds: nat)
    requires History(m, s, starts, sends, locks, maxRounds)
    requires Known(n, s) <==> Known(m, s)
    requires Known(m, s) ==> n[s.run].ops[s.op] == m[s.run].ops[s.op]
    requires forall lock :: lock in later && lock.slot == s ==> lock in locks && later[lock] == locks[lock]
    ensures History(n, s, starts, sends, later, maxRounds)
  {
    forall lock ensures GrantedOn(later, lock, s) ==> GrantedOn(locks, lock, s) {}
    forall lock ensures AnsweringOn(later, lock, s) ==> AnsweringOn(locks, lock, s) {}
  }

  lemma GateKeeps(w: World, cfg: Config, lock: LockKey, g: GateEvent)
    requires WorldInv(w, cfg) && ApplyGate(w, cfg, lock, g).Ok?
    ensures var to := ApplyGate(w, cfg, lock, g).value;
            to.now == w.now && WorldInv(to, cfg) && DbStep(w.db.cells, w.now, to.db.cells, to.now)
  {
    hide DbInv, LockOk, History, GateCell, OpHistory, Enabled, DbStep, NextPhase;
    var s, c := lock.slot, w.db.cells[lock.slot.run];
    var d := GateCell(c, w.now, s.op, w.locks[lock], g, cfg.maxRounds).value;
    var to := ApplyGate(w, cfg, lock, g).value;
    GateIsFenced(c, w.now, s.op, w.locks[lock], g, cfg.maxRounds);
    GateFrames(c, w.now, s.op, w.locks[lock], g, cfg.maxRounds);
    GateDb(w, cfg, lock, g, d);
    forall l | l in to.locks ensures LockOk(to, l) {
      if l == lock {
        GateOwnLock(w, cfg, lock, g, d);
      } else {
        GateOtherLock(w, cfg, lock, g, d, l);
      }
    }
    forall x | x !in to.resets
      ensures History(to.db.cells, x, Times(to.starts, x), Times(to.sends, x), to.locks, cfg.maxRounds)
    {
      if x == s {
        GateOwnHistory(w, cfg, lock, g, d);
        KnownHistory(to.db.cells, x, Times(w.starts, x), Times(w.sends, x), to.locks, cfg.maxRounds);
      } else {
        OtherHistory(w.db.cells, to.db.cells, x, Times(w.starts, x), Times(w.sends, x), w.locks, to.locks,
                     cfg.maxRounds);
      }
    }
  }

  lemma KnownHistory(m: map<RunId, Cell>, s: Slot, starts: nat, sends: nat, locks: Locks, maxRounds: nat)
    requires Known(m, s) && OpHistory(m[s.run].ops[s.op], starts, sends, locks, s, maxRounds)
    ensures History(m, s, starts, sends, locks, maxRounds)
  {}

  // ---------------------------------------------------------------- events that leave the database alone

  /** Locks that are given back, or taken without a grant or an answer in hand. */
  lemma FewerLocks(w: World, to: World, s: Slot, maxRounds: nat)
    requires s !in w.resets && Histories(w, maxRounds)
    requires to.db == w.db && to.starts == w.starts && to.sends == w.sends
    requires forall lock :: GrantedOn(to.locks, lock, s) ==> GrantedOn(w.locks, lock, s)
    requires forall lock :: AnsweringOn(to.locks, lock, s) ==> AnsweringOn(w.locks, lock, s)
    ensures History(to.db.cells, s, Times(to.starts, s), Times(to.sends, s), to.locks, maxRounds)
  {
    assert History(w.db.cells, s, Times(w.starts, s), Times(w.sends, s), w.locks, maxRounds);
  }

  lemma DropKeeps(w: World, to: World, cfg: Config)
    requires WorldInv(w, cfg) && to == w.(alive := to.alive, locks := to.locks, sightings := to.sightings)
    requires forall lock :: lock in to.locks ==>
               lock in w.locks && to.locks[lock] == w.locks[lock] && lock.process in to.alive
    ensures WorldInv(to, cfg)
  {
    hide DbInv, History, PhaseOk;
    forall lock | lock in to.locks ensures LockOk(to, lock) {
      assert LockOk(w, lock);
    }
    forall s | s !in to.resets
      ensures History(to.db.cells, s, Times(to.starts, s), Times(to.sends, s), to.locks, cfg.maxRounds)
    {
      FewerLocks(w, to, s, cfg.maxRounds);
    }
  }

  lemma LookupPhaseOk(c: Cell, k: OpKey, tool: Tool, argsHash: nat, reset: bool, sends: nat)
    requires CellInv(c) && LookupPhase(c.ops, k, tool, argsHash).Ok?
    ensures match LookupPhase(c.ops, k, tool, argsHash).value
            case None => true
            case Some(phase) => (phase.Looked? || phase.Resuming?) && (phase.Resuming? ==> k in c.ops)
                                && PhaseOk(c.ops, k, phase, reset, sends)
  {
    hide Leases, CancelFlag, Forms, Closed, Delivered, Barrier;
    assert k in c.ops ==> OpOk(c.run.status, c.ops[k]);
  }

  lemma LookupKeeps(w: World, cfg: Config, p: ProcessId, s: Slot, ctx: Context, tool: Tool, argsHash: nat)
    requires WorldInv(w, cfg) && ApplyLookup(w, p, s, ctx, tool, argsHash).Ok?
    ensures WorldInv(ApplyLookup(w, p, s, ctx, tool, argsHash).value, cfg)
  {
    hide DbInv, History, PhaseOk, LookupPhase, CellInv, Runs;
    var to, lock := ApplyLookup(w, p, s, ctx, tool, argsHash).value, LockKey(p, s);
    if to != w {
      CellOf(w.db, cfg, s.run);
      LookupPhaseOk(w.db.cells[s.run], s.op, tool, argsHash, s in w.resets, Times(w.sends, s));
      forall l | l in to.locks ensures LockOk(to, l) {
        assert l != lock ==> LockOk(w, l);
      }
      forall x | x !in to.resets
        ensures History(to.db.cells, x, Times(to.starts, x), Times(to.sends, x), to.locks, cfg.maxRounds)
      {
        FewerLocks(w, to, x, cfg.maxRounds);
      }
    }
  }

  // ---------------------------------------------------------------- entering and sending

  lemma EnterHistory(w: World, cfg: Config, lock: LockKey)
    requires WorldInv(w, cfg) && ApplyEnter(w, lock).Ok? && lock.slot !in w.resets
    ensures var to, s := ApplyEnter(w, lock).value, lock.slot;
            History(to.db.cells, s, Times(to.starts, s), Times(to.sends, s), to.locks, cfg.maxRounds)
  {
    hide DbInv, PhaseOk, LocksOk;
    var to, s := ApplyEnter(w, lock).value, lock.slot;
    assert History(w.db.cells, s, Times(w.starts, s), Times(w.sends, s), w.locks, cfg.maxRounds);
    assert w.locks[lock].phase.Granted? ==> GrantedOn(w.locks, lock, s);
    forall l ensures GrantedOn(to.locks, l, s) ==> GrantedOn(w.locks, l, s) && l != lock {}
    forall l ensures AnsweringOn(to.locks, l, s) ==> AnsweringOn(w.locks, l, s) {}
  }

  lemma EnterKeeps(w: World, cfg: Config, lock: LockKey)
    requires WorldInv(w, cfg) && ApplyEnter(w, lock).Ok?
    ensures WorldInv(ApplyEnter(w, lock).value, cfg)
  {
    hide DbInv, History;
    var to := ApplyEnter(w, lock).value;
    forall l | l in to.locks ensures LockOk(to, l) {
      assert LockOk(w, l);
    }
    forall x | x !in to.resets
      ensures History(to.db.cells, x, Times(to.starts, x), Times(to.sends, x), to.locks, cfg.maxRounds)
    {
      if x == lock.slot {
        EnterHistory(w, cfg, lock);
      } else {
        OtherHistory(w.db.cells, to.db.cells, x, Times(w.starts, x), Times(w.sends, x), w.locks, to.locks,
                     cfg.maxRounds);
      }
    }
  }

  lemma SendHistory(w: World, cfg: Config, lock: LockKey)
    requires WorldInv(w, cfg) && ApplySend(w, lock).Ok? && lock.slot !in w.resets
    ensures Known(w.db.cells, lock.slot)
    ensures Times(w.sends, lock.slot) + 1 == RoundOf(w.db.cells[lock.slot.run].ops[lock.slot.op])
    ensures var to, s := ApplySend(w, lock).value, lock.slot;
            History(to.db.cells, s, Times(to.starts, s), Times(to.sends, s), to.locks, cfg.maxRounds)
  {
    hide DbInv, PhaseOk;
    var to, s := ApplySend(w, lock).value, lock.slot;
    assert LockOk(w, lock);
    assert History(w.db.cells, s, Times(w.starts, s), Times(w.sends, s), w.locks, cfg.maxRounds);
    assert AnsweringOn(w.locks, lock, s);
    forall l ensures GrantedOn(to.locks, l, s) ==> GrantedOn(w.locks, l, s) {}
    forall l ensures !AnsweringOn(to.locks, l, s) {
      assert AnsweringOn(to.locks, l, s) ==> AnsweringOn(w.locks, l, s);
    }
  }

  /** A lock on the operation whose answer is being sent is not one that has just sent it. */
  lemma SendLock(w: World, cfg: Config, lock: LockKey, other: LockKey)
    requires WorldInv(w, cfg) && ApplySend(w, lock).Ok? && other in w.locks
    ensures LockOk(ApplySend(w, lock).value, other)
  {
    hide DbInv, History;
    var s := lock.slot;
    assert LockOk(w, other) && LockOk(w, lock);
    if other.slot == s && s !in w.resets {
      SendHistory(w, cfg, lock);
    }
  }

  lemma SendKeeps(w: World, cfg: Config, lock: LockKey)
    requires WorldInv(w, cfg) && ApplySend(w, lock).Ok?
    ensures WorldInv(ApplySend(w, lock).value, cfg)
  {
    hide DbInv, History, LockOk;
    var to := ApplySend(w, lock).value;
    forall l | l in to.locks ensures LockOk(to, l) {
      SendLock(w, cfg, lock, l);
    }
    forall x | x !in to.resets
      ensures History(to.db.cells, x, Times(to.starts, x), Times(to.sends, x), to.locks, cfg.maxRounds)
    {
      if x == lock.slot {
        SendHistory(w, cfg, lock);
      } else {
        OtherHistory(w.db.cells, to.db.cells, x, Times(w.starts, x), Times(w.sends, x), w.locks, to.locks,
                     cfg.maxRounds);
      }
    }
  }

  // ---------------------------------------------------------------- time

  lemma TickKeeps(w: World, cfg: Config, later: Time)
    requires WorldInv(w, cfg) && w.now <= later
    ensures WorldInv(w.(now := later), cfg)
  {
    hide DbInv, History, PhaseOk;
    forall lock | lock in w.locks ensures LockOk(w.(now := later), lock) {
      assert LockOk(w, lock);
    }
  }

  // ---------------------------------------------------------------- every event

  lemma QuietStep(w: World, db: Db, cfg: Config)
    requires WorldInv(w, cfg) && DbInv(db, cfg)
    requires DbStep(w.db.cells, w.now, db.cells, w.now) && DbQuiet(w.db.cells, db.cells, {})
    ensures WorldInv(w.(db := db), cfg)
  {
    hide WorldInv, DbInv, DbStep, DbQuiet;
    QuietKeeps(w, db, {}, cfg);
    assert w.(db := db, resets := w.resets + {}) == w.(db := db);
  }

  lemma RowResets(db: Db, now: Time, r: RunId, e: RowEvent)
    requires RowIn(db, now, r, e).Ok?
    ensures forall s :: s in ResetBy(r, e) ==> Known(db.cells, s) && db.cells[s.run].ops[s.op].state.Unknown?
  {
    hide BarrierMet, AnyUnaccepted, RevokeExcept;
  }

  lemma RowStep(w: World, cfg: Config, r: RunId, row: RowEvent)
    requires WorldInv(w, cfg) && RowIn(w.db, w.now, r, row).Ok?
    ensures var db := RowIn(w.db, w.now, r, row).value;
            && WorldInv(w.(db := db, resets := w.resets + ResetBy(r, row)), cfg)
            && DbStep(w.db.cells, w.now, db.cells, w.now)
  {
    hide DbInv, DbStep, DbQuiet, RowIn, ResetBy, LocksOk, Histories;
    RowInKeeps(w.db, w.now, cfg, r, row);
    RowResets(w.db, w.now, r, row);
    QuietKeeps(w, RowIn(w.db, w.now, r, row).value, ResetBy(r, row), cfg);
  }

  /** The events that are one transaction outside the gateway, and not on one run's rows. */
  predicate Scheduling(e: Event) {
    || e.Submit? || e.Delegate? || e.Claim? || e.Settle? || e.Expire? || e.RefreshWaits? || e.Cancel? || e.FinishIdle?
    || e.Recover?
  }

  lemma SchedulingDb(w: World, cfg: Config, e: Event)
    requires DbInv(w.db, cfg) && Apply(w, cfg, e).Ok? && Own(e) && Scheduling(e)
    ensures var to := Apply(w, cfg, e).value;
            && DbInv(to.db, cfg) && DbStep(w.db.cells, w.now, to.db.cells, w.now)
            && DbQuiet(w.db.cells, to.db.cells, {}) && to == w.(db := to.db)
  {
    hide DbInv, DbStep, DbQuiet, LocksOk, Histories, SubmitIn, DelegateIn, ClaimIn, WorkerSettleIn, ExpireIn, RefreshIn;
    hide CancelIn, FinishAll, RecoverIn;
    match e
    case Submit(r, branch, inputRevision, deadline, capabilities, limits) =>
      SubmitInKeeps(w.db, w.now, cfg, r, branch, inputRevision, deadline, capabilities, limits);
    case Delegate(ctx, k, argsHash, current, requested, r, branch) =>
      DelegateInKeeps(w.db, ctx, w.now, k, argsHash, current, requested, r, branch, cfg);
    case Claim(p, a) => ClaimInKeeps(w.db, w.now, a, p, cfg);
    case Settle(ctx, o) => SettleKeeps(w.db, w.now, ctx, o, cfg);
    case Expire => ExpireInKeeps(w.db, w.now, cfg);
    case RefreshWaits => RefreshInKeeps(w.db, w.now, cfg);
    case Cancel(top) => CancelInKeeps(w.db, top, w.now, cfg);
    case FinishIdle => FinishAllKeeps(w.db, w.db.order, w.now, cfg);
    case Recover(seen, alive, written) => RecoverInKeeps(w.db, w.now, seen.run, seen.attempt, alive, written, cfg);
  }

  lemma SchedulingKeeps(w: World, cfg: Config, e: Event)
    requires WorldInv(w, cfg) && Apply(w, cfg, e).Ok? && Own(e) && Scheduling(e)
    ensures var to := Apply(w, cfg, e).value;
            to.now == w.now && WorldInv(to, cfg) && DbStep(w.db.cells, w.now, to.db.cells, to.now)
  {
    hide DbInv, DbStep, DbQuiet, LocksOk, Histories, Apply;
    SchedulingDb(w, cfg, e);
    QuietStep(w, Apply(w, cfg, e).value.db, cfg);
  }

  /** One event keeps the system's invariant and undoes nothing. */
  lemma StepKeeps(w: World, cfg: Config, e: Event)
    requires WorldInv(w, cfg) && Own(e)
    ensures var to := Next(w, cfg, e);
            WorldInv(to, cfg) && w.now <= to.now && DbStep(w.db.cells, w.now, to.db.cells, to.now)
  {
    hide WorldInv, DbInv, DbStep, ApplyLookup, ApplyGate, ApplyEnter, ApplySend, RowIn, SubmitIn, DelegateIn, ClaimIn;
    hide WorkerSettleIn, ExpireIn, RefreshIn, CancelIn, FinishAll, RecoverIn, ResetBy;
    DbStepTick(w.db.cells, w.now, w.now);
    if Apply(w, cfg, e).Ok? {
      var to := Apply(w, cfg, e).value;
      match e {
        case Tick(elapsed) =>
          TickKeeps(w, cfg, w.now + elapsed);
          DbStepTick(w.db.cells, w.now, w.now + elapsed);
        case Crash(p) => CrashKeeps(w, cfg, p);
        case Row(r, row) => RowStep(w, cfg, r, row);
        case Lookup(p, s, ctx, tool, argsHash) =>
          LookupKeeps(w, cfg, p, s, ctx, tool, argsHash);
          LookupDb(w, p, s, ctx, tool, argsHash);
        case Gate(lock, g) => GateKeeps(w, cfg, lock, g);
        case Enter(lock) =>
          EnterKeeps(w, cfg, lock);
          OutsideDb(w, lock);
        case Send(lock) =>
          SendKeeps(w, cfg, lock);
          OutsideDb(w, lock);
        case Release(lock) => ReleaseKeeps(w, cfg, lock);
        case Observe(r, a) => ObserveKeeps(w, cfg, Sighting(r, a, w.db.cells[r].attempts[a].lease));
        case _ => SchedulingKeeps(w, cfg, e);
      }
    }
  }

  lemma CrashKeeps(w: World, cfg: Config, p: ProcessId)
    requires WorldInv(w, cfg)
    ensures WorldInv(w.(alive := w.alive - {p}, locks := WithoutProcess(w.locks, p)), cfg)
  {
    hide DbInv, Histories;
    var to := w.(alive := w.alive - {p}, locks := WithoutProcess(w.locks, p));
    forall lock | lock in to.locks ensures lock.process in to.alive {
      assert LockOk(w, lock);
    }
    DropKeeps(w, to, cfg);
  }

  lemma ObserveKeeps(w: World, cfg: Config, seen: Sighting)
    requires WorldInv(w, cfg)
    ensures WorldInv(w.(sightings := w.sightings + {seen}), cfg)
  {
    hide DbInv, Histories;
    DropKeeps(w, w.(sightings := w.sightings + {seen}), cfg);
  }

  lemma ReleaseKeeps(w: World, cfg: Config, lock: LockKey)
    requires WorldInv(w, cfg)
    ensures WorldInv(w.(locks := w.locks - {lock}), cfg)
  {
    hide DbInv, Histories;
    var to := w.(locks := w.locks - {lock});
    forall l | l in to.locks ensures l.process in to.alive {
      assert LockOk(w, l);
    }
    DropKeeps(w, to, cfg);
  }

  lemma LookupDb(w: World, p: ProcessId, s: Slot, ctx: Context, tool: Tool, argsHash: nat)
    requires ApplyLookup(w, p, s, ctx, tool, argsHash).Ok?
    ensures var to := ApplyLookup(w, p, s, ctx, tool, argsHash).value; to.db == w.db && to.now == w.now
  {
    hide LookupPhase;
  }

  lemma OutsideDb(w: World, lock: LockKey)
    ensures ApplyEnter(w, lock).Ok? ==> ApplyEnter(w, lock).value.db == w.db && ApplyEnter(w, lock).value.now == w.now
    ensures ApplySend(w, lock).Ok? ==> ApplySend(w, lock).value.db == w.db && ApplySend(w, lock).value.now == w.now
  {}

  lemma {:induction false} PlayKeeps(w: World, cfg: Config, events: seq<Event>)
    requires WorldInv(w, cfg) && forall i :: 0 <= i < |events| ==> Own(events[i])
    ensures var to := Play(w, cfg, events);
            WorldInv(to, cfg) && w.now <= to.now && DbStep(w.db.cells, w.now, to.db.cells, to.now)
    decreases |events|
  {
    hide WorldInv, DbStep, Next;
    if events == [] {
      DbStepTick(w.db.cells, w.now, w.now);
    } else {
      var mid := Next(w, cfg, events[0]);
      StepKeeps(w, cfg, events[0]);
      PlayKeeps(mid, cfg, events[1..]);
      DbStepTransitive(w.db.cells, w.now, mid.db.cells, mid.now, Play(w, cfg, events).db.cells,
                       Play(w, cfg, events).now);
    }
  }
}
