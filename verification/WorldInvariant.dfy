/** What every event keeps of the whole system. */
module WorldInvariant {
  import opened Domain
  import opened RunMachine
  import opened RunInvariant
  import opened Tables
  import opened TablesInvariant
  import opened RowEvents
  import opened Transactions
  import opened Gateway
  import opened World

  // ---------------------------------------------------------------- locks

  /** A lock is held by a live process with a context it claimed; while that claim is current, the call's phase
      tells the operation's state. */
  predicate LockOk(w: World, lock: LockKey)
    requires lock in w.locks
  {
    var s, call := lock.slot, w.locks[lock];
    && lock.process in w.alive
    && s.run in w.db.cells
    && Belongs(w.db.cells[s.run], call.ctx, lock.process)
    && (!call.phase.Looked? ==> s.op in w.db.cells[s.run].ops)
    && (Current(w.db.cells[s.run], call.ctx) ==>
          PhaseOk(w.db.cells[s.run].ops, s.op, call.phase, s in w.resets, Times(w.sends, s)))
  }

  ghost predicate LocksOk(w: World) {
    forall lock :: lock in w.locks ==> LockOk(w, lock)
  }

  // ---------------------------------------------------------------- history

  predicate GrantedOn(locks: Locks, lock: LockKey, s: Slot) {
    lock in locks && lock.slot == s && locks[lock].phase.Granted?
  }

  predicate AnsweringOn(locks: Locks, lock: LockKey, s: Slot) {
    lock in locks && lock.slot == s && locks[lock].phase.Answering?
  }

  /** An operation that may start has not started; one that was granted has not yet, and was granted once. */
  ghost predicate StartsOnce(op: Operation, starts: nat, locks: Locks, s: Slot) {
    && starts <= 1
    && (op.state.Prepared? ==> starts == 0)
    && (forall lock :: GrantedOn(locks, lock, s) ==> starts == 0 && !op.state.Prepared?)
    && (forall x, y :: GrantedOn(locks, x, s) && GrantedOn(locks, y, s) ==> x == y)
  }

  /** Each round's answer is sent at most once: before a round's answer is taken, the earlier rounds were sent. */
  ghost predicate SentOnce(op: Operation, sends: nat, locks: Locks, s: Slot, maxRounds: nat) {
    && RoundOf(op) <= maxRounds
    && (op.meta.continuation.None? ==> sends == 0)
    && (op.meta.continuation.Some? ==> !op.state.Prepared? && 1 <= RoundOf(op))
    && (Awaits(op) ==> sends + 1 == RoundOf(op))
    && (Sends(op) ==> sends == RoundOf(op) || sends + 1 == RoundOf(op))
    && (forall lock :: AnsweringOn(locks, lock, s) ==> Sends(op) && sends + 1 == RoundOf(op))
    && (forall x, y :: AnsweringOn(locks, x, s) && AnsweringOn(locks, y, s) ==> x == y)
  }

  ghost predicate OpHistory(op: Operation, starts: nat, sends: nat, locks: Locks, s: Slot, maxRounds: nat) {
    && (op.tool.kind.HostWait? ==> op.tool.effect.Read?)
    && (op.tool.effect.Read? || StartsOnce(op, starts, locks, s))
    && SentOnce(op, sends, locks, s, maxRounds)
  }

  predicate Known(m: map<RunId, Cell>, s: Slot) {
    s.run in m && s.op in m[s.run].ops
  }

  ghost predicate History(m: map<RunId, Cell>, s: Slot, starts: nat, sends: nat, locks: Locks, maxRounds: nat) {
    if Known(m, s) then OpHistory(m[s.run].ops[s.op], starts, sends, locks, s, maxRounds)
    else starts == 0 && sends == 0
  }

  ghost predicate Histories(w: World, maxRounds: nat) {
    forall s :: s !in w.resets ==> History(w.db.cells, s, Times(w.starts, s), Times(w.sends, s), w.locks, maxRounds)
  }

  ghost predicate WorldInv(w: World, cfg: Config) {
    && DbInv(w.db, cfg)
    && LocksOk(w)
    && Histories(w, cfg.maxRounds)
    && (forall s :: s in w.resets ==> Known(w.db.cells, s))
  }

  lemma DbOf(w: World, cfg: Config)
    requires WorldInv(w, cfg)
    ensures DbInv(w.db, cfg)
  {
    hide DbInv, LocksOk, Histories;
  }

  lemma ForestOf(w: World, cfg: Config)
    requires WorldInv(w, cfg)
    ensures DbInv(w.db, cfg) && Forest(w.db.cells, cfg.maxDepth) && Runs(w.db.cells)
  {
    hide LocksOk, Histories, CellInv, Forest, Runs, Ordered, Charged, Owned, Capacity, WaitScopes, ParentsLast;
  }

  lemma ChargedOf(w: World, cfg: Config)
    requires WorldInv(w, cfg)
    ensures Ordered(w.db.order, w.db.cells) && Charged(w.db.order, w.db.cells, w.db.books)
  {
    hide LocksOk, Histories, CellInv, Forest, Runs, Ordered, Charged, Owned, Capacity, WaitScopes, ParentsLast;
  }

  lemma BootInv(now: Time, alive: set<ProcessId>, branches: set<BranchId>, cfg: Config)
    ensures WorldInv(Boot(now, alive, branches), cfg)
  {
    var w := Boot(now, alive, branches);
    assert w.db.cells == map[] && w.db.order == [];
  }

  // ---------------------------------------------------------------- events outside the gateway

  lemma StillCurrent(c: Cell, d: Cell, now: Time, ctx: Context, p: ProcessId)
    requires CellStep(c, now, d, now) && Belongs(c, ctx, p)
    ensures Belongs(d, ctx, p) && (Current(d, ctx) ==> Current(c, ctx))
  {
    hide FenceShrinks, RunFrozen, InteractionsFrozen, TreeGrows, OpsFrozen;
    assert AttemptsGrow(c.run, c.attempts, d.run, d.attempts);
  }

  lemma QuietPhase(c: Cell, d: Cell, k: OpKey, r: RunId, phase: Phase, resets: set<Slot>, reset: bool, sends: nat)
    requires Quiet(c, d, r, resets) && Held(d.run, d.attempts) && PhaseOk(c.ops, k, phase, reset, sends)
    requires Slot(r, k) in resets ==> k in c.ops && c.ops[k].state.Unknown?
    ensures PhaseOk(d.ops, k, phase, reset || Slot(r, k) in resets, sends)
  {
    if k in c.ops {
      assert QuietOp(c.ops[k], d.ops[k], Slot(r, k) in resets);
    }
  }

  lemma QuietLock(w: World, db: Db, now: Time, resets: set<Slot>, lock: LockKey)
    requires lock in w.locks && LockOk(w, lock)
    requires DbStep(w.db.cells, now, db.cells, now) && DbQuiet(w.db.cells, db.cells, resets)
    requires forall s :: s in resets ==> Known(w.db.cells, s) && w.db.cells[s.run].ops[s.op].state.Unknown?
    ensures LockOk(w.(db := db, resets := w.resets + resets), lock)
  {
    hide CellStep, Quiet, PhaseOk;
    var s, call := lock.slot, w.locks[lock];
    var c, d := w.db.cells[s.run], db.cells[s.run];
    assert CellStep(c, now, d, now) && Quiet(c, d, s.run, resets);
    StillCurrent(c, d, now, call.ctx, lock.process);
    QuietKeys(c, d, s.run, resets);
    if Current(d, call.ctx) {
      QuietPhase(c, d, s.op, s.run, call.phase, resets, s in w.resets, Times(w.sends, s));
    }
  }

  lemma QuietKeys(c: Cell, d: Cell, r: RunId, resets: set<Slot>)
    requires Quiet(c, d, r, resets)
    ensures d.ops.Keys == c.ops.Keys
  {}

  lemma QuietHistory(m: map<RunId, Cell>, n: map<RunId, Cell>, s: Slot, starts: nat, sends: nat, locks: Locks,
                     maxRounds: nat, resets: set<Slot>)
    requires History(m, s, starts, sends, locks, maxRounds) && DbQuiet(m, n, resets) && s !in resets
    requires forall r :: r in m ==> r in n
    ensures History(n, s, starts, sends, locks, maxRounds)
  {
    if Known(n, s) {
      if s.run in m {
        assert Quiet(m[s.run], n[s.run], s.run, resets);
        assert QuietOp(m[s.run].ops[s.op], n[s.run].ops[s.op], false);
      }
    }
  }

  /** A transaction outside the gateway keeps the system's invariant. */
  lemma QuietKeeps(w: World, db: Db, resets: set<Slot>, cfg: Config)
    requires WorldInv(w, cfg) && DbInv(db, cfg)
    requires DbStep(w.db.cells, w.now, db.cells, w.now) && DbQuiet(w.db.cells, db.cells, resets)
    requires forall s :: s in resets ==> Known(w.db.cells, s) && w.db.cells[s.run].ops[s.op].state.Unknown?
    ensures WorldInv(w.(db := db, resets := w.resets + resets), cfg)
  {
    hide DbInv, DbStep, DbQuiet, LockOk, History;
    var to := w.(db := db, resets := w.resets + resets);
    forall lock | lock in to.locks ensures LockOk(to, lock) {
      QuietLock(w, db, w.now, resets, lock);
    }
    StillThere(w.db.cells, db.cells, w.now);
    forall s | s !in to.resets
      ensures History(db.cells, s, Times(w.starts, s), Times(w.sends, s), w.locks, cfg.maxRounds)
    {
      QuietHistory(w.db.cells, db.cells, s, Times(w.starts, s), Times(w.sends, s), w.locks, cfg.maxRounds, resets);
    }
  }

  lemma StillThere(m: map<RunId, Cell>, n: map<RunId, Cell>, now: Time)
    requires DbStep(m, now, n, now)
    ensures forall r :: r in m ==> r in n
    ensures forall s :: Known(m, s) ==> Known(n, s)
  {
    forall s | Known(m, s) ensures Known(n, s) {
      assert CellStep(m[s.run], now, n[s.run], now);
    }
  }
}
