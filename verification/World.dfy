/** The whole system: the database, the processes that work on it, the calls that hold operation locks, and a
    history of what reached the outside.  One event is one transaction or one step outside the database. */
module World {
  import opened Domain
  import opened Tables
  import opened RowEvents
  import opened Transactions
  import opened Gateway
  import Budget

  /** `starts` counts how often an operation's executor was entered, `sends` how often a saved exchange was
      answered on the wire, `resets` holds the operations confirmed not to have been executed. */
  datatype World = World(
    db: Db, now: Time, alive: set<ProcessId>, locks: Locks, sightings: set<Sighting>,
    starts: map<Slot, nat>, sends: map<Slot, nat>, resets: set<Slot>)

  datatype Event =
    | Tick(elapsed: nat)
    | Crash(process: ProcessId)
    | Submit(run: RunId, branch: BranchId, inputRevision: nat, deadline: Option<Time>, capabilities: set<Capability>,
             limits: map<Budget.Dimension, Option<real>>)
    | Delegate(ctx: Context, key: OpKey, argsHash: nat, current: set<Capability>, requested: Option<set<Capability>>,
               child: RunId, branch: BranchId)
    | Claim(process: ProcessId, attempt: AttemptId)
    | Settle(ctx: Context, outcome: Outcome)
    | Row(run: RunId, row: RowEvent)
    | Expire
    | RefreshWaits
    | Cancel(top: RunId)
    | FinishIdle
    | Observe(run: RunId, attempt: AttemptId)
    | Recover(seen: Sighting, alive: bool, written: set<OpKey>)
    | Lookup(process: ProcessId, slot: Slot, ctx: Context, tool: Tool, argsHash: nat)
    | Gate(lock: LockKey, gate: GateEvent)
    | Enter(lock: LockKey)
    | Send(lock: LockKey)
    | Release(lock: LockKey)

  function Times(m: map<Slot, nat>, s: Slot): nat {
    if s in m then m[s] else 0
  }

  function WithDb(w: World, db: Result<Db>): Result<World> {
    if db.Err? then Err(db.error) else Ok(w.(db := db.value))
  }

  /** The lookup under the lock: what was finished is returned, what is in doubt goes to review, a saved
      exchange may be resumed, and anything else goes on to be prepared. */
  function LookupPhase(ops: map<OpKey, Operation>, k: OpKey, tool: Tool, argsHash: nat): Result<Option<Phase>> {
    if k !in ops then Ok(Some(Looked))
    else if ops[k].argsHash != argsHash || ops[k].tool.id != tool.id || ops[k].tool.revision != tool.revision
    then Err(OperationConflict)
    else if ops[k].result.Some? && TerminalOp(ops[k].state) then Ok(None)
    else if ops[k].state.Running? && Awaits(ops[k]) && tool.kind.Durable? then Ok(Some(Resuming(ops[k].revision)))
    else if ops[k].state.Running? || ops[k].state.Unknown? then Ok(None)
    else Ok(Some(Looked))
  }

  /** A context lives in the process that claimed it. */
  predicate Belongs(c: Cell, ctx: Context, p: ProcessId) {
    ctx.attempt in c.attempts && c.attempts[ctx.attempt].process == p
  }

  function ApplyLookup(w: World, p: ProcessId, s: Slot, ctx: Context, tool: Tool, argsHash: nat): Result<World> {
    var lock := LockKey(p, s);
    if p !in w.alive || s.run !in w.db.cells || ctx.run != s.run || !Belongs(w.db.cells[s.run], ctx, p)
    then Err(NotEnabled)
    else if lock in w.locks then Err(Busy)
    else
      var phase :- LookupPhase(w.db.cells[s.run].ops, s.op, tool, argsHash);
      if phase.None? then Ok(w) else Ok(w.(locks := w.locks[lock := Call(ctx, phase.value)]))
  }

  function Progress(locks: Locks, lock: LockKey, phase: Option<Phase>): Locks
    requires lock in locks
  {
    if phase.None? then locks - {lock} else locks[lock := locks[lock].(phase := phase.value)]
  }

  function ApplyGate(w: World, cfg: Config, lock: LockKey, g: GateEvent): Result<World> {
    if lock !in w.locks || !Enabled(w.locks[lock].phase, g) || lock.slot.run !in w.db.cells then Err(NotEnabled)
    else
      var r, k, call := lock.slot.run, lock.slot.op, w.locks[lock];
      var c :- GateCell(w.db.cells[r], w.now, k, call, g, cfg.maxRounds);
      if k !in c.ops then Err(NotFound)
      else Ok(w.(db := Update(w.db, w.db.cells[r := c]),
                 locks := Progress(w.locks, lock, NextPhase(call.phase, g, c.ops[k].revision))))
  }

  /** Entering the executor is not guarded by the store: a call that was granted enters whatever happened since.
      A host wait is entered without a grant. */
  function ApplyEnter(w: World, lock: LockKey): Result<World> {
    if lock !in w.locks || lock.slot.run !in w.db.cells || lock.slot.op !in w.db.cells[lock.slot.run].ops
    then Err(NotEnabled)
    else
      var counted := w.(starts := w.starts[lock.slot := Times(w.starts, lock.slot) + 1]);
      var phase := w.locks[lock].phase;
      if phase.Granted? then Ok(counted.(locks := Progress(w.locks, lock, Some(Executing(phase.revision)))))
      else if phase.Ready? && w.db.cells[lock.slot.run].ops[lock.slot.op].tool.kind.HostWait? then Ok(counted)
      else Err(NotEnabled)
  }

  function ApplySend(w: World, lock: LockKey): Result<World> {
    if lock !in w.locks || !w.locks[lock].phase.Answering? then Err(NotEnabled)
    else Ok(w.(sends := w.sends[lock.slot := Times(w.sends, lock.slot) + 1],
               locks := Progress(w.locks, lock, Some(Sent(w.locks[lock].phase.revision)))))
  }

  function WithoutProcess(locks: Locks, p: ProcessId): Locks {
    map lock | lock in locks && lock.process != p :: locks[lock]
  }

  /** The process of the attempt is dead. */
  predicate Lost(w: World, seen: Sighting) {
    seen.run in w.db.cells && seen.attempt in w.db.cells[seen.run].attempts ==>
      w.db.cells[seen.run].attempts[seen.attempt].process !in w.alive
  }

  /** A host wait is a read: both are registered with the default effect.  A recovery scan reads the run, the attempt
      and its lease, compares the lease with the clock and looks for the process before its transaction; between
      these steps anything may happen.  That the run was running once is clear from its having the attempt. */
  function Apply(w: World, cfg: Config, e: Event): Result<World> {
    match e
    case Tick(elapsed) => Ok(w.(now := w.now + elapsed))
    case Crash(p) => Ok(w.(alive := w.alive - {p}, locks := WithoutProcess(w.locks, p)))
    case Submit(r, branch, inputRevision, deadline, capabilities, limits) =>
      WithDb(w, SubmitIn(w.db, r, branch, inputRevision, w.now, deadline, capabilities, limits))
    case Delegate(ctx, k, argsHash, current, requested, r, branch) =>
      WithDb(w, DelegateIn(w.db, ctx, w.now, k, argsHash, current, requested, r, branch, cfg.maxDepth))
    case Claim(p, a) => if p !in w.alive then Err(NotEnabled) else WithDb(w, ClaimIn(w.db, w.now, a, p, cfg))
    case Settle(ctx, o) => WithDb(w, WorkerSettleIn(w.db, w.now, ctx, o))
    case Row(r, row) =>
      var next :- WithDb(w, RowIn(w.db, w.now, r, row));
      Ok(next.(resets := w.resets + ResetBy(r, row)))
    case Expire => Ok(w.(db := ExpireIn(w.db, w.now)))
    case RefreshWaits => Ok(w.(db := RefreshIn(w.db)))
    case Cancel(top) => WithDb(w, CancelIn(w.db, top))
    case FinishIdle => Ok(w.(db := FinishAll(w.db, w.db.order)))
    case Observe(r, a) =>
      if r !in w.db.cells || a !in w.db.cells[r].attempts then Err(NotEnabled)
      else Ok(w.(sightings := w.sightings + {Sighting(r, a, w.db.cells[r].attempts[a].lease)}))
    case Recover(seen, alive, written) =>
      if seen !in w.sightings || w.now < seen.lease || (!alive && !Lost(w, seen)) then Err(NotEnabled)
      else WithDb(w, RecoverIn(w.db, seen.run, seen.attempt, alive, written))
    case Lookup(p, s, ctx, tool, argsHash) => ApplyLookup(w, p, s, ctx, tool, argsHash)
    case Gate(lock, g) => ApplyGate(w, cfg, lock, g)
    case Enter(lock) => ApplyEnter(w, lock)
    case Send(lock) => ApplySend(w, lock)
    case Release(lock) => Ok(w.(locks := w.locks - {lock}))
  }

  /** An event that fails leaves no change: its transaction is rolled back. */
  function Next(w: World, cfg: Config, e: Event): World {
    var to := Apply(w, cfg, e);
    if to.Ok? then to.value else w
  }

  function Play(w: World, cfg: Config, events: seq<Event>): World
    decreases |events|
  {
    if events == [] then w else Play(Next(w, cfg, events[0]), cfg, events[1..])
  }

  /** No run, no call, and any number of processes that may start working. */
  function Boot(now: Time, alive: set<ProcessId>, branches: set<BranchId>): World {
    World(Db(map[], [], map b | b in branches :: None, Budget.Books(map[], map[])), now, alive, map[], {}, map[],
          map[], {})
  }

  /** The worker settles what its own run waits for; the source checks this of interactions alone. */
  predicate Own(e: Event) {
    e.Settle? ==> Scoped(e.outcome.refs, e.ctx.run)
  }
}
