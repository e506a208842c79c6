/** Who may write to a run, and what each transaction of the tool gateway asks for and leaves behind. */
module Fences {
  import opened Domain
  import opened RunMachine
  import opened Tables
  import opened RowEvents
  import opened Transactions
  import opened Gateway
  import opened World

  // ---------------------------------------------------------------- the fence

  /** The context's attempt is the run's present one, with the run's token, has not ended, and its lease has not lapsed;
      the run is running, or cancelling where the call allows it. */
  predicate InCharge(c: Cell, ctx: Context, now: Time, stopping: bool) {
    && c.run.attempt == Some(ctx.attempt) && c.run.token == ctx.token
    && ctx.attempt in c.attempts && !c.attempts[ctx.attempt].ended && now < c.attempts[ctx.attempt].lease
    && (c.run.status.Running? || (c.run.status.Cancelling? && stopping)) && (c.run.cancelRequested ==> stopping)
  }

  lemma FenceIff(c: Cell, ctx: Context, now: Time, stopping: bool)
    ensures FencePasses(c.run, c.attempts, ctx, now, stopping) <==> InCharge(c, ctx, now, stopping)
  {}

  /** The gateway's transactions that a run in cancellation may still make. */
  predicate Winding(g: GateEvent) {
    g.Note? || g.TakeAnswer? || g.Finish?
  }

  /** Whoever makes the event for a run is in charge of it. */
  predicate Entitled(w: World, e: Event) {
    match e
    case Delegate(ctx, _, _, _, _, _, _) => ctx.run in w.db.cells && InCharge(w.db.cells[ctx.run], ctx, w.now, false)
    case Settle(ctx, _) => ctx.run in w.db.cells && InCharge(w.db.cells[ctx.run], ctx, w.now, true)
    case Row(r, row) =>
      && r in w.db.cells
      && (match row
          case Heartbeat(ctx, _) => InCharge(w.db.cells[r], ctx, w.now, true)
          case Ask(ctx, _, _, _) => InCharge(w.db.cells[r], ctx, w.now, false)
          case Ack(ctx, _) => InCharge(w.db.cells[r], ctx, w.now, false)
          case _ => true)
    case Gate(lock, g) =>
      && lock in w.locks && lock.slot.run in w.db.cells
      && InCharge(w.db.cells[lock.slot.run], w.locks[lock].ctx, w.now, Winding(g))
    case _ => true
  }

  /** No transaction of a worker commits that is not in charge of its run at that moment: not after its lease lapsed,
      its attempt ended, or another claim; and once the run is being cancelled only what winds it up. */
  lemma WritesAreFenced(w: World, cfg: Config, e: Event)
    requires Apply(w, cfg, e).Ok?
    ensures Entitled(w, e)
  {
    hide FencePasses, InCharge, SettleIn, ApplyLookup, ApplyEnter, ApplySend, ClaimIn, RecoverIn, CancelIn, SubmitIn;
    hide ResetBy, RefreshIn, ExpireIn, FinishAll, DelegateIn, GateCell, ApplyRow;
    forall c: Cell, ctx: Context, stopping: bool | FencePasses(c.run, c.attempts, ctx, w.now, stopping)
      ensures InCharge(c, ctx, w.now, stopping)
    {
      FenceIff(c, ctx, w.now, stopping);
    }
    match e
    case Delegate(ctx, k, argsHash, current, requested, r, branch) =>
      DelegateFenced(w.db, ctx, w.now, k, argsHash, current, requested, r, branch, cfg.maxDepth);
    case Settle(ctx, o) => SettleFenced(w.db, w.now, ctx, o);
    case Row(r, row) => RowFenced(w.db.cells[r], w.now, row);
    case Gate(lock, g) =>
      GateFenced(w.db.cells[lock.slot.run], w.now, lock.slot.op, w.locks[lock], g, cfg.maxRounds);
    case _ =>
  }

  lemma DelegateFenced(db: Db, ctx: Context, now: Time, k: OpKey, argsHash: nat, current: set<Capability>,
                       requested: Option<set<Capability>>, r: RunId, branch: BranchId, maxDepth: nat)
    requires DelegateIn(db, ctx, now, k, argsHash, current, requested, r, branch, maxDepth).Ok?
    ensures ctx.run in db.cells && FencePasses(db.cells[ctx.run].run, db.cells[ctx.run].attempts, ctx, now, false)
  {
    hide FencePasses, ReserveChild, Inserted, Position;
  }

  lemma SettleFenced(db: Db, now: Time, ctx: Context, o: Outcome)
    requires WorkerSettleIn(db, now, ctx, o).Ok?
    ensures ctx.run in db.cells && FencePasses(db.cells[ctx.run].run, db.cells[ctx.run].attempts, ctx, now, true)
  {
    hide FencePasses, SettleWaiting, AckCancelCell, StopCell, ChildrenDone, PendingInputs;
  }

  lemma RowFenced(c: Cell, now: Time, e: RowEvent)
    requires ApplyRow(c, now, e).Ok?
    ensures match e
            case Heartbeat(ctx, _) => FencePasses(c.run, c.attempts, ctx, now, true)
            case Ask(ctx, _, _, _) => FencePasses(c.run, c.attempts, ctx, now, false)
            case Ack(ctx, _) => FencePasses(c.run, c.attempts, ctx, now, false)
            case _ => true
  {
    hide FencePasses, BarrierMet, AnyUnaccepted, PendingInputs, RevokeExcept, IsChild, ReconcileCell;
  }

  lemma GateFenced(c: Cell, now: Time, k: OpKey, call: Call, g: GateEvent, maxRounds: nat)
    requires Enabled(call.phase, g) && GateCell(c, now, k, call, g, maxRounds).Ok?
    ensures FencePasses(c.run, c.attempts, call.ctx, now, Winding(g))
  {
    hide FencePasses, GrantStands, Registered;
  }

  // ---------------------------------------------------------------- the gateway's transactions

  /** The grant that the operation was executed under still stands: it names the operation, was used and not revoked,
      has not expired, was given under the present policy, and for what the operation is. */
  predicate StillGranted(c: Cell, k: OpKey, now: Time, policy: nat)
    requires k in c.ops
  {
    exists g ::
      && g in c.grants && c.ops[k].grant == Some(g)
      && c.grants[g].op == k && !c.grants[g].revoked && c.grants[g].consumed && c.grants[g].remaining == 0
      && now < c.grants[g].binding.expires && c.grants[g].binding.policy == policy
      && c.grants[g].binding.argsHash == c.ops[k].argsHash
      && c.grants[g].binding.toolRevision == c.ops[k].tool.revision
      && c.grants[g].binding.fingerprint == c.ops[k].fingerprint
  }

  lemma GrantIff(c: Cell, k: OpKey, now: Time, policy: nat)
    requires k in c.ops
    ensures GrantStands(c, k, now, policy) <==> StillGranted(c, k, now, policy)
  {}

  /** The saved exchange awaits its answer, was made with the same schema and configuration, and its form belongs to the
      operation and is closed. */
  predicate AnswerReady(c: Cell, k: OpKey, schemaHash: nat, config: nat)
    requires k in c.ops
  {
    match c.ops[k].meta.continuation
    case None => false
    case Some(saved) =>
      && saved.status.AwaitingInput? && saved.schemaHash == schemaHash && saved.config == config
      && saved.interaction in c.interactions && c.interactions[saved.interaction].operation == Some(k)
      && (var s := c.interactions[saved.interaction].status; s.Resolved? || s.Expired? || s.Cancelled?)
  }

  /** How many rounds of questions the operation has asked. */
  function Rounds(op: Operation): nat {
    match op.meta.continuation
    case None => 0
    case Some(saved) => saved.round
  }

  /** What a transaction of the gateway needs, besides a worker that is in charge. */
  predicate Provided(c: Cell, now: Time, k: OpKey, call: Call, g: GateEvent, maxRounds: nat)
    requires Enabled(call.phase, g)
  {
    match g
    case Prepare(tool, argsHash, _) => k in c.ops ==> c.ops[k].argsHash == argsHash && c.ops[k].tool == tool
    case Authorize(grant, binding, policy) =>
      && k in c.ops && c.ops[k].revision == call.phase.revision && grant !in c.grants
      && now < binding.expires && binding.policy == policy
    case Note(_, _) => k in c.ops
    case Suspend(_, _, _, _, _) =>
      k in c.ops && c.ops[k].revision == call.phase.revision && Rounds(c.ops[k]) < maxRounds
    case Verify(policy) => k in c.ops && StillGranted(c, k, now, policy)
    case TakeAnswer(schemaHash, config) =>
      k in c.ops && c.ops[k].revision == call.phase.revision && AnswerReady(c, k, schemaHash, config)
    case Finish(_) => k in c.ops
  }

  /** What a transaction of the gateway makes of its operation. */
  predicate OpAfter(x: Operation, y: Operation, k: OpKey, call: Call, g: GateEvent)
    requires Enabled(call.phase, g)
  {
    match g
    case Prepare(_, _, _) => y == x
    case Authorize(grant, _, _) =>
      y == x.(state := OpState.Running, grant := Some(grant), attempt := call.ctx.attempt, token := call.ctx.token,
              revision := y.revision)
    case Note(file, proven) =>
      y == x.(meta := x.meta.(file := file, provenNotStarted := proven), revision := y.revision)
    case Suspend(request, schemaHash, config, intact, _) =>
      var round := Rounds(x) + 1;
      var saved := Continuation(AwaitingInput, round, Elicitation(k, round, request), schemaHash, config, intact);
      y == x.(meta := x.meta.(continuation := Some(saved)), revision := y.revision)
    case Verify(_) => y == x
    case TakeAnswer(_, _) =>
      && x.meta.continuation.Some?
      && y == x.(meta := x.meta.(continuation := Some(x.meta.continuation.value.(status := Sending))),
                 revision := y.revision)
    case Finish(result) => y == x.(state := result.status, result := Some(result), revision := y.revision)
  }

  /** A revision that was read before a change is never current after it. */
  predicate Revised(x: Operation, y: Operation) {
    y == x || x.revision < y.revision
  }

  /** What a transaction of the gateway leaves: its own operation as `OpAfter` says, a new one prepared and bare; the
      grant of an authorization, used up for the operation; the form of a suspended exchange, if its key is new. */
  predicate Leaves(c: Cell, d: Cell, k: OpKey, call: Call, g: GateEvent)
    requires Enabled(call.phase, g)
  {
    && k in d.ops && d.ops == c.ops[k := d.ops[k]]
    && (if k in c.ops then OpAfter(c.ops[k], d.ops[k], k, call, g) && Revised(c.ops[k], d.ops[k])
        else
          && g.Prepare?
          && d.ops[k] == Operation(g.tool, g.argsHash, g.fingerprint, OpState.Prepared, d.ops[k].revision,
                                   call.ctx.attempt, call.ctx.token, None, None, Metadata(None, false, false, None)))
    && d.grants == (if g.Authorize? then c.grants[g.grant := Grant(k, g.binding, 0, false, true)] else c.grants)
    && (if g.Suspend? && k in c.ops && Elicitation(k, Rounds(c.ops[k]) + 1, g.request) !in c.interactions then
          var key := Elicitation(k, Rounds(c.ops[k]) + 1, g.request);
          && key in d.interactions && d.interactions == c.interactions[key := d.interactions[key]]
          && d.interactions[key].status.PendingBinding? && d.interactions[key].operation == Some(k)
          && d.interactions[key].inputRevision == call.ctx.inputRevision
          && d.interactions[key].interrupt.None? && d.interactions[key].resolution.None?
          && d.interactions[key].expires == Some(g.expires)
        else d.interactions == c.interactions)
    && d == c.(ops := d.ops, grants := d.grants, interactions := d.interactions)
  }

  lemma FenceStrict(c: Cell, ctx: Context, now: Time)
    ensures FencePasses(c.run, c.attempts, ctx, now, false) ==> FencePasses(c.run, c.attempts, ctx, now, true)
  {}

  lemma ProvidedIff(c: Cell, now: Time, k: OpKey, call: Call, g: GateEvent, maxRounds: nat)
    requires Enabled(call.phase, g)
    ensures GateCell(c, now, k, call, g, maxRounds).Ok? <==>
              FencePasses(c.run, c.attempts, call.ctx, now, Winding(g)) && Provided(c, now, k, call, g, maxRounds)
  {
    hide FencePasses, GrantStands, StillGranted, Registered;
    FenceStrict(c, call.ctx, now);
    if k in c.ops && g.Verify? {
      GrantIff(c, k, now, g.policy);
    }
  }

  lemma GateLeaves(c: Cell, now: Time, k: OpKey, call: Call, g: GateEvent, maxRounds: nat)
    requires Enabled(call.phase, g) && GateCell(c, now, k, call, g, maxRounds).Ok?
    ensures Leaves(c, GateCell(c, now, k, call, g, maxRounds).value, k, call, g)
  {
    hide FencePasses, GrantStands;
  }

  /** A transaction of the gateway succeeds exactly if its call holds the lock and has come to it, its worker is in
      charge, and what it needs is there; and then it does this to the run of its operation, and nothing to any
      other. */
  lemma GateDoes(w: World, cfg: Config, lock: LockKey, g: GateEvent)
    ensures Apply(w, cfg, Gate(lock, g)).Ok? <==>
              && lock in w.locks && lock.slot.run in w.db.cells && Enabled(w.locks[lock].phase, g)
              && var c := w.db.cells[lock.slot.run];
              && InCharge(c, w.locks[lock].ctx, w.now, Winding(g))
              && Provided(c, w.now, lock.slot.op, w.locks[lock], g, cfg.maxRounds)
    ensures Apply(w, cfg, Gate(lock, g)).Ok? ==>
              var n, r := Next(w, cfg, Gate(lock, g)).db, lock.slot.run;
              && r in n.cells && n.cells == w.db.cells[r := n.cells[r]]
              && Leaves(w.db.cells[r], n.cells[r], lock.slot.op, w.locks[lock], g)
  {
    hide FencePasses, InCharge, Provided, Leaves, GateCell, Enabled, NextPhase;
    if lock in w.locks && lock.slot.run in w.db.cells && Enabled(w.locks[lock].phase, g) {
      var c := w.db.cells[lock.slot.run];
      FenceIff(c, w.locks[lock].ctx, w.now, Winding(g));
      ProvidedIff(c, w.now, lock.slot.op, w.locks[lock], g, cfg.maxRounds);
      if GateCell(c, w.now, lock.slot.op, w.locks[lock], g, cfg.maxRounds).Ok? {
        GateLeaves(c, w.now, lock.slot.op, w.locks[lock], g, cfg.maxRounds);
        GateFrames(c, w.now, lock.slot.op, w.locks[lock], g, cfg.maxRounds);
      }
    }
  }

  // ---------------------------------------------------------------- the lookup

  /** Nothing is left to do for the operation: it has its result, or is in doubt and no exchange of it can go on. */
  predicate Concluded(op: Operation, tool: Tool) {
    || ((op.state.Succeeded? || op.state.Failed? || op.state.Cancelled?) && op.result.Some?)
    || op.state.Unknown?
    || (op.state.Running? && !(tool.kind.Durable? && match op.meta.continuation
                                                     case None => false
                                                     case Some(saved) => saved.status.AwaitingInput?))
  }

  /** A lookup changes no table.  It is refused to a foreign or dead process, while another call of the process holds
      the operation's lock, and for other arguments or another tool than the operation has.  It takes the lock unless
      the operation is concluded: to resume a running one, or to prepare one. */
  lemma LookupDoes(w: World, cfg: Config, p: ProcessId, s: Slot, ctx: Context, tool: Tool, argsHash: nat)
    ensures Apply(w, cfg, Lookup(p, s, ctx, tool, argsHash)).Ok? <==>
              && p in w.alive && s.run in w.db.cells && ctx.run == s.run && LockKey(p, s) !in w.locks
              && var c := w.db.cells[s.run];
              && ctx.attempt in c.attempts && c.attempts[ctx.attempt].process == p
              && (s.op in c.ops ==>
                    && c.ops[s.op].argsHash == argsHash
                    && c.ops[s.op].tool.id == tool.id && c.ops[s.op].tool.revision == tool.revision)
    ensures Apply(w, cfg, Lookup(p, s, ctx, tool, argsHash)).Ok? ==>
              var n, ops := Next(w, cfg, Lookup(p, s, ctx, tool, argsHash)), w.db.cells[s.run].ops;
              if s.op in ops && Concluded(ops[s.op], tool) then n == w
              else if s.op in ops && ops[s.op].state.Running?
              then n == w.(locks := w.locks[LockKey(p, s) := Call(ctx, Resuming(ops[s.op].revision))])
              else n == w.(locks := w.locks[LockKey(p, s) := Call(ctx, Looked)])
  {}

  // ---------------------------------------------------------------- the course of a call

  /** How an event may take a call that holds its lock from one phase to another. */
  predicate MovesOn(e: Event, lock: LockKey, x: Phase, y: Phase) {
    match y
    case Looked => false
    case Ready(_) => x.Looked? && e.Gate? && e.lock == lock && e.gate.Prepare?
    case Granted(_) => x.Ready? && e.Gate? && e.lock == lock && e.gate.Authorize?
    case Executing(_) => x.Granted? && e.Enter? && e.lock == lock
    case Resuming(_) => false
    case Verified(_) => x.Resuming? && e.Gate? && e.lock == lock && e.gate.Verify?
    case Answering(_) => x.Verified? && e.Gate? && e.lock == lock && e.gate.TakeAnswer?
    case Sent(_) => x.Answering? && e.Send? && e.lock == lock
    case Suspended => (x.Executing? || x.Sent?) && e.Gate? && e.lock == lock && e.gate.Suspend?
  }

  /** A call takes its lock at a lookup, goes from phase to phase in these ways only, under the same context, and gives
      the lock back. */
  lemma PhasesMoveOn(w: World, cfg: Config, e: Event, lock: LockKey)
    requires lock in Next(w, cfg, e).locks
    ensures var y := Next(w, cfg, e).locks[lock];
            if lock in w.locks
            then y == w.locks[lock]
                 || (y.ctx == w.locks[lock].ctx && MovesOn(e, lock, w.locks[lock].phase, y.phase))
            else
              && e.Lookup? && lock == LockKey(e.process, e.slot) && y.ctx == e.ctx
              && (y.phase.Looked? || y.phase.Resuming?)
  {
    hide ApplyRow, SubmitIn, DelegateIn, ClaimIn, WorkerSettleIn, ExpireIn, RefreshIn, CancelIn, FinishAll, RecoverIn;
    hide GateCell, Lost, ResetBy, RowIn, Freed;
  }

  predicate InPhase(w: World, lock: LockKey, granted: bool) {
    && lock in w.locks
    && var phase := w.locks[lock].phase;
    if granted then phase.Granted? || phase.Executing? else phase.Verified? || phase.Answering? || phase.Sent?
  }

  /** The event lets the call go on: with a new grant, or on the evidence that the operation's own grant still
      stands. */
  predicate LetsGoOn(w: World, cfg: Config, e: Event, lock: LockKey, granted: bool) {
    && e.Gate? && e.lock == lock && Apply(w, cfg, e).Ok? && lock in w.locks && lock.slot.run in w.db.cells
    && var c, ctx := w.db.cells[lock.slot.run], w.locks[lock].ctx;
    && InCharge(c, ctx, w.now, false) && lock.slot.op in c.ops
    && if granted then e.gate.Authorize? && w.now < e.gate.binding.expires
       else e.gate.Verify? && StillGranted(c, lock.slot.op, w.now, e.gate.policy)
  }

  /** Somewhere among the events the call was let go on. */
  predicate WentOn(w: World, cfg: Config, events: seq<Event>, lock: LockKey, granted: bool)
    decreases |events|
  {
    events != []
    && (LetsGoOn(w, cfg, events[0], lock, granted)
        || WentOn(Next(w, cfg, events[0]), cfg, events[1..], lock, granted))
  }

  lemma LetGoOn(w: World, cfg: Config, e: Event, lock: LockKey, granted: bool)
    requires !InPhase(w, lock, granted) && InPhase(Next(w, cfg, e), lock, granted)
    ensures LetsGoOn(w, cfg, e, lock, granted)
  {
    hide Next, Apply, InCharge, StillGranted, Leaves;
    PhasesMoveOn(w, cfg, e, lock);
    Failed(w, cfg, e);
    if e.Gate? {
      GateDoes(w, cfg, e.lock, e.gate);
    }
  }

  lemma Failed(w: World, cfg: Config, e: Event)
    ensures Apply(w, cfg, e).Err? ==> Next(w, cfg, e) == w
  {
    hide Apply;
  }

  /** No call executes its operation, and none takes or sends a saved answer, that was not let do so since it took its
      lock, or any other moment it was not doing so: by a grant of its own, or by the check that the operation's grant
      still stands. */
  lemma {:induction false} NoneGoesOnUnasked(w: World, cfg: Config, events: seq<Event>, lock: LockKey, granted: bool)
    requires !InPhase(w, lock, granted) && InPhase(Play(w, cfg, events), lock, granted)
    ensures WentOn(w, cfg, events, lock, granted)
    decreases |events|
  {
    hide Next, InPhase, LetsGoOn;
    if InPhase(Next(w, cfg, events[0]), lock, granted) {
      LetGoOn(w, cfg, events[0], lock, granted);
    } else {
      NoneGoesOnUnasked(Next(w, cfg, events[0]), cfg, events[1..], lock, granted);
    }
  }

  /** Entering an executor, and sending an answer, are counted; an executor is entered with a grant, or for a host wait,
      and an answer is sent once it was taken. */
  lemma OutsideDoes(w: World, cfg: Config, lock: LockKey, s: Slot)
    ensures Apply(w, cfg, Enter(lock)).Ok? <==>
              && lock in w.locks && lock.slot.run in w.db.cells && lock.slot.op in w.db.cells[lock.slot.run].ops
              && (w.locks[lock].phase.Granted?
                  || (w.locks[lock].phase.Ready? && w.db.cells[lock.slot.run].ops[lock.slot.op].tool.kind.HostWait?))
    ensures Apply(w, cfg, Send(lock)).Ok? <==> lock in w.locks && w.locks[lock].phase.Answering?
    ensures Apply(w, cfg, Enter(lock)).Ok? ==>
              && Times(Next(w, cfg, Enter(lock)).starts, s) == Times(w.starts, s) + (if s == lock.slot then 1 else 0)
              && Next(w, cfg, Enter(lock)).sends == w.sends && Next(w, cfg, Enter(lock)).db == w.db
    ensures Apply(w, cfg, Send(lock)).Ok? ==>
              && Times(Next(w, cfg, Send(lock)).sends, s) == Times(w.sends, s) + (if s == lock.slot then 1 else 0)
              && Next(w, cfg, Send(lock)).starts == w.starts && Next(w, cfg, Send(lock)).db == w.db
  {}
}
