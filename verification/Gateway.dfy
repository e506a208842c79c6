/** `ToolGateway.execute`, cut at its transaction boundaries: what a call that holds an operation's lock may do
    next, what each transaction does to the operation's run, and what the lock and the fence guarantee. */
module Gateway {
  import opened Domain
  import opened RunMachine
  import opened RunInvariant
  import opened RunSteps
  import opened TablesInvariant
  import opened RowEvents

  /** Where a call stands; the number is the operation revision it last read. */
  datatype Phase =
    | Looked
    | Ready(revision: nat)
    | Granted(revision: nat)
    | Executing(revision: nat)
    | Resuming(revision: nat)
    | Verified(revision: nat)
    | Answering(revision: nat)
    | Sent(revision: nat)
    | Suspended

  /** A call of `execute` that holds its operation's lock. */
  datatype Call = Call(ctx: Context, phase: Phase)

  /** Locks live in one process. */
  datatype LockKey = LockKey(process: ProcessId, slot: Slot)

  type Locks = map<LockKey, Call>

  datatype GateEvent =
    | Prepare(tool: Tool, argsHash: nat, fingerprint: nat)
    | Authorize(grant: GrantId, binding: Binding, policy: nat)
    | Note(file: Option<FileTarget>, provenNotStarted: bool)
    | Suspend(request: nat, schemaHash: nat, config: nat, intact: bool, expires: Time)
    | Verify(policy: nat)
    | TakeAnswer(schemaHash: nat, config: nat)
    | Finish(result: ToolResult)

  /** Where in `execute` each transaction stands.  A `ToolResult` has one of four statuses. */
  predicate Enabled(phase: Phase, g: GateEvent) {
    match g
    case Prepare(tool, _, _) => phase.Looked? && (tool.kind.HostWait? ==> tool.effect.Read?)
    case Authorize(_, _, _) => phase.Ready?
    case Note(_, _) => phase.Executing?
    case Suspend(_, _, _, _, _) => phase.Executing? || phase.Sent?
    case Verify(_) => phase.Resuming?
    case TakeAnswer(_, _) => phase.Verified?
    case Finish(result) => !phase.Looked? && !phase.Granted? && (TerminalOp(result.status) || result.status.Unknown?)
  }

  function GateCell(c: Cell, now: Time, k: OpKey, call: Call, g: GateEvent, maxRounds: nat): Result<Cell>
    requires Enabled(call.phase, g)
  {
    var ctx := call.ctx;
    match g
    case Prepare(tool, argsHash, fingerprint) => PrepareOpCell(c, ctx, now, k, tool, argsHash, fingerprint)
    case Authorize(grant, binding, policy) => AuthorizeCell(c, ctx, now, k, call.phase.revision, grant, binding, policy)
    case Note(file, proven) => NoteOpCell(c, ctx, now, k, file, proven)
    case Suspend(request, schemaHash, config, intact, expires) =>
      SuspendCell(c, ctx, now, k, call.phase.revision, request, schemaHash, config, intact, expires, maxRounds)
    case Verify(policy) => VerifyGrantCell(c, ctx, now, k, policy)
    case TakeAnswer(schemaHash, config) => TakeAnswerCell(c, ctx, now, k, call.phase.revision, schemaHash, config)
    case Finish(result) => FinishOpCell(c, ctx, now, k, result)
  }

  /** The call's next phase; a finished call gives its lock back. */
  function NextPhase(phase: Phase, g: GateEvent, revision: nat): Option<Phase>
    requires Enabled(phase, g)
  {
    match g
    case Prepare(_, _, _) => Some(Ready(revision))
    case Authorize(_, _, _) => Some(Granted(revision))
    case Note(_, _) => Some(phase)
    case Suspend(_, _, _, _, _) => Some(Suspended)
    case Verify(_) => Some(Verified(phase.revision))
    case TakeAnswer(_, _) => Some(Answering(revision))
    case Finish(_) => None
  }

  // ---------------------------------------------------------------- what a phase says of the operation

  /** The call's attempt is its run's current one, and is not over. */
  predicate Current(c: Cell, ctx: Context) {
    c.run.attempt == Some(ctx.attempt) && Held(c.run, c.attempts)
  }

  predicate Awaits(op: Operation) {
    op.meta.continuation.Some? && op.meta.continuation.value.status.AwaitingInput?
  }

  predicate Sends(op: Operation) {
    op.meta.continuation.Some? && op.meta.continuation.value.status.Sending?
  }

  /** What a call knows of its operation while its attempt is current.  For an operation that was found not to
      have been executed, `reset`, old exchanges say nothing. */
  predicate PhaseOk(ops: map<OpKey, Operation>, k: OpKey, phase: Phase, reset: bool, sends: nat) {
    if phase.Looked? then k in ops ==> ops[k].state.Prepared?
    else
      && k in ops
      && match phase
         case Ready(_) => ops[k].state.Prepared?
         case Granted(_) => ops[k].state.Running? && (!reset ==> ops[k].meta.continuation.None?)
         case Executing(_) => ops[k].state.Running? && (!reset ==> ops[k].meta.continuation.None?)
         case Resuming(_) => ops[k].state.Running? && Awaits(ops[k])
         case Verified(_) => ops[k].state.Running? && Awaits(ops[k])
         case Answering(_) => ops[k].state.Running? && Sends(ops[k])
         case Sent(_) => ops[k].state.Running? && Sends(ops[k]) && (!reset ==> sends == RoundOf(ops[k]))
         case Suspended => ops[k].state.Running?
  }

  /** Every transaction of a call that changes anything passes the fence first. */
  lemma GateIsFenced(c: Cell, now: Time, k: OpKey, call: Call, g: GateEvent, maxRounds: nat)
    requires Enabled(call.phase, g) && GateCell(c, now, k, call, g, maxRounds).Ok?
    ensures FencePasses(c.run, c.attempts, call.ctx, now, true) && Current(c, call.ctx)
  {
    hide GrantStands, InterruptTaken, Registered;
  }

  /** A call writes its own operation, grants and forms, and nothing else. */
  predicate Frames(c: Cell, d: Cell, k: OpKey) {
    && d.run == c.run && d.attempts == c.attempts && d.waits == c.waits && d.deps == c.deps && d.inputs == c.inputs
    && d.reviewed == c.reviewed
    && (k in d.ops ==> d.ops == c.ops[k := d.ops[k]]) && (k !in d.ops ==> d.ops == c.ops)
  }

  lemma GateFrames(c: Cell, now: Time, k: OpKey, call: Call, g: GateEvent, maxRounds: nat)
    requires Enabled(call.phase, g) && GateCell(c, now, k, call, g, maxRounds).Ok?
    ensures Frames(c, GateCell(c, now, k, call, g, maxRounds).value, k)
    ensures k in GateCell(c, now, k, call, g, maxRounds).value.ops
  {
    hide FencePasses, GrantStands, Registered;
  }

  lemma GateInv(c: Cell, now: Time, k: OpKey, call: Call, g: GateEvent, maxRounds: nat, reset: bool, sends: nat)
    requires CellInv(c) && Enabled(call.phase, g) && GateCell(c, now, k, call, g, maxRounds).Ok?
    requires PhaseOk(c.ops, k, call.phase, reset, sends)
    ensures var d := GateCell(c, now, k, call, g, maxRounds).value; CellInv(d) && CellStep(c, now, d, now)
  {
    hide CellInv, CellStep, FencePasses, GrantStands, Registered;
    var ctx := call.ctx;
    match g
    case Prepare(tool, argsHash, fingerprint) => PrepareOpKeeps(c, ctx, now, k, tool, argsHash, fingerprint);
    case Authorize(grant, binding, policy) =>
      AuthorizeKeeps(c, ctx, now, k, call.phase.revision, grant, binding, policy);
    case Note(file, proven) => NoteOpKeeps(c, ctx, now, k, file, proven);
    case Suspend(request, schemaHash, config, intact, expires) =>
      SuspendKeeps(c, ctx, now, k, call.phase.revision, request, schemaHash, config, intact, expires, maxRounds);
    case Verify(policy) => CellStepTick(c, now, now);
    case TakeAnswer(schemaHash, config) => TakeAnswerKeeps(c, ctx, now, k, call.phase.revision, schemaHash, config);
    case Finish(result) => FinishOpKeeps(c, ctx, now, k, result);
  }

  lemma GateAdvances(c: Cell, now: Time, k: OpKey, call: Call, g: GateEvent, maxRounds: nat, reset: bool, sends: nat)
    requires CellInv(c) && Enabled(call.phase, g) && GateCell(c, now, k, call, g, maxRounds).Ok?
    requires PhaseOk(c.ops, k, call.phase, reset, sends)
    ensures Advanced(c, GateCell(c, now, k, call, g, maxRounds).value, now)
  {
    hide CellInv, CellStep, GateCell, IsChild, PhaseOk;
    GateInv(c, now, k, call, g, maxRounds, reset, sends);
    GateFrames(c, now, k, call, g, maxRounds);
  }

  /** The next phase's own condition holds after the transaction. */
  lemma GatePhase(c: Cell, now: Time, k: OpKey, call: Call, g: GateEvent, maxRounds: nat, reset: bool, sends: nat)
    requires Enabled(call.phase, g) && GateCell(c, now, k, call, g, maxRounds).Ok?
    requires PhaseOk(c.ops, k, call.phase, reset, sends)
    requires !reset && k in c.ops && c.ops[k].state.Prepared? ==> c.ops[k].meta.continuation.None?
    ensures var d := GateCell(c, now, k, call, g, maxRounds).value;
            var next := NextPhase(call.phase, g, d.ops[k].revision);
            next.Some? ==> PhaseOk(d.ops, k, next.value, reset, sends)
  {
    hide FencePasses, GrantStands, Registered;
    GateFrames(c, now, k, call, g, maxRounds);
  }
}
