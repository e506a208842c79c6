/** What one transaction does to the rows of one run: the specification functions of the scheduler and of
    the tool ledger.  Decisions that need other runs arrive as arguments. */
module RunMachine {
  import opened Domain

  // ---------------------------------------------------------------- leases and fencing

  predicate LeaseHeld(r: Run, m: map<AttemptId, Attempt>, ctx: Context, now: Time) {
    && r.token == ctx.token
    && r.attempt == Some(ctx.attempt)
    && ctx.attempt in m
    && !m[ctx.attempt].ended
    && now < m[ctx.attempt].lease
  }

  /** `assert_fence`. */
  predicate FencePasses(r: Run, m: map<AttemptId, Attempt>, ctx: Context, now: Time, allowCancelling: bool) {
    && LeaseHeld(r, m, ctx, now)
    && (r.status.Running? || (allowCancelling && r.status.Cancelling?))
    && (r.cancelRequested ==> allowCancelling)
  }

  function FenceError(c: Cell, ctx: Context, now: Time): Error {
    if LeaseHeld(c.run, c.attempts, ctx, now) then RunStopped else StaleWorker
  }

  function EndAttempt(c: Cell, a: AttemptId): Cell {
    if a in c.attempts then c.(attempts := c.attempts[a := c.attempts[a].(ended := true)]) else c
  }

  function HeartbeatCell(c: Cell, ctx: Context, now: Time, expiry: Time): Result<Cell> {
    if !FencePasses(c.run, c.attempts, ctx, now, true) then Err(FenceError(c, ctx, now))
    else Ok(c.(attempts := c.attempts[ctx.attempt := c.attempts[ctx.attempt].(lease := expiry)]))
  }

  // ---------------------------------------------------------------- status changes

  predicate Unclosed(i: Interaction) {
    i.status.PendingBinding? || i.status.Open?
  }

  function Withdraw(i: Interaction): Interaction {
    if Unclosed(i)
    then i.(status := InteractionStatus.Cancelled, resolution := Some(Withdrawn), revision := i.revision + 1)
    else i
  }

  function WithdrawAll(m: map<RequestKey, Interaction>): map<RequestKey, Interaction> {
    map k | k in m :: Withdraw(m[k])
  }

  function RevokeExcept(m: map<GrantId, Grant>, keep: set<GrantId>): map<GrantId, Grant> {
    map g | g in m :: if g in keep then m[g] else m[g].(revoked := true)
  }

  /** The result recorded for an operation that its run's end cut off. */
  const RUN_TERMINAL := ToolResult(OpState.Cancelled, 0)

  function DropPrepared(op: Operation): Operation {
    if op.state.Prepared? || op.state.Authorized?
    then op.(state := OpState.Cancelled, result := Some(RUN_TERMINAL), revision := op.revision + 1)
    else op
  }

  function DropAll(m: map<OpKey, Operation>): map<OpKey, Operation> {
    map k | k in m :: DropPrepared(m[k])
  }

  function CloseCell(c: Cell): Cell {
    c.(grants := RevokeExcept(c.grants, {}), interactions := WithdrawAll(c.interactions), ops := DropAll(c.ops))
  }

  function Moved(r: Run, to: Status): Run {
    r.(status := to, revision := r.revision + 1)
  }

  /** `transition` to a status that is not terminal. */
  function Advance(c: Cell, to: Status): Result<Cell> {
    if Allowed(c.run.status, to) then Ok(c.(run := Moved(c.run, to))) else Err(InvalidTransition)
  }

  /** `transition` to a terminal status closes whatever the run still holds open. */
  function Conclude(c: Cell, to: Status): Result<Cell> {
    if Allowed(c.run.status, to) then Ok(CloseCell(c.(run := Moved(c.run, to)))) else Err(InvalidTransition)
  }

  function Transition(c: Cell, to: Status): Result<Cell> {
    if Terminal(to) then Conclude(c, to) else Advance(c, to)
  }

  // ---------------------------------------------------------------- claiming

  function ClaimCell(c: Cell, a: AttemptId, p: ProcessId, expiry: Time): Result<Cell> {
    if a in c.attempts then Err(Integrity)
    else
      var token := c.run.token + 1;
      var leased := c.(attempts := c.attempts[a := Attempt(token, p, expiry, false)],
                       run := c.run.(attempt := Some(a), token := token));
      Advance(leased, Status.Running)
  }

  // ---------------------------------------------------------------- the interrupt barrier

  /** The rows that `Scheduler.resolutions` reads. */
  datatype Answers = Answers(
    interactions: map<RequestKey, Interaction>, waits: map<OpKey, Wait>, reviewed: set<Interrupt>)

  function AnswersOf(c: Cell): Answers {
    Answers(c.interactions, c.waits, c.reviewed)
  }

  predicate HasAnswer(s: Answers, i: Interrupt) {
    || (exists k :: k in s.interactions && s.interactions[k].interrupt == Some(i) && s.interactions[k].resolution.Some?)
    || (exists k :: k in s.waits && s.waits[k].interrupt == Some(i) && s.waits[k].resolution.Some?)
    || i in s.reviewed
  }

  predicate BarrierMet(required: set<Interrupt>, s: Answers) {
    forall i :: i in required ==> HasAnswer(s, i)
  }

  function Wake(c: Cell): Cell {
    if !Waiting(c.run.status) || c.run.cancelRequested || !BarrierMet(c.run.required, AnswersOf(c)) then c
    else c.(run := Moved(c.run, Status.Queued))
  }

  function RespondCell(c: Cell, k: RequestKey, expected: nat, response: nat, now: Time,
                       schemaOk: bool, bindingOk: bool): Result<Cell> {
    if k !in c.interactions then Err(NotFound)
    else
      var i := c.interactions[k];
      if i.revision != expected then Err(RevisionConflict)
      else if !i.status.Open? || !c.run.status.WaitingUser? then Err(InteractionClosed)
      else if i.expires.Some? && i.expires.value <= now then Err(InteractionExpired)
      else if !schemaOk then Err(ResponseSchema)
      else if k.Approval? && !bindingOk then Err(BindingMismatch)
      else
        var resolved := i.(status := InteractionStatus.Resolved, resolution := Some(Answered(response)),
                           revision := i.revision + 1);
        Ok(Wake(c.(interactions := c.interactions[k := resolved])))
  }

  function Lapse(i: Interaction, now: Time): Interaction {
    if i.status.Open? && i.expires.Some? && i.expires.value <= now
    then i.(status := InteractionStatus.Expired, resolution := Some(Lapsed), revision := i.revision + 1)
    else i
  }

  function LapseAll(m: map<RequestKey, Interaction>, now: Time): map<RequestKey, Interaction> {
    map k | k in m :: Lapse(m[k], now)
  }

  function ExpireCell(c: Cell, now: Time): Cell {
    if Waiting(c.run.status) then Wake(c.(interactions := LapseAll(c.interactions, now))) else c
  }

  /** `ready` holds the keys of the waits whose children satisfy their mode. */
  function ResolveWait(w: Wait, ready: bool): Wait {
    if w.bound && w.resolution.None? && ready
    then w.(resolution := Some(ChildrenReady), revision := w.revision + 1)
    else w
  }

  function ResolveWaits(m: map<OpKey, Wait>, ready: set<OpKey>): map<OpKey, Wait> {
    map k | k in m :: ResolveWait(m[k], k in ready)
  }

  /** `_refresh_waits` of one parent; a parent none of whose waits changed is not woken. */
  function RefreshCell(c: Cell, ready: set<OpKey>): Cell {
    var waits := ResolveWaits(c.waits, ready);
    if waits == c.waits then c else Wake(c.(waits := waits))
  }

  predicate IsChild(deps: seq<Dependency>, r: RunId) {
    exists d :: d in deps && d.child == r
  }

  function AddWaitCell(c: Cell, k: OpKey, children: seq<RunId>, mode: WaitMode): Result<Cell> {
    if children == [] || exists r :: r in children && !IsChild(c.deps, r) then Err(WaitScope)
    else if k in c.waits then Ok(c)
    else Ok(c.(waits := c.waits[k := Wait.Wait(children, mode, None, false, None, 1)]))
  }

  // ---------------------------------------------------------------- settling a worker's outcome

  predicate Unresolved(op: Operation) {
    (op.state.Running? || op.state.Unknown?) && !op.meta.unresolvedAccepted
  }

  predicate AnyUnresolved(c: Cell) {
    exists k :: k in c.ops && Unresolved(c.ops[k])
  }

  function Checkpointed(c: Cell, checkpoint: Option<nat>): Cell {
    if checkpoint.None? then c
    else c.(run := c.run.(checkpoint := checkpoint, revision := c.run.revision + 1))
  }

  predicate InterruptTaken(m: map<RequestKey, Interaction>, interrupt: Interrupt, inputRevision: nat) {
    exists k :: k in m && m[k].interrupt == Some(interrupt) && m[k].inputRevision == inputRevision
  }

  function BindInteraction(m: map<RequestKey, Interaction>, k: RequestKey, interrupt: Interrupt,
                           inputRevision: nat): Result<map<RequestKey, Interaction>> {
    if k !in m then Err(NotFound)
    else if m[k].inputRevision != inputRevision then Err(InterruptMismatch)
    else if !m[k].status.PendingBinding? then Ok(m)
    else if InterruptTaken(m, interrupt, inputRevision) then Err(Integrity)
    else
      var i := m[k];
      Ok(m[k := i.(status := InteractionStatus.Open, interrupt := Some(interrupt), revision := i.revision + 1)])
  }

  function BindWait(m: map<OpKey, Wait>, k: OpKey, interrupt: Interrupt): Result<map<OpKey, Wait>> {
    if k !in m then Err(NotFound)
    else Ok(m[k := m[k].(interrupt := Some(interrupt), bound := true, revision := m[k].revision + 1)])
  }

  function BindReview(m: map<OpKey, Operation>, k: OpKey): Result<map<OpKey, Operation>> {
    if k !in m then Err(NotFound)
    else if !m[k].state.Running? then Ok(m)
    else Ok(m[k := m[k].(state := OpState.Unknown, revision := m[k].revision + 1)])
  }

  /** Binds one interrupt reference to a row of this cell. */
  function BindRef(c: Cell, inputRevision: nat, r: Ref): Result<Cell> {
    match r
    case UserRef(interrupt, _, k) =>
      var m :- BindInteraction(c.interactions, k, interrupt, inputRevision);
      Ok(c.(interactions := m))
    case ChildrenRef(interrupt, _, k) =>
      var m :- BindWait(c.waits, k, interrupt);
      Ok(c.(waits := m))
    case ReviewRef(_, _, op) =>
      if op.None? then Ok(c)
      else
        var m :- BindReview(c.ops, op.value);
        Ok(c.(ops := m))
  }

  function BindRefs(c: Cell, inputRevision: nat, refs: seq<Ref>): Result<Cell>
    decreases |refs|
  {
    if refs == [] then Ok(c)
    else
      var next :- BindRef(c, inputRevision, refs[0]);
      BindRefs(next, inputRevision, refs[1..])
  }

  function RequiredOf(refs: seq<Ref>): set<Interrupt> {
    set r | r in refs :: r.interrupt
  }

  function ParkedStatus(refs: seq<Ref>): Status {
    if exists r :: r in refs && r.ReviewRef? then Status.NeedsReview
    else if exists r :: r in refs && r.UserRef? then Status.WaitingUser
    else Status.WaitingChildren
  }

  function ParkCell(c: Cell, a: AttemptId, refs: seq<Ref>): Result<Cell> {
    var parked :- Advance(c.(run := c.run.(required := RequiredOf(refs))), ParkedStatus(refs));
    Ok(EndAttempt(parked, a))
  }

  function AckCancelCell(c: Cell, a: AttemptId, childrenDone: bool): Result<Cell> {
    var next :- if !AnyUnresolved(c) && childrenDone then Conclude(c, Status.Cancelled) else Ok(c);
    Ok(EndAttempt(next, a))
  }

  /** The last three branches of `settle`; `unresolved` was computed before any of them ran. */
  function StopCell(c: Cell, a: AttemptId, o: Outcome, childrenDone: bool): Result<Cell> {
    var next :-
      if AnyUnresolved(c) then Advance(c, Status.NeedsReview)
      else if o.kind.Final? then
        if o.checkpoint.None? || o.result.None? then Err(FinalNotDurable)
        else if !childrenDone then Err(ChildrenUnsettled)
        else Conclude(c.(run := c.run.(result := o.result)), Status.Completed)
      else Conclude(c, Status.Failed);
    Ok(EndAttempt(next, a))
  }

  // ---------------------------------------------------------------- cancelling

  predicate BusyOp(op: Operation) {
    (op.state.Running? || op.state.Unknown?)
  }

  /** A queued run, or one waiting for its user with no children and nothing in doubt, ends at once. */
  predicate EndsAtOnce(c: Cell) {
    || c.run.status.Queued?
    || (c.run.status.WaitingUser? && c.deps == [] && !exists k :: k in c.ops && BusyOp(c.ops[k]))
  }

  /** The run once `cancel` has raised the barrier and before it has moved. */
  function Barred(c: Cell): Cell {
    c.(run := c.run.(cancelRequested := true, revision := c.run.revision + 1),
       grants := RevokeExcept(c.grants, {}), interactions := WithdrawAll(c.interactions))
  }

  function CancelCell(c: Cell): Result<Cell> {
    if Terminal(c.run.status) then Ok(c)
    else if EndsAtOnce(c) then Conclude(Barred(c), Status.Cancelled)
    else if !c.run.status.Cancelling? then Advance(Barred(c), Status.Cancelling)
    else Ok(Barred(c))
  }

  predicate AttemptOver(c: Cell) {
    c.run.attempt.Some? && c.run.attempt.value in c.attempts ==> c.attempts[c.run.attempt.value].ended
  }

  function FinishIdleCell(c: Cell, childrenDone: bool): Cell {
    if c.run.status.Cancelling? && AttemptOver(c) && !AnyUnresolved(c) && childrenDone
    then CloseCell(c.(run := Moved(c.run, Status.Cancelled)))
    else c
  }

  // ---------------------------------------------------------------- recovery and reconciliation

  /** A saved exchange that recovery keeps: running, awaiting its answer, with all references and its own form. */
  predicate SavedExchange(c: Cell, k: OpKey) {
    && k in c.ops
    && c.ops[k].state.Running?
    && c.ops[k].meta.continuation.Some?
    && var saved := c.ops[k].meta.continuation.value;
    && saved.status == AwaitingInput
    && saved.intact
    && saved.interaction in c.interactions
    && c.interactions[saved.interaction].operation == Some(k)
  }

  function KeptGrants(c: Cell): set<GrantId> {
    set k | k in c.ops && SavedExchange(c, k) && c.ops[k].grant.Some? :: c.ops[k].grant.value
  }

  /** `written` holds the operations whose target file has the recorded hash. */
  function RecoverOp(c: Cell, k: OpKey, written: set<OpKey>): Operation
    requires k in c.ops
  {
    var op := c.ops[k];
    if !op.state.Running? || SavedExchange(c, k) then op
    else if op.meta.continuation.Some? then op.(state := OpState.Unknown, revision := op.revision + 1)
    else if op.tool.kind == FileWrite && op.meta.file.Some? && k in written
    then op.(state := OpState.Succeeded, result := Some(ToolResult(OpState.Succeeded, op.meta.file.value.afterHash)),
             revision := op.revision + 1)
    else if op.tool.effect == Read then op.(state := OpState.Prepared, grant := None, revision := op.revision + 1)
    else op.(state := OpState.Unknown, revision := op.revision + 1)
  }

  function RecoverOps(c: Cell, written: set<OpKey>): map<OpKey, Operation> {
    map k | k in c.ops :: RecoverOp(c, k, written)
  }

  predicate AnyUnknown(m: map<OpKey, Operation>) {
    exists k :: k in m && m[k].state.Unknown?
  }

  function RecoverCell(c: Cell, a: AttemptId, alive: bool, written: set<OpKey>): Result<Cell> {
    var seen :- if c.run.status.Running? then Advance(c, Status.Recovering) else Ok(c);
    var revoked := seen.(grants := RevokeExcept(seen.grants, KeptGrants(seen)));
    if alive then Ok(revoked)
    else
      var ops := RecoverOps(revoked, written);
      var sorted := EndAttempt(revoked, a).(ops := ops);
      if sorted.run.status.Recovering?
      then Advance(sorted, if AnyUnknown(ops) then Status.NeedsReview else Status.Queued)
      else Ok(sorted)
  }

  datatype Decision = ConfirmCompleted(artifact: Option<nat>, evidence: bool) | ConfirmNotExecuted | AcceptUnresolved

  function ReconcileOp(op: Operation, decision: Decision): Result<Operation> {
    match decision
    case ConfirmCompleted(artifact, evidence) =>
      if artifact.None? || !evidence then Err(EvidenceRequired)
      else Ok(op.(state := OpState.Succeeded, result := Some(ToolResult(OpState.Succeeded, artifact.value)),
                  revision := op.revision + 1))
    case ConfirmNotExecuted =>
      if !op.meta.provenNotStarted then Err(UnverifiableNonExecution)
      else Ok(op.(state := OpState.Prepared, result := None, grant := None, revision := op.revision + 1))
    case AcceptUnresolved =>
      Ok(op.(meta := op.meta.(unresolvedAccepted := true), revision := op.revision + 1))
  }

  predicate AnyUnaccepted(m: map<OpKey, Operation>) {
    exists k :: k in m && m[k].state.Unknown? && !m[k].meta.unresolvedAccepted
  }

  function ReconcileCell(c: Cell, k: OpKey, expected: nat, decision: Decision, noted: bool): Result<Cell> {
    if !c.run.status.NeedsReview? && !c.run.status.Cancelling? then Err(RunNotReviewing)
    else if k !in c.ops then Err(NotFound)
    else if c.ops[k].revision != expected || !c.ops[k].state.Unknown? then Err(RevisionConflict)
    else if !noted then Err(EvidenceRequired)
    else
      var op :- ReconcileOp(c.ops[k], decision);
      var next := c.(ops := c.ops[k := op], grants := RevokeExcept(c.grants, {}));
      if !c.run.status.NeedsReview? then Ok(next)
      else if !decision.AcceptUnresolved? then
        if AnyUnaccepted(next.ops) then Ok(next)
        else Advance(next.(reviewed := c.run.required), Status.Queued)
      else Advance(next.(run := next.run.(cancelRequested := true)), Status.Cancelling)
  }

  // ---------------------------------------------------------------- steering input

  function PendingInputs(c: Cell): set<nat> {
    set r | r in c.inputs && !c.inputs[r]
  }

  function SteerCell(c: Cell, expected: nat): Result<Cell> {
    if !(c.run.status.Running? || c.run.status.Queued?) || c.run.cancelRequested then Err(SteeringUnavailable)
    else if expected < c.run.inputRevision || (exists r :: r in PendingInputs(c) && expected < r)
            || (expected != c.run.inputRevision && expected !in PendingInputs(c))
    then Err(RevisionConflict)
    else if expected + 1 in c.inputs then Err(Integrity)
    else Ok(c.(inputs := c.inputs[expected + 1 := false]))
  }

  function Acked(c: Cell, ctx: Context): Cell {
    if ctx.inputRevision > c.run.inputRevision
    then c.(run := c.run.(inputRevision := ctx.inputRevision, revision := c.run.revision + 1))
    else c
  }

  function Consumed(m: map<nat, bool>, revisions: set<nat>): map<nat, bool> {
    map n | n in m :: m[n] || n in revisions
  }

  function AckCell(c: Cell, ctx: Context, now: Time, revisions: set<nat>): Result<Cell> {
    if !FencePasses(c.run, c.attempts, ctx, now, false) then Err(FenceError(c, ctx, now))
    else Ok(Acked(c, ctx).(inputs := Consumed(c.inputs, revisions)))
  }

  // ---------------------------------------------------------------- the operation ledger

  function PrepareOpCell(c: Cell, ctx: Context, now: Time, k: OpKey, tool: Tool, argsHash: nat,
                         fingerprint: nat): Result<Cell> {
    if !FencePasses(c.run, c.attempts, ctx, now, false) then Err(FenceError(c, ctx, now))
    else if k in c.ops then
      if c.ops[k].argsHash != argsHash || c.ops[k].tool != tool then Err(OperationConflict) else Ok(c)
    else Ok(c.(ops := c.ops[k := Operation(tool, argsHash, fingerprint, OpState.Prepared, 1, ctx.attempt, ctx.token,
                                           None, None, Metadata(None, false, false, None))]))
  }

  function NewInteraction(operation: Option<OpKey>, inputRevision: nat, expires: Option<Time>): Interaction {
    Interaction(operation, inputRevision, InteractionStatus.PendingBinding, 1, None, None, expires)
  }

  /** `UNIQUE(run_id,request_key)`: a key that is there keeps its row. */
  function Registered(m: map<RequestKey, Interaction>, k: RequestKey, i: Interaction): map<RequestKey, Interaction> {
    if k in m then m else m[k := i]
  }

  function PrepareInteractionCell(c: Cell, ctx: Context, now: Time, k: RequestKey, operation: Option<OpKey>,
                                  expires: Option<Time>): Result<Cell> {
    if !FencePasses(c.run, c.attempts, ctx, now, false) then Err(FenceError(c, ctx, now))
    else Ok(c.(interactions := Registered(c.interactions, k, NewInteraction(operation, ctx.inputRevision, expires))))
  }

  /** The authorizing transaction of `execute`: a fresh grant, `authorized`, and the grant consumed into
      `running`.  `revision` is what the caller read when it prepared the operation. */
  function AuthorizeCell(c: Cell, ctx: Context, now: Time, k: OpKey, revision: nat, g: GrantId, binding: Binding,
                         policy: nat): Result<Cell> {
    if g in c.grants then Err(Integrity)
    else if !FencePasses(c.run, c.attempts, ctx, now, true) then Err(FenceError(c, ctx, now))
    else if k !in c.ops || c.ops[k].revision != revision then Err(RevisionConflict)
    else if !FencePasses(c.run, c.attempts, ctx, now, false) then Err(FenceError(c, ctx, now))
    else if binding.expires <= now || binding.policy != policy then Err(GrantStale)
    else
      var op := c.ops[k];
      Ok(c.(grants := c.grants[g := Grant(k, binding, 0, false, true)],
            ops := c.ops[k := op.(state := OpState.Running, grant := Some(g), attempt := ctx.attempt,
                                  token := ctx.token, revision := op.revision + 2)]))
  }

  /** `_finish`: no guard on the state it overwrites, only the fence. */
  function FinishOpCell(c: Cell, ctx: Context, now: Time, k: OpKey, result: ToolResult): Result<Cell> {
    if k !in c.ops then Err(NotFound)
    else if !FencePasses(c.run, c.attempts, ctx, now, true) then Err(FenceError(c, ctx, now))
    else
      var op := c.ops[k];
      Ok(c.(ops := c.ops[k := op.(state := result.status, result := Some(result), revision := op.revision + 1)]))
  }

  /** What an executor may record about itself while it runs, such as the target of a file write. */
  function NoteOpCell(c: Cell, ctx: Context, now: Time, k: OpKey, file: Option<FileTarget>,
                      provenNotStarted: bool): Result<Cell> {
    if k !in c.ops then Err(NotFound)
    else if !FencePasses(c.run, c.attempts, ctx, now, true) then Err(FenceError(c, ctx, now))
    else
      var op := c.ops[k];
      Ok(c.(ops := c.ops[k := op.(meta := op.meta.(file := file, provenNotStarted := provenNotStarted),
                                  revision := op.revision + 1)]))
  }

  function RoundOf(op: Operation): nat {
    if op.meta.continuation.Some? then op.meta.continuation.value.round else 0
  }

  function SuspendedOp(op: Operation, saved: Continuation): Operation {
    op.(meta := op.meta.(continuation := Some(saved)), revision := op.revision + 1)
  }

  /** `suspend`: the next round's form and the saved exchange, in one transaction. */
  function SuspendCell(c: Cell, ctx: Context, now: Time, k: OpKey, revision: nat, request: nat, schemaHash: nat,
                       config: nat, intact: bool, expires: Time, maxRounds: nat): Result<Cell> {
    if k !in c.ops then Err(NotFound)
    else if RoundOf(c.ops[k]) + 1 > maxRounds then Err(InputLimit)
    else if c.ops[k].revision != revision then Err(RevisionConflict)
    else if !FencePasses(c.run, c.attempts, ctx, now, false) then Err(FenceError(c, ctx, now))
    else
      var round := RoundOf(c.ops[k]) + 1;
      var key := Elicitation(k, round, request);
      var form := NewInteraction(Some(k), ctx.inputRevision, Some(expires));
      var saved := Continuation(AwaitingInput, round, key, schemaHash, config, intact);
      Ok(c.(interactions := Registered(c.interactions, key, form), ops := c.ops[k := SuspendedOp(c.ops[k], saved)]))
  }

  /** `verify_consumed_grant`: the original grant still stands. */
  predicate GrantStands(c: Cell, k: OpKey, now: Time, policy: nat)
    requires k in c.ops
  {
    var op := c.ops[k];
    && op.grant.Some?
    && op.grant.value in c.grants
    && var g := c.grants[op.grant.value];
    && g.op == k && !g.revoked && g.remaining == 0 && g.consumed
    && now < g.binding.expires && g.binding.policy == policy
    && g.binding.argsHash == op.argsHash && g.binding.toolRevision == op.tool.revision
    && g.binding.fingerprint == op.fingerprint
  }

  /** `verify_consumed_grant` as its own transaction; it changes nothing. */
  function VerifyGrantCell(c: Cell, ctx: Context, now: Time, k: OpKey, policy: nat): Result<Cell> {
    if !FencePasses(c.run, c.attempts, ctx, now, false) then Err(FenceError(c, ctx, now))
    else if k !in c.ops then Err(NotFound)
    else if !GrantStands(c, k, now, policy) then Err(GrantInvalid)
    else Ok(c)
  }

  /** `responses`: the saved answer is taken for sending under a revision check. */
  function TakeAnswerCell(c: Cell, ctx: Context, now: Time, k: OpKey, revision: nat, schemaHash: nat,
                          config: nat): Result<Cell> {
    if k !in c.ops then Err(NotFound)
    else
      var op := c.ops[k];
      if op.meta.continuation.None? then Err(ContinuationStale)
      else
        var saved := op.meta.continuation.value;
        if saved.status != AwaitingInput || saved.schemaHash != schemaHash || saved.config != config
        then Err(ContinuationStale)
        else if saved.interaction !in c.interactions then Err(NotFound)
        else if c.interactions[saved.interaction].operation != Some(k) then Err(ContinuationStale)
        else if Unclosed(c.interactions[saved.interaction]) then Err(InputPending)
        else if op.revision != revision then Err(RevisionConflict)
        else if !FencePasses(c.run, c.attempts, ctx, now, true) then Err(FenceError(c, ctx, now))
        else Ok(c.(ops := c.ops[k := op.(meta := op.meta.(continuation := Some(saved.(status := Sending))),
                                         revision := op.revision + 1)]))
  }
}
