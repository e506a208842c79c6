/** Rows of the durable store and the values that travel between the store, the scheduler and the
    tool gateway.  Every table whose rows carry a run id is grouped by that id: a `Cell` holds all
    rows of one run.  Opaque content (JSON payloads, hashes, artifact references) is a number. */
module Domain {
  datatype Option<+T> = None | Some(value: T)

  /** A raised `HarnessError` is an `Err`; the enclosing transaction then leaves no change. */
  datatype Result<+T> = Ok(value: T) | Err(error: Error) {
    predicate IsFailure() {
      Err?
    }

    function PropagateFailure<U>(): Result<U>
      requires Err?
    {
      Err(error)
    }

    function Extract(): T
      requires Ok?
    {
      value
    }
  }

  datatype Error =
    | InvalidTransition | RevisionConflict | StaleWorker | RunStopped | NotFound | DeadlineExceeded
    | OutcomeMismatch | CheckpointRequired | InterruptMismatch | Integrity | FinalNotDurable
    | ChildrenUnsettled | InteractionClosed | InteractionExpired | ResponseSchema | BindingMismatch
    | RunNotReviewing | EvidenceRequired | UnverifiableNonExecution | SteeringUnavailable
    | DelegationConflict | DelegationLimit | ChildPermission | BudgetExhausted | ReservationConflict
    | SettlementConflict | UsageExceedsReservation | NegativeReservation | WaitScope
    | OperationConflict | GrantInvalid | GrantStale | ContinuationStale | InputLimit
    | InputPending | Busy | NotEnabled

  type RunId = nat
  type BranchId = nat
  type AttemptId = nat
  type ProcessId = nat
  type GrantId = nat
  type Interrupt = nat
  type Time = nat
  type Capability = nat

  /** `OperationKey` without its run: `UNIQUE(run_id,message_id,tool_call_id)` makes it the identity of an
      operation inside its run.  Delegations and child waits reuse it as their own key. */
  datatype OpKey = OpKey(message: nat, call: nat)

  datatype Status =
    | Queued | Running | WaitingUser | WaitingChildren | Recovering | NeedsReview | Cancelling
    | Completed | Failed | Cancelled

  predicate Terminal(s: Status) {
    s.Completed? || s.Failed? || s.Cancelled?
  }

  predicate Waiting(s: Status) {
    s.WaitingUser? || s.WaitingChildren?
  }

  /** The `ALLOWED` table. */
  predicate Allowed(s: Status, to: Status) {
    match s
    case Queued => to.Running? || to.Cancelled?
    case Running => to.WaitingUser? || to.WaitingChildren? || to.Recovering? || to.NeedsReview? || to.Completed?
                    || to.Failed? || to.Cancelling?
    case WaitingUser => to.Queued? || to.Cancelled? || to.Cancelling?
    case WaitingChildren => to.Queued? || to.Cancelling?
    case Recovering => to.Queued? || to.NeedsReview? || to.Cancelling?
    case NeedsReview => to.Queued? || to.Cancelling?
    case Cancelling => to.Cancelled?
    case Completed => false
    case Failed => false
    case Cancelled => false
  }

  datatype Run = Run(
    branch: BranchId, root: RunId, parent: Option<RunId>, depth: nat, createdAt: Time,
    deadline: Option<Time>, capabilities: set<Capability>,
    status: Status, revision: nat, inputRevision: nat, token: nat, attempt: Option<AttemptId>,
    cancelRequested: bool, required: set<Interrupt>, checkpoint: Option<nat>, result: Option<nat>)

  datatype Attempt = Attempt(token: nat, process: ProcessId, lease: Time, ended: bool)

  datatype Effect = Read | WorkspaceWrite | ExternalWrite | Process

  /** `FileWrite` is write_file and apply_patch, `HostWait` is request_input and wait_children, `Durable` an
      executor with `resume_continuation`. */
  datatype ToolKind = Plain | FileWrite | HostWait | Durable

  datatype Tool = Tool(id: nat, revision: nat, effect: Effect, kind: ToolKind)

  datatype OpState = Prepared | Authorized | Running | Succeeded | Failed | Cancelled | Unknown

  predicate TerminalOp(s: OpState) {
    s.Succeeded? || s.Failed? || s.Cancelled?
  }

  datatype ToolResult = ToolResult(status: OpState, body: nat)

  datatype RequestKey =
    | Approval(op: OpKey)
    | Input(op: OpKey)
    | Elicitation(op: OpKey, round: nat, request: nat)
    | ModelChoice(call: nat)

  datatype ContinuationStatus = AwaitingInput | Sending

  /** `intact` says that the four references recovery insists on are all present. */
  datatype Continuation = Continuation(
    status: ContinuationStatus, round: nat, interaction: RequestKey, schemaHash: nat, config: nat, intact: bool)

  datatype FileTarget = FileTarget(path: nat, afterHash: nat)

  datatype Metadata = Metadata(
    file: Option<FileTarget>, provenNotStarted: bool, unresolvedAccepted: bool,
    continuation: Option<Continuation>)

  datatype Operation = Operation(
    tool: Tool, argsHash: nat, fingerprint: nat, state: OpState, revision: nat,
    attempt: AttemptId, token: nat, grant: Option<GrantId>, result: Option<ToolResult>, meta: Metadata)

  datatype Binding = Binding(
    op: OpKey, toolRevision: nat, argsHash: nat, fingerprint: nat, policy: nat, expires: Time)

  datatype Grant = Grant(op: OpKey, binding: Binding, remaining: nat, revoked: bool, consumed: bool)

  datatype InteractionStatus = PendingBinding | Open | Resolved | Expired | Cancelled

  datatype Resolution = Answered(response: nat) | Lapsed | Withdrawn | ChildrenReady

  datatype Interaction = Interaction(
    operation: Option<OpKey>, inputRevision: nat, status: InteractionStatus, revision: nat,
    interrupt: Option<Interrupt>, resolution: Option<Resolution>, expires: Option<Time>)

  datatype WaitMode = All | Any

  /** `bound` is the presence of the wait's checkpoint. */
  datatype Wait = Wait(
    children: seq<RunId>, mode: WaitMode, interrupt: Option<Interrupt>, bound: bool,
    resolution: Option<Resolution>, revision: nat)

  datatype Dependency = Dependency(key: OpKey, child: RunId, argsHash: nat)

  /** An operation of some run. */
  datatype Slot = Slot(run: RunId, op: OpKey)

  datatype Cell = Cell(
    run: Run, attempts: map<AttemptId, Attempt>, ops: map<OpKey, Operation>, grants: map<GrantId, Grant>,
    interactions: map<RequestKey, Interaction>, waits: map<OpKey, Wait>, reviewed: set<Interrupt>,
    inputs: map<nat, bool>, deps: seq<Dependency>)

  /** The fencing part of an `ExecutionContext`. */
  datatype Context = Context(run: RunId, attempt: AttemptId, token: nat, inputRevision: nat)

  /** What a recovery scan read of an attempt before its transaction. */
  datatype Sighting = Sighting(run: RunId, attempt: AttemptId, lease: Time)

  datatype OutcomeKind = Final | Await | Fault | CancelAck

  datatype Ref =
    | UserRef(interrupt: Interrupt, run: RunId, key: RequestKey)
    | ChildrenRef(interrupt: Interrupt, run: RunId, wait: OpKey)
    | ReviewRef(interrupt: Interrupt, run: RunId, op: Option<OpKey>)

  datatype Outcome = Outcome(
    kind: OutcomeKind, run: RunId, inputRevision: nat, checkpoint: Option<nat>, result: Option<nat>,
    refs: seq<Ref>)

  datatype Config = Config(
    workerSlots: nat, childConcurrency: nat, maxDepth: nat, leaseSeconds: nat, maxRounds: nat)
}
