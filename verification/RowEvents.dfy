/** The transactions that touch the rows of one run only, apart from those of the tool gateway. */
module RowEvents {
  import opened Domain
  import opened RunMachine
  import opened RunInvariant
  import opened RunSteps
  import opened TablesInvariant

  datatype RowEvent =
    | Heartbeat(ctx: Context, expiry: Time)
    | Respond(key: RequestKey, expected: nat, response: nat, schemaOk: bool, bindingOk: bool)
    | AddWait(wait: OpKey, children: seq<RunId>, mode: WaitMode)
    | Ask(ctx: Context, key: RequestKey, operation: Option<OpKey>, expires: Option<Time>)
    | Reconcile(op: OpKey, expected: nat, decision: Decision, noted: bool)
    | Steer(expected: nat)
    | Ack(ctx: Context, revisions: set<nat>)

  function ApplyRow(c: Cell, now: Time, e: RowEvent): Result<Cell> {
    match e
    case Heartbeat(ctx, expiry) => HeartbeatCell(c, ctx, now, expiry)
    case Respond(k, expected, response, schemaOk, bindingOk) =>
      RespondCell(c, k, expected, response, now, schemaOk, bindingOk)
    case AddWait(k, children, mode) => AddWaitCell(c, k, children, mode)
    case Ask(ctx, k, operation, expires) => PrepareInteractionCell(c, ctx, now, k, operation, expires)
    case Reconcile(k, expected, decision, noted) => ReconcileCell(c, k, expected, decision, noted)
    case Steer(expected) => SteerCell(c, expected)
    case Ack(ctx, revisions) => AckCell(c, ctx, now, revisions)
  }

  // ---------------------------------------------------------------- what the ledger may rely on

  /** The run's current attempt is not over. */
  predicate Held(r: Run, m: map<AttemptId, Attempt>) {
    r.attempt.Some? && r.attempt.value in m && !m[r.attempt.value].ended
  }

  /** Only recovery of a read without a saved exchange makes an operation executable again. */
  predicate QuietOp(x: Operation, y: Operation, reset: bool) {
    && y.meta.continuation == x.meta.continuation && y.tool == x.tool
    && y.meta.provenNotStarted == x.meta.provenNotStarted
    && (y.state.Prepared? ==>
          x.state.Prepared? || reset || (x.tool.effect.Read? && x.meta.continuation.None?))
  }

  /** A step outside the gateway: it adds no operation, and none changes under an attempt that goes on, save
      one that was unknown.  `resets` holds the operations found not to have been executed. */
  ghost predicate Quiet(c: Cell, d: Cell, r: RunId, resets: set<Slot>) {
    && d.ops.Keys == c.ops.Keys
    && (forall k :: k in c.ops ==> QuietOp(c.ops[k], d.ops[k], Slot(r, k) in resets))
    && (Held(d.run, d.attempts) ==>
          forall k :: k in c.ops ==> d.ops[k].state == c.ops[k].state || c.ops[k].state.Unknown?)
  }

  lemma SameOpsQuiet(c: Cell, d: Cell, r: RunId, resets: set<Slot>)
    requires d.ops == c.ops
    ensures Quiet(c, d, r, resets)
  {}

  function ResetBy(r: RunId, e: RowEvent): set<Slot> {
    if e.Reconcile? && e.decision.ConfirmNotExecuted? then {Slot(r, e.op)} else {}
  }

  lemma ReconciledQuiet(c: Cell, d: Cell, k: OpKey, r: RunId, resets: set<Slot>)
    requires k in c.ops && k in d.ops && d.ops == c.ops[k := d.ops[k]] && c.ops[k].state.Unknown?
    requires d.ops[k].meta.continuation == c.ops[k].meta.continuation && d.ops[k].tool == c.ops[k].tool
    requires d.ops[k].meta.provenNotStarted == c.ops[k].meta.provenNotStarted
    requires d.ops[k].state.Prepared? ==> Slot(r, k) in resets
    ensures Quiet(c, d, r, resets)
  {}

  lemma RowQuiet(c: Cell, now: Time, r: RunId, e: RowEvent)
    requires ApplyRow(c, now, e).Ok?
    ensures Quiet(c, ApplyRow(c, now, e).value, r, ResetBy(r, e))
  {
    hide Quiet, ReconcileCell, ApplyRow;
    var d := ApplyRow(c, now, e).value;
    if e.Reconcile? {
      ReconciledOps(c, now, e);
      ReconciledQuiet(c, d, e.op, r, ResetBy(r, e));
    } else {
      RowOps(c, now, e);
      SameOpsQuiet(c, d, r, {});
    }
  }

  lemma RowOps(c: Cell, now: Time, e: RowEvent)
    requires !e.Reconcile? && ApplyRow(c, now, e).Ok?
    ensures ApplyRow(c, now, e).value.ops == c.ops
  {
    hide FencePasses, BarrierMet, PendingInputs, Registered, Consumed, IsChild;
  }

  lemma ReconciledOps(c: Cell, now: Time, e: RowEvent)
    requires e.Reconcile? && ApplyRow(c, now, e).Ok?
    ensures e.op in c.ops && c.ops[e.op].state.Unknown? && ReconcileOp(c.ops[e.op], e.decision).Ok?
    ensures ApplyRow(c, now, e).value.ops == c.ops[e.op := ReconcileOp(c.ops[e.op], e.decision).value]
  {
    hide AnyUnaccepted, RevokeExcept, ReconcileOp;
  }

  lemma RowFixed(c: Cell, now: Time, e: RowEvent)
    requires ApplyRow(c, now, e).Ok?
    ensures Fixed(c, ApplyRow(c, now, e).value)
  {
    hide ApplyRow;
    match e
    case Reconcile(_, _, _, _) => ReconcileFixed(c, now, e);
    case Respond(_, _, _, _, _) => RespondFixed(c, now, e);
    case _ => OtherFixed(c, now, e);
  }

  lemma ReconcileFixed(c: Cell, now: Time, e: RowEvent)
    requires e.Reconcile? && ApplyRow(c, now, e).Ok?
    ensures Fixed(c, ApplyRow(c, now, e).value)
  {
    hide AnyUnaccepted, RevokeExcept, ReconcileOp, Advance, Fixed;
    var op := ReconcileOp(c.ops[e.op], e.decision).value;
    var next := c.(ops := c.ops[e.op := op], grants := RevokeExcept(c.grants, {}));
    ReviewedFixed(c, next);
  }

  lemma ReviewedFixed(c: Cell, next: Cell)
    requires next.run == c.run && next.deps == c.deps
    ensures Fixed(c, next)
    ensures var q := next.(reviewed := c.run.required);
            c.run.status.NeedsReview? && Advance(q, Status.Queued).Ok? ==> Fixed(c, Advance(q, Status.Queued).value)
    ensures var q := next.(run := next.run.(cancelRequested := true));
            c.run.status.NeedsReview? && Advance(q, Status.Cancelling).Ok? ==>
              Fixed(c, Advance(q, Status.Cancelling).value)
  {}

  lemma RespondFixed(c: Cell, now: Time, e: RowEvent)
    requires e.Respond? && ApplyRow(c, now, e).Ok?
    ensures Fixed(c, ApplyRow(c, now, e).value)
  {
    hide BarrierMet;
  }

  lemma OtherFixed(c: Cell, now: Time, e: RowEvent)
    requires !e.Reconcile? && !e.Respond? && ApplyRow(c, now, e).Ok?
    ensures Fixed(c, ApplyRow(c, now, e).value)
  {
    hide FencePasses, PendingInputs, IsChild, Consumed, Registered;
  }

  lemma RowWaits(c: Cell, now: Time, e: RowEvent)
    requires ApplyRow(c, now, e).Ok?
    ensures WaitsKept(c, ApplyRow(c, now, e).value)
  {
    hide FencePasses, BarrierMet, AnyUnaccepted, PendingInputs, RevokeExcept, IsChild;
  }

  lemma RowKeeps(c: Cell, now: Time, e: RowEvent)
    requires CellInv(c) && ApplyRow(c, now, e).Ok?
    ensures Advanced(c, ApplyRow(c, now, e).value, now)
  {
    hide CellInv, CellStep, Fixed, WaitsKept;
    RowFixed(c, now, e);
    RowWaits(c, now, e);
    match e
    case Heartbeat(ctx, expiry) => HeartbeatKeeps(c, ctx, now, expiry);
    case Respond(k, expected, response, schemaOk, bindingOk) =>
      RespondKeeps(c, k, expected, response, now, schemaOk, bindingOk);
    case AddWait(k, children, mode) => AddWaitKeeps(c, k, children, mode, now);
    case Ask(ctx, k, operation, expires) => PrepareInteractionKeeps(c, ctx, now, k, operation, expires);
    case Reconcile(k, expected, decision, noted) => ReconcileKeeps(c, k, expected, decision, noted, now);
    case Steer(expected) => SteerKeeps(c, expected, now);
    case Ack(ctx, revisions) => AckKeeps(c, ctx, now, revisions);
  }
}
