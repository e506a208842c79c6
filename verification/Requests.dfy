/** What reaches a run from outside: responses, expiry, waits and questions, heartbeats, and steering input, which stays
    pending until the worker acknowledges it. */
module Requests {
  import opened Domain
  import opened RunMachine
  import opened Tables
  import opened RowEvents
  import opened World
  import opened WorldSteps
  import opened Fences
  import opened Waking
  import opened Gateway

  // ---------------------------------------------------------------- one run's requests

  /** A pending input is one that was accepted and not acknowledged. */
  predicate Pending(c: Cell, n: nat) {
    n in c.inputs && !c.inputs[n]
  }

  /** The revision is the last one: the run's own if no input is pending, and otherwise the last pending one. */
  predicate Latest(c: Cell, n: nat) {
    && (n == c.run.inputRevision || Pending(c, n)) && c.run.inputRevision <= n
    && forall m :: m in c.inputs && Pending(c, m) ==> m <= n
  }

  /** What a request needs. */
  predicate Acceptable(c: Cell, now: Time, e: RowEvent)
    requires !e.Reconcile?
  {
    match e
    case Heartbeat(ctx, _) => InCharge(c, ctx, now, true)
    case Respond(k, expected, _, schemaOk, bindingOk) =>
      && k in c.interactions && c.interactions[k].revision == expected && c.interactions[k].status.Open?
      && c.run.status.WaitingUser? && schemaOk && (k.Approval? ==> bindingOk)
      && (match c.interactions[k].expires
          case None => true
          case Some(t) => now < t)
    case AddWait(_, children, _) =>
      |children| > 0 && forall r :: r in children ==> exists i :: 0 <= i < |c.deps| && c.deps[i].child == r
    case Ask(ctx, _, _, _) => InCharge(c, ctx, now, false)
    case Steer(expected) =>
      && (c.run.status.Running? || c.run.status.Queued?) && !c.run.cancelRequested && Latest(c, expected)
      && expected + 1 !in c.inputs
    case Ack(ctx, _) => InCharge(c, ctx, now, false)
  }

  /** The run goes back to the queue exactly if it was waiting and all that it requires is answered now. */
  predicate WakesIf(c: Cell, d: Cell) {
    if (c.run.status.WaitingUser? || c.run.status.WaitingChildren?) && !c.run.cancelRequested
       && forall i :: i in c.run.required ==> HasAnswer(AnswersOf(d), i)
    then d.run == c.run.(status := Status.Queued, revision := d.run.revision)
    else d.run == c.run
  }

  /** What an accepted request does. */
  predicate Serves(c: Cell, d: Cell, e: RowEvent)
    requires !e.Reconcile?
  {
    match e
    case Heartbeat(ctx, expiry) =>
      && ctx.attempt in c.attempts
      && d == c.(attempts := c.attempts[ctx.attempt := c.attempts[ctx.attempt].(lease := expiry)])
    case Respond(k, _, response, _, _) =>
      && k in c.interactions && k in d.interactions && d.interactions == c.interactions[k := d.interactions[k]]
      && d.interactions[k] == c.interactions[k].(status := InteractionStatus.Resolved,
                                                 resolution := Some(Resolution.Answered(response)),
                                                 revision := d.interactions[k].revision)
      && c.interactions[k].revision < d.interactions[k].revision
      && WakesIf(c, d) && d == c.(interactions := d.interactions, run := d.run)
    case AddWait(k, children, mode) =>
      if k in c.waits then d == c
      else
        && k in d.waits && d == c.(waits := c.waits[k := d.waits[k]])
        && d.waits[k].children == children && d.waits[k].mode == mode
        && !d.waits[k].bound && d.waits[k].interrupt.None? && d.waits[k].resolution.None?
    case Ask(ctx, k, operation, expires) =>
      if k in c.interactions then d == c
      else
        && k in d.interactions && d == c.(interactions := c.interactions[k := d.interactions[k]])
        && d.interactions[k].status.PendingBinding? && d.interactions[k].operation == operation
        && d.interactions[k].inputRevision == ctx.inputRevision && d.interactions[k].expires == expires
        && d.interactions[k].interrupt.None? && d.interactions[k].resolution.None?
    case Steer(expected) =>
      d == c.(inputs := d.inputs) && d.inputs == c.inputs[expected + 1 := false]
    case Ack(ctx, revisions) =>
      && d.inputs.Keys == c.inputs.Keys
      && (forall n :: n in c.inputs ==> (Pending(d, n) <==> Pending(c, n) && n !in revisions))
      && d == c.(inputs := d.inputs, run := d.run)
      && d.run == c.run.(revision := d.run.revision, inputRevision := d.run.inputRevision)
      && d.run.inputRevision == (if ctx.inputRevision > c.run.inputRevision then ctx.inputRevision
                                 else c.run.inputRevision)
  }

  lemma LatestIff(c: Cell, n: nat)
    ensures Latest(c, n) <==>
              && !(n < c.run.inputRevision || (exists r :: r in PendingInputs(c) && n < r))
              && !(n != c.run.inputRevision && n !in PendingInputs(c))
  {
    assert forall r :: r in PendingInputs(c) <==> r in c.inputs && Pending(c, r);
  }

  lemma WakesAsAnswered(c: Cell, e: Cell)
    requires e == c.(interactions := e.interactions)
    ensures WakesIf(c, Wake(e)) && Wake(e) == c.(interactions := e.interactions, run := Wake(e).run)
  {
    hide HasAnswer;
    assert AnswersOf(Wake(e)) == AnswersOf(e);
  }

  lemma ChildIff(deps: seq<Dependency>, r: RunId)
    ensures IsChild(deps, r) <==> exists i :: 0 <= i < |deps| && deps[i].child == r
  {
    if IsChild(deps, r) {
      var d :| d in deps && d.child == r;
      var i :| 0 <= i < |deps| && deps[i] == d;
    }
  }

  /** A request is accepted exactly if what it needs is there, and does exactly this. */
  lemma RequestDoes(c: Cell, now: Time, e: RowEvent)
    requires !e.Reconcile?
    ensures ApplyRow(c, now, e).Ok? <==> Acceptable(c, now, e)
    ensures ApplyRow(c, now, e).Ok? ==> Serves(c, ApplyRow(c, now, e).value, e)
  {
    hide FencePasses, InCharge, PendingInputs, IsChild, Latest, Wake, WakesIf, Consumed, Pending;
    match e
    case Heartbeat(ctx, _) =>
      FenceIff(c, ctx, now, true);
      FenceHasAttempt(c, ctx, now);
    case Respond(k, expected, response, schemaOk, bindingOk) =>
      if ApplyRow(c, now, e).Ok? {
        var i := c.interactions[k].(status := InteractionStatus.Resolved,
                                    resolution := Some(Resolution.Answered(response)), revision := expected + 1);
        WakesAsAnswered(c, c.(interactions := c.interactions[k := i]));
      }
    case AddWait(_, children, _) =>
      forall r | r in children ensures IsChild(c.deps, r) <==> exists i :: 0 <= i < |c.deps| && c.deps[i].child == r {
        ChildIff(c.deps, r);
      }
    case Ask(ctx, _, _, _) => FenceIff(c, ctx, now, false);
    case Steer(expected) => LatestIff(c, expected);
    case Ack(ctx, revisions) =>
      FenceIff(c, ctx, now, false);
      AckedInputs(c, revisions);
  }

  lemma FenceHasAttempt(c: Cell, ctx: Context, now: Time)
    ensures InCharge(c, ctx, now, true) ==> ctx.attempt in c.attempts
  {}

  lemma AckedInputs(c: Cell, revisions: set<nat>)
    ensures Consumed(c.inputs, revisions).Keys == c.inputs.Keys
    ensures forall d: Cell, n | d.inputs == Consumed(c.inputs, revisions) && n in c.inputs ::
              Pending(d, n) <==> Pending(c, n) && n !in revisions
  {}

  /** Expiry looks at waiting runs only.  It closes each open form that is due, and no other, and queues a run whose
      requirements are answered then. */
  lemma ExpiryDoes(w: World, cfg: Config, r: RunId)
    requires r in w.db.cells
    ensures r in Next(w, cfg, Expire).db.cells
    ensures var c, d := w.db.cells[r], Next(w, cfg, Expire).db.cells[r];
            if !(c.run.status.WaitingUser? || c.run.status.WaitingChildren?) then d == c
            else
              && WakesIf(c, d) && d == c.(interactions := d.interactions, run := d.run)
              && d.interactions.Keys == c.interactions.Keys
              && forall k :: k in c.interactions ==>
                   if c.interactions[k].status.Open?
                      && (match c.interactions[k].expires
                          case None => false
                          case Some(t) => t <= w.now)
                   then d.interactions[k] == c.interactions[k].(status := InteractionStatus.Expired,
                                                                resolution := Some(Lapsed),
                                                                revision := d.interactions[k].revision)
                   else d.interactions[k] == c.interactions[k]
  {
    hide Wake, WakesIf;
    var c := w.db.cells[r];
    WakesAsAnswered(c, c.(interactions := LapseAll(c.interactions, w.now)));
  }

  // ---------------------------------------------------------------- steering input

  lemma WakeInputs(c: Cell)
    ensures Wake(c).inputs == c.inputs
  {
    hide BarrierMet;
  }

  lemma ScanInputs(c: Cell, now: Time, ready: set<OpKey>, done: bool)
    ensures ExpireCell(c, now).inputs == c.inputs && RefreshCell(c, ready).inputs == c.inputs
    ensures FinishIdleCell(c, done).inputs == c.inputs
  {
    hide Wake, AnyUnresolved, LapseAll, ResolveWaits, RevokeExcept, WithdrawAll, DropAll, Waiting, AttemptOver;
    WakeInputs(c.(interactions := LapseAll(c.interactions, now)));
    WakeInputs(c.(waits := ResolveWaits(c.waits, ready)));
  }

  lemma CancelInputs(c: Cell)
    ensures CancelOr(c).inputs == c.inputs
  {
    hide CloseCell, Barred, EndsAtOnce, Allowed;
    BarredInputs(c);
    MovedInputs(Barred(c), Status.Cancelled);
  }

  lemma BarredInputs(c: Cell)
    ensures Barred(c).inputs == c.inputs
  {}

  lemma MovedInputs(c: Cell, to: Status)
    ensures CloseCell(c.(run := Moved(c.run, to))).inputs == c.inputs
  {}

  lemma EndInputs(a: AttemptId)
    ensures forall c :: EndAttempt(c, a).inputs == c.inputs
  {}

  lemma {:induction false} FinishInputs(db: Db, ids: seq<RunId>, r: RunId)
    requires r in db.cells
    ensures r in FinishAll(db, ids).cells && FinishAll(db, ids).cells[r].inputs == db.cells[r].inputs
    decreases |ids|
  {
    hide FinishIdleCell, ChildrenDone;
    if ids != [] {
      var x := ids[|ids| - 1];
      if x in db.cells {
        ScanInputs(db.cells[x], 0, {}, ChildrenDone(db.cells, db.cells[x]));
      }
      FinishInputs(FinishIn(db, x), ids[..|ids| - 1], r);
    }
  }

  lemma RecoverInputs(c: Cell, a: AttemptId, alive: bool, written: set<OpKey>)
    ensures RecoverCell(c, a, alive, written).Ok? ==> RecoverCell(c, a, alive, written).value.inputs == c.inputs
  {
    hide KeptGrants, RevokeExcept, RecoverOps, AnyUnknown, EndAttempt, Allowed;
    EndInputs(a);
  }

  lemma StopInputs(c: Cell, a: AttemptId, o: Outcome, done: bool)
    ensures StopCell(c, a, o, done).Ok? ==> StopCell(c, a, o, done).value.inputs == c.inputs
    ensures AckCancelCell(c, a, done).Ok? ==> AckCancelCell(c, a, done).value.inputs == c.inputs
  {
    hide AnyUnresolved, CloseCell, EndAttempt, Allowed;
    EndInputs(a);
    MovedInputs(c, Status.Failed);
    MovedInputs(c, Status.Cancelled);
    MovedInputs(c.(run := c.run.(result := o.result)), Status.Completed);
  }

  lemma ParkInputs(c: Cell, a: AttemptId, refs: seq<Ref>, ready: set<OpKey>)
    ensures ParkCell(c, a, refs).Ok? ==> Wake(RefreshCell(ParkCell(c, a, refs).value, ready)).inputs == c.inputs
  {
    hide Wake, RefreshCell, RequiredOf, ParkedStatus, EndAttempt, Allowed;
    EndInputs(a);
    if ParkCell(c, a, refs).Ok? {
      var d := ParkCell(c, a, refs).value;
      ScanInputs(d, 0, ready, false);
      WakeInputs(RefreshCell(d, ready));
    }
  }

  lemma BoundInputs(m: map<RunId, Cell>, self: RunId, inputRevision: nat, refs: seq<Ref>, x: RunId)
    requires BindAll(m, self, inputRevision, refs).Ok? && x in m
    ensures x in BindAll(m, self, inputRevision, refs).value
    ensures BindAll(m, self, inputRevision, refs).value[x].inputs == m[x].inputs
  {
    hide BindAll, FormBound, WaitBound, OpBound;
    ReferencesBind(m, self, inputRevision, refs, x);
  }

  lemma SettleInputs(db: Db, now: Time, ctx: Context, o: Outcome, r: RunId)
    requires WorkerSettleIn(db, now, ctx, o).Ok? && r in db.cells
    ensures r in WorkerSettleIn(db, now, ctx, o).value.cells
    ensures WorkerSettleIn(db, now, ctx, o).value.cells[r].inputs == db.cells[r].inputs
  {
    hide StopCell, AckCancelCell, ParkCell, RefreshCell, Wake, ReadyWaits, BindAll, ChildrenDone, PendingInputs;
    hide FencePasses;
    var saved := Checkpointed(db.cells[ctx.run], o.checkpoint);
    var cells: map<RunId, Cell> := db.cells[ctx.run := saved];
    StopInputs(saved, ctx.attempt, o, ChildrenDone(db.cells, db.cells[ctx.run]));
    if BindAll(cells, ctx.run, ctx.inputRevision, o.refs).Ok? {
      BoundInputs(cells, ctx.run, ctx.inputRevision, o.refs, r);
      var bound := BindAll(cells, ctx.run, ctx.inputRevision, o.refs).value;
      if ctx.run in bound && ParkCell(bound[ctx.run], ctx.attempt, o.refs).Ok? {
        var parked := ParkCell(bound[ctx.run], ctx.attempt, o.refs).value;
        ParkInputs(bound[ctx.run], ctx.attempt, o.refs, ReadyWaits(bound[ctx.run := parked], parked));
      }
    }
  }

  lemma ClaimInputs(db: Db, now: Time, a: AttemptId, p: ProcessId, cfg: Config, r: RunId)
    requires ClaimIn(db, now, a, p, cfg).Ok? && r in db.cells
    ensures r in ClaimIn(db, now, a, p, cfg).value.cells
    ensures ClaimIn(db, now, a, p, cfg).value.cells[r].inputs == db.cells[r].inputs
  {
    hide Count, Pick;
  }

  lemma GateInputs(w: World, cfg: Config, lock: LockKey, g: GateEvent, x: RunId)
    requires ApplyGate(w, cfg, lock, g).Ok? && x in w.db.cells
    ensures x in ApplyGate(w, cfg, lock, g).value.db.cells
    ensures ApplyGate(w, cfg, lock, g).value.db.cells[x].inputs == w.db.cells[x].inputs
  {
    GateFrames(w.db.cells[lock.slot.run], w.now, lock.slot.op, w.locks[lock], g, cfg.maxRounds);
    hide GateCell, Enabled, NextPhase;
  }

  lemma RowInputs(c: Cell, now: Time, e: RowEvent)
    requires ApplyRow(c, now, e).Ok? && !e.Steer? && !e.Ack?
    ensures ApplyRow(c, now, e).value.inputs == c.inputs
  {
    hide FencePasses, Wake, AnyUnaccepted, PendingInputs, RevokeExcept, IsChild, Registered, ReconcileOp, Allowed;
    if e.Respond? && e.key in c.interactions {
      WakeInputs(c.(interactions := c.interactions[e.key := c.interactions[e.key].(
        status := InteractionStatus.Resolved, resolution := Some(Resolution.Answered(e.response)),
        revision := c.interactions[e.key].revision + 1)]));
    }
  }

  /** Nothing but a steering request and an acknowledgement touches the inputs of a run. */
  lemma InputsStay(w: World, cfg: Config, e: Event, r: RunId)
    requires r in w.db.cells && !(e.Row? && e.run == r && (e.row.Steer? || e.row.Ack?))
    ensures r in Next(w, cfg, e).db.cells
    ensures Next(w, cfg, e).db.cells[r].inputs == w.db.cells[r].inputs
  {
    hide ApplyRow, ExpireCell, RefreshCell, FinishAll, WorkerSettleIn, ClaimIn, ApplyGate, CancelCell, RecoverCell;
    hide ApplyLookup, ApplyEnter, ApplySend, Under, ReadyWaits, ReserveChild, Inserted, ResetBy, FencePasses, CancelOr;
    hide SubmitIn, DelegateIn;
    if Apply(w, cfg, e).Ok? {
      match e {
        case Submit(x, branch, inputRevision, deadline, capabilities, limits) =>
          SubmitLeaves(w.db, x, branch, inputRevision, w.now, deadline, capabilities, limits, r);
        case Delegate(ctx, k, argsHash, current, requested, x, branch) =>
          DelegateLeaves(w.db, ctx, w.now, k, argsHash, current, requested, x, branch, cfg.maxDepth, r);
        case Row(x, row) => if x == r { RowInputs(w.db.cells[r], w.now, row); }
        case Expire => ScanInputs(w.db.cells[r], w.now, {}, false);
        case RefreshWaits => ScanInputs(w.db.cells[r], w.now, ReadyWaits(w.db.cells, w.db.cells[r]), false);
        case Cancel(_) => CancelInputs(w.db.cells[r]);
        case FinishIdle => FinishInputs(w.db, w.db.order, r);
        case Settle(ctx, o) => SettleInputs(w.db, w.now, ctx, o, r);
        case Claim(p, a) => ClaimInputs(w.db, w.now, a, p, cfg, r);
        case Gate(lock, g) => GateInputs(w, cfg, lock, g, r);
        case Lookup(p, s, ctx, tool, argsHash) => LookupDb(w, p, s, ctx, tool, argsHash);
        case Enter(lock) => OutsideDb(w, lock);
        case Send(lock) => OutsideDb(w, lock);
        case Recover(seen, alive, written) => RecoverInputs(w.db.cells[r], seen.attempt, alive, written);
        case _ =>
      }
    }
  }

  /** The event is an acknowledgement of the input by a worker that is in charge of the run. */
  predicate Acknowledges(w: World, e: Event, r: RunId, n: nat)
    requires r in w.db.cells
  {
    e.Row? && e.run == r && e.row.Ack? && n in e.row.revisions && InCharge(w.db.cells[r], e.row.ctx, w.now, false)
  }

  /** A pending input stays pending through every event, until a worker in charge of its run acknowledges it. */
  lemma PendingUntilAcked(w: World, cfg: Config, e: Event, r: RunId, n: nat)
    requires r in w.db.cells && Pending(w.db.cells[r], n)
    ensures r in Next(w, cfg, e).db.cells && n in Next(w, cfg, e).db.cells[r].inputs
    ensures Pending(Next(w, cfg, e).db.cells[r], n) <==> !Acknowledges(w, e, r, n)
  {
    hide Next, ApplyRow, InCharge;
    if e.Row? && e.run == r && (e.row.Steer? || e.row.Ack?) {
      RequestDoes(w.db.cells[r], w.now, e.row);
      RowGives(w, cfg, r, e.row);
      if ApplyRow(w.db.cells[r], w.now, e.row).Ok? {
        ServedPending(w.db.cells[r], ApplyRow(w.db.cells[r], w.now, e.row).value, e.row, n);
      }
    } else {
      InputsStay(w, cfg, e, r);
    }
  }

  lemma RowGives(w: World, cfg: Config, r: RunId, row: RowEvent)
    requires r in w.db.cells
    ensures var to := ApplyRow(w.db.cells[r], w.now, row);
            Next(w, cfg, Row(r, row)).db.cells == if to.Ok? then w.db.cells[r := to.value] else w.db.cells
  {
    hide ApplyRow, ResetBy;
  }

  lemma ServedPending(c: Cell, d: Cell, e: RowEvent, n: nat)
    requires (e.Steer? && Serves(c, d, e) && e.expected + 1 !in c.inputs) || (e.Ack? && Serves(c, d, e))
    requires Pending(c, n)
    ensures n in d.inputs && (Pending(d, n) <==> !(e.Ack? && n in e.revisions))
  {}
}
