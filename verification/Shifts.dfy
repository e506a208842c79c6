/** Which event may change a run's status, from what and to what. */
module Shifts {
  import opened Domain
  import opened RunMachine
  import opened Tables
  import opened RowEvents
  import opened Settling
  import opened Gateway
  import opened World
  import opened WorldSteps

  predicate Accepts(e: RowEvent) {
    e.Reconcile? && e.decision.AcceptUnresolved?
  }

  function CancelStatus(c: Cell): Status {
    if Terminal(c.run.status) then c.run.status
    else if EndsAtOnce(c) then Status.Cancelled else Status.Cancelling
  }

  /** Where the settlement of a running run may take it. */
  predicate SettlesTo(o: Outcome, t: Status) {
    Waiting(t) || t.Queued? || t.NeedsReview? || t.Completed? || (t.Failed? && !o.kind.Final?)
  }

  /** The event may take the run `x` to the status `t`. */
  predicate Shifts(w: World, e: Event, x: RunId, t: Status)
    requires x in w.db.cells
  {
    var c := w.db.cells[x];
    var s := c.run.status;
    match e
    case Claim(_, _) => s.Queued? && t.Running?
    case Settle(ctx, o) =>
      && x == ctx.run
      && (|| (s.Running? && SettlesTo(o, t))
          || (s.Cancelling? && t.Cancelled? && ChildrenDone(w.db.cells, c)))
    case Row(r, row) =>
      && x == r
      && (|| (s.NeedsReview? && (if Accepts(row) then t.Cancelling? else t.Queued?))
          || (Waiting(s) && t.Queued?))
    case Expire => Waiting(s) && t.Queued?
    case RefreshWaits => Waiting(s) && t.Queued?
    case Cancel(top) => Under(w.db.cells, top, x) && t == CancelStatus(c)
    case FinishIdle => s.Cancelling? && t.Cancelled?
    case Recover(seen, alive, _) =>
      && x == seen.run && c.run.attempt == Some(seen.attempt) && (s.Running? || s.Recovering?)
      && (if alive then t.Recovering? else Lost(w, seen) && (t.Queued? || t.NeedsReview?))
    case _ => false
  }

  predicate RowShift(c: Cell, e: RowEvent, t: Status) {
    || t == c.run.status
    || (c.run.status.NeedsReview? && e.Reconcile? && (if Accepts(e) then t.Cancelling? else t.Queued?))
    || (Waiting(c.run.status) && t.Queued?)
  }

  lemma RowShifts(c: Cell, now: Time, e: RowEvent)
    requires ApplyRow(c, now, e).Ok?
    ensures RowShift(c, e, ApplyRow(c, now, e).value.run.status)
  {
    hide FencePasses, BarrierMet, AnyUnaccepted, PendingInputs, RevokeExcept, IsChild, Consumed, Registered;
    hide ReconcileOp;
  }

  lemma ScanShifts(c: Cell, now: Time, ready: set<OpKey>)
    ensures var t := ExpireCell(c, now).run.status; t == c.run.status || (Waiting(c.run.status) && t.Queued?)
    ensures var t := RefreshCell(c, ready).run.status; t == c.run.status || (Waiting(c.run.status) && t.Queued?)
  {
    hide BarrierMet, LapseAll, ResolveWaits;
  }

  lemma CancelShifts(c: Cell)
    ensures CancelCell(c).Ok? ==> CancelCell(c).value.run.status == CancelStatus(c)
  {
    hide RevokeExcept, WithdrawAll, DropAll, EndsAtOnce;
  }

  lemma FinishShifts(c: Cell, done: bool)
    ensures var t := FinishIdleCell(c, done).run.status;
            t == c.run.status || (c.run.status.Cancelling? && t.Cancelled? && done)
  {
    hide AnyUnresolved, RevokeExcept, WithdrawAll, DropAll;
  }

  lemma {:induction false} FinishAllShifts(db: Db, ids: seq<RunId>, x: RunId)
    requires x in db.cells
    ensures x in FinishAll(db, ids).cells
    ensures var t := FinishAll(db, ids).cells[x].run.status;
            t == db.cells[x].run.status || (db.cells[x].run.status.Cancelling? && t.Cancelled?)
    decreases |ids|
  {
    hide FinishIdleCell, ChildrenDone;
    if ids != [] {
      var y := ids[|ids| - 1];
      if y in db.cells {
        FinishShifts(db.cells[y], ChildrenDone(db.cells, db.cells[y]));
      }
      FinishAllShifts(FinishIn(db, y), ids[..|ids| - 1], x);
    }
  }

  lemma StopShifts(c: Cell, a: AttemptId, o: Outcome, done: bool)
    ensures c.run.status.Running? && StopCell(c, a, o, done).Ok? ==>
      var t := StopCell(c, a, o, done).value.run.status;
      t.NeedsReview? || (if o.kind.Final? then t.Completed? && done else t.Failed?)
    ensures AckCancelCell(c, a, done).Ok? ==>
      var t := AckCancelCell(c, a, done).value.run.status; t == c.run.status || (t.Cancelled? && done)
  {
    hide AnyUnresolved, Conclude, Advance, EndAttempt;
    MovedStatus(c, Status.NeedsReview);
    MovedStatus(c.(run := c.run.(result := o.result)), Status.Completed);
    MovedStatus(c, Status.Failed);
    MovedStatus(c, Status.Cancelled);
    EndsNoRun(a);
  }

  lemma MovedStatus(c: Cell, to: Status)
    ensures Conclude(c, to).Ok? ==> Conclude(c, to).value.run.status == to
    ensures Advance(c, to).Ok? ==> Advance(c, to).value.run.status == to
  {
    hide RevokeExcept, WithdrawAll, DropAll;
  }

  lemma EndsNoRun(a: AttemptId)
    ensures forall c :: EndAttempt(c, a).run == c.run
  {}

  lemma WaitShifts(m: map<RunId, Cell>, ctx: Context, o: Outcome, x: RunId)
    requires ctx.run in m && x in m && SettleWaiting(m, ctx, o).Ok? && m[ctx.run].run.status.Running?
    ensures x in SettleWaiting(m, ctx, o).value
    ensures var t := SettleWaiting(m, ctx, o).value[x].run.status;
            if x == ctx.run then t.NeedsReview? || Waiting(t) || t.Queued? else t == m[x].run.status
  {
    hide RefreshCell, ReadyWaits, BindAll, BarrierMet;
    BindKeepsRuns(m, ctx.run, ctx.inputRevision, o.refs);
    var bound := BindAll(m, ctx.run, ctx.inputRevision, o.refs).value;
    var parked := ParkCell(bound[ctx.run], ctx.attempt, o.refs).value;
    ScanShifts(parked, 0, ReadyWaits(bound[ctx.run := parked], parked));
  }

  lemma SettleShifts(db: Db, now: Time, ctx: Context, o: Outcome, x: RunId)
    requires WorkerSettleIn(db, now, ctx, o).Ok? && x in db.cells
    ensures ctx.run in db.cells && x in WorkerSettleIn(db, now, ctx, o).value.cells
    ensures var s, t := db.cells[x].run.status, WorkerSettleIn(db, now, ctx, o).value.cells[x].run.status;
            || t == s
            || (&& x == ctx.run
                && (|| (s.Running? && SettlesTo(o, t))
                    || (s.Cancelling? && t.Cancelled? && ChildrenDone(db.cells, db.cells[x]))))
  {
    hide StopCell, AckCancelCell, SettleWaiting, ChildrenDone, PendingInputs;
    var saved := Checkpointed(db.cells[ctx.run], o.checkpoint);
    var cells: map<RunId, Cell> := db.cells[ctx.run := saved];
    StopShifts(saved, ctx.attempt, o, ChildrenDone(db.cells, db.cells[ctx.run]));
    if db.cells[ctx.run].run.status.Running? && SettleWaiting(cells, ctx, o).Ok? {
      WaitShifts(cells, ctx, o, x);
    }
  }

  lemma ClaimShifts(db: Db, now: Time, a: AttemptId, p: ProcessId, cfg: Config, x: RunId)
    requires ClaimIn(db, now, a, p, cfg).Ok? && x in db.cells
    ensures x in ClaimIn(db, now, a, p, cfg).value.cells
    ensures var s, t := db.cells[x].run.status, ClaimIn(db, now, a, p, cfg).value.cells[x].run.status;
            t == s || (s.Queued? && t.Running?)
  {
    hide Count, Pick;
  }

  lemma RecoverShifts(db: Db, y: RunId, a: AttemptId, alive: bool, written: set<OpKey>, x: RunId)
    requires RecoverIn(db, y, a, alive, written).Ok? && x in db.cells
    ensures x in RecoverIn(db, y, a, alive, written).value.cells
    ensures var s, t := db.cells[x].run.status, RecoverIn(db, y, a, alive, written).value.cells[x].run.status;
            || t == s
            || (&& x == y && db.cells[x].run.attempt == Some(a) && (s.Running? || s.Recovering?)
                && if alive then t.Recovering? else t.Queued? || t.NeedsReview?)
  {
    hide KeptGrants, RevokeExcept, RecoverOps, AnyUnknown, EndAttempt;
    if y in db.cells {
      SameRun(db.cells[y].(run := Moved(db.cells[y].run, Status.Recovering)), a);
      SameRun(db.cells[y], a);
    }
  }

  lemma SameRun(c: Cell, a: AttemptId)
    ensures forall g: map<GrantId, Grant> :: EndAttempt(c.(grants := g), a).run == c.run
  {}

  lemma GateShifts(w: World, cfg: Config, lock: LockKey, g: GateEvent, x: RunId)
    requires ApplyGate(w, cfg, lock, g).Ok? && x in w.db.cells
    ensures x in ApplyGate(w, cfg, lock, g).value.db.cells
    ensures ApplyGate(w, cfg, lock, g).value.db.cells[x].run == w.db.cells[x].run
  {
    GateFrames(w.db.cells[lock.slot.run], w.now, lock.slot.op, w.locks[lock], g, cfg.maxRounds);
    hide GateCell, Enabled, NextPhase;
  }

  /** Whatever happens, a status changes only in these ways. */
  lemma StatusShifts(w: World, cfg: Config, e: Event, x: RunId)
    requires x in w.db.cells
    ensures x in Next(w, cfg, e).db.cells
    ensures var t := Next(w, cfg, e).db.cells[x].run.status; t == w.db.cells[x].run.status || Shifts(w, e, x, t)
  {
    hide ApplyRow, ExpireCell, RefreshCell, FinishAll, WorkerSettleIn, ClaimIn, ApplyGate, CancelCell, RecoverIn;
    hide ApplyLookup, ApplyEnter, ApplySend, Under, ReadyWaits, ReserveChild, Inserted, ResetBy, FencePasses;
    hide EndsAtOnce, ChildrenDone, Lost;
    if Apply(w, cfg, e).Ok? {
      match e {
        case Row(r, row) => if x == r { RowShifts(w.db.cells[x], w.now, row); }
        case Expire => ScanShifts(w.db.cells[x], w.now, {});
        case RefreshWaits => ScanShifts(w.db.cells[x], w.now, ReadyWaits(w.db.cells, w.db.cells[x]));
        case Cancel(_) => CancelShifts(w.db.cells[x]);
        case FinishIdle => FinishAllShifts(w.db, w.db.order, x);
        case Settle(ctx, o) => SettleShifts(w.db, w.now, ctx, o, x);
        case Claim(p, a) => ClaimShifts(w.db, w.now, a, p, cfg, x);
        case Gate(lock, g) => GateShifts(w, cfg, lock, g, x);
        case Lookup(p, s, ctx, tool, argsHash) => LookupDb(w, p, s, ctx, tool, argsHash);
        case Enter(lock) => OutsideDb(w, lock);
        case Send(lock) => OutsideDb(w, lock);
        case Recover(seen, alive, written) => RecoverShifts(w.db, seen.run, seen.attempt, alive, written, x);
        case _ =>
      }
    }
  }
}
