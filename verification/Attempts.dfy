/** What ends an attempt.  A worker settles with a context it derives anew from its run's row; this is the worker's own
    claim for as long as its process lives and has not settled. */
module Attempts {
  import opened Domain
  import opened RunMachine
  import opened RunInvariant
  import opened Tables
  import opened TablesInvariant
  import opened RowEvents
  import opened Transactions
  import opened Gateway
  import opened World
  import opened WorldInvariant
  import opened WorldSteps
  import opened Effects
  import opened Executors

  predicate Open(c: Cell, a: AttemptId) {
    a in c.attempts && !c.attempts[a].ended
  }

  /** No attempt that was not over is over, save perhaps `ended`. */
  ghost predicate StayOpen(c: Cell, d: Cell, ended: Option<AttemptId>) {
    forall a: AttemptId :: Open(c, a) && ended != Some(a) ==> Open(d, a)
  }

  lemma EndStaysOpen(c: Cell, d: Cell, a: AttemptId)
    requires d.attempts == c.attempts
    ensures StayOpen(c, EndAttempt(d, a), Some(a))
  {}

  lemma SameStaysOpen(c: Cell, d: Cell)
    ensures d.attempts == c.attempts ==> forall ended :: StayOpen(c, d, ended)
  {}

  lemma AttemptsDecide(c: Cell, d: Cell, e: Cell, ended: Option<AttemptId>)
    ensures d.attempts == e.attempts && StayOpen(c, d, ended) ==> StayOpen(c, e, ended)
    ensures StayOpen(c, c, ended)
  {}

  lemma RowStaysOpen(c: Cell, now: Time, e: RowEvent)
    requires ApplyRow(c, now, e).Ok?
    ensures StayOpen(c, ApplyRow(c, now, e).value, None)
  {
    hide BarrierMet, AnyUnaccepted, PendingInputs, RevokeExcept, IsChild, Consumed, Registered;
  }

  lemma ScanStaysOpen(c: Cell, now: Time, ready: set<OpKey>, done: bool)
    ensures ExpireCell(c, now).attempts == c.attempts && RefreshCell(c, ready).attempts == c.attempts
    ensures FinishIdleCell(c, done).attempts == c.attempts
  {
    hide BarrierMet, AnyUnresolved, LapseAll, ResolveWaits, RevokeExcept, WithdrawAll, DropAll;
  }

  lemma CancelStaysOpen(c: Cell)
    ensures CancelOr(c).attempts == c.attempts
  {
    hide Conclude, Advance, EndsAtOnce, RevokeExcept, WithdrawAll;
    MovedAttempts(Barred(c), Status.Cancelled);
    MovedAttempts(Barred(c), Status.Cancelling);
  }

  lemma {:induction false} FinishStaysOpen(db: Db, ids: seq<RunId>, r: RunId)
    requires r in db.cells
    ensures r in FinishAll(db, ids).cells && FinishAll(db, ids).cells[r].attempts == db.cells[r].attempts
    decreases |ids|
  {
    hide FinishIdleCell, ChildrenDone;
    if ids != [] {
      var x := ids[|ids| - 1];
      if x in db.cells {
        ScanStaysOpen(db.cells[x], 0, {}, ChildrenDone(db.cells, db.cells[x]));
      }
      FinishStaysOpen(FinishIn(db, x), ids[..|ids| - 1], r);
    }
  }

  lemma RecoverStaysOpen(db: Db, x: RunId, a: AttemptId, alive: bool, written: set<OpKey>, r: RunId)
    requires RecoverIn(db, x, a, alive, written).Ok? && r in db.cells
    ensures r in RecoverIn(db, x, a, alive, written).value.cells
    ensures StayOpen(db.cells[r], RecoverIn(db, x, a, alive, written).value.cells[r],
                     if x == r && !alive then Some(a) else None)
  {
    hide RecoverCell, StayOpen;
    if x in db.cells {
      RecoveredCell(db.cells[x], a, alive, written);
      EndStaysOpen(db.cells[x], db.cells[x], a);
      SameStaysOpen(db.cells[x], RecoverCell(db.cells[x], a, alive, written).value);
    }
    SameStaysOpen(db.cells[r], db.cells[r]);
    if x == r && !alive {
      var d := RecoverIn(db, x, a, alive, written).value.cells[r];
      AttemptsDecide(db.cells[r], EndAttempt(db.cells[r], a), d, Some(a));
    }
  }

  lemma MovedAttempts(c: Cell, to: Status)
    ensures Conclude(c, to).Ok? ==> Conclude(c, to).value.attempts == c.attempts
    ensures Advance(c, to).Ok? ==> Advance(c, to).value.attempts == c.attempts
  {
    hide RevokeExcept, WithdrawAll, DropAll;
  }

  lemma StoppedStaysOpen(c: Cell, a: AttemptId, o: Outcome, done: bool)
    ensures StopCell(c, a, o, done).Ok? ==> StayOpen(c, StopCell(c, a, o, done).value, Some(a))
  {
    hide AnyUnresolved, Conclude, Advance, EndAttempt, StayOpen;
    MovedAttempts(c, Status.NeedsReview);
    MovedAttempts(c.(run := c.run.(result := o.result)), Status.Completed);
    MovedAttempts(c, Status.Failed);
    if StopCell(c, a, o, done).Ok? {
      var next := if AnyUnresolved(c) then Advance(c, Status.NeedsReview)
                  else if o.kind.Final? then Conclude(c.(run := c.run.(result := o.result)), Status.Completed)
                  else Conclude(c, Status.Failed);
      EndStaysOpen(c, next.value, a);
    }
  }

  lemma AckedStaysOpen(c: Cell, a: AttemptId, done: bool)
    ensures AckCancelCell(c, a, done).Ok? ==> StayOpen(c, AckCancelCell(c, a, done).value, Some(a))
  {
    hide AnyUnresolved, Conclude, EndAttempt, StayOpen;
    MovedAttempts(c, Status.Cancelled);
    EndStaysOpen(c, c, a);
    if Conclude(c, Status.Cancelled).Ok? {
      EndStaysOpen(c, Conclude(c, Status.Cancelled).value, a);
    }
  }

  lemma ParkedStaysOpen(c: Cell, a: AttemptId, refs: seq<Ref>)
    ensures ParkCell(c, a, refs).Ok? ==> StayOpen(c, ParkCell(c, a, refs).value, Some(a))
  {
    hide RequiredOf, ParkedStatus, Advance, EndAttempt, StayOpen;
    var d := c.(run := c.run.(required := RequiredOf(refs)));
    MovedAttempts(d, ParkedStatus(refs));
    if Advance(d, ParkedStatus(refs)).Ok? {
      EndStaysOpen(c, Advance(d, ParkedStatus(refs)).value, a);
    }
  }

  lemma {:induction false} BindStaysOpen(m: map<RunId, Cell>, self: RunId, inputRevision: nat, refs: seq<Ref>, r: RunId)
    requires BindAll(m, self, inputRevision, refs).Ok? && r in m
    ensures r in BindAll(m, self, inputRevision, refs).value
    ensures BindAll(m, self, inputRevision, refs).value[r].attempts == m[r].attempts
    decreases |refs|
  {
    hide BindInteraction, BindWait, BindReview;
    if refs != [] {
      var c := BindRef(m[refs[0].run], inputRevision, refs[0]).value;
      assert c.attempts == m[refs[0].run].attempts;
      BindStaysOpen(m[refs[0].run := c], self, inputRevision, refs[1..], r);
    }
  }

  lemma WokenStaysOpen(c: Cell, ready: set<OpKey>)
    ensures Wake(RefreshCell(c, ready)).attempts == c.attempts
  {
    hide RefreshCell, BarrierMet;
    ScanStaysOpen(c, 0, ready, false);
  }

  lemma WaitingStaysOpen(m: map<RunId, Cell>, ctx: Context, o: Outcome, r: RunId)
    requires ctx.run in m && r in m && SettleWaiting(m, ctx, o).Ok?
    ensures r in SettleWaiting(m, ctx, o).value
    ensures StayOpen(m[r], SettleWaiting(m, ctx, o).value[r], if r == ctx.run then Some(ctx.attempt) else None)
  {
    hide ParkCell, RefreshCell, Wake, ReadyWaits, BindAll;
    BindStaysOpen(m, ctx.run, ctx.inputRevision, o.refs, r);
    var bound := BindAll(m, ctx.run, ctx.inputRevision, o.refs).value;
    ParkedStaysOpen(bound[ctx.run], ctx.attempt, o.refs);
    var parked := ParkCell(bound[ctx.run], ctx.attempt, o.refs).value;
    WokenStaysOpen(parked, ReadyWaits(bound[ctx.run := parked], parked));
  }

  lemma SettleStaysOpen(db: Db, now: Time, ctx: Context, o: Outcome, r: RunId)
    requires WorkerSettleIn(db, now, ctx, o).Ok? && r in db.cells
    ensures r in WorkerSettleIn(db, now, ctx, o).value.cells
    ensures StayOpen(db.cells[r], WorkerSettleIn(db, now, ctx, o).value.cells[r],
                     if r == ctx.run then Some(ctx.attempt) else None)
  {
    hide StopCell, AckCancelCell, SettleWaiting, ChildrenDone, PendingInputs, FencePasses;
    var saved := Checkpointed(db.cells[ctx.run], o.checkpoint);
    var cells: map<RunId, Cell> := db.cells[ctx.run := saved];
    StoppedStaysOpen(saved, ctx.attempt, o, ChildrenDone(db.cells, db.cells[ctx.run]));
    AckedStaysOpen(saved, ctx.attempt, ChildrenDone(db.cells, db.cells[ctx.run]));
    if SettleWaiting(cells, ctx, o).Ok? {
      WaitingStaysOpen(cells, ctx, o, r);
    }
  }

  lemma ClaimStaysOpen(db: Db, now: Time, a: AttemptId, p: ProcessId, cfg: Config, r: RunId)
    requires ClaimIn(db, now, a, p, cfg).Ok? && r in db.cells
    ensures r in ClaimIn(db, now, a, p, cfg).value.cells
    ensures StayOpen(db.cells[r], ClaimIn(db, now, a, p, cfg).value.cells[r], None)
  {
    hide Count, Pick;
  }

  lemma GateStaysOpen(w: World, cfg: Config, lock: LockKey, g: GateEvent, r: RunId)
    requires ApplyGate(w, cfg, lock, g).Ok? && r in w.db.cells
    ensures r in ApplyGate(w, cfg, lock, g).value.db.cells
    ensures ApplyGate(w, cfg, lock, g).value.db.cells[r].attempts == w.db.cells[r].attempts
  {
    GateFrames(w.db.cells[lock.slot.run], w.now, lock.slot.op, w.locks[lock], g, cfg.maxRounds);
    hide GateCell, Enabled, NextPhase;
  }

  /** What the event may end. */
  function EndedBy(w: World, e: Event, r: RunId): Option<AttemptId> {
    if e.Settle? && e.ctx.run == r then Some(e.ctx.attempt)
    else if e.Recover? && !e.alive && e.seen.run == r && Lost(w, e.seen) then Some(e.seen.attempt)
    else None
  }

  /** An attempt is ended by its own settlement, or by a recovery that found its process dead, and by nothing else. */
  lemma AttemptEnds(w: World, cfg: Config, e: Event, r: RunId)
    requires r in w.db.cells
    ensures r in Next(w, cfg, e).db.cells
    ensures StayOpen(w.db.cells[r], Next(w, cfg, e).db.cells[r], EndedBy(w, e, r))
  {
    hide ApplyRow, ExpireCell, RefreshCell, FinishAll, WorkerSettleIn, ClaimIn, ApplyGate, CancelCell, RecoverIn;
    hide ApplyLookup, ApplyEnter, ApplySend, Under, ReadyWaits, ReserveChild, Inserted, ResetBy, CancelOr, FencePasses;
    if Apply(w, cfg, e).Ok? {
      match e {
        case Row(x, row) => if x == r { RowStaysOpen(w.db.cells[r], w.now, row); }
        case Expire => ScanStaysOpen(w.db.cells[r], w.now, {}, false);
        case RefreshWaits => ScanStaysOpen(w.db.cells[r], w.now, ReadyWaits(w.db.cells, w.db.cells[r]), false);
        case Cancel(_) => CancelStaysOpen(w.db.cells[r]);
        case FinishIdle => FinishStaysOpen(w.db, w.db.order, r);
        case Settle(ctx, o) => SettleStaysOpen(w.db, w.now, ctx, o, r);
        case Claim(p, a) => ClaimStaysOpen(w.db, w.now, a, p, cfg, r);
        case Gate(lock, g) => GateStaysOpen(w, cfg, lock, g, r);
        case Lookup(p, s, ctx, tool, argsHash) => LookupDb(w, p, s, ctx, tool, argsHash);
        case Enter(lock) => OutsideDb(w, lock);
        case Send(lock) => OutsideDb(w, lock);
        case Recover(seen, alive, written) => RecoverStaysOpen(w.db, seen.run, seen.attempt, alive, written, r);
        case _ =>
      }
    }
  }

  // ---------------------------------------------------------------- the worker's own claim

  predicate Settles(e: Event, r: RunId, a: AttemptId) {
    e.Settle? && e.ctx.run == r && e.ctx.attempt == a
  }

  lemma AliveShrinks(w: World, cfg: Config, e: Event)
    ensures Next(w, cfg, e).alive <= w.alive
  {
    hide ApplyLookup, ApplyGate, ApplyEnter, ApplySend, RowIn, SubmitIn, DelegateIn, ClaimIn, WorkerSettleIn, ExpireIn;
    hide RefreshIn, CancelIn, FinishAll, RecoverIn, ResetBy;
    SameAlive(w, cfg, e);
  }

  lemma SameAlive(w: World, cfg: Config, e: Event)
    ensures e.Lookup? && Apply(w, cfg, e).Ok? ==> Apply(w, cfg, e).value.alive == w.alive
    ensures e.Gate? && Apply(w, cfg, e).Ok? ==> Apply(w, cfg, e).value.alive == w.alive
    ensures e.Enter? && Apply(w, cfg, e).Ok? ==> Apply(w, cfg, e).value.alive == w.alive
    ensures e.Send? && Apply(w, cfg, e).Ok? ==> Apply(w, cfg, e).value.alive == w.alive
  {
    hide GateCell, LookupPhase, Enabled, NextPhase;
  }

  /** Until an attempt is settled, and while its process lives, its run's row names this very claim, whatever others
      do; so a context derived from the row is the worker's own. */
  lemma {:induction false} ClaimStaysMine(w: World, cfg: Config, events: seq<Event>, r: RunId, a: AttemptId)
    requires WorldInv(w, cfg) && AllOwn(events) && r in w.db.cells && Open(w.db.cells[r], a)
    requires forall e :: e in events ==> !Settles(e, r, a)
    requires w.db.cells[r].attempts[a].process in Play(w, cfg, events).alive
    ensures var v := Play(w, cfg, events);
            && r in v.db.cells && Open(v.db.cells[r], a) && v.db.cells[r].run.attempt == Some(a)
            && v.db.cells[r].run.token == w.db.cells[r].attempts[a].token
    decreases |events|
  {
    hide WorldInv, Next, Open, StayOpen;
    if events == [] {
      CurrentClaim(w, cfg, r, a);
    } else {
      var n := Next(w, cfg, events[0]);
      StepKeeps(w, cfg, events[0]);
      AttemptEnds(w, cfg, events[0], r);
      AliveShrinks(w, cfg, events[0]);
      ShrinksTo(n, cfg, events[1..]);
      StillMine(w, cfg, events[0], r, a);
      assert Play(w, cfg, events) == Play(n, cfg, events[1..]);
      ClaimStaysMine(n, cfg, events[1..], r, a);
    }
  }

  lemma {:induction false} ShrinksTo(w: World, cfg: Config, events: seq<Event>)
    ensures Play(w, cfg, events).alive <= w.alive
    decreases |events|
  {
    hide Next;
    if events != [] {
      AliveShrinks(w, cfg, events[0]);
      ShrinksTo(Next(w, cfg, events[0]), cfg, events[1..]);
    }
  }

  lemma CurrentClaim(w: World, cfg: Config, r: RunId, a: AttemptId)
    requires WorldInv(w, cfg) && r in w.db.cells && Open(w.db.cells[r], a)
    ensures w.db.cells[r].run.attempt == Some(a) && w.db.cells[r].run.token == w.db.cells[r].attempts[a].token
  {
    hide LocksOk, Histories, Ordered, Forest, Owned, Capacity, WaitScopes, ParentsLast, Charged, Forms, Ledger, Closed;
    assert CellInv(w.db.cells[r]);
  }

  lemma StillMine(w: World, cfg: Config, e: Event, r: RunId, a: AttemptId)
    requires WorldInv(w, cfg) && Own(e) && r in w.db.cells && Open(w.db.cells[r], a) && !Settles(e, r, a)
    requires w.db.cells[r].attempts[a].process in Next(w, cfg, e).alive
    ensures var n := Next(w, cfg, e);
            && r in n.db.cells && Open(n.db.cells[r], a)
            && n.db.cells[r].attempts[a].process == w.db.cells[r].attempts[a].process
            && n.db.cells[r].attempts[a].token == w.db.cells[r].attempts[a].token
  {
    hide WorldInv, Next, RunFrozen, FenceShrinks, OpsFrozen, InteractionsFrozen, TreeGrows;
    AttemptEnds(w, cfg, e, r);
    AliveShrinks(w, cfg, e);
    StepKeeps(w, cfg, e);
    assert CellStep(w.db.cells[r], w.now, Next(w, cfg, e).db.cells[r], Next(w, cfg, e).now);
  }
}
