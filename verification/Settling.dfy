/** Settling a worker's outcome and recovering a lost run keep the database's invariant. */
module Settling {
  import opened Domain
  import opened RunMachine
  import opened RunInvariant
  import opened RunSteps
  import opened Tables
  import opened TablesInvariant
  import opened RowEvents
  import opened Transactions
  import opened Claiming
  import opened Scans

  // ---------------------------------------------------------------- recovery

  lemma RecoverOpQuiet(c: Cell, k: OpKey, written: set<OpKey>)
    requires k in c.ops
    ensures QuietOp(c.ops[k], RecoverOp(c, k, written), false)
  {
    hide SavedExchange;
  }

  /** What recovery makes of an operation depends on neither the run's status nor its grants. */
  lemma SameRecovery(c: Cell, d: Cell, written: set<OpKey>)
    requires d.ops == c.ops && d.interactions == c.interactions
    ensures RecoverOps(d, written) == RecoverOps(c, written)
  {}

  predicate Recovers(r: Run, q: Run) {
    && SameIdentity(r, q) && q.attempt == r.attempt
    && (q.status == r.status || q.status.Recovering? || q.status.Queued? || q.status.NeedsReview?)
    && (Terminal(r.status) ==> q.status == r.status)
  }

  lemma RecoveredRun(c: Cell, a: AttemptId, alive: bool, written: set<OpKey>)
    requires RecoverCell(c, a, alive, written).Ok?
    ensures Recovers(c.run, RecoverCell(c, a, alive, written).value.run)
  {
    hide KeptGrants, RevokeExcept, AnyUnknown, RecoverOps, Advance, Recovers;
    AdvancedRun(c, Status.Recovering);
    var seen := if c.run.status.Running? then Advance(c, Status.Recovering).value else c;
    var sorted := EndAttempt(seen.(grants := RevokeExcept(seen.grants, KeptGrants(seen))), a).(ops :=
      RecoverOps(seen.(grants := RevokeExcept(seen.grants, KeptGrants(seen))), written));
    AdvancedRun(sorted, Status.NeedsReview);
    AdvancedRun(sorted, Status.Queued);
    RecoversTo(c.run, seen.run, seen.run);
    RecoversTo(c.run, seen.run, RecoverCell(c, a, alive, written).value.run);
  }

  lemma AdvancedRun(c: Cell, to: Status)
    ensures Advance(c, to).Ok? ==> Advance(c, to).value.run == Moved(c.run, to)
  {}

  lemma RecoversTo(r: Run, seen: Run, q: Run)
    requires seen == if r.status.Running? then Moved(r, Status.Recovering) else r
    requires || q == seen
             || (seen.status.Recovering? && (q == Moved(seen, Status.NeedsReview) || q == Moved(seen, Status.Queued)))
    ensures Recovers(r, q)
  {}

  lemma RecoveredShape(c: Cell, a: AttemptId, alive: bool, written: set<OpKey>)
    requires RecoverCell(c, a, alive, written).Ok?
    ensures var d := RecoverCell(c, a, alive, written).value;
            d.waits == c.waits && d.deps == c.deps
    ensures var d := RecoverCell(c, a, alive, written).value;
            if alive then d.ops == c.ops
            else d.ops == RecoverOps(c, written) && !(a in d.attempts && !d.attempts[a].ended)
  {
    hide KeptGrants, RevokeExcept, AnyUnknown, RecoverOps;
    var seen := if c.run.status.Running? then c.(run := Moved(c.run, Status.Recovering)) else c;
    var revoked := seen.(grants := RevokeExcept(seen.grants, KeptGrants(seen)));
    SameRecovery(c, revoked, written);
    var d := RecoverCell(c, a, alive, written).value;
    if alive {
      assert d == revoked;
    } else {
      var sorted := EndAttempt(revoked, a).(ops := RecoverOps(revoked, written));
      assert d == sorted.(run := d.run);
    }
  }

  lemma RecoverMoves(c: Cell, a: AttemptId, alive: bool, written: set<OpKey>, r: RunId, now: Time)
    requires CellInv(c) && c.run.attempt == Some(a)
    ensures RecoverCell(c, a, alive, written).Ok? && Moves(c, RecoverCell(c, a, alive, written).value, r, now)
  {
    hide CellInv, CellStep, RecoverCell, RecoverOp, IsChild;
    RecoverKeeps(c, a, alive, written, now);
    RecoveredRun(c, a, alive, written);
    RecoveredShape(c, a, alive, written);
    forall k | k in c.ops ensures QuietOp(c.ops[k], RecoverOp(c, k, written), false) {
      RecoverOpQuiet(c, k, written);
    }
  }

  lemma RecoverInKeeps(db: Db, now: Time, r: RunId, a: AttemptId, alive: bool, written: set<OpKey>, cfg: Config)
    requires DbInv(db, cfg) && RecoverIn(db, r, a, alive, written).Ok?
    ensures var to := RecoverIn(db, r, a, alive, written).value;
            DbInv(to, cfg) && DbStep(db.cells, now, to.cells, now) && DbQuiet(db.cells, to.cells, {})
  {
    hide DbInv, Moves, DbStep, DbQuiet, Runs, CellInv, RecoverCell;
    NothingHappens(db, now, {});
    if db.cells[r].run.attempt == Some(a) {
      CellOf(db, cfg, r);
      RecoverMoves(db.cells[r], a, alive, written, r, now);
      OneMoves(db, r, RecoverCell(db.cells[r], a, alive, written).value, now, cfg);
    }
  }

  // ---------------------------------------------------------------- an outcome that waits

  /** References to the settling run's own rows bind rows of no other run. */
  lemma {:induction false} BindAllOwn(cells: map<RunId, Cell>, self: RunId, inputRevision: nat, refs: seq<Ref>)
    requires Scoped(refs, self) && self in cells
    ensures BindAll(cells, self, inputRevision, refs).Ok? <==> BindRefs(cells[self], inputRevision, refs).Ok?
    ensures BindAll(cells, self, inputRevision, refs).Ok? ==>
      BindAll(cells, self, inputRevision, refs).value == cells[self := BindRefs(cells[self], inputRevision, refs).value]
    decreases |refs|
  {
    hide BindRef;
    if refs != [] && BindRef(cells[self], inputRevision, refs[0]).Ok? {
      var c := BindRef(cells[self], inputRevision, refs[0]).value;
      BindAllOwn(cells[self := c], self, inputRevision, refs[1..]);
      ghost var bound := BindRefs(c, inputRevision, refs[1..]);
      assert bound.Ok? ==> cells[self := c][self := bound.value] == cells[self := bound.value];
    } else {
      assert cells == cells[self := cells[self]];
    }
  }

  /** Binding references changes no run's own row, whosever rows they name. */
  lemma {:induction false} BindKeepsRuns(m: map<RunId, Cell>, self: RunId, inputRevision: nat, refs: seq<Ref>)
    requires BindAll(m, self, inputRevision, refs).Ok?
    ensures BindAll(m, self, inputRevision, refs).value.Keys == m.Keys
    ensures forall r :: r in m ==> BindAll(m, self, inputRevision, refs).value[r].run == m[r].run
    decreases |refs|
  {
    hide InterruptTaken;
    if refs != [] {
      var c := BindRef(m[refs[0].run], inputRevision, refs[0]).value;
      BindKeepsRuns(m[refs[0].run := c], self, inputRevision, refs[1..]);
    }
  }

  /** What binding and parking leave as they were. */
  ghost predicate Binds(c: Cell, d: Cell) {
    && d.run == c.run && d.attempts == c.attempts && d.deps == c.deps
    && d.ops.Keys == c.ops.Keys && (forall k :: k in c.ops ==> QuietOp(c.ops[k], d.ops[k], false))
    && (forall k :: k in d.waits ==> k in c.waits && d.waits[k].children == c.waits[k].children)
  }

  lemma BindRefBinds(c: Cell, inputRevision: nat, r: Ref)
    requires BindRef(c, inputRevision, r).Ok?
    ensures Binds(c, BindRef(c, inputRevision, r).value)
  {
    hide InterruptTaken;
  }

  lemma BindsTransitive(c: Cell, d: Cell, e: Cell)
    requires Binds(c, d) && Binds(d, e)
    ensures Binds(c, e)
  {
    forall k | k in c.ops ensures QuietOp(c.ops[k], e.ops[k], false) {
      assert QuietOp(c.ops[k], d.ops[k], false) && QuietOp(d.ops[k], e.ops[k], false);
    }
  }

  lemma {:induction false} BindRefsBind(c: Cell, inputRevision: nat, refs: seq<Ref>)
    requires BindRefs(c, inputRevision, refs).Ok?
    ensures Binds(c, BindRefs(c, inputRevision, refs).value)
    decreases |refs|
  {
    hide BindRef, Binds;
    if refs == [] {
      BindsNothing(c);
    } else {
      var d := BindRef(c, inputRevision, refs[0]).value;
      BindRefBinds(c, inputRevision, refs[0]);
      BindRefsBind(d, inputRevision, refs[1..]);
      BindsTransitive(c, d, BindRefs(c, inputRevision, refs).value);
    }
  }

  lemma BindsNothing(c: Cell)
    ensures Binds(c, c)
  {}

  /** The settling run's rows after an outcome that waits. */
  function Parked(c: Cell, a: AttemptId, refs: seq<Ref>, ready: set<OpKey>): Cell
    requires ParkCell(c, a, refs).Ok?
  {
    Wake(RefreshCell(ParkCell(c, a, refs).value, ready))
  }

  lemma WakeShape(c: Cell)
    ensures Wake(c) == c || (Waiting(c.run.status) && Wake(c) == c.(run := Moved(c.run, Status.Queued)))
  {
    hide BarrierMet;
  }

  lemma RefreshShape(c: Cell, ready: set<OpKey>)
    ensures var e := c.(waits := ResolveWaits(c.waits, ready));
            RefreshCell(c, ready) == e
            || (Waiting(c.run.status) && RefreshCell(c, ready) == e.(run := Moved(c.run, Status.Queued)))
  {
    hide Wake, ResolveWaits;
    WakeShape(c.(waits := ResolveWaits(c.waits, ready)));
  }

  lemma RefreshEndsNothing(c: Cell, ready: set<OpKey>)
    ensures Terminal(RefreshCell(c, ready).run.status) <==> Terminal(c.run.status)
    ensures RefreshCell(c, ready).waits == ResolveWaits(c.waits, ready)
  {
    hide ResolveWaits, Wake;
    RefreshShape(c, ready);
  }

  /** A settled attempt is over and its run rests; the ledger and the forest are as before. */
  predicate Rests(c: Cell, d: Cell, a: AttemptId) {
    && d.ops == c.ops && Placed(c, d) && d.run.attempt == c.run.attempt
    && !d.run.status.Running? && !Terminal(d.run.status) && !(a in d.attempts && !d.attempts[a].ended)
  }

  lemma ParkRests(c: Cell, a: AttemptId, refs: seq<Ref>)
    requires ParkCell(c, a, refs).Ok? && c.run.status.Running?
    ensures Rests(c, ParkCell(c, a, refs).value, a) && ParkCell(c, a, refs).value.waits == c.waits
  {
    hide RequiredOf;
  }

  lemma RefreshRests(c: Cell, d: Cell, a: AttemptId, ready: set<OpKey>)
    requires Rests(c, d, a)
    ensures Rests(c, RefreshCell(d, ready), a) && Rests(c, Wake(d), a)
    ensures RefreshCell(d, ready).waits == ResolveWaits(d.waits, ready) && Wake(d).waits == d.waits
  {
    hide Wake, RefreshCell, ResolveWaits;
    RefreshShape(d, ready);
    WakeShape(d);
  }

  lemma ParkedShape(c: Cell, a: AttemptId, refs: seq<Ref>, ready: set<OpKey>)
    requires ParkCell(c, a, refs).Ok? && c.run.status.Running?
    ensures Rests(c, Parked(c, a, refs, ready), a) && Parked(c, a, refs, ready).waits == ResolveWaits(c.waits, ready)
  {
    hide Wake, RefreshCell, ResolveWaits, Rests, ParkCell;
    var p := ParkCell(c, a, refs).value;
    ParkRests(c, a, refs);
    RefreshRests(c, p, a, ready);
    RefreshRests(c, RefreshCell(p, ready), a, {});
  }

  lemma ParkedInv(c: Cell, a: AttemptId, refs: seq<Ref>, ready: set<OpKey>, now: Time)
    requires Core(c) && c.run.status.Running? && c.run.attempt == Some(a)
    ensures ParkCell(c, a, refs).Ok?
    ensures CellInv(Parked(c, a, refs, ready)) && CellStep(c, now, Parked(c, a, refs, ready), now)
  {
    hide Core, CellStep, ParkCell, RefreshCell, Wake;
    ParkKeeps(c, a, refs, now);
    var p := ParkCell(c, a, refs).value;
    RefreshKeeps(p, now, ready);
    var d := RefreshCell(p, ready);
    WakeKeeps(d, now);
    CellStepTransitive(c, now, p, now, d, now);
    CellStepTransitive(c, now, d, now, Wake(d), now);
  }

  lemma WaitMoves(c: Cell, checkpoint: Option<nat>, inputRevision: nat, a: AttemptId, refs: seq<Ref>,
                  ready: set<OpKey>, r: RunId, now: Time)
    requires CellInv(c) && c.run.status.Running? && c.run.attempt == Some(a)
    requires BindRefs(Checkpointed(c, checkpoint), inputRevision, refs).Ok?
    ensures var bound := BindRefs(Checkpointed(c, checkpoint), inputRevision, refs).value;
            ParkCell(bound, a, refs).Ok? && Moves(c, Parked(bound, a, refs, ready), r, now)
  {
    hide Core, CellStep, BindRefs, ParkCell, Parked, IsChild, QuietOp, Barrier;
    var saved := Checkpointed(c, checkpoint);
    CheckpointKeeps(c, checkpoint, now);
    BindRefsKeep(saved, inputRevision, refs, now);
    BindRefsBind(saved, inputRevision, refs);
    var bound := BindRefs(saved, inputRevision, refs).value;
    ParkedInv(bound, a, refs, ready, now);
    ParkedShape(bound, a, refs, ready);
    CellStepTransitive(c, now, saved, now, bound, now);
    CellStepTransitive(c, now, bound, now, Parked(bound, a, refs, ready), now);
  }

  // ---------------------------------------------------------------- an outcome that stops

  /** The attempt is over; what was prepared may have been dropped. */
  ghost predicate Ends(c: Cell, d: Cell, a: AttemptId) {
    && Placed(c, d) && d.run.attempt == c.run.attempt && d.waits == c.waits && !d.run.status.Running?
    && (d.ops == c.ops || d.ops == DropAll(c.ops)) && !(a in d.attempts && !d.attempts[a].ended)
  }

  lemma EndsQuiet(c: Cell, d: Cell, a: AttemptId, r: RunId)
    requires Ends(c, d, a) && c.run.attempt == Some(a)
    ensures Quiet(c, d, r, {})
  {}

  lemma EndsFixed(c: Cell, d: Cell, a: AttemptId, now: Time)
    requires Ends(c, d, a) && CellInv(d) && CellStep(c, now, d, now) && !Terminal(c.run.status)
    ensures Advanced(c, d, now)
  {
    hide CellInv, CellStep, DropAll, IsChild;
  }

  lemma AckCancelEnds(c: Cell, a: AttemptId, childrenDone: bool)
    requires c.run.status.Cancelling? && AckCancelCell(c, a, childrenDone).Ok?
    ensures Ends(c, AckCancelCell(c, a, childrenDone).value, a)
    ensures !AckCancelCell(c, a, childrenDone).value.run.status.Completed?
  {
    hide AnyUnresolved, RevokeExcept, WithdrawAll, DropAll;
  }

  lemma EndedEnds(c: Cell, e: Cell, a: AttemptId)
    requires Placed(c, e) && e.run.attempt == c.run.attempt && e.waits == c.waits && !e.run.status.Running?
    requires e.ops == c.ops || e.ops == DropAll(c.ops)
    ensures Ends(c, EndAttempt(e, a), a) && EndAttempt(e, a).run == e.run
  {
    hide DropAll;
  }

  lemma StopsEnded(c: Cell, a: AttemptId, o: Outcome, childrenDone: bool)
    requires c.run.status.Running? && StopCell(c, a, o, childrenDone).Ok?
    ensures Ends(c, StopCell(c, a, o, childrenDone).value, a)
    ensures StopCell(c, a, o, childrenDone).value.run.status.Completed? ==> childrenDone
  {
    hide AnyUnresolved, RevokeExcept, WithdrawAll, DropAll, Ends, EndAttempt;
    EndedEnds(c, c.(run := Moved(c.run, Status.NeedsReview)), a);
    EndedEnds(c, CloseCell(c.(run := Moved(c.run.(result := o.result), Status.Completed))), a);
    EndedEnds(c, CloseCell(c.(run := Moved(c.run, Status.Failed))), a);
  }

  lemma SavedEnds(c: Cell, checkpoint: Option<nat>, d: Cell, a: AttemptId)
    requires Ends(Checkpointed(c, checkpoint), d, a)
    ensures Ends(c, d, a)
  {
    hide DropAll;
  }

  lemma OneSettles(db: Db, r: RunId, d: Cell, a: AttemptId, now: Time, cfg: Config)
    requires DbInv(db, cfg) && r in db.cells && db.cells[r].run.attempt == Some(a)
    requires !Terminal(db.cells[r].run.status) && Ends(db.cells[r], d, a)
    requires CellInv(d) && CellStep(db.cells[r], now, d, now)
    requires d.run.status.Completed? ==> ChildrenDone(db.cells, db.cells[r])
    ensures var to := Update(db, db.cells[r := d]);
            DbInv(to, cfg) && DbStep(db.cells, now, to.cells, now) && DbQuiet(db.cells, to.cells, {})
  {
    hide DbInv, CellInv, CellStep, Ends, ChildrenDone, Advanced, Quiet, DbStep, DbQuiet, Runs;
    EndsFixed(db.cells[r], d, a, now);
    EndsQuiet(db.cells[r], d, a, r);
    CellOf(db, cfg, r);
    PutKeeps(db, r, d, now, cfg);
    PutStep(db, r, d, now);
    PutQuiet(db, r, d, {});
  }

  // ---------------------------------------------------------------- the whole transaction

  lemma AckCancelSettles(c: Cell, checkpoint: Option<nat>, a: AttemptId, childrenDone: bool, now: Time)
    requires CellInv(c) && c.run.status.Cancelling? && c.run.attempt == Some(a)
    ensures AckCancelCell(Checkpointed(c, checkpoint), a, childrenDone).Ok?
    ensures var d := AckCancelCell(Checkpointed(c, checkpoint), a, childrenDone).value;
            CellInv(d) && CellStep(c, now, d, now) && Ends(c, d, a) && !d.run.status.Completed?
  {
    hide CellInv, CellStep, Ends, AckCancelCell;
    var saved := Checkpointed(c, checkpoint);
    CheckpointKeeps(c, checkpoint, now);
    AckCancelKeeps(saved, a, childrenDone, now);
    AckCancelEnds(saved, a, childrenDone);
    var d := AckCancelCell(saved, a, childrenDone).value;
    SavedEnds(c, checkpoint, d, a);
    CellStepTransitive(c, now, saved, now, d, now);
  }

  lemma StopSettles(c: Cell, a: AttemptId, o: Outcome, childrenDone: bool, now: Time)
    requires CellInv(c) && c.run.status.Running? && c.run.attempt == Some(a)
    requires StopCell(Checkpointed(c, o.checkpoint), a, o, childrenDone).Ok?
    requires o.kind.Final? ==> PendingInputs(c) == {}
    ensures var d := StopCell(Checkpointed(c, o.checkpoint), a, o, childrenDone).value;
            CellInv(d) && CellStep(c, now, d, now) && Ends(c, d, a) && (d.run.status.Completed? ==> childrenDone)
  {
    var saved := Checkpointed(c, o.checkpoint);
    if o.kind.Final? && !AnyUnresolved(saved) {
      FinalIsDurable(c, a, o, childrenDone);
    }
    hide CellInv, CellStep, Ends, StopCell, PendingInputs, AnyUnresolved;
    CheckpointKeeps(c, o.checkpoint, now);
    StopKeeps(saved, a, o, childrenDone, now);
    StopsEnded(saved, a, o, childrenDone);
    var d := StopCell(saved, a, o, childrenDone).value;
    SavedEnds(c, o.checkpoint, d, a);
    CellStepTransitive(c, now, saved, now, d, now);
  }

  lemma FinalIsDurable(c: Cell, a: AttemptId, o: Outcome, childrenDone: bool)
    requires StopCell(Checkpointed(c, o.checkpoint), a, o, childrenDone).Ok? && c.run.status.Running?
    requires o.kind.Final? && PendingInputs(c) == {} && !AnyUnresolved(Checkpointed(c, o.checkpoint))
    ensures (forall n :: n in c.inputs ==> c.inputs[n]) && Checkpointed(c, o.checkpoint).run.checkpoint.Some?
  {
    forall n | n in c.inputs ensures c.inputs[n] {
      assert c.inputs[n] || n in PendingInputs(c);
    }
  }

  /** What the worker settles of its own run. */
  lemma SettleKeeps(db: Db, now: Time, ctx: Context, o: Outcome, cfg: Config)
    requires DbInv(db, cfg) && WorkerSettleIn(db, now, ctx, o).Ok? && Scoped(o.refs, ctx.run)
    ensures var to := WorkerSettleIn(db, now, ctx, o).value;
            DbInv(to, cfg) && DbStep(db.cells, now, to.cells, now) && DbQuiet(db.cells, to.cells, {})
  {
    hide DbInv, CellInv, CellStep, Ends, StopCell, AckCancelCell, BindRefs, DbStep, DbQuiet, Runs, ChildrenDone;
    hide ParkCell, RefreshCell, Wake, PendingInputs, ReadyWaits, Moves;
    var r: RunId, c, a := ctx.run, db.cells[ctx.run], ctx.attempt;
    var saved := Checkpointed(c, o.checkpoint);
    CellOf(db, cfg, r);
    if c.run.status.Cancelling? {
      AckCancelSettles(c, o.checkpoint, a, ChildrenDone(db.cells, c), now);
      OneSettles(db, r, AckCancelCell(saved, a, ChildrenDone(db.cells, c)).value, a, now, cfg);
    } else if o.kind.Await? {
      var cells: map<RunId, Cell> := db.cells[r := saved];
      BindAllOwn(cells, r, ctx.inputRevision, o.refs);
      var bound := BindRefs(saved, ctx.inputRevision, o.refs).value;
      var p := ParkCell(bound, a, o.refs).value;
      var ready := ReadyWaits(cells[r := bound][r := p], p);
      WaitMoves(c, o.checkpoint, ctx.inputRevision, a, o.refs, ready, r, now);
      OneMoves(db, r, Parked(bound, a, o.refs, ready), now, cfg);
      assert cells[r := bound][r := Parked(bound, a, o.refs, ready)] == db.cells[r := Parked(bound, a, o.refs, ready)];
    } else {
      StopSettles(c, a, o, ChildrenDone(db.cells, c), now);
      OneSettles(db, r, StopCell(saved, a, o, ChildrenDone(db.cells, c)).value, a, now, cfg);
    }
  }
}
