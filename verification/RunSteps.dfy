/** Every transaction on one run keeps the invariant and undoes nothing. */
module RunSteps {
  import opened Domain
  import opened RunMachine
  import opened RunInvariant

  // ---------------------------------------------------------------- shared pieces

  lemma ClosedForms(c: Cell)
    requires Forms(AnswersOf(c)) && Ledger(c.run.status, c.ops)
    ensures var d := CloseCell(c);
            && Forms(AnswersOf(d)) && OpsFrozen(c.ops, d.ops) && InteractionsFrozen(c.interactions, d.interactions)
  {}

  lemma DroppedLedger(s: Status, to: Status, ops: map<OpKey, Operation>)
    requires Ledger(s, ops) && Terminal(to) && Allowed(s, to)
    requires to.Cancelled? || (!s.Cancelling? && forall k :: k in ops ==> !Unresolved(ops[k]))
    ensures Ledger(to, DropAll(ops))
  {}

  /** A change of the run row that gives nobody a fence. */
  predicate Demoted(r: Run, q: Run) {
    && q.attempt == r.attempt && q.token == r.token
    && (q.status.Running? ==> r.status.Running?)
    && (q.status.Cancelling? ==> r.status.Running? || r.status.Cancelling?)
  }

  lemma RunOnlyStep(c: Cell, q: Run, now: Time)
    requires RunFrozen(c.run, q) && Demoted(c.run, q)
    ensures CellStep(c, now, c.(run := q), now)
  {
    RowsReflexive(c);
  }

  lemma RowsOnlyStep(c: Cell, d: Cell, now: Time)
    requires d.run == c.run && d.attempts == c.attempts
    requires OpsFrozen(c.ops, d.ops) && InteractionsFrozen(c.interactions, d.interactions)
    requires TreeGrows(c.run, c.deps, d.deps)
    ensures CellStep(c, now, d, now)
  {
    LeaseReflexive(c, now, now);
  }

  lemma EndedLease(r: Run, m: map<AttemptId, Attempt>, a: AttemptId, now: Time)
    requires a in m
    ensures LeaseStep(r, m, now, r, m[a := m[a].(ended := true)], now)
  {}

  lemma EndAttemptStep(c: Cell, a: AttemptId, now: Time)
    ensures CellStep(c, now, EndAttempt(c, a), now)
  {
    RowsReflexive(c);
    LeaseReflexive(c, now, now);
    if a in c.attempts {
      EndedLease(c.run, c.attempts, a, now);
    }
  }

  lemma CloseStep(c: Cell, now: Time)
    requires Forms(AnswersOf(c)) && Ledger(c.run.status, c.ops)
    ensures CellStep(c, now, CloseCell(c), now)
  {
    ClosedForms(c);
    RowsOnlyStep(c, CloseCell(c), now);
  }

  lemma WakeKeeps(c: Cell, now: Time)
    requires Core(c) && (Waiting(c.run.status) || Barrier(c.run, AnswersOf(c)))
    ensures CellInv(Wake(c)) && CellStep(c, now, Wake(c), now)
  {
    if Waiting(c.run.status) && BarrierMet(c.run.required, AnswersOf(c)) {
      RunOnlyStep(c, Moved(c.run, Status.Queued), now);
    } else {
      CellStepTick(c, now, now);
    }
  }

  // ---------------------------------------------------------------- scheduler transactions

  lemma HeartbeatKeeps(c: Cell, ctx: Context, now: Time, expiry: Time)
    requires CellInv(c) && HeartbeatCell(c, ctx, now, expiry).Ok?
    ensures var d := HeartbeatCell(c, ctx, now, expiry).value;
            CellInv(d) && CellStep(c, now, d, now)
  {
  }

  lemma ClaimKeeps(c: Cell, a: AttemptId, p: ProcessId, expiry: Time, now: Time)
    requires CellInv(c) && ClaimCell(c, a, p, expiry).Ok? && c.run.status.Queued?
    ensures var d := ClaimCell(c, a, p, expiry).value;
            CellInv(d) && CellStep(c, now, d, now)
  {
  }

  lemma RespondKeeps(c: Cell, k: RequestKey, expected: nat, response: nat, now: Time, schemaOk: bool, bindingOk: bool)
    requires CellInv(c) && RespondCell(c, k, expected, response, now, schemaOk, bindingOk).Ok?
    ensures var d := RespondCell(c, k, expected, response, now, schemaOk, bindingOk).value;
            CellInv(d) && CellStep(c, now, d, now)
  {
    hide Leases, CancelFlag, Delivered, CellStep, Barrier, Ledger;
    var i := c.interactions[k];
    var resolved := i.(status := InteractionStatus.Resolved, resolution := Some(Answered(response)),
                       revision := i.revision + 1);
    var e := c.(interactions := c.interactions[k := resolved]);
    assert RespondCell(c, k, expected, response, now, schemaOk, bindingOk).value == Wake(e);
    RowsOnlyStep(c, e, now);
    WakeKeeps(e, now);
    CellStepTransitive(c, now, e, now, Wake(e), now);
  }

  lemma ExpireKeeps(c: Cell, now: Time)
    requires CellInv(c)
    ensures CellInv(ExpireCell(c, now)) && CellStep(c, now, ExpireCell(c, now), now)
  {
    if Waiting(c.run.status) {
      var e := c.(interactions := LapseAll(c.interactions, now));
      RowsOnlyStep(c, e, now);
      WakeKeeps(e, now);
      CellStepTransitive(c, now, e, now, Wake(e), now);
    } else {
      CellStepTick(c, now, now);
    }
  }

  lemma RefreshKeeps(c: Cell, now: Time, ready: set<OpKey>)
    requires Core(c) && (Waiting(c.run.status) || Barrier(c.run, AnswersOf(c)))
    ensures var d := RefreshCell(c, ready);
            Core(d) && CellStep(c, now, d, now) && (Barrier(c.run, AnswersOf(c)) ==> Barrier(d.run, AnswersOf(d)))
            && (Waiting(d.run.status) || Barrier(d.run, AnswersOf(d)))
  {
    var e := c.(waits := ResolveWaits(c.waits, ready));
    RowsReflexive(c);
    AnswersStay(AnswersOf(c), AnswersOf(e), c.run.required);
    RowsOnlyStep(c, e, now);
    WakeKeeps(e, now);
    CellStepTransitive(c, now, e, now, Wake(e), now);
  }

  lemma NewWait(c: Cell, k: OpKey, w: Wait, now: Time)
    requires CellInv(c) && k !in c.waits && w.resolution.None? && WaitOk(w)
    ensures var d := c.(waits := c.waits[k := w]); CellInv(d) && CellStep(c, now, d, now)
  {
    var d := c.(waits := c.waits[k := w]);
    AnswersStay(AnswersOf(c), AnswersOf(d), c.run.required);
    AnswersStay(AnswersOf(d), AnswersOf(c), c.run.required);
    RowsReflexive(c);
    RowsOnlyStep(c, d, now);
  }

  lemma AddWaitKeeps(c: Cell, k: OpKey, children: seq<RunId>, mode: WaitMode, now: Time)
    requires CellInv(c) && AddWaitCell(c, k, children, mode).Ok?
    ensures var d := AddWaitCell(c, k, children, mode).value;
            CellInv(d) && CellStep(c, now, d, now)
  {
    CellStepTick(c, now, now);
    if k !in c.waits {
      NewWait(c, k, Wait.Wait(children, mode, None, false, None, 1), now);
    }
  }

  // ---------------------------------------------------------------- settling

  /** New rows that are well formed and undo nothing keep everything but the barrier. */
  lemma NewRows(c: Cell, d: Cell, now: Time)
    requires Core(c) && d.run == c.run && d.attempts == c.attempts && d.deps == c.deps
    requires d.grants == c.grants && d.inputs == c.inputs && !Terminal(c.run.status)
    requires OpsFrozen(c.ops, d.ops) && InteractionsFrozen(c.interactions, d.interactions)
    requires Ledger(d.run.status, d.ops) && Forms(AnswersOf(d))
    ensures Core(d) && CellStep(c, now, d, now)
  {
    RowsReflexive(c);
    RowsOnlyStep(c, d, now);
  }

  lemma BindRefKeeps(c: Cell, inputRevision: nat, r: Ref, now: Time)
    requires Core(c) && BindRef(c, inputRevision, r).Ok? && c.run.status.Running?
    ensures var d := BindRef(c, inputRevision, r).value;
            Core(d) && CellStep(c, now, d, now) && d.run == c.run
  {
    hide Leases, CancelFlag, Closed, Delivered, CellStep, InteractionsFrozen, OpsFrozen, Forms, Ledger;
    hide BindInteraction, BindWait, BindReview;
    var d := BindRef(c, inputRevision, r).value;
    RowsReflexive(c);
    match r
    case UserRef(interrupt, _, k) => BoundForm(c, k, interrupt, inputRevision); NewRows(c, d, now);
    case ChildrenRef(interrupt, _, k) => BoundWait(c, k, interrupt); NewRows(c, d, now);
    case ReviewRef(_, _, op) =>
      if op.Some? {
        BoundReview(c, op.value);
      }
      NewRows(c, d, now);
  }

  lemma BoundForm(c: Cell, k: RequestKey, interrupt: Interrupt, inputRevision: nat)
    requires Forms(AnswersOf(c)) && BindInteraction(c.interactions, k, interrupt, inputRevision).Ok?
    ensures var m := BindInteraction(c.interactions, k, interrupt, inputRevision).value;
            InteractionsFrozen(c.interactions, m) && Forms(AnswersOf(c.(interactions := m)))
  {
    hide InterruptTaken;
  }

  lemma BoundWait(c: Cell, k: OpKey, interrupt: Interrupt)
    requires Forms(AnswersOf(c)) && BindWait(c.waits, k, interrupt).Ok?
    ensures Forms(AnswersOf(c.(waits := BindWait(c.waits, k, interrupt).value)))
  {}

  lemma BoundReview(c: Cell, k: OpKey)
    requires Ledger(c.run.status, c.ops) && c.run.status.Running? && BindReview(c.ops, k).Ok?
    ensures OpsFrozen(c.ops, BindReview(c.ops, k).value) && Ledger(c.run.status, BindReview(c.ops, k).value)
  {}

  lemma {:induction false} BindRefsKeep(c: Cell, inputRevision: nat, refs: seq<Ref>, now: Time)
    requires Core(c) && BindRefs(c, inputRevision, refs).Ok? && c.run.status.Running?
    ensures var d := BindRefs(c, inputRevision, refs).value;
            Core(d) && CellStep(c, now, d, now) && d.run == c.run
    decreases |refs|
  {
    if refs == [] {
      CellStepTick(c, now, now);
    } else {
      var next := BindRef(c, inputRevision, refs[0]).value;
      BindRefKeeps(c, inputRevision, refs[0], now);
      BindRefsKeep(next, inputRevision, refs[1..], now);
      CellStepTransitive(c, now, next, now, BindRefs(c, inputRevision, refs).value, now);
    }
  }

  lemma CheckpointKeeps(c: Cell, checkpoint: Option<nat>, now: Time)
    requires CellInv(c) && (c.run.status.Running? || c.run.status.Cancelling?)
    ensures var d := Checkpointed(c, checkpoint);
            CellInv(d) && CellStep(c, now, d, now)
  {
    RunOnlyStep(c, Checkpointed(c, checkpoint).run, now);
  }

  lemma ParkKeeps(c: Cell, a: AttemptId, refs: seq<Ref>, now: Time)
    requires Core(c) && c.run.status.Running? && c.run.attempt == Some(a)
    ensures ParkCell(c, a, refs).Ok?
    ensures var d := ParkCell(c, a, refs).value;
            Core(d) && CellStep(c, now, d, now) && (Waiting(d.run.status) || d.run.status.NeedsReview?)
  {
    var e := c.(run := Moved(c.run.(required := RequiredOf(refs)), ParkedStatus(refs)));
    RunOnlyStep(c, e.run, now);
    EndAttemptStep(e, a, now);
    CellStepTransitive(c, now, e, now, EndAttempt(e, a), now);
  }

  lemma ConcludeStep(c: Cell, r: Run, to: Status, a: AttemptId, now: Time)
    requires Forms(AnswersOf(c)) && Ledger(c.run.status, c.ops) && Terminal(to)
    requires RunFrozen(c.run, r) && Demoted(c.run, r) && r.status == c.run.status && Allowed(c.run.status, to)
    ensures CellStep(c, now, CloseCell(c.(run := Moved(r, to))), now)
    ensures CellStep(c, now, EndAttempt(CloseCell(c.(run := Moved(r, to))), a), now)
  {
    var e := CloseCell(c);
    CloseStep(c, now);
    RunOnlyStep(e, Moved(r, to), now);
    var f := CloseCell(c.(run := Moved(r, to)));
    CellStepTransitive(c, now, e, now, f, now);
    EndAttemptStep(f, a, now);
    CellStepTransitive(c, now, f, now, EndAttempt(f, a), now);
  }

  lemma ConcludeInv(c: Cell, r: Run, to: Status)
    requires Terminal(to) && Forms(AnswersOf(c)) && Ledger(to, DropAll(c.ops))
    requires Leases(Moved(r, to), c.attempts) && CancelFlag(Moved(r, to)) && Delivered(Moved(r, to), c.inputs)
    ensures CellInv(CloseCell(c.(run := Moved(r, to))))
  {
    var d := CloseCell(c.(run := Moved(r, to)));
    assert forall k :: k in d.interactions ==> InteractionOk(d.interactions[k]) && !Unclosed(d.interactions[k]);
  }

  lemma AckCancelKeeps(c: Cell, a: AttemptId, childrenDone: bool, now: Time)
    requires CellInv(c) && c.run.status.Cancelling? && c.run.attempt == Some(a)
    ensures AckCancelCell(c, a, childrenDone).Ok?
    ensures var d := AckCancelCell(c, a, childrenDone).value;
            CellInv(d) && CellStep(c, now, d, now)
  {
    EndAttemptStep(c, a, now);
    if !AnyUnresolved(c) && childrenDone {
      ClosedForms(c);
      DroppedLedger(c.run.status, Status.Cancelled, c.ops);
      ConcludeStep(c, c.run, Status.Cancelled, a, now);
    }
  }

  lemma ReviewKeeps(c: Cell, a: AttemptId, now: Time)
    requires CellInv(c) && c.run.status.Running? && c.run.attempt == Some(a)
    ensures var d := EndAttempt(c.(run := Moved(c.run, Status.NeedsReview)), a);
            CellInv(d) && CellStep(c, now, d, now)
  {
    var e := c.(run := Moved(c.run, Status.NeedsReview));
    RunOnlyStep(c, e.run, now);
    EndAttemptStep(e, a, now);
    CellStepTransitive(c, now, e, now, EndAttempt(e, a), now);
  }

  lemma StopKeeps(c: Cell, a: AttemptId, o: Outcome, childrenDone: bool, now: Time)
    requires CellInv(c) && c.run.status.Running? && c.run.attempt == Some(a)
    requires StopCell(c, a, o, childrenDone).Ok?
    requires o.kind.Final? && !AnyUnresolved(c) ==>
               (forall n :: n in c.inputs ==> c.inputs[n]) && c.run.checkpoint.Some?
    ensures var d := StopCell(c, a, o, childrenDone).value;
            CellInv(d) && CellStep(c, now, d, now)
  {
    if AnyUnresolved(c) {
      ReviewKeeps(c, a, now);
    } else {
      var to := if o.kind.Final? then Status.Completed else Status.Failed;
      var r := if o.kind.Final? then c.run.(result := o.result) else c.run;
      DroppedLedger(c.run.status, to, c.ops);
      StopEnds(c, r, to, a, now);
    }
  }

  lemma StopEnds(c: Cell, r: Run, to: Status, a: AttemptId, now: Time)
    requires CellInv(c) && c.run.status.Running? && c.run.attempt == Some(a)
    requires to.Completed? || to.Failed?
    requires r == c.run.(result := r.result) && Ledger(to, DropAll(c.ops)) && Delivered(Moved(r, to), c.inputs)
    ensures var d := EndAttempt(CloseCell(c.(run := Moved(r, to))), a);
            CellInv(d) && CellStep(c, now, d, now)
  {
    var e := EndAttempt(c, a);
    ConcludeInv(e, r, to);
    ConcludeStep(c, r, to, a, now);
    assert EndAttempt(CloseCell(c.(run := Moved(r, to))), a) == CloseCell(e.(run := Moved(r, to)));
  }

  // ---------------------------------------------------------------- cancelling

  lemma BarredStep(c: Cell, now: Time)
    requires CellInv(c) && !Terminal(c.run.status)
    ensures CellStep(c, now, Barred(c), now)
    ensures Forms(AnswersOf(Barred(c))) && Ledger(c.run.status, Barred(c).ops)
  {
    ClosedForms(c);
    var e := c.(grants := RevokeExcept(c.grants, {}), interactions := WithdrawAll(c.interactions));
    RowsReflexive(c);
    RowsOnlyStep(c, e, now);
    RunOnlyStep(e, Barred(c).run, now);
    CellStepTransitive(c, now, e, now, Barred(c), now);
  }

  lemma BarredEnds(c: Cell, now: Time)
    requires CellInv(c) && EndsAtOnce(c)
    ensures var d := CloseCell(Barred(c).(run := Moved(Barred(c).run, Status.Cancelled)));
            CellInv(d) && CellStep(c, now, d, now)
  {
    hide CellStep, Barrier, RevokeExcept, WithdrawAll;
    var e := Barred(c);
    BarredStep(c, now);
    DroppedLedger(c.run.status, Status.Cancelled, c.ops);
    ConcludeInv(e, e.run, Status.Cancelled);
    ConcludeStep(e, e.run, Status.Cancelled, 0, now);
    CellStepTransitive(c, now, e, now, CloseCell(e.(run := Moved(e.run, Status.Cancelled))), now);
  }

  lemma CancellingStep(c: Cell, now: Time)
    requires CellInv(c) && !Terminal(c.run.status) && !c.run.status.Cancelling? && !c.run.status.Queued?
    ensures var d := Barred(c).(run := Moved(Barred(c).run, Status.Cancelling));
            CellInv(d) && CellStep(c, now, d, now)
  {
    BarredStep(c, now);
    var d := Barred(c).(run := Moved(Barred(c).run, Status.Cancelling));
    assert RunFrozen(c.run, d.run);
  }

  lemma CancelKeeps(c: Cell, now: Time)
    requires CellInv(c)
    ensures CancelCell(c).Ok?
    ensures var d := CancelCell(c).value;
            && CellInv(d) && CellStep(c, now, d, now) && d.deps == c.deps && d.run.attempt == c.run.attempt
            && (Terminal(d.run.status) || (d.run.status.Cancelling? && d.run.cancelRequested))
  {
    hide CellStep, RevokeExcept, BusyOp;
    CellStepTick(c, now, now);
    if !Terminal(c.run.status) {
      BarredStep(c, now);
      if EndsAtOnce(c) {
        BarredEnds(c, now);
      } else if !c.run.status.Cancelling? {
        CancellingStep(c, now);
      }
    }
  }

  lemma FinishIdleKeeps(c: Cell, childrenDone: bool, now: Time)
    requires CellInv(c)
    ensures var d := FinishIdleCell(c, childrenDone);
            CellInv(d) && CellStep(c, now, d, now)
  {
    CellStepTick(c, now, now);
    if FinishIdleCell(c, childrenDone) != c {
      DroppedLedger(c.run.status, Status.Cancelled, c.ops);
      ClosedForms(c);
      ConcludeStep(c, c.run, Status.Cancelled, 0, now);
    }
  }

  // ---------------------------------------------------------------- recovery and reconciliation

  lemma RecoveredOps(c: Cell, written: set<OpKey>)
    requires Ledger(c.run.status, c.ops)
    ensures OpsFrozen(c.ops, RecoverOps(c, written))
    ensures Ledger(c.run.status, RecoverOps(c, written))
    ensures c.run.status.Recovering? ==> Ledger(Status.Queued, RecoverOps(c, written))
    ensures c.run.status.Recovering? ==> Ledger(Status.NeedsReview, RecoverOps(c, written))
  {}

  /** Recovery's first half: a run still running is marked, and grants are revoked. */
  function Seen(c: Cell): Cell {
    var r := if c.run.status.Running? then Moved(c.run, Status.Recovering) else c.run;
    c.(run := r, grants := RevokeExcept(c.grants, KeptGrants(c)))
  }

  lemma SeenKeeps(c: Cell, a: AttemptId, now: Time)
    requires CellInv(c) && c.run.attempt == Some(a)
    ensures CellInv(Seen(c)) && CellStep(c, now, Seen(c), now)
  {
    RunOnlyStep(c, Seen(c).run, now);
    var e := c.(run := Seen(c).run);
    RowsReflexive(e);
    RowsOnlyStep(e, Seen(c), now);
    CellStepTransitive(c, now, e, now, Seen(c), now);
  }

  lemma RecoverKeeps(c: Cell, a: AttemptId, alive: bool, written: set<OpKey>, now: Time)
    requires CellInv(c) && c.run.attempt == Some(a)
    ensures RecoverCell(c, a, alive, written).Ok?
    ensures var d := RecoverCell(c, a, alive, written).value;
            CellInv(d) && CellStep(c, now, d, now)
  {
    var seen := if c.run.status.Running? then c.(run := Moved(c.run, Status.Recovering)) else c;
    assert KeptGrants(seen) == KeptGrants(c);
    assert seen.(grants := RevokeExcept(seen.grants, KeptGrants(seen))) == Seen(c);
    SeenKeeps(c, a, now);
    if !alive {
      SortedKeeps(Seen(c), a, written, now);
      CellStepTransitive(c, now, Seen(c), now, RecoverCell(c, a, alive, written).value, now);
    }
  }

  lemma SortedStep(c: Cell, a: AttemptId, ops: map<OpKey, Operation>, r: Run, now: Time)
    requires OpsFrozen(c.ops, ops) && RunFrozen(c.run, r) && Demoted(c.run, r)
    ensures CellStep(c, now, EndAttempt(c, a).(ops := ops, run := r), now)
  {
    hide CellStep, OpsFrozen, RunFrozen, Demoted, LeaseStep;
    var e := c.(ops := ops);
    RowsReflexive(c);
    RowsOnlyStep(c, e, now);
    EndAttemptStep(e, a, now);
    var f := EndAttempt(e, a);
    CellStepTransitive(c, now, e, now, f, now);
    RunOnlyStep(f, r, now);
    CellStepTransitive(c, now, f, now, f.(run := r), now);
  }

  lemma SortedInv(c: Cell, a: AttemptId, ops: map<OpKey, Operation>, r: Run)
    requires CellInv(c) && c.run.attempt == Some(a) && !c.run.status.Running?
    requires Ledger(r.status, ops)
    requires (if c.run.status.Recovering? then r.status.NeedsReview? || r.status.Queued? else r == c.run)
    requires r == c.run.(status := r.status, revision := r.revision)
    ensures CellInv(EndAttempt(c, a).(ops := ops, run := r))
  {
    hide BarrierMet, Ledger, Forms;
  }

  lemma SortedKeeps(c: Cell, a: AttemptId, written: set<OpKey>, now: Time)
    requires CellInv(c) && c.run.attempt == Some(a) && !c.run.status.Running?
    ensures var ops := RecoverOps(c, written);
            var to := if AnyUnknown(ops) then Status.NeedsReview else Status.Queued;
            var r := if c.run.status.Recovering? then Moved(c.run, to) else c.run;
            var d := EndAttempt(c, a).(ops := ops, run := r);
            CellInv(d) && CellStep(c, now, d, now)
  {
    hide RecoverOps, AnyUnknown, Ledger, OpsFrozen, Forms, Closed, Delivered, Barrier, Leases, LeaseStep, EndAttempt;
    var ops := RecoverOps(c, written);
    var to := if AnyUnknown(ops) then Status.NeedsReview else Status.Queued;
    var r := if c.run.status.Recovering? then Moved(c.run, to) else c.run;
    RecoveredOps(c, written);
    SortedStep(c, a, ops, r, now);
    SortedInv(c, a, ops, r);
  }

  lemma ReconciledOp(c: Cell, k: OpKey, decision: Decision)
    requires Ledger(c.run.status, c.ops) && k in c.ops && c.ops[k].state.Unknown?
    requires c.run.status.NeedsReview? || c.run.status.Cancelling?
    requires ReconcileOp(c.ops[k], decision).Ok?
    ensures var ops := c.ops[k := ReconcileOp(c.ops[k], decision).value];
            && OpsFrozen(c.ops, ops)
            && Ledger(Status.Cancelling, ops)
            && (!decision.AcceptUnresolved? ==> Ledger(c.run.status, ops))
            && (c.run.status.NeedsReview? && !decision.AcceptUnresolved? ==> Ledger(Status.Queued, ops))
  {}

  lemma ReconcileKeeps(c: Cell, k: OpKey, expected: nat, decision: Decision, noted: bool, now: Time)
    requires CellInv(c) && ReconcileCell(c, k, expected, decision, noted).Ok?
    ensures var d := ReconcileCell(c, k, expected, decision, noted).value;
            CellInv(d) && CellStep(c, now, d, now)
  {
    ReconciledOp(c, k, decision);
    var next := c.(ops := c.ops[k := ReconcileOp(c.ops[k], decision).value], grants := RevokeExcept(c.grants, {}));
    if c.run.status.NeedsReview? {
      if decision.AcceptUnresolved? {
        AcceptKeeps(c, next, now);
      } else if AnyUnaccepted(next.ops) {
        ReviewedRows(c, next, now);
      } else {
        ResumeKeeps(c, next, now);
      }
    } else {
      ReviewedRows(c, next, now);
    }
  }

  lemma ReviewedRows(c: Cell, next: Cell, now: Time)
    requires CellInv(c) && next == c.(ops := next.ops, grants := RevokeExcept(c.grants, {}))
    requires OpsFrozen(c.ops, next.ops)
    ensures CellStep(c, now, next, now)
    ensures Ledger(c.run.status, next.ops) ==> CellInv(next)
  {
    RowsReflexive(c);
    RowsOnlyStep(c, next, now);
  }

  lemma ResumeKeeps(c: Cell, next: Cell, now: Time)
    requires CellInv(c) && next == c.(ops := next.ops, grants := RevokeExcept(c.grants, {}))
    requires c.run.status.NeedsReview? && OpsFrozen(c.ops, next.ops) && Ledger(Status.Queued, next.ops)
    ensures var d := next.(reviewed := c.run.required, run := Moved(next.run, Status.Queued));
            CellInv(d) && CellStep(c, now, d, now)
  {
    var e := next.(reviewed := c.run.required);
    RowsReflexive(c);
    RowsOnlyStep(c, e, now);
    RunOnlyStep(e, Moved(e.run, Status.Queued), now);
    CellStepTransitive(c, now, e, now, e.(run := Moved(e.run, Status.Queued)), now);
  }

  lemma AcceptKeeps(c: Cell, next: Cell, now: Time)
    requires CellInv(c) && next == c.(ops := next.ops, grants := RevokeExcept(c.grants, {}))
    requires c.run.status.NeedsReview? && OpsFrozen(c.ops, next.ops) && Ledger(Status.Cancelling, next.ops)
    ensures var d := next.(run := Moved(next.run.(cancelRequested := true), Status.Cancelling));
            CellInv(d) && CellStep(c, now, d, now)
  {
    ReviewedRows(c, next, now);
    var d := next.(run := Moved(next.run.(cancelRequested := true), Status.Cancelling));
    assert FenceShrinks(c.run, c.attempts, now, d.run, d.attempts, now);
  }

  // ---------------------------------------------------------------- steering input

  lemma SteerKeeps(c: Cell, expected: nat, now: Time)
    requires CellInv(c) && SteerCell(c, expected).Ok?
    ensures var d := SteerCell(c, expected).value;
            CellInv(d) && CellStep(c, now, d, now)
  {
    RowsReflexive(c);
    RowsOnlyStep(c, SteerCell(c, expected).value, now);
  }

  lemma AckKeeps(c: Cell, ctx: Context, now: Time, revisions: set<nat>)
    requires CellInv(c) && AckCell(c, ctx, now, revisions).Ok?
    ensures var d := AckCell(c, ctx, now, revisions).value;
            CellInv(d) && CellStep(c, now, d, now)
  {
    hide CellInv, CellStep, Consumed;
    InputsKeep(c, Acked(c, ctx).run, AckCell(c, ctx, now, revisions).value.inputs, now);
  }

  lemma InputsKeep(c: Cell, r: Run, inputs: map<nat, bool>, now: Time)
    requires CellInv(c) && c.run.status.Running?
    requires r == c.run.(inputRevision := r.inputRevision, revision := r.revision)
    requires c.run.inputRevision <= r.inputRevision
    ensures var d := c.(run := r, inputs := inputs); CellInv(d) && CellStep(c, now, d, now)
  {
    var e := c.(inputs := inputs);
    RowsReflexive(c);
    RowsOnlyStep(c, e, now);
    RunOnlyStep(e, r, now);
    CellStepTransitive(c, now, e, now, e.(run := r), now);
  }

  // ---------------------------------------------------------------- the operation ledger

  ghost predicate OnlyNewForms(m: map<RequestKey, Interaction>, n: map<RequestKey, Interaction>) {
    && (forall k :: k in m ==> k in n && n[k] == m[k])
    && (forall k :: k in n && k !in m ==>
          n[k].status.PendingBinding? && n[k].interrupt.None? && n[k].resolution.None?)
  }

  lemma RegisteredForms(m: map<RequestKey, Interaction>, k: RequestKey, operation: Option<OpKey>, inputRevision: nat,
                        expires: Option<Time>)
    ensures OnlyNewForms(m, m)
    ensures OnlyNewForms(m, Registered(m, k, NewInteraction(operation, inputRevision, expires)))
  {}

  /** New rows that also leave every answer where it was. */
  lemma LedgerStep(c: Cell, d: Cell, now: Time)
    requires CellInv(c) && d.run == c.run && d.attempts == c.attempts && d.deps == c.deps && d.inputs == c.inputs
    requires !Terminal(c.run.status) && d.waits == c.waits && d.reviewed == c.reviewed
    requires OpsFrozen(c.ops, d.ops) && Ledger(d.run.status, d.ops) && OnlyNewForms(c.interactions, d.interactions)
    ensures CellInv(d) && CellStep(c, now, d, now)
  {
    AnswersStay(AnswersOf(c), AnswersOf(d), c.run.required);
    AnswersStay(AnswersOf(d), AnswersOf(c), c.run.required);
    RowsReflexive(c);
    RowsOnlyStep(c, d, now);
  }

  /** One open operation gets a new row. */
  lemma OpStep(c: Cell, d: Cell, k: OpKey, now: Time)
    requires CellInv(c) && k in c.ops && k in d.ops && d == c.(ops := c.ops[k := d.ops[k]], grants := d.grants)
    requires !Terminal(c.run.status) && OpFrozen(c.ops[k], d.ops[k]) && OpOk(c.run.status, d.ops[k])
    ensures CellInv(d) && CellStep(c, now, d, now)
  {
    RegisteredForms(c.interactions, ModelChoice(0), None, 0, None);
    RowsReflexive(c);
    LedgerStep(c, d, now);
  }

  lemma PrepareOpKeeps(c: Cell, ctx: Context, now: Time, k: OpKey, tool: Tool, argsHash: nat, fingerprint: nat)
    requires CellInv(c) && PrepareOpCell(c, ctx, now, k, tool, argsHash, fingerprint).Ok?
    ensures var d := PrepareOpCell(c, ctx, now, k, tool, argsHash, fingerprint).value;
            CellInv(d) && CellStep(c, now, d, now)
  {
    hide Leases, CancelFlag, Closed, Delivered, CellStep, Barrier, Forms;
    RegisteredForms(c.interactions, ModelChoice(0), None, 0, None);
    RowsReflexive(c);
    LedgerStep(c, PrepareOpCell(c, ctx, now, k, tool, argsHash, fingerprint).value, now);
  }

  lemma PrepareInteractionKeeps(c: Cell, ctx: Context, now: Time, k: RequestKey, operation: Option<OpKey>,
                                expires: Option<Time>)
    requires CellInv(c) && PrepareInteractionCell(c, ctx, now, k, operation, expires).Ok?
    ensures var d := PrepareInteractionCell(c, ctx, now, k, operation, expires).value;
            CellInv(d) && CellStep(c, now, d, now)
  {
    hide Leases, CancelFlag, Closed, Delivered, CellStep, Barrier, Forms;
    RegisteredForms(c.interactions, k, operation, ctx.inputRevision, expires);
    RowsReflexive(c);
    LedgerStep(c, PrepareInteractionCell(c, ctx, now, k, operation, expires).value, now);
  }

  lemma AuthorizeKeeps(c: Cell, ctx: Context, now: Time, k: OpKey, revision: nat, g: GrantId, binding: Binding,
                       policy: nat)
    requires CellInv(c) && AuthorizeCell(c, ctx, now, k, revision, g, binding, policy).Ok?
    requires c.ops[k].state.Prepared?
    ensures var d := AuthorizeCell(c, ctx, now, k, revision, g, binding, policy).value;
            CellInv(d) && CellStep(c, now, d, now)
  {
    OpStep(c, AuthorizeCell(c, ctx, now, k, revision, g, binding, policy).value, k, now);
  }

  /** The one unguarded write: it undoes nothing only because the operation was still open. */
  lemma FinishOpKeeps(c: Cell, ctx: Context, now: Time, k: OpKey, result: ToolResult)
    requires CellInv(c) && FinishOpCell(c, ctx, now, k, result).Ok?
    requires !TerminalOp(c.ops[k].state) && !result.status.Authorized?
    ensures var d := FinishOpCell(c, ctx, now, k, result).value;
            CellInv(d) && CellStep(c, now, d, now)
  {
    OpStep(c, FinishOpCell(c, ctx, now, k, result).value, k, now);
  }

  lemma NoteOpKeeps(c: Cell, ctx: Context, now: Time, k: OpKey, file: Option<FileTarget>, proven: bool)
    requires CellInv(c) && NoteOpCell(c, ctx, now, k, file, proven).Ok?
    ensures var d := NoteOpCell(c, ctx, now, k, file, proven).value;
            CellInv(d) && CellStep(c, now, d, now)
  {
    OpStep(c, NoteOpCell(c, ctx, now, k, file, proven).value, k, now);
  }

  lemma SuspendKeeps(c: Cell, ctx: Context, now: Time, k: OpKey, revision: nat, request: nat, schemaHash: nat,
                     config: nat, intact: bool, expires: Time, maxRounds: nat)
    requires CellInv(c)
    requires SuspendCell(c, ctx, now, k, revision, request, schemaHash, config, intact, expires, maxRounds).Ok?
    ensures var next := SuspendCell(c, ctx, now, k, revision, request, schemaHash, config, intact, expires, maxRounds);
            CellInv(next.value) && CellStep(c, now, next.value, now)
  {
    RegisteredForms(c.interactions, Elicitation(k, RoundOf(c.ops[k]) + 1, request), Some(k), ctx.inputRevision,
                    Some(expires));
    LedgerStep(c, SuspendCell(c, ctx, now, k, revision, request, schemaHash, config, intact, expires, maxRounds).value,
               now);
  }

  lemma TakeAnswerKeeps(c: Cell, ctx: Context, now: Time, k: OpKey, revision: nat, schemaHash: nat, config: nat)
    requires CellInv(c) && TakeAnswerCell(c, ctx, now, k, revision, schemaHash, config).Ok?
    ensures var d := TakeAnswerCell(c, ctx, now, k, revision, schemaHash, config).value;
            CellInv(d) && CellStep(c, now, d, now)
  {
    OpStep(c, TakeAnswerCell(c, ctx, now, k, revision, schemaHash, config).value, k, now);
  }
}
