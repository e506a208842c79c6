/** How runs end and how they leave review: when a settlement completes, fails or cancels a run, when the scan ends an
    idle cancellation, what a cancellation does to each run of its tree, and what a reconciliation decides. */
module Verdicts {
  import opened Domain
  import opened RunMachine
  import opened Tables
  import opened TablesInvariant
  import opened RowEvents
  import opened World
  import opened WorldInvariant
  import opened Effects
  import opened Shifts
  import opened Endings
  import opened Fences

  // ---------------------------------------------------------------- what keeps a run from ending

  /** Every operation of the run is neither running nor unknown, or was accepted as unresolved. */
  predicate NothingInDoubt(c: Cell) {
    forall k :: k in c.ops ==>
      (!c.ops[k].state.Running? && !c.ops[k].state.Unknown?) || c.ops[k].meta.unresolvedAccepted
  }

  /** The run has no attempt, or its attempt has ended. */
  predicate Idle(c: Cell) {
    match c.run.attempt
    case None => true
    case Some(a) => a in c.attempts ==> c.attempts[a].ended
  }

  lemma DoubtIff(c: Cell)
    ensures AnyUnresolved(c) <==> !NothingInDoubt(c)
  {}

  lemma IdleIff(c: Cell)
    ensures AttemptOver(c) <==> Idle(c)
  {}

  /** Nothing that the run held is open any more; only prepared operations were dropped. */
  predicate Wound(c: Cell, d: Cell) {
    && d.ops.Keys == c.ops.Keys && d.grants.Keys == c.grants.Keys && d.interactions.Keys == c.interactions.Keys
    && (forall g :: g in d.grants ==> d.grants[g] == c.grants[g].(revoked := true))
    && (forall k :: k in d.interactions ==>
          if Unclosed(c.interactions[k])
          then d.interactions[k].status.Cancelled? && d.interactions[k].resolution == Some(Withdrawn)
          else d.interactions[k] == c.interactions[k])
    && (forall k :: k in d.ops ==>
          if c.ops[k].state.Prepared? || c.ops[k].state.Authorized?
          then d.ops[k].state.Cancelled? && d.ops[k].result.Some? && d.ops[k].result.value.status.Cancelled?
          else d.ops[k] == c.ops[k])
    && d.waits == c.waits && d.deps == c.deps && d.inputs == c.inputs && d.reviewed == c.reviewed
  }

  lemma ClosingWinds(c: Cell, r: Run)
    ensures Wound(c, CloseCell(c.(run := r))) && CloseCell(c.(run := r)).run == r
    ensures CloseCell(c.(run := r)).attempts == c.attempts
  {}

  // ---------------------------------------------------------------- idle cancellations

  /** The row has the status, a revision of its own, and is otherwise the same. */
  predicate Only(r: Run, q: Run, status: Status) {
    q == r.(status := status, revision := q.revision) && r.revision < q.revision
  }

  lemma FinishLaw(c: Cell, done: bool)
    ensures var d := FinishIdleCell(c, done);
            if c.run.status.Cancelling? && Idle(c) && NothingInDoubt(c) && done
            then Only(c.run, d.run, Status.Cancelled) && d.attempts == c.attempts && Wound(c, d)
            else d == c
  {
    hide CloseCell, AnyUnresolved, NothingInDoubt, Wound, Idle, AttemptOver;
    DoubtIff(c);
    IdleIff(c);
    ClosingWinds(c, Moved(c.run, Status.Cancelled));
  }

  lemma {:induction false} FinishOthers(db: Db, ids: seq<RunId>, x: RunId)
    requires x !in ids
    ensures x in db.cells <==> x in FinishAll(db, ids).cells
    ensures x in db.cells ==> FinishAll(db, ids).cells[x] == db.cells[x]
    decreases |ids|
  {
    hide FinishIdleCell, ChildrenDone;
    if ids != [] {
      FinishOthers(FinishIn(db, ids[|ids| - 1]), ids[..|ids| - 1], x);
    }
  }

  lemma {:induction false} FinishInTurn(db: Db, before: seq<RunId>, after: seq<RunId>)
    ensures FinishAll(db, before + after) == FinishAll(FinishAll(db, after), before)
    decreases |after|
  {
    hide FinishIn;
    var ids := before + after;
    if after == [] {
      assert ids == before;
    } else {
      var y, rest := after[|after| - 1], after[..|after| - 1];
      assert ids[|ids| - 1] == y && ids[..|ids| - 1] == before + rest;
      FinishInTurn(FinishIn(db, y), before, rest);
    }
  }

  /** The scan finds the run as it was, and the children that come after it as they will be. */
  lemma FinishAt(db: Db, before: seq<RunId>, r: RunId, after: seq<RunId>)
    requires r in db.cells && r !in before && r !in after
    ensures r in FinishAll(db, before + [r] + after).cells
    ensures FinishAll(db, before + [r] + after).cells[r]
         == FinishIdleCell(db.cells[r], ChildrenDone(FinishAll(db, after).cells, db.cells[r]))
  {
    hide FinishIdleCell, ChildrenDone;
    var mid := FinishAll(db, after);
    FinishInTurn(db, before + [r], after);
    FinishInTurn(mid, before, [r]);
    assert [r][..0] == [];
    assert FinishAll(mid, [r]) == FinishIn(mid, r);
    FinishOthers(db, after, r);
    FinishOthers(FinishIn(mid, r), before, r);
  }

  /** A child counts as ended when the scan looks if it had ended before, or comes after its parent in the order and has
      ended once the scan is over. */
  predicate EndedByThen(m: map<RunId, Cell>, n: map<RunId, Cell>, r: RunId, child: RunId) {
    && child in m
    && (|| Terminal(m[child].run.status)
        || (Before(m, r, child) && child in n && Terminal(n[child].run.status)))
  }

  lemma ChildSeen(db: Db, before: seq<RunId>, r: RunId, after: seq<RunId>, x: RunId)
    requires db.order == before + [r] + after && Ordered(db.order, db.cells) && x in db.cells && x != r
    ensures var seen, n := FinishAll(db, after).cells, FinishAll(db, db.order).cells;
            x in seen && (Terminal(seen[x].run.status) <==> EndedByThen(db.cells, n, r, x))
  {
    hide FinishIn, FinishAll;
    var order := db.order;
    assert order[|before|] == r;
    var j :| 0 <= j < |order| && order[j] == x;
    FinishInTurn(db, before + [r], after);
    var seen := FinishAll(db, after);
    if j < |before| {
      assert Before(db.cells, order[j], order[|before|]);
      forall i | 0 <= i < |after| ensures after[i] != x {
        assert order[|before| + 1 + i] == after[i] && Before(db.cells, order[j], order[|before| + 1 + i]);
      }
      FinishOthers(db, after, x);
    } else {
      assert Before(db.cells, order[|before|], order[j]);
      forall i | 0 <= i < |before + [r]| ensures (before + [r])[i] != x {
        assert order[i] == (before + [r])[i] && Before(db.cells, order[i], order[j]);
      }
      FinishOthers(seen, before + [r], x);
      EndedStayEnded(db, after, x);
    }
  }

  lemma {:induction false} EndedStayEnded(db: Db, ids: seq<RunId>, x: RunId)
    requires x in db.cells
    ensures x in FinishAll(db, ids).cells
    ensures Terminal(db.cells[x].run.status) ==> Terminal(FinishAll(db, ids).cells[x].run.status)
  {
    FinishAllShifts(db, ids, x);
  }

  lemma InOrder(db: Db, r: RunId) returns (before: seq<RunId>, after: seq<RunId>)
    requires Ordered(db.order, db.cells) && r in db.cells
    ensures db.order == before + [r] + after && r !in before && r !in after
  {
    var order := db.order;
    var i :| 0 <= i < |order| && order[i] == r;
    before, after := order[..i], order[i + 1..];
    forall j | 0 <= j < i ensures order[j] != r {
      assert Before(db.cells, order[j], order[i]);
    }
    forall j | i < j < |order| ensures order[j] != r {
      assert Before(db.cells, order[i], order[j]);
    }
  }

  lemma ChildrenSeen(db: Db, before: seq<RunId>, r: RunId, after: seq<RunId>)
    requires db.order == before + [r] + after && Ordered(db.order, db.cells) && r in db.cells
    requires forall d :: d in db.cells[r].deps ==> d.child in db.cells && d.child != r
    ensures ChildrenDone(FinishAll(db, after).cells, db.cells[r]) <==>
              forall d :: d in db.cells[r].deps ==>
                EndedByThen(db.cells, FinishAll(db, db.order).cells, r, d.child)
  {
    hide FinishAll, EndedByThen, Ordered;
    var seen, n := FinishAll(db, after).cells, FinishAll(db, db.order).cells;
    forall d | d in db.cells[r].deps
      ensures d.child in seen && (Terminal(seen[d.child].run.status) <==> EndedByThen(db.cells, n, r, d.child))
    {
      ChildSeen(db, before, r, after, d.child);
    }
  }

  /** The scan ends a cancelling run exactly if its attempt is over, no operation is in doubt, and every child has ended
      by then; every other run is as it was. */
  lemma FinishIdleIff(db: Db, r: RunId)
    requires Ordered(db.order, db.cells) && r in db.cells
    requires forall d :: d in db.cells[r].deps ==> d.child in db.cells && d.child != r
    ensures r in FinishAll(db, db.order).cells
    ensures var c, n := db.cells[r], FinishAll(db, db.order).cells;
            if c.run.status.Cancelling? && Idle(c) && NothingInDoubt(c)
               && forall d :: d in c.deps ==> EndedByThen(db.cells, n, r, d.child)
            then Only(c.run, n[r].run, Status.Cancelled) && n[r].attempts == c.attempts && Wound(c, n[r])
            else n[r] == c
  {
    hide FinishIdleCell, FinishAll, Wound, NothingInDoubt, Idle, EndedByThen, Ordered, ChildrenDone;
    var before, after := InOrder(db, r);
    FinishAt(db, before, r, after);
    ChildrenSeen(db, before, r, after);
    FinishLaw(db.cells[r], ChildrenDone(FinishAll(db, after).cells, db.cells[r]));
  }

  // ---------------------------------------------------------------- settlements that end a run

  predicate AttemptEnded(c: Cell, d: Cell, a: AttemptId) {
    d.attempts == if a in c.attempts then c.attempts[a := c.attempts[a].(ended := true)] else c.attempts
  }

  predicate ChildrenEnded(m: map<RunId, Cell>, c: Cell) {
    forall i :: 0 <= i < |c.deps| ==> c.deps[i].child in m && Terminal(m[c.deps[i].child].run.status)
  }

  lemma ChildrenIff(m: map<RunId, Cell>, c: Cell)
    ensures ChildrenDone(m, c) <==> ChildrenEnded(m, c)
  {
    if ChildrenEnded(m, c) {
      forall d | d in c.deps ensures d.child in m && Terminal(m[d.child].run.status) {
        var i :| 0 <= i < |c.deps| && c.deps[i] == d;
      }
    }
  }

  lemma EndMeans(c: Cell, a: AttemptId)
    ensures AttemptEnded(c, EndAttempt(c, a), a) && EndAttempt(c, a) == c.(attempts := EndAttempt(c, a).attempts)
  {}

  lemma WindsOn(c: Cell, d: Cell, e: Cell)
    requires Wound(c, d) && e == d.(attempts := e.attempts)
    ensures Wound(c, e)
  {}

  lemma ConcludeMeans(c: Cell, a: AttemptId, to: Status)
    requires Allowed(c.run.status, to)
    ensures var d := EndAttempt(Conclude(c, to).value, a);
            d.run == Moved(c.run, to) && Wound(c, d) && AttemptEnded(c, d, a)
  {
    hide CloseCell, Wound, AttemptEnded, EndAttempt, Allowed;
    var e := Conclude(c, to).value;
    ClosingWinds(c, Moved(c.run, to));
    EndMeans(e, a);
    WindsOn(c, e, EndAttempt(e, a));
    SameEnded(c, e, EndAttempt(e, a), a);
  }

  lemma SameEnded(c: Cell, d: Cell, e: Cell, a: AttemptId)
    requires d.attempts == c.attempts && AttemptEnded(d, e, a)
    ensures AttemptEnded(c, e, a)
  {}

  /** An outcome that does not wait: with an operation in doubt the run goes to review; otherwise a final outcome
      completes it, if it has a checkpoint, a result, and only ended children, and any other outcome fails it. */
  predicate Stops(c: Cell, d: Cell, a: AttemptId, o: Outcome) {
    && AttemptEnded(c, d, a)
    && if !NothingInDoubt(c) then
         Only(c.run, d.run, Status.NeedsReview) && d == c.(run := d.run, attempts := d.attempts)
       else if o.kind.Final? then
         Only(c.run.(result := o.result), d.run, Status.Completed) && Wound(c, d)
       else Only(c.run, d.run, Status.Failed) && Wound(c, d)
  }

  lemma StopMeans(c: Cell, a: AttemptId, o: Outcome, done: bool)
    requires c.run.status.Running?
    ensures StopCell(c, a, o, done).Ok? <==>
              !NothingInDoubt(c) || !o.kind.Final? || (o.checkpoint.Some? && o.result.Some? && done)
    ensures StopCell(c, a, o, done).Ok? ==> Stops(c, StopCell(c, a, o, done).value, a, o)
  {
    hide CloseCell, AnyUnresolved, NothingInDoubt, Wound, Conclude, AttemptEnded, EndAttempt;
    DoubtIff(c);
    var final := c.(run := c.run.(result := o.result));
    ConcludeMeans(c, a, Status.Failed);
    ConcludeMeans(final, a, Status.Completed);
    EndMeans(c.(run := Moved(c.run, Status.NeedsReview)), a);
    SameEnded(c, c.(run := Moved(c.run, Status.NeedsReview)),
              EndAttempt(c.(run := Moved(c.run, Status.NeedsReview)), a), a);
    Concluded(c, Status.Failed);
    Concluded(final, Status.Completed);
    WindsFrom(c, final, EndAttempt(Conclude(final, Status.Completed).value, a), a);
  }

  lemma Concluded(c: Cell, to: Status)
    ensures Allowed(c.run.status, to) <==> Conclude(c, to).Ok?
  {}

  lemma WindsFrom(c: Cell, d: Cell, e: Cell, a: AttemptId)
    requires d == c.(run := d.run) && Wound(d, e) && AttemptEnded(d, e, a)
    ensures Wound(c, e) && AttemptEnded(c, e, a)
  {}

  /** A cancellation that is acknowledged: the run is cancelled exactly if no operation is in doubt and its children
      have ended, and goes on cancelling otherwise; either way the attempt is over. */
  predicate Acknowledged(m: map<RunId, Cell>, c: Cell, d: Cell, a: AttemptId) {
    && AttemptEnded(c, d, a)
    && if NothingInDoubt(c) && ChildrenEnded(m, c)
       then Only(c.run, d.run, Status.Cancelled) && Wound(c, d) else d == c.(attempts := d.attempts)
  }

  /** The run with the checkpoint of the outcome, if it has one. */
  function Saved(c: Cell, checkpoint: Option<nat>): Cell {
    match checkpoint
    case None => c
    case Some(_) => c.(run := c.run.(checkpoint := checkpoint, revision := c.run.revision + 1))
  }

  lemma AckMeans(c: Cell, a: AttemptId, done: bool)
    requires c.run.status.Cancelling?
    ensures AckCancelCell(c, a, done).Ok?
    ensures var d := AckCancelCell(c, a, done).value;
            && AttemptEnded(c, d, a)
            && if NothingInDoubt(c) && done
               then Only(c.run, d.run, Status.Cancelled) && Wound(c, d) else d == c.(attempts := d.attempts)
  {
    hide CloseCell, AnyUnresolved, NothingInDoubt, Wound, Conclude, AttemptEnded, EndAttempt;
    DoubtIff(c);
    ConcludeMeans(c, a, Status.Cancelled);
    Concluded(c, Status.Cancelled);
    EndMeans(c, a);
  }

  /** What a settlement that does not wait makes of its run. */
  lemma SettlementEnds(db: Db, now: Time, ctx: Context, o: Outcome)
    requires WorkerSettleIn(db, now, ctx, o).Ok?
    ensures ctx.run in db.cells && ctx.run in WorkerSettleIn(db, now, ctx, o).value.cells
    ensures var c, d := db.cells[ctx.run], WorkerSettleIn(db, now, ctx, o).value.cells[ctx.run];
            && (c.run.status.Running? || c.run.status.Cancelling?)
            && (c.run.status.Cancelling? ==> Acknowledged(db.cells, Saved(c, o.checkpoint), d, ctx.attempt))
            && (c.run.status.Running? && !o.kind.Await? ==> Stops(Saved(c, o.checkpoint), d, ctx.attempt, o))
            && (c.run.status.Running? && o.kind.Final? && NothingInDoubt(c) ==>
                  ChildrenEnded(db.cells, c) && o.checkpoint.Some? && o.result.Some?)
  {
    hide StopCell, AckCancelCell, SettleWaiting, ChildrenDone, ChildrenEnded, PendingInputs, Stops, Wound;
    hide NothingInDoubt, AttemptEnded, LeaseHeld;
    var c := db.cells[ctx.run];
    var saved := Checkpointed(c, o.checkpoint);
    ChildrenIff(db.cells, c);
    SavedDoubt(c, o.checkpoint);
    assert Saved(c, o.checkpoint) == saved;
    ChildrenSaved(db.cells, c, o.checkpoint);
    if c.run.status.Cancelling? {
      AckMeans(saved, ctx.attempt, ChildrenDone(db.cells, c));
    } else if !o.kind.Await? {
      StopMeans(saved, ctx.attempt, o, ChildrenDone(db.cells, c));
    } else {
      BindKeepsRunIn(db.cells[ctx.run := saved], ctx, o);
    }
  }

  lemma ChildrenSaved(m: map<RunId, Cell>, c: Cell, checkpoint: Option<nat>)
    ensures ChildrenEnded(m, Saved(c, checkpoint)) <==> ChildrenEnded(m, c)
  {}

  lemma SavedDoubt(c: Cell, checkpoint: Option<nat>)
    ensures NothingInDoubt(Checkpointed(c, checkpoint)) <==> NothingInDoubt(c)
    ensures NothingInDoubt(Saved(c, checkpoint)) <==> NothingInDoubt(c)
    ensures Checkpointed(c, checkpoint).run.status == c.run.status
  {}

  lemma BindKeepsRunIn(m: map<RunId, Cell>, ctx: Context, o: Outcome)
    requires ctx.run in m
    ensures SettleWaiting(m, ctx, o).Ok? ==> ctx.run in SettleWaiting(m, ctx, o).value
  {
    hide BindAll, ParkCell, RefreshCell, Wake, ReadyWaits;
  }

  lemma NonePending(c: Cell)
    ensures PendingInputs(c) == {} <==> forall i :: i in c.inputs ==> c.inputs[i]
  {
    forall i | i in c.inputs && PendingInputs(c) == {} ensures c.inputs[i] {
      assert i !in PendingInputs(c);
    }
  }

  /** Which settlements that do not wait are accepted, for a run that is still running. */
  lemma StopsIff(db: Db, now: Time, ctx: Context, o: Outcome)
    requires ctx.run in db.cells && db.cells[ctx.run].run.status.Running? && !o.kind.Await?
    ensures var c := db.cells[ctx.run];
            WorkerSettleIn(db, now, ctx, o).Ok? <==>
              && o.run == ctx.run && o.inputRevision == ctx.inputRevision
              && InCharge(c, ctx, now, true)
              && (o.kind.Final? ==> forall i :: i in c.inputs ==> c.inputs[i])
              && (o.kind.Final? && NothingInDoubt(c) ==>
                    o.checkpoint.Some? && o.result.Some? && ChildrenEnded(db.cells, c))
  {
    hide StopCell, ChildrenDone, ChildrenEnded, Wound, NothingInDoubt, AttemptEnded, FencePasses, InCharge;
    FenceIff(db.cells[ctx.run], ctx, now, true);
    var c := db.cells[ctx.run];
    var saved := Checkpointed(c, o.checkpoint);
    ChildrenIff(db.cells, c);
    SavedDoubt(c, o.checkpoint);
    StopMeans(saved, ctx.attempt, o, ChildrenDone(db.cells, c));
    NonePending(c);
  }

  // ---------------------------------------------------------------- from cancelling to cancelled

  /** Whatever event takes a run from cancelling to cancelled finds none of its operations running or unknown that was
      not accepted as unresolved, and none of its children is alive when the event is over. */
  lemma CancelledWithoutDoubt(w: World, cfg: Config, e: Event, r: RunId)
    requires Reachable(w, cfg) && Own(e) && r in w.db.cells && w.db.cells[r].run.status.Cancelling?
    requires r in Next(w, cfg, e).db.cells && Next(w, cfg, e).db.cells[r].run.status.Cancelled?
    ensures NothingInDoubt(w.db.cells[r])
    ensures var n := Next(w, cfg, e).db.cells; ChildrenEnded(n, n[r])
  {
    hide WorldInv, DbInv, Next, Apply, ChildrenDone, ChildrenEnded, NothingInDoubt, Under, EndsAtOnce, Lost;
    hide Acknowledged;
    ReachableKeeps(w, cfg);
    DbOf(w, cfg);
    StatusShifts(w, cfg, e, r);
    Applied(w, cfg, e);
    StaysCancelling(w.db.cells[r]);
    if !e.Cancel? {
      CancelledAlone(w, cfg, e, r);
    }
    var n := Next(w, cfg, e).db.cells;
    ChildrenIff(n, n[r]);
    if e.Settle? {
      Settled(w, cfg, e);
      SettlementEnds(w.db, w.now, e.ctx, e.outcome);
      SavedDoubt(w.db.cells[r], e.outcome.checkpoint);
      AckedDoubt(w.db.cells, Saved(w.db.cells[r], e.outcome.checkpoint), n[r], e.ctx.attempt);
    } else if e.FinishIdle? {
      Finished(w, cfg);
      OwnChildren(w.db, cfg, r);
      FinishIdleIff(w.db, r);
    }
  }

  lemma StaysCancelling(c: Cell)
    requires c.run.status.Cancelling?
    ensures CancelStatus(c).Cancelling?
  {}

  lemma AckedDoubt(m: map<RunId, Cell>, c: Cell, d: Cell, a: AttemptId)
    requires Acknowledged(m, c, d, a) && c.run.status.Cancelling? && d.run.status.Cancelled?
    ensures NothingInDoubt(c)
  {
    hide AttemptEnded, Wound, ChildrenEnded;
  }

  lemma OwnChildren(db: Db, cfg: Config, r: RunId)
    requires DbInv(db, cfg) && r in db.cells
    ensures Ordered(db.order, db.cells)
    ensures forall d :: d in db.cells[r].deps ==> d.child in db.cells && d.child != r
  {
    hide Runs, Owned, Capacity, WaitScopes, ParentsLast, Charged, Ordered;
    NotItsOwnChild(db, cfg, r);
    assert Branching(db.cells, r);
  }

  // ---------------------------------------------------------------- reconciliation

  /** What the decision needs. */
  predicate Grounded(op: Operation, decision: Decision) {
    match decision
    case ConfirmCompleted(artifact, evidence) => artifact.Some? && evidence
    case ConfirmNotExecuted => op.meta.provenNotStarted
    case AcceptUnresolved => true
  }

  /** What the decision makes of an unknown operation: done with the artifact that was named, free to be executed again
      under a new grant, or as unknown as before, and accepted so. */
  predicate Decides(x: Operation, y: Operation, decision: Decision) {
    && y.tool == x.tool && y.argsHash == x.argsHash && y.fingerprint == x.fingerprint
    && match decision
       case ConfirmCompleted(artifact, _) =>
         && y.state.Succeeded? && artifact.Some?
         && y.result == Some(ToolResult(OpState.Succeeded, artifact.value)) && y.meta == x.meta
       case ConfirmNotExecuted => y.state.Prepared? && y.result.None? && y.grant.None? && y.meta == x.meta
       case AcceptUnresolved =>
         && y.state.Unknown? && y.result == x.result && y.grant == x.grant
         && y.meta == x.meta.(unresolvedAccepted := true)
  }

  /** Every other operation is not unknown, or was accepted as unresolved. */
  predicate OthersSettled(c: Cell, k: OpKey) {
    forall j :: j in c.ops && j != k ==> !c.ops[j].state.Unknown? || c.ops[j].meta.unresolvedAccepted
  }

  /** What a reconciliation of the operation `k` makes of its run.  A run in review is queued, with all it required
      reviewed, exactly if the decision resumes it and no other operation is left unknown and unaccepted; accepting the
      operation as unresolved cancels the run; otherwise the run's row stays as it was. */
  predicate Reconciled(c: Cell, d: Cell, k: OpKey, decision: Decision) {
    && k in c.ops && k in d.ops && d.ops == c.ops[k := d.ops[k]] && Decides(c.ops[k], d.ops[k], decision)
    && d.grants.Keys == c.grants.Keys
    && (forall g :: g in c.grants ==> d.grants[g] == c.grants[g].(revoked := true))
    && d == c.(run := d.run, ops := d.ops, grants := d.grants, reviewed := d.reviewed)
    && if c.run.status.NeedsReview? && decision.AcceptUnresolved? then
         && d.run == c.run.(status := Status.Cancelling, cancelRequested := true, revision := d.run.revision)
         && d.reviewed == c.reviewed
       else if c.run.status.NeedsReview? && OthersSettled(c, k) then
         d.run == c.run.(status := Status.Queued, revision := d.run.revision) && d.reviewed == c.run.required
       else d.run == c.run && d.reviewed == c.reviewed
  }

  lemma OpDecided(op: Operation, decision: Decision)
    requires op.state.Unknown?
    ensures ReconcileOp(op, decision).Ok? <==> Grounded(op, decision)
    ensures ReconcileOp(op, decision).Ok? ==> Decides(op, ReconcileOp(op, decision).value, decision)
    ensures ReconcileOp(op, decision).Ok? && !decision.AcceptUnresolved? ==>
              !ReconcileOp(op, decision).value.state.Unknown?
  {}

  lemma OthersIff(c: Cell, k: OpKey, op: Operation)
    requires !op.state.Unknown?
    ensures AnyUnaccepted(c.ops[k := op]) <==> !OthersSettled(c, k)
  {
    var ops := c.ops[k := op];
    if !OthersSettled(c, k) {
      var j :| j in c.ops && j != k && c.ops[j].state.Unknown? && !c.ops[j].meta.unresolvedAccepted;
      assert ops[j] == c.ops[j];
    }
  }

  lemma AllRevoked(m: map<GrantId, Grant>)
    ensures RevokeExcept(m, {}).Keys == m.Keys
    ensures forall g :: g in m ==> RevokeExcept(m, {})[g] == m[g].(revoked := true)
  {}

  /** Which reconciliations are accepted, and what an accepted one does. */
  lemma ReconcileMeans(c: Cell, k: OpKey, expected: nat, decision: Decision, noted: bool)
    ensures ReconcileCell(c, k, expected, decision, noted).Ok? <==>
              && (c.run.status.NeedsReview? || c.run.status.Cancelling?)
              && k in c.ops && c.ops[k].state.Unknown? && c.ops[k].revision == expected
              && noted && Grounded(c.ops[k], decision)
    ensures ReconcileCell(c, k, expected, decision, noted).Ok? ==>
              Reconciled(c, ReconcileCell(c, k, expected, decision, noted).value, k, decision)
  {
    hide RevokeExcept, ReconcileOp, AnyUnaccepted, Grounded, Decides, OthersSettled;
    AllRevoked(c.grants);
    if k in c.ops && c.ops[k].state.Unknown? {
      OpDecided(c.ops[k], decision);
      if ReconcileOp(c.ops[k], decision).Ok? && !decision.AcceptUnresolved? {
        OthersIff(c, k, ReconcileOp(c.ops[k], decision).value);
      }
    }
  }

  /** A run leaves review for the queue exactly by a reconciliation that resumes it and finds no other operation unknown
      and unaccepted. */
  lemma QueuedFromReviewIff(w: World, cfg: Config, e: Event, r: RunId)
    requires r in w.db.cells && w.db.cells[r].run.status.NeedsReview?
    ensures r in Next(w, cfg, e).db.cells
    ensures Next(w, cfg, e).db.cells[r].run.status.Queued? <==>
              && e.Row? && e.run == r && e.row.Reconcile? && !e.row.decision.AcceptUnresolved?
              && Apply(w, cfg, e).Ok? && OthersSettled(w.db.cells[r], e.row.op)
  {
    hide Next, Apply, Under, EndsAtOnce, Lost, ApplyRow, OthersSettled, Reconciled;
    StatusShifts(w, cfg, e, r);
    Applied(w, cfg, e);
    if e.Row? && e.run == r && Apply(w, cfg, e).Ok? {
      RowShows(w, cfg, r, e.row);
      RowShifts(w.db.cells[r], w.now, e.row);
      if e.row.Reconcile? {
        ReviewEnds(w.db.cells[r], w.now, e.row);
      }
    }
  }

  lemma RowShows(w: World, cfg: Config, r: RunId, row: RowEvent)
    requires Apply(w, cfg, Row(r, row)).Ok?
    ensures r in w.db.cells && ApplyRow(w.db.cells[r], w.now, row).Ok?
    ensures Next(w, cfg, Row(r, row)).db.cells == w.db.cells[r := ApplyRow(w.db.cells[r], w.now, row).value]
  {
    hide ApplyRow, ResetBy;
  }

  lemma ReviewEnds(c: Cell, now: Time, e: RowEvent)
    requires c.run.status.NeedsReview? && e.Reconcile? && ApplyRow(c, now, e).Ok?
    ensures ApplyRow(c, now, e).value.run.status.Queued? <==> !e.decision.AcceptUnresolved? && OthersSettled(c, e.op)
  {
    hide ReconcileCell, OthersSettled, Decides;
    ReconcileMeans(c, e.op, e.expected, e.decision, e.noted);
  }

  /** An event that is a reconciliation does to its run what `Reconciled` says, and to no other run anything. */
  lemma ReconciliationDoes(w: World, cfg: Config, r: RunId, e: RowEvent)
    requires e.Reconcile? && Apply(w, cfg, Row(r, e)).Ok?
    ensures r in w.db.cells && r in Next(w, cfg, Row(r, e)).db.cells
    ensures Reconciled(w.db.cells[r], Next(w, cfg, Row(r, e)).db.cells[r], e.op, e.decision)
    ensures Next(w, cfg, Row(r, e)).db.cells == w.db.cells[r := Next(w, cfg, Row(r, e)).db.cells[r]]
  {
    hide Next, Apply, ReconcileCell, Reconciled;
    RowShows(w, cfg, r, e);
    ReconcileMeans(w.db.cells[r], e.op, e.expected, e.decision, e.noted);
  }

  // ---------------------------------------------------------------- cancellation

  /** A path of parents from the run up to `top`. */
  predicate Climbs(m: map<RunId, Cell>, path: seq<RunId>, x: RunId, top: RunId) {
    && path != [] && path[0] == x && path[|path| - 1] == top
    && forall i :: 0 <= i < |path| - 1 ==> path[i] in m && m[path[i]].run.parent == Some(path[i + 1])
  }

  ghost predicate Beneath(m: map<RunId, Cell>, top: RunId, x: RunId) {
    exists path :: Climbs(m, path, x, top)
  }

  /** The runs below a run are those whose parents lead up to it. */
  lemma {:induction false} UnderIff(m: map<RunId, Cell>, maxDepth: nat, top: RunId, x: RunId)
    requires Forest(m, maxDepth) && x in m
    ensures Under(m, top, x) <==> Beneath(m, top, x)
    decreases m[x].run.depth
  {
    hide Forest;
    if x == top {
      assert Climbs(m, [x], x, top);
    } else if m[x].run.parent.Some? {
      var p := m[x].run.parent.value;
      UpOne(m, maxDepth, x);
      UnderIff(m, maxDepth, top, p);
      if path :| Climbs(m, path, p, top) {
        ClimbsOn(m, path, x, p, top);
      }
      if path :| Climbs(m, path, x, top) {
        ClimbsFrom(m, path, x, p, top);
      }
    } else {
      forall path ensures !Climbs(m, path, x, top) {
        assert |path| > 1 ==> path[0] == x ==> m[path[0]].run.parent != Some(path[1]);
      }
    }
  }

  lemma UpOne(m: map<RunId, Cell>, maxDepth: nat, x: RunId)
    requires Forest(m, maxDepth) && x in m && m[x].run.parent.Some?
    ensures m[x].run.parent.value in m && m[m[x].run.parent.value].run.depth < m[x].run.depth
  {
    assert Rooted(m, x, maxDepth);
  }

  lemma ClimbsOn(m: map<RunId, Cell>, path: seq<RunId>, x: RunId, p: RunId, top: RunId)
    requires x in m && m[x].run.parent == Some(p) && Climbs(m, path, p, top)
    ensures Climbs(m, [x] + path, x, top)
  {
    var longer := [x] + path;
    forall i | 0 <= i < |longer| - 1 ensures longer[i] in m && m[longer[i]].run.parent == Some(longer[i + 1]) {
      assert i > 0 ==> longer[i] == path[i - 1] && longer[i + 1] == path[i];
    }
  }

  lemma ClimbsFrom(m: map<RunId, Cell>, path: seq<RunId>, x: RunId, p: RunId, top: RunId)
    requires x in m && m[x].run.parent == Some(p) && x != top && Climbs(m, path, x, top)
    ensures Climbs(m, path[1..], p, top)
  {
    var rest := path[1..];
    forall i | 0 <= i < |rest| - 1 ensures rest[i] in m && m[rest[i]].run.parent == Some(rest[i + 1]) {
      assert rest[i] == path[i + 1] && rest[i + 1] == path[i + 2];
    }
  }

  /** What a cancellation makes of one run of the tree: it raises the barrier, revokes every grant and withdraws every
      form.  A queued run, and one that waits for its user without children and without an operation running or unknown,
      is cancelled; any other that has not ended is cancelling, with its operations as they were. */
  predicate Cancels(c: Cell, d: Cell) {
    if Terminal(c.run.status) then d == c
    else
      && d.run.cancelRequested && d.attempts == c.attempts
      && d.run == c.run.(status := d.run.status, revision := d.run.revision, cancelRequested := true)
      && if c.run.status.Queued?
            || (c.run.status.WaitingUser? && c.deps == []
                && forall k :: k in c.ops ==> !c.ops[k].state.Running? && !c.ops[k].state.Unknown?)
         then d.run.status.Cancelled? && Wound(c, d)
         else d.run.status.Cancelling? && d.ops == c.ops && Wound(c.(ops := map[]), d.(ops := map[]))
  }

  lemma BarredMeans(c: Cell)
    ensures var d := Barred(c);
            && d.ops == c.ops && d.attempts == c.attempts && Wound(c.(ops := map[]), d.(ops := map[]))
            && d.run == c.run.(revision := d.run.revision, cancelRequested := true)
  {}

  lemma WindsTwice(c: Cell, d: Cell, e: Cell)
    requires d.ops == c.ops && Wound(c.(ops := map[]), d.(ops := map[])) && Wound(d, e)
    ensures Wound(c, e)
  {
    forall k | k in c.interactions
      ensures if Unclosed(c.interactions[k])
              then e.interactions[k].status.Cancelled? && e.interactions[k].resolution == Some(Withdrawn)
              else e.interactions[k] == c.interactions[k]
    {
      assert k in d.interactions && k in e.interactions;
    }
  }

  lemma WoundOps(c: Cell, d: Cell, r: Run)
    requires Wound(c, d)
    ensures Wound(c, d.(run := r))
  {}

  lemma CancelMeans(c: Cell)
    ensures CancelCell(c).Ok? && Cancels(c, CancelCell(c).value)
  {
    hide RevokeExcept, WithdrawAll, DropAll, Wound, Barred, CloseCell;
    if !Terminal(c.run.status) {
      var b := Barred(c);
      BarredMeans(c);
      ClosingWinds(b, Moved(b.run, Status.Cancelled));
      WindsTwice(c, b, CloseCell(b.(run := Moved(b.run, Status.Cancelled))));
      WoundOps(c.(ops := map[]), b.(ops := map[]), Moved(b.run, Status.Cancelling));
    }
  }

  /** A cancellation does this to the runs whose parents lead up to `top`, and nothing to any other run. */
  lemma CancellationDoes(w: World, cfg: Config, top: RunId, x: RunId)
    requires Reachable(w, cfg) && x in w.db.cells
    ensures Apply(w, cfg, Cancel(top)).Ok? <==> top in w.db.cells
    ensures x in Next(w, cfg, Cancel(top)).db.cells
    ensures var c, d := w.db.cells[x], Next(w, cfg, Cancel(top)).db.cells[x];
            if top in w.db.cells && Beneath(w.db.cells, top, x) then Cancels(c, d) else d == c
  {
    hide WorldInv, Reachable, Beneath, Cancels, Under, CancelCell, CancelIn, Next, Apply;
    ReachableKeeps(w, cfg);
    ForestOf(w, cfg);
    UnderIff(w.db.cells, cfg.maxDepth, top, x);
    CancelMeans(w.db.cells[x]);
    Endings.Cancelled(w, cfg, top);
    CancelsEach(w.db, top, x);
    Applied(w, cfg, Cancel(top));
  }

  lemma CancelsEach(db: Db, top: RunId, x: RunId)
    requires x in db.cells && CancelCell(db.cells[x]).Ok?
    ensures CancelIn(db, top).Ok? <==> top in db.cells
    ensures CancelIn(db, top).Ok? ==> x in CancelIn(db, top).value.cells
    ensures CancelIn(db, top).Ok? ==>
              CancelIn(db, top).value.cells[x]
              == if Under(db.cells, top, x) then CancelCell(db.cells[x]).value else db.cells[x]
  {
    hide Under, CancelCell;
  }
}
