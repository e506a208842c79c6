/** Who executes a run, what a completed run guarantees, and where recovery sends what a lost process left. */
module Executors {
  import opened Domain
  import opened RunMachine
  import opened RunInvariant
  import opened Tables
  import opened TablesInvariant
  import opened Transactions
  import opened World
  import opened WorldInvariant
  import opened Effects
  import opened Shifts

  lemma CellAt(w: World, cfg: Config, r: RunId)
    requires Reachable(w, cfg) && r in w.db.cells
    ensures WorldInv(w, cfg) && CellInv(w.db.cells[r])
  {
    hide LocksOk, Histories, CellInv, DbInv;
    ReachableKeeps(w, cfg);
    CellOf(w.db, cfg, r);
  }

  // ---------------------------------------------------------------- a single executor

  /** At most one attempt of a run is not over; it is the latest claim, with the highest token, and its run is
      running, recovering or cancelling.  A running run has one. */
  lemma SingleAttempt(w: World, cfg: Config, r: RunId)
    requires Reachable(w, cfg) && r in w.db.cells
    ensures var c := w.db.cells[r];
            && (forall a, b :: a in c.attempts && b in c.attempts && !c.attempts[a].ended && !c.attempts[b].ended ==>
                  a == b)
            && (forall a :: a in c.attempts && !c.attempts[a].ended ==>
                  && c.run.attempt == Some(a)
                  && (forall b :: b in c.attempts && b != a ==> c.attempts[b].token < c.attempts[a].token)
                  && (c.run.status.Running? || c.run.status.Recovering? || c.run.status.Cancelling?))
            && (c.run.status.Running? ==> exists a :: a in c.attempts && !c.attempts[a].ended)
  {
    hide Forms, Ledger, Closed, Delivered, Barrier, DbInv, LocksOk, Histories;
    CellAt(w, cfg, r);
  }

  /** Two contexts that pass the fence of a run are the same claim. */
  lemma SingleExecutor(c: Cell, now: Time, x: Context, y: Context, a: bool, b: bool)
    requires FencePasses(c.run, c.attempts, x, now, a) && FencePasses(c.run, c.attempts, y, now, b)
    ensures x.attempt == y.attempt && x.token == y.token
  {}

  /** A context without its lease never holds it again, at any later time: no heartbeat, recovery or claim gives it
      back. */
  lemma PermanentlyStale(w: World, cfg: Config, v: World, ctx: Context)
    requires Reachable(w, cfg) && Reaches(w, cfg, v)
    requires ctx.run in w.db.cells && ctx.attempt in w.db.cells[ctx.run].attempts
    requires !LeaseHeld(w.db.cells[ctx.run].run, w.db.cells[ctx.run].attempts, ctx, w.now)
    ensures ctx.run in v.db.cells
    ensures !LeaseHeld(v.db.cells[ctx.run].run, v.db.cells[ctx.run].attempts, ctx, v.now)
  {
    hide WorldInv, RunFrozen, AttemptsGrow, OpsFrozen, InteractionsFrozen, TreeGrows, LeaseHeld;
    ReachableKeeps(w, cfg);
    ReachesKeeps(w, cfg, v);
    assert CellStep(w.db.cells[ctx.run], w.now, v.db.cells[ctx.run], v.now);
  }

  /** The fence lets the context act for its run. */
  predicate Admitted(w: World, ctx: Context, allow: bool) {
    ctx.run in w.db.cells && FencePasses(w.db.cells[ctx.run].run, w.db.cells[ctx.run].attempts, ctx, w.now, allow)
  }

  predicate HasLease(w: World, ctx: Context) {
    ctx.run in w.db.cells && LeaseHeld(w.db.cells[ctx.run].run, w.db.cells[ctx.run].attempts, ctx, w.now)
  }

  ghost predicate RejectedForever(w: World, cfg: Config, ctx: Context, allow: bool) {
    forall v :: Reaches(w, cfg, v) ==> !Admitted(v, ctx, allow)
  }

  /** Where the fence only stopped the run (RUN_STOPPED) and the call does not insist on a running run, a later
      cancellation lets the context pass again; every other rejection is final. */
  lemma RejectedForeverIff(w: World, cfg: Config, ctx: Context, allow: bool)
    requires Reachable(w, cfg) && ctx.run in w.db.cells && ctx.attempt in w.db.cells[ctx.run].attempts
    requires !Admitted(w, ctx, allow)
    ensures RejectedForever(w, cfg, ctx, allow) <==> !(allow && HasLease(w, ctx))
  {
    hide WorldInv, Reachable, Reaches, FencePasses, CellInv;
    if allow && HasLease(w, ctx) {
      CancelAdmits(w, cfg, ctx);
      assert Reaches(w, cfg, Next(w, cfg, Cancel(ctx.run)));
    } else {
      forall v | Reaches(w, cfg, v) ensures !Admitted(v, ctx, allow) {
        StaysRejected(w, cfg, v, ctx, allow);
      }
    }
  }

  lemma StaysRejected(w: World, cfg: Config, v: World, ctx: Context, allow: bool)
    requires Reachable(w, cfg) && Reaches(w, cfg, v) && ctx.run in w.db.cells
    requires ctx.attempt in w.db.cells[ctx.run].attempts
    requires !Admitted(w, ctx, allow) && !(allow && HasLease(w, ctx))
    ensures !Admitted(v, ctx, allow)
  {
    hide WorldInv, AttemptsGrow, OpsFrozen, InteractionsFrozen, TreeGrows, LeaseHeld, Reachable, Reaches;
    ReachableKeeps(w, cfg);
    ReachesKeeps(w, cfg, v);
    assert CellStep(w.db.cells[ctx.run], w.now, v.db.cells[ctx.run], v.now);
  }

  lemma OneStep(w: World, cfg: Config, e: Event)
    requires Own(e)
    ensures Reaches(w, cfg, Next(w, cfg, e))
  {
    hide Next;
    var events := [e];
    assert events[1..] == [];
    assert Play(w, cfg, events) == Play(Next(w, cfg, e), cfg, []);
    assert AllOwn(events);
  }

  lemma CancelAdmits(w: World, cfg: Config, ctx: Context)
    requires Reachable(w, cfg) && ctx.run in w.db.cells && HasLease(w, ctx) && !Admitted(w, ctx, true)
    ensures w.db.cells[ctx.run].run.status.Recovering?
    ensures Admitted(Next(w, cfg, Cancel(ctx.run)), ctx, true) && Reaches(w, cfg, Next(w, cfg, Cancel(ctx.run)))
  {
    hide WorldInv, Reachable, Reaches, Forms, Ledger, Closed, Delivered, Barrier, RevokeExcept, WithdrawAll;
    CellAt(w, cfg, ctx.run);
    OneStep(w, cfg, Cancel(ctx.run));
    var c := w.db.cells[ctx.run];
    assert CancelOr(c) == Advance(Barred(c), Status.Cancelling).value;
    assert Under(w.db.cells, ctx.run, ctx.run);
  }

  /** The flag of a requested cancellation and the two statuses of one go together. */
  lemma CancelFlagIff(w: World, cfg: Config, r: RunId)
    requires Reachable(w, cfg) && r in w.db.cells
    ensures var q := w.db.cells[r].run; q.cancelRequested <==> q.status.Cancelling? || q.status.Cancelled?
  {
    hide WorldInv, Leases, Forms, Ledger, Closed, Delivered, Barrier;
    CellAt(w, cfg, r);
  }

  /** A new claim's token is above every token the run has given out. */
  lemma TokensIncrease(w: World, cfg: Config, r: RunId, a: AttemptId, p: ProcessId, expiry: Time)
    requires Reachable(w, cfg) && r in w.db.cells && ClaimCell(w.db.cells[r], a, p, expiry).Ok?
    ensures var d := ClaimCell(w.db.cells[r], a, p, expiry).value;
            && d.attempts[a].token == d.run.token
            && forall b :: b in w.db.cells[r].attempts ==> w.db.cells[r].attempts[b].token < d.run.token
  {
    hide Forms, Ledger, Closed, Delivered, Barrier, DbInv, LocksOk, Histories;
    CellAt(w, cfg, r);
  }

  // ---------------------------------------------------------------- completion

  ghost predicate Settled(m: map<RunId, Cell>, branches: map<BranchId, Option<RunId>>, r: RunId)
    requires r in m
  {
    var c := m[r];
    && (forall k :: k in c.ops ==> TerminalOp(c.ops[k].state))
    && (forall d :: d in c.deps ==> d.child in m && Terminal(m[d.child].run.status))
    && (forall n :: n in c.inputs ==> c.inputs[n])
    && (forall k :: k in c.interactions ==> !Unclosed(c.interactions[k]))
    && (forall g :: g in c.grants ==> c.grants[g].revoked)
    && c.run.result.Some? && c.run.checkpoint.Some?
    && (c.run.branch in branches ==> branches[c.run.branch] != Some(r))
  }

  /** A completed run holds nothing open, and never will again. */
  lemma CompletionIsSound(w: World, cfg: Config, v: World, r: RunId)
    requires Reachable(w, cfg) && Reaches(w, cfg, v) && r in w.db.cells && w.db.cells[r].run.status.Completed?
    ensures r in v.db.cells && v.db.cells[r].run.status.Completed?
    ensures v.db.cells[r].run.result == w.db.cells[r].run.result
    ensures Settled(v.db.cells, v.db.branches, r)
  {
    hide WorldInv, AttemptsGrow, FenceShrinks, OpsFrozen, InteractionsFrozen, TreeGrows, Settled, CellInv;
    ReachableKeeps(w, cfg);
    ReachesKeeps(w, cfg, v);
    assert CellStep(w.db.cells[r], w.now, v.db.cells[r], v.now);
    CompletedNow(v, cfg, r);
  }

  lemma CompletedNow(w: World, cfg: Config, r: RunId)
    requires WorldInv(w, cfg) && r in w.db.cells && w.db.cells[r].run.status.Completed?
    ensures Settled(w.db.cells, w.db.branches, r)
  {
    hide LocksOk, Histories, Ordered, Forest, Capacity, WaitScopes, Charged, Leases, CancelFlag, Forms, Barrier;
    assert CellInv(w.db.cells[r]);
    assert ChildrenDone(w.db.cells, w.db.cells[r]);
  }

  // ---------------------------------------------------------------- recovery

  /** A running operation whose saved exchange awaits an answer, with all it refers to there, and a form of its own. */
  predicate Resumable(c: Cell, k: OpKey)
    requires k in c.ops
  {
    c.ops[k].state.Running? &&
    match c.ops[k].meta.continuation
    case None => false
    case Some(saved) =>
      && saved.status.AwaitingInput? && saved.intact && saved.interaction in c.interactions
      && c.interactions[saved.interaction].operation == Some(k)
  }

  /** What recovery makes of each operation: one that can be resumed stays; of the others that were running, one with a
      saved exchange is in doubt, a file write whose target has the recorded hash is done, a read may be executed again
      under a new grant, and every other one is in doubt. */
  predicate Classified(c: Cell, k: OpKey, written: set<OpKey>, y: Operation)
    requires k in c.ops
  {
    var x := c.ops[k];
    if !x.state.Running? || Resumable(c, k) then y == x
    else
      && y.meta == x.meta && y.tool == x.tool && y.argsHash == x.argsHash && y.fingerprint == x.fingerprint
      && (if x.meta.continuation.Some? then y.state.Unknown? && y.result == x.result && y.grant == x.grant
          else if x.tool.kind.FileWrite? && x.meta.file.Some? && k in written
          then y.state.Succeeded? && y.result == Some(ToolResult(OpState.Succeeded, x.meta.file.value.afterHash))
          else if x.tool.effect.Read? then y.state.Prepared? && y.grant.None?
          else y.state.Unknown? && y.result == x.result && y.grant == x.grant)
  }

  lemma ResumableIff(c: Cell)
    ensures forall k :: k in c.ops ==> (SavedExchange(c, k) <==> Resumable(c, k))
  {}

  lemma RecoveredOperations(c: Cell, written: set<OpKey>)
    ensures RecoverOps(c, written).Keys == c.ops.Keys
    ensures forall k :: k in c.ops ==> Classified(c, k, written, RecoverOps(c, written)[k])
    ensures forall k :: k in c.ops && RecoverOps(c, written)[k].state.Running? ==> SavedExchange(c, k)
  {
    hide Resumable, SavedExchange;
    ResumableIff(c);
  }

  /** An operation that can be resumed names the grant. */
  predicate Needed(c: Cell, g: GrantId) {
    exists k :: k in c.ops && Resumable(c, k) && c.ops[k].grant == Some(g)
  }

  /** Every grant is revoked but those that a resumable operation needs. */
  predicate Revokes(c: Cell, d: Cell) {
    && d.grants.Keys == c.grants.Keys
    && forall g :: g in c.grants ==>
         d.grants[g] == if Needed(c, g) then c.grants[g] else c.grants[g].(revoked := true)
  }

  lemma GrantsRevoked(c: Cell, d: Cell)
    requires d.grants == RevokeExcept(c.grants, KeptGrants(c))
    ensures Revokes(c, d)
  {
    hide Resumable, SavedExchange;
    ResumableIff(c);
    forall g | g in c.grants ensures g in KeptGrants(c) <==> Needed(c, g) {
      if Needed(c, g) {
        var k :| k in c.ops && Resumable(c, k) && c.ops[k].grant == Some(g);
        assert c.ops[k].grant.value in KeptGrants(c);
      }
    }
  }

  /** The status that recovery leaves: runs that were cancelled, or settled since the scan read them, keep theirs. */
  function RecoveredStatus(s: Status, alive: bool, unknown: bool): Status {
    if !s.Running? && !s.Recovering? then s
    else if alive then Status.Recovering
    else if unknown then Status.NeedsReview else Status.Queued
  }

  lemma RecoveredCell(c: Cell, a: AttemptId, alive: bool, written: set<OpKey>)
    ensures RecoverCell(c, a, alive, written).Ok?
    ensures var d := RecoverCell(c, a, alive, written).value;
            && d.interactions == c.interactions && d.grants == RevokeExcept(c.grants, KeptGrants(c))
            && d.run.status == RecoveredStatus(c.run.status, alive, AnyUnknown(d.ops))
            && (!c.run.status.Running? && !c.run.status.Recovering? ==> d.run == c.run)
            && (if alive then d.ops == c.ops && d.attempts == c.attempts
                else d.ops == RecoverOps(c, written) && d.attempts == EndAttempt(c, a).attempts)
  {
    hide AnyUnknown, RecoverOps, KeptGrants, RevokeExcept, EndAttempt;
    var seen := if c.run.status.Running? then c.(run := Moved(c.run, Status.Recovering)) else c;
    var revoked := seen.(grants := RevokeExcept(seen.grants, KeptGrants(seen)));
    SameExchanges(c, seen, written);
    SameExchanges(c, revoked, written);
    OnlyAttempts(c, revoked, a);
  }

  lemma OnlyAttempts(c: Cell, d: Cell, a: AttemptId)
    requires d.attempts == c.attempts
    ensures EndAttempt(d, a) == d.(attempts := EndAttempt(c, a).attempts)
  {}

  lemma SameExchanges(c: Cell, d: Cell, written: set<OpKey>)
    requires d.ops == c.ops && d.interactions == c.interactions
    ensures KeptGrants(d) == KeptGrants(c) && RecoverOps(d, written) == RecoverOps(c, written)
  {}

  /** Recovery waits for the old process's death, with all grants revoked that no resumable operation needs.  Then it
      ends the attempt and sorts each operation, whatever the run's status is by then; it queues a run that was running
      or recovering exactly when none of its operations is unknown, and leaves the row of any other run as it is. */
  lemma RecoveryClassifies(c: Cell, a: AttemptId, alive: bool, written: set<OpKey>)
    ensures RecoverCell(c, a, alive, written).Ok?
    ensures var d := RecoverCell(c, a, alive, written).value;
            && Revokes(c, d) && d.interactions == c.interactions
            && (!c.run.status.Running? && !c.run.status.Recovering? ==> d.run == c.run)
            && if alive then
                 && (c.run.status.Running? || c.run.status.Recovering? ==> d.run.status.Recovering?)
                 && d.ops == c.ops && d.attempts == c.attempts
               else
                 && (a in c.attempts ==> a in d.attempts && d.attempts[a].ended) && d.ops.Keys == c.ops.Keys
                 && (forall k :: k in c.ops ==> Classified(c, k, written, d.ops[k]))
                 && (c.run.status.Running? || c.run.status.Recovering? ==>
                       && (d.run.status.Queued? <==> forall k :: k in d.ops ==> !d.ops[k].state.Unknown?)
                       && (d.run.status.NeedsReview? || d.run.status.Queued?))
  {
    hide RecoverCell, RecoverOps, KeptGrants, RevokeExcept, Classified, Revokes;
    RecoveredCell(c, a, alive, written);
    RecoveredOperations(c, written);
    GrantsRevoked(c, RecoverCell(c, a, alive, written).value);
  }

  /** A recovery touches the run it saw, and only while the attempt that it saw is the run's: an attempt that lapsed is
      never taken for the one that a later claim opened. */
  lemma RecoveryDoes(w: World, cfg: Config, seen: Sighting, alive: bool, written: set<OpKey>, x: RunId)
    requires Apply(w, cfg, Recover(seen, alive, written)).Ok? && x in w.db.cells
    ensures seen in w.sightings && seen.lease <= w.now && (alive || Lost(w, seen)) && seen.run in w.db.cells
    ensures x in Next(w, cfg, Recover(seen, alive, written)).db.cells
    ensures var c, d := w.db.cells[x], Next(w, cfg, Recover(seen, alive, written)).db.cells[x];
            if x == seen.run && c.run.attempt == Some(seen.attempt)
            then Ok(d) == RecoverCell(c, seen.attempt, alive, written) && Revokes(c, d) else d == c
  {
    hide RecoverCell, Revokes, Lost;
    if w.db.cells[seen.run].run.attempt == Some(seen.attempt) {
      RecoveryClassifies(w.db.cells[seen.run], seen.attempt, alive, written);
    }
  }

  /** An operation that is still running after recovery is an intact exchange that awaits its answer, and its
      grant is what it was before. */
  lemma RecoveryKeepsExchanges(c: Cell, a: AttemptId, written: set<OpKey>, k: OpKey)
    requires RecoverCell(c, a, false, written).Ok?
    requires k in RecoverCell(c, a, false, written).value.ops
    requires RecoverCell(c, a, false, written).value.ops[k].state.Running?
    ensures var d := RecoverCell(c, a, false, written).value;
            && SavedExchange(d, k) && k in c.ops && d.ops[k] == c.ops[k]
            && forall g :: c.ops[k].grant == Some(g) && g in c.grants ==> g in d.grants && d.grants[g] == c.grants[g]
  {
    hide RecoverCell, RecoverOps;
    RecoveredCell(c, a, false, written);
    RecoveredOperations(c, written);
  }

  // ---------------------------------------------------------------- leaving recovery

  /** Whatever happens, a run leaves `recovering` only by a cancellation or because its process is dead. */
  lemma LeavingRecovery(w: World, cfg: Config, e: Event, r: RunId)
    requires r in w.db.cells && w.db.cells[r].run.status.Recovering?
    ensures r in Next(w, cfg, e).db.cells
    ensures !Next(w, cfg, e).db.cells[r].run.status.Recovering? ==>
      || e.Cancel?
      || (&& e.Recover? && !e.alive && e.seen.run == r && w.db.cells[r].run.attempt == Some(e.seen.attempt)
          && Lost(w, e.seen))
  {
    hide Next, Under, EndsAtOnce, Lost;
    StatusShifts(w, cfg, e, r);
  }
}
