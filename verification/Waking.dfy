/** What a run waits for, and when it is woken. */
module Waking {
  import opened Domain
  import opened RunMachine
  import opened RunInvariant
  import opened Tables
  import opened RowEvents
  import opened Settling
  import opened World
  import opened WorldInvariant
  import opened WorldSteps
  import opened Effects
  import opened Executors
  import opened Shifts
  import opened Barriers
  import Budget

  // ---------------------------------------------------------------- answers

  predicate FormClosed(i: Interaction) {
    i.status.Resolved? || i.status.Expired? || i.status.Cancelled?
  }

  /** A form with the interrupt's id was resolved, expired or cancelled, a bound child wait with it has its
      resolution, or it was reviewed. */
  predicate Answered(c: Cell, i: Interrupt) {
    || (exists k :: k in c.interactions && c.interactions[k].interrupt == Some(i) && FormClosed(c.interactions[k]))
    || (exists k :: k in c.waits && c.waits[k].interrupt == Some(i) && c.waits[k].bound && c.waits[k].resolution.Some?)
    || i in c.reviewed
  }

  lemma AnsweredIff(c: Cell, i: Interrupt)
    requires CellInv(c)
    ensures HasAnswer(AnswersOf(c), i) <==> Answered(c, i)
  {
    hide Leases, CancelFlag, Ledger, Closed, Delivered, Barrier;
    var s := AnswersOf(c);
    forall k | k in c.interactions
      ensures s.interactions[k].resolution.Some? <==> FormClosed(c.interactions[k])
    {
      assert InteractionOk(s.interactions[k]);
    }
    forall k | k in c.waits ensures c.waits[k].resolution.Some? ==> c.waits[k].bound {
      assert WaitOk(s.waits[k]);
    }
    if HasAnswer(s, i) {
      if k :| k in s.interactions && s.interactions[k].interrupt == Some(i) && s.interactions[k].resolution.Some? {
        assert FormClosed(c.interactions[k]);
      } else if k :| k in s.waits && s.waits[k].interrupt == Some(i) && s.waits[k].resolution.Some? {
        assert c.waits[k].bound;
      }
    }
    if Answered(c, i) {
      if k :| k in c.interactions && c.interactions[k].interrupt == Some(i) && FormClosed(c.interactions[k]) {
        assert s.interactions[k].resolution.Some?;
      } else if k :| k in c.waits && c.waits[k].interrupt == Some(i) && c.waits[k].bound
                     && c.waits[k].resolution.Some? {
        assert s.waits[k].resolution.Some?;
      }
    }
  }

  /** Every reachable run that may execute has all its interrupts answered; one that waits lacks an answer. */
  lemma BarrierMeans(w: World, cfg: Config, r: RunId)
    requires Reachable(w, cfg) && r in w.db.cells
    ensures var c := w.db.cells[r];
            && (c.run.status.Queued? || c.run.status.Running? || c.run.status.Recovering? ==>
                  forall i :: i in c.run.required ==> Answered(c, i))
            && (Waiting(c.run.status) ==> exists i :: i in c.run.required && !Answered(c, i))
  {
    hide WorldInv, HasAnswer, Answered, Core, Reachable;
    InterruptBarrier(w, cfg, r);
    CellAt(w, cfg, r);
    var c := w.db.cells[r];
    forall i ensures HasAnswer(AnswersOf(c), i) <==> Answered(c, i) {
      AnsweredIff(c, i);
    }
  }

  // ---------------------------------------------------------------- an outcome that waits

  lemma WakeDecides(c: Cell, ready: set<OpKey>)
    requires Waiting(c.run.status) && !c.run.cancelRequested
    ensures var d := Wake(RefreshCell(c, ready));
            && d.run.required == c.run.required && d.run.checkpoint == c.run.checkpoint && d.attempts == c.attempts
            && (if BarrierMet(d.run.required, AnswersOf(d)) then d.run.status.Queued? else d.run.status == c.run.status)
  {
    hide ResolveWaits, BarrierMet, Wake;
    var e := c.(waits := ResolveWaits(c.waits, ready));
    WakeOnce(c);
    WakeOnce(e);
    WakeAgain(e);
  }

  lemma WakeOnce(c: Cell)
    requires Waiting(c.run.status) && !c.run.cancelRequested
    ensures var d := Wake(c);
            d == if BarrierMet(c.run.required, AnswersOf(c)) then c.(run := Moved(c.run, Status.Queued)) else c
  {
    hide BarrierMet;
  }

  lemma WakeAgain(c: Cell)
    ensures Wake(Wake(c)) == Wake(c)
  {
    hide BarrierMet;
  }

  lemma ReviewStays(c: Cell, ready: set<OpKey>)
    requires !Waiting(c.run.status)
    ensures Wake(RefreshCell(c, ready)).run == c.run && Wake(RefreshCell(c, ready)).attempts == c.attempts
  {
    hide ResolveWaits, BarrierMet;
  }

  predicate AsksReview(refs: seq<Ref>) {
    exists i :: 0 <= i < |refs| && refs[i].ReviewRef?
  }

  predicate AsksUser(refs: seq<Ref>) {
    exists i :: 0 <= i < |refs| && refs[i].UserRef?
  }

  /** Where a run that settled an outcome with these references rests. */
  ghost predicate Rests(d: Cell, refs: seq<Ref>, checkpoint: Option<nat>, a: AttemptId) {
    && checkpoint.Some? && d.run.checkpoint == checkpoint
    && (a in d.attempts ==> d.attempts[a].ended)
    && (forall i :: i in d.run.required <==> exists ref :: ref in refs && ref.interrupt == i)
    && (d.run.status.NeedsReview? <==> AsksReview(refs))
    && (d.run.status.Queued? <==>
          !AsksReview(refs) && forall ref :: ref in refs ==> HasAnswer(AnswersOf(d), ref.interrupt))
    && (d.run.status.WaitingUser? ==> AsksUser(refs)) && (d.run.status.WaitingChildren? ==> !AsksUser(refs))
    && (d.run.status.NeedsReview? || d.run.status.Queued? || Waiting(d.run.status))
  }

  lemma ParkLaw(c: Cell, a: AttemptId, refs: seq<Ref>)
    requires c.run.status.Running? && ParkCell(c, a, refs).Ok?
    ensures var d := ParkCell(c, a, refs).value;
            && d.run.checkpoint == c.run.checkpoint && d.run.cancelRequested == c.run.cancelRequested
            && (a in d.attempts ==> d.attempts[a].ended)
            && (forall i :: i in d.run.required <==> exists ref :: ref in refs && ref.interrupt == i)
            && (if AsksReview(refs) then d.run.status.NeedsReview?
                else if AsksUser(refs) then d.run.status.WaitingUser? else d.run.status.WaitingChildren?)
  {
    assert forall r :: r in refs ==> exists i :: 0 <= i < |refs| && refs[i] == r;
    assert forall i :: 0 <= i < |refs| ==> refs[i] in refs;
  }

  lemma WaitingRests(m: map<RunId, Cell>, ctx: Context, o: Outcome)
    requires ctx.run in m && m[ctx.run].run.status.Running? && !m[ctx.run].run.cancelRequested
    requires m[ctx.run].run.checkpoint == o.checkpoint && SettleWaiting(m, ctx, o).Ok?
    ensures ctx.run in SettleWaiting(m, ctx, o).value
    ensures Rests(SettleWaiting(m, ctx, o).value[ctx.run], o.refs, o.checkpoint, ctx.attempt)
  {
    hide ParkCell, RefreshCell, Wake, ReadyWaits, BindAll, HasAnswer, AsksReview, AsksUser;
    BindKeepsRuns(m, ctx.run, ctx.inputRevision, o.refs);
    var bound := BindAll(m, ctx.run, ctx.inputRevision, o.refs).value;
    ParkLaw(bound[ctx.run], ctx.attempt, o.refs);
    var parked := ParkCell(bound[ctx.run], ctx.attempt, o.refs).value;
    var ready := ReadyWaits(bound[ctx.run := parked], parked);
    if AsksReview(o.refs) {
      ReviewStays(parked, ready);
    } else {
      WakeDecides(parked, ready);
      Decided(parked, Wake(RefreshCell(parked, ready)), o.refs);
    }
  }

  lemma Decided(c: Cell, d: Cell, refs: seq<Ref>)
    requires d.run.required == c.run.required
    requires forall i :: i in c.run.required <==> exists ref :: ref in refs && ref.interrupt == i
    ensures BarrierMet(d.run.required, AnswersOf(d)) <==>
              forall ref :: ref in refs ==> HasAnswer(AnswersOf(d), ref.interrupt)
  {
    hide HasAnswer;
    forall ref | ref in refs ensures ref.interrupt in c.run.required {}
  }

  /** A run that settles an outcome that waits requires exactly the interrupts of the outcome's references.  It goes to
      review if one of them asks for this, and otherwise back to the queue exactly if each of them has its answer. */
  lemma AwaitRests(w: World, cfg: Config, ctx: Context, o: Outcome)
    requires Reachable(w, cfg) && Apply(w, cfg, Settle(ctx, o)).Ok? && o.kind.Await?
    requires ctx.run in w.db.cells && w.db.cells[ctx.run].run.status.Running?
    ensures ctx.run in Next(w, cfg, Settle(ctx, o)).db.cells
    ensures Rests(Next(w, cfg, Settle(ctx, o)).db.cells[ctx.run], o.refs, o.checkpoint, ctx.attempt)
  {
    hide WorldInv, Rests, SettleWaiting, FencePasses, Reachable, Core, Barrier;
    CellAt(w, cfg, ctx.run);
    CancelFlagIff(w, cfg, ctx.run);
    var saved := Checkpointed(w.db.cells[ctx.run], o.checkpoint);
    var cells: map<RunId, Cell> := w.db.cells[ctx.run := saved];
    NeedsCheckpoint(cells, ctx, o);
    WaitingRests(cells, ctx, o);
  }

  lemma NeedsCheckpoint(m: map<RunId, Cell>, ctx: Context, o: Outcome)
    requires ctx.run in m && SettleWaiting(m, ctx, o).Ok?
    ensures o.checkpoint.Some?
  {
    hide BindAll, ParkCell, RefreshCell, ReadyWaits, Wake;
  }

  /** The settlement resolves what the children's ends already answer: no bound wait is left without its resolution
      whose children have all ended, for mode `all`, or some of whose children have, for mode `any`. */
  lemma AwaitMissesNoWait(m: map<RunId, Cell>, ctx: Context, o: Outcome, k: OpKey)
    requires ctx.run in m && m[ctx.run].run.status.Running? && SettleWaiting(m, ctx, o).Ok?
    requires var n := SettleWaiting(m, ctx, o).value;
             && ctx.run in n && k in n[ctx.run].waits && n[ctx.run].waits[k].bound
             && var x := n[ctx.run].waits[k];
             match x.mode
             case All => forall i :: i in x.children ==> i in n && Terminal(n[i].run.status)
             case Any => exists i :: i in x.children && i in n && Terminal(n[i].run.status)
    ensures SettleWaiting(m, ctx, o).value[ctx.run].waits[k].resolution.Some?
  {
    hide ParkCell, ReadyWaits, BindAll, RefreshCell, Wake;
    BindKeepsRuns(m, ctx.run, ctx.inputRevision, o.refs);
    var bound := BindAll(m, ctx.run, ctx.inputRevision, o.refs).value;
    var parked := ParkCell(bound[ctx.run], ctx.attempt, o.refs).value;
    ParkLaw(bound[ctx.run], ctx.attempt, o.refs);
    var p: map<RunId, Cell> := bound[ctx.run := parked];
    ParkedResolves(p, ctx.run, k);
  }

  lemma ParkedResolves(p: map<RunId, Cell>, r: RunId, k: OpKey)
    requires r in p && (Waiting(p[r].run.status) || p[r].run.status.NeedsReview?)
    requires var n := p[r := Wake(RefreshCell(p[r], ReadyWaits(p, p[r])))];
             && k in n[r].waits && n[r].waits[k].bound
             && var x := n[r].waits[k];
             match x.mode
             case All => forall i :: i in x.children ==> i in n && Terminal(n[i].run.status)
             case Any => exists i :: i in x.children && i in n && Terminal(n[i].run.status)
    ensures Wake(RefreshCell(p[r], ReadyWaits(p, p[r]))).waits[k].resolution.Some?
  {
    hide Wake;
    var c := p[r];
    var ready := ReadyWaits(p, c);
    var e := c.(waits := ResolveWaits(c.waits, ready));
    WakeEndsNothing(e);
    WakeEndsNothing(Wake(e));
    WakeEndsNothing(c);
  }

  lemma WakeEndsNothing(c: Cell)
    ensures Wake(c).waits == c.waits && (Terminal(Wake(c).run.status) <==> Terminal(c.run.status))
  {
    hide BarrierMet;
  }

  // ---------------------------------------------------------------- what the references do to their rows

  /** Where a list of references names a row. */
  predicate NamesForm(refs: seq<Ref>, run: RunId, k: RequestKey) {
    exists i :: 0 <= i < |refs| && refs[i].UserRef? && refs[i].run == run && refs[i].key == k
  }

  predicate NamesWait(refs: seq<Ref>, run: RunId, k: OpKey) {
    exists i :: 0 <= i < |refs| && refs[i].ChildrenRef? && refs[i].run == run && refs[i].wait == k
  }

  predicate NamesOp(refs: seq<Ref>, run: RunId, k: OpKey) {
    exists i :: 0 <= i < |refs| && refs[i].ReviewRef? && refs[i].run == run && refs[i].op == Some(k)
  }

  /** What binding a form leaves: a form that waited for it is open under the interrupt of a reference to it. */
  predicate FormBound(x: Interaction, y: Interaction, run: RunId, k: RequestKey, refs: seq<Ref>) {
    if x.status.PendingBinding? && NamesForm(refs, run, k)
    then && y.status.Open? && y.resolution == x.resolution && y.expires == x.expires && y.operation == x.operation
         && y.interrupt.Some? && UserRef(y.interrupt.value, run, k) in refs
    else y == x
  }

  predicate WaitBound(x: Wait, y: Wait, run: RunId, k: OpKey, refs: seq<Ref>) {
    if NamesWait(refs, run, k)
    then && y.bound && y.resolution == x.resolution && y.children == x.children && y.mode == x.mode
         && y.interrupt.Some? && ChildrenRef(y.interrupt.value, run, k) in refs
    else y == x
  }

  predicate OpBound(x: Operation, y: Operation, run: RunId, k: OpKey, refs: seq<Ref>) {
    if x.state.Running? && NamesOp(refs, run, k)
    then y.state.Unknown? && y.result == x.result && y.meta == x.meta && y.grant == x.grant
    else y == x
  }

  ghost predicate RowsBound(c: Cell, d: Cell, run: RunId, refs: seq<Ref>) {
    && d == c.(interactions := d.interactions, waits := d.waits, ops := d.ops)
    && d.interactions.Keys == c.interactions.Keys && d.waits.Keys == c.waits.Keys && d.ops.Keys == c.ops.Keys
    && (forall k :: k in c.interactions ==> FormBound(c.interactions[k], d.interactions[k], run, k, refs))
    && (forall k :: k in c.waits ==> WaitBound(c.waits[k], d.waits[k], run, k, refs))
    && (forall k :: k in c.ops ==> OpBound(c.ops[k], d.ops[k], run, k, refs))
  }

  lemma OneBound(c: Cell, inputRevision: nat, r: Ref)
    requires BindRef(c, inputRevision, r).Ok?
    ensures RowsBound(c, BindRef(c, inputRevision, r).value, r.run, [r])
  {
    hide InterruptTaken;
    assert [r][0] == r && r in [r];
  }

  lemma NoneBound(c: Cell, run: RunId, refs: seq<Ref>)
    requires forall r :: r in refs ==> r.run != run
    ensures RowsBound(c, c, run, refs)
  {}

  lemma NamesBoth(r: Ref, rest: seq<Ref>, run: RunId)
    ensures forall k :: NamesForm([r] + rest, run, k) <==> NamesForm([r], run, k) || NamesForm(rest, run, k)
    ensures forall k :: NamesWait([r] + rest, run, k) <==> NamesWait([r], run, k) || NamesWait(rest, run, k)
    ensures forall k :: NamesOp([r] + rest, run, k) <==> NamesOp([r], run, k) || NamesOp(rest, run, k)
  {
    var refs := [r] + rest;
    assert refs[0] == r && [r][0] == r && forall i :: 0 <= i < |rest| ==> refs[i + 1] == rest[i];
    assert forall i :: 0 < i < |refs| ==> refs[i] == rest[i - 1];
  }

  lemma BothBound(c: Cell, d: Cell, e: Cell, run: RunId, r: Ref, rest: seq<Ref>)
    requires RowsBound(c, d, run, [r]) && RowsBound(d, e, run, rest)
    ensures RowsBound(c, e, run, [r] + rest)
  {
    hide NamesForm, NamesWait, NamesOp;
    NamesBoth(r, rest, run);
    forall k | k in c.interactions ensures FormBound(c.interactions[k], e.interactions[k], run, k, [r] + rest) {
      assert FormBound(c.interactions[k], d.interactions[k], run, k, [r]);
      assert FormBound(d.interactions[k], e.interactions[k], run, k, rest);
    }
    forall k | k in c.waits ensures WaitBound(c.waits[k], e.waits[k], run, k, [r] + rest) {
      assert WaitBound(c.waits[k], d.waits[k], run, k, [r]);
      assert WaitBound(d.waits[k], e.waits[k], run, k, rest);
    }
    forall k | k in c.ops ensures OpBound(c.ops[k], e.ops[k], run, k, [r] + rest) {
      assert OpBound(c.ops[k], d.ops[k], run, k, [r]);
      assert OpBound(d.ops[k], e.ops[k], run, k, rest);
    }
  }

  /** An outcome's references bind exactly the rows that they name: forms that waited for it are open, child waits are
      bound, running operations are in doubt; every other row is as it was. */
  lemma {:induction false} ReferencesBind(m: map<RunId, Cell>, self: RunId, inputRevision: nat, refs: seq<Ref>,
                                          x: RunId)
    requires BindAll(m, self, inputRevision, refs).Ok? && x in m
    ensures x in BindAll(m, self, inputRevision, refs).value
    ensures RowsBound(m[x], BindAll(m, self, inputRevision, refs).value[x], x, refs)
    decreases |refs|
  {
    hide BindRef, RowsBound;
    if refs == [] {
      NoneBound(m[x], x, refs);
    } else {
      var r := refs[0];
      var c := BindRef(m[r.run], inputRevision, r).value;
      ReferencesBind(m[r.run := c], self, inputRevision, refs[1..], x);
      if r.run == x {
        OneBound(m[x], inputRevision, r);
      } else {
        NoneBound(m[x], x, [r]);
      }
      BothBound(m[x], m[r.run := c][x], BindAll(m, self, inputRevision, refs).value[x], x, r, refs[1..]);
      assert [r] + refs[1..] == refs;
    }
  }

  // ---------------------------------------------------------------- not again before

  lemma RowRequires(c: Cell, now: Time, e: RowEvent)
    requires ApplyRow(c, now, e).Ok?
    ensures ApplyRow(c, now, e).value.run.required == c.run.required
  {
    hide FencePasses, BarrierMet, AnyUnaccepted, PendingInputs, RevokeExcept, IsChild, Consumed, Registered;
    hide ReconcileOp;
  }

  lemma ScanRequires(c: Cell, now: Time, ready: set<OpKey>, done: bool)
    ensures ExpireCell(c, now).run.required == c.run.required && RefreshCell(c, ready).run.required == c.run.required
    ensures FinishIdleCell(c, done).run.required == c.run.required
  {
    hide BarrierMet, AnyUnresolved, LapseAll, ResolveWaits, RevokeExcept, WithdrawAll, DropAll;
  }

  lemma CancelRequires(c: Cell)
    ensures CancelOr(c).run.required == c.run.required
  {
    hide RevokeExcept, WithdrawAll, DropAll, EndsAtOnce;
  }

  lemma {:induction false} FinishRequires(db: Db, ids: seq<RunId>, r: RunId)
    requires r in db.cells
    ensures r in FinishAll(db, ids).cells && FinishAll(db, ids).cells[r].run.required == db.cells[r].run.required
    decreases |ids|
  {
    hide FinishIdleCell, ChildrenDone;
    if ids != [] {
      var x := ids[|ids| - 1];
      if x in db.cells {
        ScanRequires(db.cells[x], 0, {}, ChildrenDone(db.cells, db.cells[x]));
      }
      FinishRequires(FinishIn(db, x), ids[..|ids| - 1], r);
    }
  }

  lemma RecoverRequires(c: Cell, a: AttemptId, alive: bool, written: set<OpKey>)
    ensures RecoverCell(c, a, alive, written).Ok? ==>
              RecoverCell(c, a, alive, written).value.run.required == c.run.required
  {
    hide KeptGrants, RevokeExcept, RecoverOps, AnyUnknown, EndAttempt;
    SameRun(c, a);
    SameRun(c.(run := Moved(c.run, Status.Recovering)), a);
  }

  lemma StopRequires(c: Cell, a: AttemptId, o: Outcome, done: bool)
    ensures StopCell(c, a, o, done).Ok? ==> StopCell(c, a, o, done).value.run.required == c.run.required
    ensures AckCancelCell(c, a, done).Ok? ==> AckCancelCell(c, a, done).value.run.required == c.run.required
  {
    hide AnyUnresolved, RevokeExcept, WithdrawAll, DropAll, EndAttempt;
    EndsNoRun(a);
  }

  lemma SettleRequires(db: Db, now: Time, ctx: Context, o: Outcome, r: RunId)
    requires WorkerSettleIn(db, now, ctx, o).Ok? && r in db.cells && !(r == ctx.run && db.cells[r].run.status.Running?)
    ensures r in WorkerSettleIn(db, now, ctx, o).value.cells
    ensures WorkerSettleIn(db, now, ctx, o).value.cells[r].run.required == db.cells[r].run.required
  {
    hide StopCell, AckCancelCell, ParkCell, RefreshCell, Wake, ReadyWaits, BindAll, ChildrenDone, PendingInputs;
    var saved := Checkpointed(db.cells[ctx.run], o.checkpoint);
    var cells: map<RunId, Cell> := db.cells[ctx.run := saved];
    StopRequires(saved, ctx.attempt, o, ChildrenDone(db.cells, db.cells[ctx.run]));
    if BindAll(cells, ctx.run, ctx.inputRevision, o.refs).Ok? {
      BindKeepsRuns(cells, ctx.run, ctx.inputRevision, o.refs);
    }
  }

  lemma ClaimRequires(db: Db, now: Time, a: AttemptId, p: ProcessId, cfg: Config, r: RunId)
    requires ClaimIn(db, now, a, p, cfg).Ok? && r in db.cells
    ensures r in ClaimIn(db, now, a, p, cfg).value.cells
    ensures ClaimIn(db, now, a, p, cfg).value.cells[r].run.required == db.cells[r].run.required
  {
    hide Count, Pick;
  }

  lemma SubmitLeaves(db: Db, r: RunId, branch: BranchId, inputRevision: nat, createdAt: Time, deadline: Option<Time>,
                     capabilities: set<Capability>, limits: map<Budget.Dimension, Option<real>>, x: RunId)
    requires SubmitIn(db, r, branch, inputRevision, createdAt, deadline, capabilities, limits).Ok? && x in db.cells
    ensures var to := SubmitIn(db, r, branch, inputRevision, createdAt, deadline, capabilities, limits).value;
            x in to.cells && to.cells[x] == db.cells[x]
  {
    hide Inserted, Position;
  }

  lemma DelegateLeaves(db: Db, ctx: Context, now: Time, k: OpKey, argsHash: nat, current: set<Capability>,
                       requested: Option<set<Capability>>, r: RunId, branch: BranchId, maxDepth: nat, x: RunId)
    requires DelegateIn(db, ctx, now, k, argsHash, current, requested, r, branch, maxDepth).Ok? && x in db.cells
    ensures var to := DelegateIn(db, ctx, now, k, argsHash, current, requested, r, branch, maxDepth).value;
            x in to.cells && to.cells[x] == db.cells[x].(deps := to.cells[x].deps)
  {
    hide Inserted, Position, FencePasses, ReserveChild;
  }

  /** Only the settlement of a running run changes what it requires. */
  lemma RequiredStays(w: World, cfg: Config, e: Event, r: RunId)
    requires r in w.db.cells && !(e.Settle? && e.ctx.run == r && w.db.cells[r].run.status.Running?)
    ensures r in Next(w, cfg, e).db.cells
    ensures Next(w, cfg, e).db.cells[r].run.required == w.db.cells[r].run.required
  {
    hide ApplyRow, ExpireCell, RefreshCell, FinishAll, WorkerSettleIn, ClaimIn, ApplyGate, CancelCell, RecoverCell;
    hide ApplyLookup, ApplyEnter, ApplySend, Under, ReadyWaits, ReserveChild, Inserted, ResetBy, FencePasses, CancelOr;
    hide SubmitIn, DelegateIn;
    if Apply(w, cfg, e).Ok? {
      match e {
        case Submit(x, branch, inputRevision, deadline, capabilities, limits) =>
          SubmitLeaves(w.db, x, branch, inputRevision, w.now, deadline, capabilities, limits, r);
        case Delegate(ctx, k, argsHash, current, requested, x, branch) =>
          DelegateLeaves(w.db, ctx, w.now, k, argsHash, current, requested, x, branch, cfg.maxDepth, r);
        case Row(x, row) => if x == r { RowRequires(w.db.cells[r], w.now, row); }
        case Expire => ScanRequires(w.db.cells[r], w.now, {}, false);
        case RefreshWaits => ScanRequires(w.db.cells[r], w.now, ReadyWaits(w.db.cells, w.db.cells[r]), false);
        case Cancel(_) => CancelRequires(w.db.cells[r]);
        case FinishIdle => FinishRequires(w.db, w.db.order, r);
        case Settle(ctx, o) => SettleRequires(w.db, w.now, ctx, o, r);
        case Claim(p, a) => ClaimRequires(w.db, w.now, a, p, cfg, r);
        case Gate(lock, g) => GateShifts(w, cfg, lock, g, r);
        case Lookup(p, s, ctx, tool, argsHash) => LookupDb(w, p, s, ctx, tool, argsHash);
        case Enter(lock) => OutsideDb(w, lock);
        case Send(lock) => OutsideDb(w, lock);
        case Recover(seen, alive, written) => RecoverRequires(w.db.cells[r], seen.attempt, alive, written);
        case _ =>
      }
    }
  }

  /** The run is not running at any point of the events before the last. */
  ghost predicate RestsThrough(w: World, cfg: Config, events: seq<Event>, r: RunId)
    decreases |events|
  {
    events != [] ==>
      && r in w.db.cells && !w.db.cells[r].run.status.Running?
      && RestsThrough(Next(w, cfg, events[0]), cfg, events[1..], r)
  }

  lemma {:induction false} RequiredThrough(w: World, cfg: Config, events: seq<Event>, r: RunId)
    requires r in w.db.cells && RestsThrough(w, cfg, events, r)
    ensures r in Play(w, cfg, events).db.cells
    ensures Play(w, cfg, events).db.cells[r].run.required == w.db.cells[r].run.required
    decreases |events|
  {
    hide Next;
    if events != [] {
      RequiredStays(w, cfg, events[0], r);
      RequiredThrough(Next(w, cfg, events[0]), cfg, events[1..], r);
    }
  }

  /** A run that settled an outcome that waits runs again only once each interrupt of the outcome's references has its
      answer. */
  lemma NotAgainBefore(w: World, cfg: Config, ctx: Context, o: Outcome, events: seq<Event>)
    requires Reachable(w, cfg) && Apply(w, cfg, Settle(ctx, o)).Ok? && o.kind.Await?
    requires Own(Settle(ctx, o)) && AllOwn(events)
    requires ctx.run in w.db.cells && w.db.cells[ctx.run].run.status.Running?
    requires RestsThrough(Next(w, cfg, Settle(ctx, o)), cfg, events, ctx.run)
    ensures var v := Play(Next(w, cfg, Settle(ctx, o)), cfg, events);
            && ctx.run in v.db.cells
            && (v.db.cells[ctx.run].run.status.Running? || v.db.cells[ctx.run].run.status.Queued? ==>
                  forall ref :: ref in o.refs ==> Answered(v.db.cells[ctx.run], ref.interrupt))
  {
    hide WorldInv, Next, Reaches, Answered, FencePasses;
    var n := Next(w, cfg, Settle(ctx, o));
    AwaitRests(w, cfg, ctx, o);
    RequiredThrough(n, cfg, events, ctx.run);
    ReachedLater(w, cfg, Settle(ctx, o), events);
    BarrierMeans(Play(n, cfg, events), cfg, ctx.run);
  }

  lemma ReachedLater(w: World, cfg: Config, e: Event, events: seq<Event>)
    requires Reachable(w, cfg) && Own(e) && AllOwn(events)
    ensures Reachable(Play(Next(w, cfg, e), cfg, events), cfg)
  {
    hide Next, Boot, Reaches, Own, AllOwn;
    var now, alive, branches :| Reaches(Boot(now, alive, branches), cfg, w);
    ReachesOn(Boot(now, alive, branches), cfg, w, e, events);
  }

  lemma ReachesOn(b: World, cfg: Config, w: World, e: Event, events: seq<Event>)
    requires Reaches(b, cfg, w) && Own(e) && AllOwn(events)
    ensures Reaches(b, cfg, Play(Next(w, cfg, e), cfg, events))
  {
    hide Next, Own;
    var before :| AllOwn(before) && w == Play(b, cfg, before);
    var later := [e] + events;
    assert later[0] == e && later[1..] == events;
    PlayAppends(b, cfg, before, later);
    assert AllOwn(before + later);
  }

  lemma {:induction false} PlayAppends(w: World, cfg: Config, before: seq<Event>, after: seq<Event>)
    ensures Play(w, cfg, before + after) == Play(Play(w, cfg, before), cfg, after)
    decreases |before|
  {
    hide Next;
    if before == [] {
      assert before + after == after;
    } else {
      assert (before + after)[0] == before[0] && (before + after)[1..] == before[1..] + after;
      PlayAppends(Next(w, cfg, before[0]), cfg, before[1..], after);
    }
  }
}
