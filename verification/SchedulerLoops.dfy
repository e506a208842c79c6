/** What the loops of the scheduler's methods have done after some of their rounds. */
module SchedulerLoops {
  import opened Domain
  import opened Collections
  import opened RunMachine
  import opened RunInvariant
  import opened RunSteps
  import opened Tables
  import opened TablesInvariant
  import opened RowEvents
  import opened Transactions
  import opened Claiming
  import opened Scans
  import opened Settling

  // ---------------------------------------------------------------- closing a run

  function WithdrawExcept(m: map<RequestKey, Interaction>, rest: set<RequestKey>): map<RequestKey, Interaction> {
    map k | k in m :: if k in rest then m[k] else Withdraw(m[k])
  }

  lemma WithdrawOneMore(m: map<RequestKey, Interaction>, rest: set<RequestKey>, k: RequestKey)
    requires k in rest && k in m
    ensures WithdrawExcept(m, rest - {k}) == WithdrawExcept(m, rest)[k := Withdraw(m[k])]
    ensures !Unclosed(m[k]) ==> WithdrawExcept(m, rest - {k}) == WithdrawExcept(m, rest)
    ensures WithdrawExcept(m, rest)[k] == m[k]
  {}

  function DropExcept(m: map<OpKey, Operation>, rest: set<OpKey>): map<OpKey, Operation> {
    map k | k in m :: if k in rest then m[k] else DropPrepared(m[k])
  }

  lemma DropOneMore(m: map<OpKey, Operation>, rest: set<OpKey>, k: OpKey)
    requires k in rest && k in m
    ensures DropExcept(m, rest - {k}) == DropExcept(m, rest)[k := DropPrepared(m[k])]
    ensures DropPrepared(m[k]) == m[k] ==> DropExcept(m, rest - {k}) == DropExcept(m, rest)
    ensures DropExcept(m, rest)[k] == m[k]
  {}

  /** A run that ends gives its branch back. */
  function Released(branches: map<BranchId, Option<RunId>>, b: BranchId, r: RunId): map<BranchId, Option<RunId>> {
    if b in branches && branches[b] == Some(r) then branches[b := None] else branches
  }

  /** Freeing the branches of ended runs one run at a time. */
  lemma FreedStep(branches: map<BranchId, Option<RunId>>, m: map<RunId, Cell>, r: RunId, d: Cell)
    requires r in m && SameIdentity(m[r].run, d.run) && (Terminal(m[r].run.status) ==> Terminal(d.run.status))
    requires forall b :: b in branches && branches[b] == Some(r) ==> b == d.run.branch
    ensures Freed(branches, m[r := d])
         == if Terminal(d.run.status) then Released(Freed(branches, m), d.run.branch, r) else Freed(branches, m)
  {}

  lemma FreedNothing(branches: map<BranchId, Option<RunId>>, m: map<RunId, Cell>)
    requires Owned(m, branches)
    ensures Freed(branches, m) == branches
  {}

  lemma EndedOwnsNothing(branches: map<BranchId, Option<RunId>>, m: map<RunId, Cell>, r: RunId)
    requires r in m
    ensures forall b :: Terminal(m[r].run.status) ==> Released(Freed(branches, m), b, r) == Freed(branches, m)
  {}

  /** Where no run ends, no branch is freed. */
  lemma NoneFreed(branches: map<BranchId, Option<RunId>>, m: map<RunId, Cell>, n: map<RunId, Cell>)
    requires Owned(m, branches) && n.Keys == m.Keys
    requires forall r :: r in m && Terminal(n[r].run.status) ==> Terminal(m[r].run.status)
    ensures Freed(branches, n) == branches
  {}

  // ---------------------------------------------------------------- cancelling

  /** The rows of a tree while `cancel` works through its list. */
  function CancelledUpTo(m: map<RunId, Cell>, ids: seq<RunId>): map<RunId, Cell> {
    map r | r in m :: if r in ids then CancelOr(m[r]) else m[r]
  }

  lemma CancelOneMore(m: map<RunId, Cell>, ids: seq<RunId>, i: nat)
    requires i < |ids| && Distinct(ids) && ids[i] in m
    ensures CancelledUpTo(m, ids[..i])[ids[i]] == m[ids[i]]
    ensures CancelledUpTo(m, ids[..i + 1]) == CancelledUpTo(m, ids[..i])[ids[i] := CancelOr(m[ids[i]])]
  {
    hide CancelOr;
    assert ids[..i + 1] == ids[..i] + [ids[i]];
    assert ids[i] !in ids[..i];
  }

  // ---------------------------------------------------------------- expiring

  function LapseExcept(m: map<RequestKey, Interaction>, now: Time,
                       rest: set<RequestKey>): map<RequestKey, Interaction> {
    map k | k in m :: if k in rest then m[k] else Lapse(m[k], now)
  }

  lemma LapseOneMore(m: map<RequestKey, Interaction>, now: Time, rest: set<RequestKey>, k: RequestKey)
    requires k in rest && k in m
    ensures LapseExcept(m, now, rest - {k}) == LapseExcept(m, now, rest)[k := Lapse(m[k], now)]
    ensures Lapse(m[k], now) == m[k] ==> LapseExcept(m, now, rest - {k}) == LapseExcept(m, now, rest)
    ensures LapseExcept(m, now, rest)[k] == m[k]
  {}

  function ExpiredUpTo(m: map<RunId, Cell>, now: Time, ids: seq<RunId>): map<RunId, Cell> {
    map r | r in m :: if r in ids then ExpireCell(m[r], now) else m[r]
  }

  lemma ExpireOneMore(m: map<RunId, Cell>, now: Time, ids: seq<RunId>, i: nat)
    requires i < |ids| && Distinct(ids) && ids[i] in m
    ensures ExpiredUpTo(m, now, ids[..i])[ids[i]] == m[ids[i]]
    ensures ExpiredUpTo(m, now, ids[..i + 1]) == ExpiredUpTo(m, now, ids[..i])[ids[i] := ExpireCell(m[ids[i]], now)]
  {
    hide ExpireCell;
    assert ids[..i + 1] == ids[..i] + [ids[i]];
    assert ids[i] !in ids[..i];
  }

  lemma ExpireEndsNothing(c: Cell, now: Time)
    ensures Terminal(ExpireCell(c, now).run.status) ==> Terminal(c.run.status)
  {
    hide BarrierMet, LapseAll;
  }

  // ---------------------------------------------------------------- answers

  /** `resolutions`: the interrupts that have an answer. */
  function ReadyInterrupts(s: Answers): set<Interrupt> {
    (set k | k in s.interactions && s.interactions[k].interrupt.Some? && s.interactions[k].resolution.Some?
       :: s.interactions[k].interrupt.value)
    + (set k | k in s.waits && s.waits[k].interrupt.Some? && s.waits[k].resolution.Some? :: s.waits[k].interrupt.value)
    + s.reviewed
  }

  lemma ReadyMeansAnswered(s: Answers, required: set<Interrupt>)
    ensures forall i :: i in ReadyInterrupts(s) <==> HasAnswer(s, i)
    ensures required <= ReadyInterrupts(s) <==> BarrierMet(required, s)
  {
    forall i ensures i in ReadyInterrupts(s) <==> HasAnswer(s, i) {
      if k :| k in s.interactions && s.interactions[k].interrupt == Some(i) && s.interactions[k].resolution.Some? {
      } else if k :| k in s.waits && s.waits[k].interrupt == Some(i) && s.waits[k].resolution.Some? {
      }
    }
  }

  // ---------------------------------------------------------------- recovery

  function RecoverExcept(c: Cell, written: set<OpKey>, rest: set<OpKey>): map<OpKey, Operation> {
    map k | k in c.ops :: if k in rest then c.ops[k] else RecoverOp(c, k, written)
  }

  /** An operation recovered so far is unknown. */
  predicate UnknownSoFar(c: Cell, written: set<OpKey>, rest: set<OpKey>) {
    exists k :: k in c.ops && k !in rest && RecoverOp(c, k, written).state.Unknown?
  }

  lemma RecoverOneMore(c: Cell, written: set<OpKey>, rest: set<OpKey>, k: OpKey)
    requires k in rest && k in c.ops
    ensures RecoverExcept(c, written, rest - {k}) == RecoverExcept(c, written, rest)[k := RecoverOp(c, k, written)]
    ensures RecoverOp(c, k, written) == c.ops[k] ==>
              RecoverExcept(c, written, rest - {k}) == RecoverExcept(c, written, rest)
    ensures k in RecoverExcept(c, written, rest) && RecoverExcept(c, written, rest)[k] == c.ops[k]
    ensures UnknownSoFar(c, written, rest - {k})
        <==> UnknownSoFar(c, written, rest) || RecoverOp(c, k, written).state.Unknown?
  {
    hide RecoverOp;
    if RecoverOp(c, k, written).state.Unknown? {
      assert k !in rest - {k};
    }
    if j :| j in c.ops && j !in rest && RecoverOp(c, j, written).state.Unknown? {
      assert j !in rest - {k};
    }
  }

  lemma RecoveredAll(c: Cell, written: set<OpKey>)
    ensures RecoverExcept(c, written, c.ops.Keys) == c.ops && RecoverExcept(c, written, {}) == RecoverOps(c, written)
    ensures !UnknownSoFar(c, written, c.ops.Keys)
    ensures UnknownSoFar(c, written, {}) <==> AnyUnknown(RecoverOps(c, written))
  {
    hide RecoverOp;
    if k :| k in RecoverOps(c, written) && RecoverOps(c, written)[k].state.Unknown? {
      assert k !in {};
    }
    if k :| k in c.ops && k !in {} && RecoverOp(c, k, written).state.Unknown? {
      assert RecoverOps(c, written)[k].state.Unknown?;
    }
  }

  // ---------------------------------------------------------------- child waits

  /** The waits of one run, resolved in any order with a wake-up after each, come out as resolved at once. */
  lemma RefreshOneMore(c: Cell, done: set<OpKey>, k: OpKey)
    requires k in c.waits && k !in done && c.waits[k].bound && c.waits[k].resolution.None?
    ensures var cur := RefreshCell(c, done);
            && k in cur.waits && cur.waits[k] == c.waits[k]
            && RefreshCell(c, done + {k}) == Wake(cur.(waits := cur.waits[k := ResolveWait(c.waits[k], true)]))
  {
    var w, v := ResolveWaits(c.waits, done), ResolveWaits(c.waits, done + {k});
    assert v == w[k := ResolveWait(c.waits[k], true)] && v != c.waits;
    var e, f := c.(waits := w), c.(waits := v);
    AnswersStay(AnswersOf(e), AnswersOf(f), c.run.required);
    hide BarrierMet, ResolveWaits, ResolveWait;
    RefreshShape(c, done);
  }

  lemma RefreshNoMore(c: Cell, done: set<OpKey>, k: OpKey)
    requires k in c.waits && (!c.waits[k].bound || c.waits[k].resolution.Some?)
    ensures RefreshCell(c, done + {k}) == RefreshCell(c, done)
  {
    hide Wake;
    assert ResolveWaits(c.waits, done + {k}) == ResolveWaits(c.waits, done);
  }

  lemma RefreshNothing(c: Cell)
    ensures RefreshCell(c, {}) == c
  {
    assert ResolveWaits(c.waits, {}) == c.waits;
  }

  /** Whether a wait is ready depends on which runs have ended, and on nothing else. */
  lemma SameEndsSameReady(m: map<RunId, Cell>, n: map<RunId, Cell>, c: Cell)
    requires n.Keys == m.Keys
    requires forall r :: r in m ==> (Terminal(n[r].run.status) <==> Terminal(m[r].run.status))
    ensures ReadyWaits(n, c) == ReadyWaits(m, c)
    ensures forall k :: k in c.waits ==> (WaitReady(n, c.waits[k]) <==> WaitReady(m, c.waits[k]))
  {
    forall k | k in c.waits ensures WaitReady(n, c.waits[k]) <==> WaitReady(m, c.waits[k]) {
      assert forall x :: x in c.waits[k].children ==> (DoneRun(n, x) <==> DoneRun(m, x));
    }
  }

  function RefreshedUpTo(m: map<RunId, Cell>, ids: seq<RunId>): map<RunId, Cell> {
    map r | r in m :: if r in ids then RefreshCell(m[r], ReadyWaits(m, m[r])) else m[r]
  }

  lemma RefreshNextRun(m: map<RunId, Cell>, ids: seq<RunId>, i: nat)
    requires i < |ids| && Distinct(ids) && ids[i] in m
    ensures var n := RefreshedUpTo(m, ids[..i]);
            && n[ids[i]] == m[ids[i]] && ReadyWaits(n, m[ids[i]]) == ReadyWaits(m, m[ids[i]])
            && RefreshedUpTo(m, ids[..i + 1]) == n[ids[i] := RefreshCell(m[ids[i]], ReadyWaits(m, m[ids[i]]))]
  {
    hide RefreshCell, ReadyWaits;
    assert ids[..i + 1] == ids[..i] + [ids[i]];
    assert ids[i] !in ids[..i];
    var n := RefreshedUpTo(m, ids[..i]);
    forall r | r in m ensures Terminal(n[r].run.status) <==> Terminal(m[r].run.status) {
      RefreshEndsNothing(m[r], ReadyWaits(m, m[r]));
    }
    SameEndsSameReady(m, n, m[ids[i]]);
  }

  lemma RefreshedAll(db: Db, ids: seq<RunId>)
    requires Owned(db.cells, db.branches) && forall r :: r in db.cells ==> r in ids
    ensures Db(RefreshedUpTo(db.cells, ids), db.order, db.branches, db.books) == RefreshIn(db)
  {
    hide RefreshCell, ReadyWaits, Freed, Owned;
    var n := map r | r in db.cells :: RefreshCell(db.cells[r], ReadyWaits(db.cells, db.cells[r]));
    assert RefreshedUpTo(db.cells, ids) == n;
    forall r | r in db.cells && Terminal(n[r].run.status) ensures Terminal(db.cells[r].run.status) {
      RefreshEndsNothing(db.cells[r], ReadyWaits(db.cells, db.cells[r]));
    }
    NoneFreed(db.branches, db.cells, n);
  }

  // ---------------------------------------------------------------- what a method may rely on

  lemma TopIsUnder(m: map<RunId, Cell>, top: RunId)
    ensures Under(m, top, top)
  {}

  lemma OwnersOf(db: Db, cfg: Config)
    requires DbInv(db, cfg)
    ensures Owned(db.cells, db.branches)
  {
    hide Runs, Ordered, Forest, Owned, Capacity, WaitScopes, ParentsLast, Charged;
  }

  lemma OwnerOf(db: Db, cfg: Config, r: RunId)
    requires DbInv(db, cfg) && r in db.cells
    ensures forall b :: b in db.branches && db.branches[b] == Some(r) ==> b == db.cells[r].run.branch
  {
    hide Runs, Ordered, Forest, Capacity, WaitScopes, ParentsLast, Charged;
  }

  lemma CancelledRun(c: Cell, now: Time)
    requires CellInv(c)
    ensures SameIdentity(c.run, CancelOr(c).run) && (Terminal(c.run.status) ==> Terminal(CancelOr(c).run.status))
  {
    hide CellInv, CellStep, CancelCell;
    CancelKeeps(c, now);
    CancelFixed(c);
  }

  lemma OrderListed(db: Db, cfg: Config)
    requires DbInv(db, cfg)
    ensures Distinct(db.order) && forall r :: r in db.order <==> r in db.cells
  {
    hide Runs, Forest, Owned, Capacity, WaitScopes, ParentsLast, Charged;
    OrderDistinct(db.order, db.cells);
  }

  lemma NotQueuedWhenCancelled(c: Cell)
    requires CellInv(c)
    ensures !(c.run.status.Queued? && c.run.cancelRequested)
  {
    hide Leases, Forms, Ledger, RunInvariant.Closed, Delivered, Barrier;
  }

  lemma ClaimedFence(c: Cell, r: RunId, a: AttemptId, p: ProcessId, now: Time, lease: nat)
    requires c.run.status.Queued? && !c.run.cancelRequested && ClaimCell(c, a, p, now + lease).Ok? && 0 < lease
    ensures var d := ClaimCell(c, a, p, now + lease).value;
            FencePasses(d.run, d.attempts, Context(r, a, c.run.token + 1, c.run.inputRevision), now, false)
  {}

  lemma ExpiredAll(db: Db, now: Time, cfg: Config)
    requires DbInv(db, cfg)
    ensures Db(ExpiredUpTo(db.cells, now, db.order), db.order, db.branches, db.books) == ExpireIn(db, now)
  {
    hide DbInv, ExpireCell, Freed;
    OrderListed(db, cfg);
    OwnersOf(db, cfg);
    var n := map r | r in db.cells :: ExpireCell(db.cells[r], now);
    assert ExpiredUpTo(db.cells, now, db.order) == n;
    forall r | r in db.cells && Terminal(n[r].run.status) ensures Terminal(db.cells[r].run.status) {
      ExpireEndsNothing(db.cells[r], now);
    }
    NoneFreed(db.branches, db.cells, n);
  }

  /** A change of one run that does not end it frees no branch. */
  lemma PutFreesNothing(db: Db, r: RunId, d: Cell, cfg: Config)
    requires DbInv(db, cfg) && r in db.cells && (Terminal(d.run.status) ==> Terminal(db.cells[r].run.status))
    ensures Update(db, db.cells[r := d]) == db.(cells := db.cells[r := d])
  {
    hide DbInv, Freed;
    OwnersOf(db, cfg);
    NoneFreed(db.branches, db.cells, db.cells[r := d]);
  }

  lemma RespondedDb(db: Db, r: RunId, k: RequestKey, expected: nat, response: nat, now: Time, schemaOk: bool,
                    bindingOk: bool, cfg: Config)
    requires DbInv(db, cfg) && r in db.cells
    requires RespondCell(db.cells[r], k, expected, response, now, schemaOk, bindingOk).Ok?
    ensures var e := RowEvent.Respond(k, expected, response, schemaOk, bindingOk);
            var d := RespondCell(db.cells[r], k, expected, response, now, schemaOk, bindingOk).value;
            RowIn(db, now, r, e) == Ok(db.(cells := db.cells[r := d])) && DbInv(db.(cells := db.cells[r := d]), cfg)
  {
    hide DbInv, Freed, Wake, Update;
    var e := RowEvent.Respond(k, expected, response, schemaOk, bindingOk);
    var c := db.cells[r];
    var d := RespondCell(c, k, expected, response, now, schemaOk, bindingOk).value;
    WakeShape(c.(interactions := d.interactions));
    WakeFrames(c.(interactions := c.interactions[k := c.interactions[k].(status := InteractionStatus.Resolved,
      resolution := Some(Resolution.Answered(response)), revision := c.interactions[k].revision + 1)]));
    PutFreesNothing(db, r, d, cfg);
    RowInKeeps(db, now, cfg, r, e);
  }

  lemma WakeFrames(c: Cell)
    ensures Terminal(Wake(c).run.status) ==> Terminal(c.run.status)
  {
    hide BarrierMet;
  }

  lemma FinishKeepsRuns(db: Db, r: RunId)
    ensures FinishIn(db, r).order == db.order && FinishIn(db, r).cells.Keys == db.cells.Keys
  {
    hide FinishIdleCell, ChildrenDone;
  }

  lemma RecoverEndsNothing(c: Cell, a: AttemptId, alive: bool, written: set<OpKey>)
    requires RecoverCell(c, a, alive, written).Ok?
    ensures Terminal(RecoverCell(c, a, alive, written).value.run.status) ==> Terminal(c.run.status)
  {
    hide RecoverCell;
    RecoveredRun(c, a, alive, written);
  }

  lemma BindKeepsRun(m: map<RunId, Cell>, inputRevision: nat, r: Ref)
    ensures r.run in m && BindRef(m[r.run], inputRevision, r).Ok? ==>
              BindRef(m[r.run], inputRevision, r).value.run == m[r.run].run
  {
    hide InterruptTaken;
  }

  lemma ParkedStatuses(refs: seq<Ref>)
    ensures ParkedStatus(refs).NeedsReview? || ParkedStatus(refs).WaitingUser? || ParkedStatus(refs).WaitingChildren?
  {}

  lemma FencedStatus(c: Cell, ctx: Context, now: Time)
    requires FencePasses(c.run, c.attempts, ctx, now, true)
    ensures c.run.status.Running? || c.run.status.Cancelling?
  {}

  lemma CheckpointKeepsChildren(m: map<RunId, Cell>, r: RunId, checkpoint: Option<nat>)
    requires r in m
    ensures var n := m[r := Checkpointed(m[r], checkpoint)]; ChildrenDone(n, n[r]) == ChildrenDone(m, m[r])
  {}

  /** The tables with one run's rows replaced, and its branch given back if that ended it. */
  function Replaced(db: Db, r: RunId, d: Cell): Db {
    db.(cells := db.cells[r := d],
        branches := if Terminal(d.run.status) then Released(db.branches, d.run.branch, r) else db.branches)
  }

  /** A run that ends frees the branch it owns, and no other. */
  lemma PutEnds(db: Db, r: RunId, d: Cell, cfg: Config)
    requires DbInv(db, cfg) && r in db.cells && Placed(db.cells[r], d) && !Terminal(db.cells[r].run.status)
    ensures Update(db, db.cells[r := d]) == Replaced(db, r, d)
  {
    hide DbInv, Freed;
    OwnersOf(db, cfg);
    OwnerOf(db, cfg, r);
    FreedNothing(db.branches, db.cells);
    FreedStep(db.branches, db.cells, r, d);
  }

  /** The rows of a run whose outcome does not wait. */
  function Stopped(c: Cell, ctx: Context, o: Outcome, childrenDone: bool): Result<Cell> {
    if c.run.status.Cancelling? then AckCancelCell(c, ctx.attempt, childrenDone)
    else StopCell(c, ctx.attempt, o, childrenDone)
  }

  lemma StopFrees(db: Db, cfg: Config, ctx: Context, o: Outcome, childrenDone: bool)
    requires DbInv(db, cfg) && ctx.run in db.cells
    requires db.cells[ctx.run].run.status.Running? || db.cells[ctx.run].run.status.Cancelling?
    requires Stopped(Checkpointed(db.cells[ctx.run], o.checkpoint), ctx, o, childrenDone).Ok?
    ensures var d := Stopped(Checkpointed(db.cells[ctx.run], o.checkpoint), ctx, o, childrenDone).value;
            && Update(db, db.cells[ctx.run := d]) == Replaced(db, ctx.run, d)
            && d.run.branch == db.cells[ctx.run].run.branch
  {
    hide DbInv, Freed, AckCancelCell, StopCell, Update, DropAll;
    var saved := Checkpointed(db.cells[ctx.run], o.checkpoint);
    if saved.run.status.Cancelling? {
      AckCancelEnds(saved, ctx.attempt, childrenDone);
    } else {
      StopsEnded(saved, ctx.attempt, o, childrenDone);
    }
    PutEnds(db, ctx.run, Stopped(saved, ctx, o, childrenDone).value, cfg);
  }

  lemma AwaitFreesNothing(db: Db, cfg: Config, ctx: Context, o: Outcome)
    requires DbInv(db, cfg) && ctx.run in db.cells && db.cells[ctx.run].run.status.Running?
    requires SettleWaiting(db.cells[ctx.run := Checkpointed(db.cells[ctx.run], o.checkpoint)], ctx, o).Ok?
    ensures var n := SettleWaiting(db.cells[ctx.run := Checkpointed(db.cells[ctx.run], o.checkpoint)], ctx, o).value;
            Update(db, n) == db.(cells := n)
  {
    hide DbInv, Freed, BindAll, ParkCell, RefreshCell, Wake, ReadyWaits, Rests, ResolveWaits;
    var cells: map<RunId, Cell> := db.cells[ctx.run := Checkpointed(db.cells[ctx.run], o.checkpoint)];
    var n := SettleWaiting(cells, ctx, o).value;
    BindKeepsRuns(cells, ctx.run, ctx.inputRevision, o.refs);
    var bound := BindAll(cells, ctx.run, ctx.inputRevision, o.refs).value;
    var p := ParkCell(bound[ctx.run], ctx.attempt, o.refs).value;
    var ready := ReadyWaits(bound[ctx.run := p], p);
    ParkedShape(bound[ctx.run], ctx.attempt, o.refs, ready);
    RestsNotEnded(bound[ctx.run], Parked(bound[ctx.run], ctx.attempt, o.refs, ready), ctx.attempt);
    OwnersOf(db, cfg);
    NoneFreed(db.branches, db.cells, n);
  }

  lemma RestsNotEnded(c: Cell, d: Cell, a: AttemptId)
    requires Rests(c, d, a)
    ensures !Terminal(d.run.status)
  {}

  // ---------------------------------------------------------------- delegation

  lemma {:induction false} SamePosition(order: seq<RunId>, m: map<RunId, Cell>, n: map<RunId, Cell>, t: Time, r: RunId)
    requires n.Keys == m.Keys && forall x :: x in m ==> n[x].run == m[x].run
    ensures Position(order, n, t, r) == Position(order, m, t, r)
    decreases |order|
  {
    if order != [] {
      SamePosition(order[1..], m, n, t, r);
    }
  }

  // ---------------------------------------------------------------- reconciliation

  lemma ReconcileEndsNothing(c: Cell, k: OpKey, expected: nat, decision: Decision, noted: bool)
    requires ReconcileCell(c, k, expected, decision, noted).Ok?
    ensures Terminal(ReconcileCell(c, k, expected, decision, noted).value.run.status) ==> Terminal(c.run.status)
  {
    hide AnyUnaccepted, RevokeExcept;
  }

  lemma ReconciledDb(db: Db, r: RunId, k: OpKey, expected: nat, decision: Decision, noted: bool, now: Time, cfg: Config)
    requires DbInv(db, cfg) && r in db.cells && ReconcileCell(db.cells[r], k, expected, decision, noted).Ok?
    ensures var d := ReconcileCell(db.cells[r], k, expected, decision, noted).value;
            && RowIn(db, now, r, RowEvent.Reconcile(k, expected, decision, noted)) == Ok(db.(cells := db.cells[r := d]))
            && DbInv(db.(cells := db.cells[r := d]), cfg)
  {
    hide DbInv, Update, ReconcileCell;
    RowInKeeps(db, now, cfg, r, RowEvent.Reconcile(k, expected, decision, noted));
    ReconcileEndsNothing(db.cells[r], k, expected, decision, noted);
    PutFreesNothing(db, r, ReconcileCell(db.cells[r], k, expected, decision, noted).value, cfg);
  }
}
