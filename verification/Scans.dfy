/** The scans over all runs, cancellation of a tree, and recovery keep the database's invariant. */
module Scans {
  import opened Domain
  import opened RunMachine
  import opened RunInvariant
  import opened RunSteps
  import opened Tables
  import opened TablesInvariant
  import opened RowEvents
  import opened NewRuns
  import opened Transactions
  import opened Claiming
  import Budget

  /** A cell moved on outside the gateway, and did not complete. */
  ghost predicate Moves(c: Cell, d: Cell, r: RunId, now: Time) {
    && Advanced(c, d, now) && Quiet(c, d, r, {})
    && (d.run.status.Completed? ==> c.run.status.Completed?)
  }

  lemma StaysMoves(c: Cell, r: RunId, now: Time)
    requires CellInv(c)
    ensures Moves(c, c, r, now)
  {
    hide CellInv, Advanced, Quiet;
    StaysAdvanced(c, now);
    StaysQuiet(c, r, {});
  }

  lemma AllMove(db: Db, cells: map<RunId, Cell>, now: Time, cfg: Config)
    requires DbInv(db, cfg) && cells.Keys == db.cells.Keys
    requires forall r :: r in db.cells ==> Moves(db.cells[r], cells[r], r, now)
    ensures DbInv(Update(db, cells), cfg)
    ensures DbStep(db.cells, now, cells, now) && DbQuiet(db.cells, cells, {})
  {
    hide DbInv, Advanced, Quiet, ChildrenDone, DbStep;
    forall r | r in db.cells
      ensures Advanced(db.cells[r], cells[r], now) && Quiet(db.cells[r], cells[r], r, {})
      ensures cells[r].run.status.Completed? ==> db.cells[r].run.status.Completed?
    {
      assert Moves(db.cells[r], cells[r], r, now);
    }
    AdvancedStep(db.cells, cells, now);
    UpdateKeeps(db, cells, now, cfg);
  }

  lemma OneMoves(db: Db, r: RunId, d: Cell, now: Time, cfg: Config)
    requires DbInv(db, cfg) && r in db.cells && Moves(db.cells[r], d, r, now)
    ensures var to := Update(db, db.cells[r := d]);
            DbInv(to, cfg) && DbStep(db.cells, now, to.cells, now) && DbQuiet(db.cells, to.cells, {})
  {
    hide DbInv, Moves, DbStep, DbQuiet, Runs, CellInv;
    var cells := db.cells[r := d];
    forall x | x in db.cells ensures Moves(db.cells[x], cells[x], x, now) {
      CellOf(db, cfg, x);
      StaysMoves(db.cells[x], x, now);
    }
    AllMove(db, cells, now, cfg);
  }

  // ---------------------------------------------------------------- expiry and child waits

  lemma ExpireMoves(c: Cell, r: RunId, now: Time)
    requires CellInv(c)
    ensures Moves(c, ExpireCell(c, now), r, now)
  {
    hide CellInv, CellStep, BarrierMet, IsChild;
    ExpireKeeps(c, now);
  }

  lemma ExpireInKeeps(db: Db, now: Time, cfg: Config)
    requires DbInv(db, cfg)
    ensures var to := ExpireIn(db, now);
            DbInv(to, cfg) && DbStep(db.cells, now, to.cells, now) && DbQuiet(db.cells, to.cells, {})
  {
    hide DbInv, Moves, ExpireCell, DbStep, DbQuiet, Runs, CellInv;
    var cells := map r | r in db.cells :: ExpireCell(db.cells[r], now);
    forall r | r in db.cells ensures Moves(db.cells[r], cells[r], r, now) {
      CellOf(db, cfg, r);
      ExpireMoves(db.cells[r], r, now);
    }
    AllMove(db, cells, now, cfg);
  }

  lemma RefreshInvKeeps(c: Cell, ready: set<OpKey>, now: Time)
    requires CellInv(c)
    ensures CellInv(RefreshCell(c, ready)) && CellStep(c, now, RefreshCell(c, ready), now)
  {
    hide Core, CellStep, Barrier, RefreshCell;
    RefreshKeeps(c, now, ready);
  }

  lemma RefreshMoves(c: Cell, ready: set<OpKey>, r: RunId, now: Time)
    requires CellInv(c)
    ensures Moves(c, RefreshCell(c, ready), r, now)
  {
    hide CellInv, CellStep, HasAnswer, IsChild;
    RefreshInvKeeps(c, ready, now);
  }

  lemma RefreshInKeeps(db: Db, now: Time, cfg: Config)
    requires DbInv(db, cfg)
    ensures var to := RefreshIn(db);
            DbInv(to, cfg) && DbStep(db.cells, now, to.cells, now) && DbQuiet(db.cells, to.cells, {})
  {
    hide DbInv, Moves, RefreshCell, DbStep, DbQuiet, ReadyWaits, Runs, CellInv;
    var cells := map r | r in db.cells :: RefreshCell(db.cells[r], ReadyWaits(db.cells, db.cells[r]));
    forall r | r in db.cells ensures Moves(db.cells[r], cells[r], r, now) {
      CellOf(db, cfg, r);
      RefreshMoves(db.cells[r], ReadyWaits(db.cells, db.cells[r]), r, now);
    }
    AllMove(db, cells, now, cfg);
  }

  // ---------------------------------------------------------------- cancellation

  lemma IdleWhenEndingAtOnce(c: Cell)
    requires CellInv(c) && (c.run.status.Queued? || c.run.status.WaitingUser? || Terminal(c.run.status))
    ensures !Held(c.run, c.attempts)
  {
    hide BarrierMet, Forms, Ledger, Closed, Delivered;
  }

  lemma CancelFixed(c: Cell)
    ensures CancelCell(c).Ok? ==> Fixed(c, CancelCell(c).value) && CancelCell(c).value.waits == c.waits
    ensures CancelCell(c).Ok? && CancelCell(c).value.run.status.Completed? ==> c.run.status.Completed?
  {
    hide Barred, Conclude, Advance, EndsAtOnce;
    BarredFixed(c);
    MovedFixed(Barred(c), Status.Cancelled);
    MovedFixed(Barred(c), Status.Cancelling);
  }

  lemma BarredFixed(c: Cell)
    ensures Fixed(c, Barred(c)) && Barred(c).waits == c.waits && Barred(c).run.status == c.run.status
    ensures Barred(c).run.attempt == c.run.attempt && Placed(c, Barred(c))
  {
    hide RevokeExcept, WithdrawAll;
  }

  lemma MovedFixed(c: Cell, to: Status)
    ensures Advance(c, to).Ok? ==>
      var d := Advance(c, to).value;
      Placed(c, d) && d.waits == c.waits && d.run.status == to && d.run.attempt == c.run.attempt
    ensures Conclude(c, to).Ok? ==>
      var d := Conclude(c, to).value;
      Placed(c, d) && d.waits == c.waits && d.run.status == to && d.run.attempt == c.run.attempt
  {
    hide RevokeExcept, WithdrawAll, DropAll;
  }

  lemma CancelQuiet(c: Cell, r: RunId)
    requires CellInv(c) && CancelCell(c).Ok?
    ensures Quiet(c, CancelCell(c).value, r, {})
  {
    if EndsAtOnce(c) && !Terminal(c.run.status) {
      IdleWhenEndingAtOnce(c);
    }
    hide CellInv, RevokeExcept, WithdrawAll;
  }

  lemma CancelMoves(c: Cell, r: RunId, now: Time)
    requires CellInv(c)
    ensures Moves(c, CancelOr(c), r, now)
  {
    hide CellInv, CellStep, CancelCell, Quiet, Fixed, IsChild;
    CancelKeeps(c, now);
    CancelFixed(c);
    CancelQuiet(c, r);
  }

  lemma CancelInKeeps(db: Db, top: RunId, now: Time, cfg: Config)
    requires DbInv(db, cfg) && CancelIn(db, top).Ok?
    ensures var to := CancelIn(db, top).value;
            DbInv(to, cfg) && DbStep(db.cells, now, to.cells, now) && DbQuiet(db.cells, to.cells, {})
  {
    hide DbInv, Moves, CancelOr, DbStep, DbQuiet, Under, Runs, CellInv;
    var cells := map r | r in db.cells :: if Under(db.cells, top, r) then CancelOr(db.cells[r]) else db.cells[r];
    forall r | r in db.cells ensures Moves(db.cells[r], cells[r], r, now) {
      CellOf(db, cfg, r);
      CancelMoves(db.cells[r], r, now);
      StaysMoves(db.cells[r], r, now);
    }
    AllMove(db, cells, now, cfg);
  }

  lemma FinishIdleQuiet(c: Cell, childrenDone: bool, r: RunId)
    requires CellInv(c)
    ensures Quiet(c, FinishIdleCell(c, childrenDone), r, {})
  {
    hide BarrierMet, Forms, Ledger, Closed, Delivered, RevokeExcept, WithdrawAll;
  }

  lemma FinishIdleMoves(c: Cell, childrenDone: bool, r: RunId, now: Time)
    requires CellInv(c)
    ensures Moves(c, FinishIdleCell(c, childrenDone), r, now)
  {
    hide CellInv, CellStep, Quiet, IsChild, RevokeExcept, WithdrawAll, DropAll, AnyUnresolved;
    FinishIdleKeeps(c, childrenDone, now);
    FinishIdleQuiet(c, childrenDone, r);
  }

  lemma FinishInKeeps(db: Db, r: RunId, now: Time, cfg: Config)
    requires DbInv(db, cfg)
    ensures var to := FinishIn(db, r);
            DbInv(to, cfg) && DbStep(db.cells, now, to.cells, now) && DbQuiet(db.cells, to.cells, {})
  {
    hide DbInv, DbStep, DbQuiet, Moves, FinishIdleCell, ChildrenDone;
    NothingHappens(db, now, {});
    if r in db.cells {
      CellOf(db, cfg, r);
      FinishIdleMoves(db.cells[r], ChildrenDone(db.cells, db.cells[r]), r, now);
      OneMoves(db, r, FinishIdleCell(db.cells[r], ChildrenDone(db.cells, db.cells[r])), now, cfg);
    }
  }

  /** Ending idle cancellations touches no attempt. */
  predicate SameHolder(m: map<RunId, Cell>, n: map<RunId, Cell>) {
    n.Keys == m.Keys && forall r :: r in m ==> n[r].attempts == m[r].attempts && n[r].run.attempt == m[r].run.attempt
  }

  lemma FinishInHolder(db: Db, r: RunId)
    ensures SameHolder(db.cells, FinishIn(db, r).cells)
  {
    hide AnyUnresolved, ChildrenDone, RevokeExcept, WithdrawAll, DropAll;
  }

  lemma QuietTransitive(m: map<RunId, Cell>, n: map<RunId, Cell>, o: map<RunId, Cell>)
    requires DbQuiet(m, n, {}) && DbQuiet(n, o, {}) && SameHolder(m, n) && SameHolder(n, o)
    ensures DbQuiet(m, o, {})
  {
    forall r | r in o ensures Quiet(m[r], o[r], r, {}) {
      assert Quiet(m[r], n[r], r, {}) && Quiet(n[r], o[r], r, {});
      forall k | k in m[r].ops ensures QuietOp(m[r].ops[k], o[r].ops[k], Slot(r, k) in {}) {
        assert QuietOp(m[r].ops[k], n[r].ops[k], Slot(r, k) in {});
        assert QuietOp(n[r].ops[k], o[r].ops[k], Slot(r, k) in {});
      }
    }
  }

  lemma {:induction false} FinishAllKeeps(db: Db, ids: seq<RunId>, now: Time, cfg: Config)
    requires DbInv(db, cfg)
    ensures var to := FinishAll(db, ids);
            DbInv(to, cfg) && DbStep(db.cells, now, to.cells, now) && DbQuiet(db.cells, to.cells, {})
            && SameHolder(db.cells, to.cells)
    decreases |ids|
  {
    hide DbInv, DbStep, DbQuiet, FinishIn;
    NothingHappens(db, now, {});
    if ids != [] {
      var mid := FinishIn(db, ids[|ids| - 1]);
      FinishInKeeps(db, ids[|ids| - 1], now, cfg);
      FinishInHolder(db, ids[|ids| - 1]);
      FinishAllKeeps(mid, ids[..|ids| - 1], now, cfg);
      var to := FinishAll(db, ids);
      DbStepTransitive(db.cells, now, mid.cells, now, to.cells, now);
      QuietTransitive(db.cells, mid.cells, to.cells);
    }
  }

  // ---------------------------------------------------------------- new runs

  lemma InsertStep(m: map<RunId, Cell>, n: map<RunId, Cell>, r: RunId, run: Run, now: Time)
    requires r !in m && n == m[r := NewCell(run)]
    ensures DbStep(m, now, n, now) && DbQuiet(m, n, {})
  {
    hide CellStep, Quiet;
    forall x | x in m ensures CellStep(m[x], now, n[x], now) && Quiet(m[x], n[x], x, {}) {
      CellStepTick(m[x], now, now);
      StaysQuiet(m[x], x, {});
    }
  }

  lemma DelegatingDbStep(m: map<RunId, Cell>, p: RunId, k: OpKey, r: RunId, argsHash: nat, run: Run, now: Time)
    requires Runs(m) && p in m && m[p].run.status.Running? && !m[p].run.cancelRequested && r !in m
    ensures var n := m[p := Delegating(m[p], k, r, argsHash)][r := NewCell(run)];
            DbStep(m, now, n, now) && DbQuiet(m, n, {})
  {
    hide CellStep, Quiet, CellInv;
    var n := m[p := Delegating(m[p], k, r, argsHash)][r := NewCell(run)];
    DelegatingStep(m[p], k, r, argsHash, now);
    SameOpsQuiet(m[p], n[p], p, {});
    forall x | x in m ensures CellStep(m[x], now, n[x], now) && Quiet(m[x], n[x], x, {}) {
      CellStepTick(m[x], now, now);
      StaysQuiet(m[x], x, {});
    }
  }

  lemma SubmitInKeeps(db: Db, now: Time, cfg: Config, r: RunId, branch: BranchId, inputRevision: nat,
                      deadline: Option<Time>, capabilities: set<Capability>,
                      limits: map<Budget.Dimension, Option<real>>)
    requires DbInv(db, cfg) && SubmitIn(db, r, branch, inputRevision, now, deadline, capabilities, limits).Ok?
    ensures var to := SubmitIn(db, r, branch, inputRevision, now, deadline, capabilities, limits).value;
            DbInv(to, cfg) && DbStep(db.cells, now, to.cells, now) && DbQuiet(db.cells, to.cells, {})
  {
    hide DbInv, DbStep, DbQuiet, Inserted;
    var to := SubmitIn(db, r, branch, inputRevision, now, deadline, capabilities, limits).value;
    SubmitKeeps(db, cfg, r, branch, inputRevision, now, deadline, capabilities, limits);
    InsertStep(db.cells, to.cells, r, RootRun(r, branch, inputRevision, now, deadline, capabilities), now);
  }

  lemma DelegateInKeeps(db: Db, ctx: Context, now: Time, k: OpKey, argsHash: nat, current: set<Capability>,
                        requested: Option<set<Capability>>, r: RunId, branch: BranchId, cfg: Config)
    requires DbInv(db, cfg)
    requires DelegateIn(db, ctx, now, k, argsHash, current, requested, r, branch, cfg.maxDepth).Ok?
    ensures var to := DelegateIn(db, ctx, now, k, argsHash, current, requested, r, branch, cfg.maxDepth).value;
            DbInv(to, cfg) && DbStep(db.cells, now, to.cells, now) && DbQuiet(db.cells, to.cells, {})
  {
    hide DbInv, DbStep, DbQuiet, Inserted, ReserveChild, CellInv, Runs, SameDelegation;
    DelegateKeeps(db, ctx, now, k, argsHash, current, requested, r, branch, cfg);
    NothingHappens(db, now, {});
    if Delegates(db, ctx, k) {
      var c := db.cells[ctx.run];
      var granted := if requested.Some? then requested.value else current * c.run.capabilities;
      CellOf(db, cfg, ctx.run);
      DelegatingDbStep(db.cells, ctx.run, k, r, argsHash, ChildRun(c.run, ctx.run, branch, now, granted), now);
    }
  }
}
