/** Every transaction that writes more than one run, or reads one to write another, keeps the database's
    invariant, undoes nothing, and leaves the operation ledger to the gateway. */
module Transactions {
  import opened Domain
  import opened RunMachine
  import opened RunInvariant
  import opened Tables
  import opened TablesInvariant
  import opened RowEvents

  // ---------------------------------------------------------------- what a step of the database is

  /** No run disappears, and what a run's rows hold is moved on as `CellStep` allows. */
  ghost predicate DbStep(m: map<RunId, Cell>, now: Time, n: map<RunId, Cell>, later: Time) {
    forall r :: r in m ==> r in n && CellStep(m[r], now, n[r], later)
  }

  /** A run that starts has no rows yet. */
  ghost predicate DbQuiet(m: map<RunId, Cell>, n: map<RunId, Cell>, resets: set<Slot>) {
    forall r :: r in n ==> if r in m then Quiet(m[r], n[r], r, resets) else n[r].ops == map[]
  }

  lemma DbStepTransitive(m: map<RunId, Cell>, t: Time, n: map<RunId, Cell>, u: Time, o: map<RunId, Cell>, v: Time)
    requires DbStep(m, t, n, u) && DbStep(n, u, o, v)
    ensures DbStep(m, t, o, v)
  {
    hide CellStep;
    forall r | r in m ensures r in o && CellStep(m[r], t, o[r], v) {
      CellStepTransitive(m[r], t, n[r], u, o[r], v);
    }
  }

  lemma DbStepTick(m: map<RunId, Cell>, now: Time, later: Time)
    requires now <= later
    ensures DbStep(m, now, m, later)
  {
    hide CellStep;
    forall r | r in m ensures CellStep(m[r], now, m[r], later) {
      CellStepTick(m[r], now, later);
    }
  }

  lemma AdvancedStep(m: map<RunId, Cell>, n: map<RunId, Cell>, now: Time)
    requires AllAdvanced(m, n, now)
    ensures DbStep(m, now, n, now)
  {
    hide CellStep, CellInv;
    forall r | r in m ensures CellStep(m[r], now, n[r], now) {
      assert Advanced(m[r], n[r], now);
    }
  }

  lemma StaysQuiet(c: Cell, r: RunId, resets: set<Slot>)
    ensures Quiet(c, c, r, resets)
  {}

  // ---------------------------------------------------------------- one run's rows

  lemma CellOf(db: Db, cfg: Config, r: RunId)
    requires DbInv(db, cfg) && r in db.cells
    ensures Runs(db.cells) && CellInv(db.cells[r])
  {
    hide CellInv;
  }

  lemma PutStep(db: Db, r: RunId, d: Cell, now: Time)
    requires Runs(db.cells) && r in db.cells && Advanced(db.cells[r], d, now)
    ensures DbStep(db.cells, now, db.cells[r := d], now)
  {
    hide Advanced;
    OneAdvanced(db.cells, r, d, now);
    AdvancedStep(db.cells, db.cells[r := d], now);
  }

  lemma PutQuiet(db: Db, r: RunId, d: Cell, resets: set<Slot>)
    requires r in db.cells && Quiet(db.cells[r], d, r, resets)
    ensures DbQuiet(db.cells, db.cells[r := d], resets)
  {
    hide Quiet;
    forall x | x in db.cells && x != r ensures Quiet(db.cells[x], db.cells[x], x, resets) {
      StaysQuiet(db.cells[x], x, resets);
    }
  }

  function RowIn(db: Db, now: Time, r: RunId, e: RowEvent): Result<Db> {
    if r !in db.cells then Err(NotFound) else Put(db, r, ApplyRow(db.cells[r], now, e))
  }

  lemma RowNotCompleted(c: Cell, now: Time, e: RowEvent)
    requires ApplyRow(c, now, e).Ok?
    ensures ApplyRow(c, now, e).value.run.status.Completed? ==> c.run.status.Completed?
  {
    hide FencePasses, BarrierMet, AnyUnaccepted, PendingInputs, RevokeExcept, IsChild;
  }

  lemma RowInKeeps(db: Db, now: Time, cfg: Config, r: RunId, e: RowEvent)
    requires DbInv(db, cfg) && RowIn(db, now, r, e).Ok?
    ensures var to := RowIn(db, now, r, e).value;
            DbInv(to, cfg) && DbStep(db.cells, now, to.cells, now) && DbQuiet(db.cells, to.cells, ResetBy(r, e))
  {
    hide CellInv, DbInv, Advanced, Quiet, DbStep, DbQuiet, ApplyRow, ResetBy, ChildrenDone, Runs;
    var d := ApplyRow(db.cells[r], now, e).value;
    CellOf(db, cfg, r);
    RowKeeps(db.cells[r], now, e);
    RowQuiet(db.cells[r], now, r, e);
    RowNotCompleted(db.cells[r], now, e);
    PutKeeps(db, r, d, now, cfg);
    PutStep(db, r, d, now);
    PutQuiet(db, r, d, ResetBy(r, e));
  }
}
