/** Claiming a run: who may be claimed, in which order, and what the claim keeps. */
module Claiming {
  import opened Domain
  import opened RunMachine
  import opened RunInvariant
  import opened RunSteps
  import opened Tables
  import opened TablesInvariant
  import opened RowEvents
  import opened NewRuns
  import opened Transactions

  // ---------------------------------------------------------------- the choice

  /** `Pick` returns the first claimable run of its list, and None only when there is none. */
  lemma {:induction false} PickIsFirst(db: Db, ids: seq<RunId>, cfg: Config)
    ensures match Pick(db, ids, cfg)
            case None => forall i :: 0 <= i < |ids| ==> !Claimable(db, ids[i], cfg)
            case Some(r) => exists i :: 0 <= i < |ids| && ids[i] == r && Claimable(db, r, cfg)
                                        && forall j :: 0 <= j < i ==> !Claimable(db, ids[j], cfg)
    decreases |ids|
  {
    hide Claimable;
    if ids != [] && !Claimable(db, ids[0], cfg) {
      PickIsFirst(db, ids[1..], cfg);
      var pick := Pick(db, ids[1..], cfg);
      if pick.Some? {
        var i :| 0 <= i < |ids[1..]| && ids[1..][i] == pick.value && Claimable(db, pick.value, cfg)
                 && forall j :: 0 <= j < i ==> !Claimable(db, ids[1..][j], cfg);
        assert ids[i + 1] == pick.value;
        forall j | 0 <= j < i + 1 ensures !Claimable(db, ids[j], cfg) {
          if j > 0 { assert ids[1..][j - 1] == ids[j]; }
        }
      } else {
        forall j | 0 <= j < |ids| ensures !Claimable(db, ids[j], cfg) {
          if j > 0 { assert ids[1..][j - 1] == ids[j]; }
        }
      }
    }
  }

  /** The run that `claim` takes, if it takes one. */
  function Chosen(db: Db, cfg: Config): Option<RunId> {
    if Count(db.order, db.cells, BusyRuns) >= cfg.workerSlots then None else Pick(db, db.order, cfg)
  }

  /** A run that waits for its branch's first claim. */
  predicate Unclaimed(c: Cell) {
    c.run.status.Queued? && c.run.attempt.None?
  }

  /** First in, first out: no root run that was never claimed is overtaken on its branch by a younger
      run claimed for the first time. */
  lemma FirstInFirstOut(db: Db, cfg: Config, x: RunId)
    requires DbInv(db, cfg) && Chosen(db, cfg).Some?
    requires x in db.cells && Unclaimed(db.cells[x]) && db.cells[x].run.parent.None?
    ensures var r := Chosen(db, cfg).value;
            r in db.cells && (Unclaimed(db.cells[r]) && db.cells[r].run.branch == db.cells[x].run.branch
                              ==> r == x || Before(db.cells, r, x))
  {
    hide Charged, Forest, Runs, WaitScopes, ParentsLast, Capacity;
    var r := Chosen(db, cfg).value;
    PickIsFirst(db, db.order, cfg);
    var i :| 0 <= i < |db.order| && db.order[i] == r && Claimable(db, r, cfg)
             && forall j :: 0 <= j < i ==> !Claimable(db, db.order[j], cfg);
    var k :| 0 <= k < |db.order| && db.order[k] == x;
    if Unclaimed(db.cells[r]) && db.cells[r].run.branch == db.cells[x].run.branch {
      assert BranchFree(db, r) && BranchFree(db, x);
      if k > i {
        assert Before(db.cells, db.order[i], db.order[k]);
      }
    }
  }

  // ---------------------------------------------------------------- the claim

  predicate Starts(c: Cell, d: Cell) {
    && Placed(c, d) && d.waits == c.waits && d.ops == c.ops && c.run.status.Queued? && d.run.status.Running?
    && d.run.attempt.Some?
  }

  lemma ClaimStarts(c: Cell, a: AttemptId, p: ProcessId, expiry: Time)
    requires CellInv(c) && ClaimCell(c, a, p, expiry).Ok? && c.run.status.Queued?
    ensures Starts(c, ClaimCell(c, a, p, expiry).value)
  {}

  lemma ClaimOwned(m: map<RunId, Cell>, branches: map<BranchId, Option<RunId>>, r: RunId, d: Cell)
    requires Owned(m, branches) && r in m && Starts(m[r], d)
    requires branches[m[r].run.branch].None? || branches[m[r].run.branch] == Some(r)
    ensures Owned(m[r := d], branches[d.run.branch := Some(r)])
  {}

  lemma ClaimCapacity(order: seq<RunId>, m: map<RunId, Cell>, r: RunId, d: Cell, cfg: Config)
    requires Ordered(order, m) && Capacity(order, m, cfg) && r in m && Starts(m[r], d)
    requires Count(order, m, BusyRuns) < cfg.workerSlots
    requires m[r].run.parent.Some? ==> Count(order, m, BusyChildren(m[r].run.root)) < cfg.childConcurrency
    ensures Capacity(order, m[r := d], cfg)
  {
    var n := m[r := d];
    OrderDistinct(order, m);
    hide Ordered;
    CountImplied(order, m, RunningRuns, BusyRuns);
    CountGain(order, m, n, RunningRuns, r);
    forall root ensures Count(order, n, RunningChildren(root)) <= cfg.childConcurrency {
      if m[r].run.parent.Some? && m[r].run.root == root {
        CountImplied(order, m, RunningChildren(root), BusyChildren(root));
        CountGain(order, m, n, RunningChildren(root), r);
      } else {
        CountLess(order, m, n, RunningChildren(root));
      }
    }
  }

  lemma OrderDistinct(order: seq<RunId>, m: map<RunId, Cell>)
    requires Ordered(order, m)
    ensures forall i, j :: 0 <= i < j < |order| ==> order[i] != order[j]
  {
    forall i, j | 0 <= i < j < |order| ensures order[i] != order[j] {
      assert Before(m, order[i], order[j]);
    }
  }

  lemma ClaimParents(m: map<RunId, Cell>, r: RunId, d: Cell)
    requires ParentsLast(m) && WaitScopes(m) && r in m && Starts(m[r], d)
    ensures ParentsLast(m[r := d]) && WaitScopes(m[r := d])
  {
    var n := m[r := d];
    forall x | x in n && n[x].run.status.Completed? ensures ChildrenDone(n, n[x]) {
      assert ChildrenDone(m, m[x]);
    }
  }

  lemma StartStep(m: map<RunId, Cell>, r: RunId, d: Cell, now: Time)
    requires Runs(m) && r in m && CellInv(d) && CellStep(m[r], now, d, now) && Starts(m[r], d)
    ensures Runs(m[r := d]) && DbStep(m, now, m[r := d], now) && DbQuiet(m, m[r := d], {})
    ensures AllPlaced(m, m[r := d])
  {
    hide CellInv, CellStep;
    forall x | x in m ensures CellStep(m[x], now, m[r := d][x], now) && Quiet(m[x], m[r := d][x], x, {}) {
      SameOpsQuiet(m[x], m[r := d][x], x, {});
      CellStepTick(m[x], now, now);
    }
  }

  lemma ClaimRunKeeps(db: Db, now: Time, cfg: Config, r: RunId, a: AttemptId, p: ProcessId)
    requires DbInv(db, cfg) && Claimable(db, r, cfg) && Count(db.order, db.cells, BusyRuns) < cfg.workerSlots
    requires ClaimRun(db, r, a, p, now + cfg.leaseSeconds).Ok?
    ensures var to := ClaimRun(db, r, a, p, now + cfg.leaseSeconds).value;
            DbInv(to, cfg) && DbStep(db.cells, now, to.cells, now) && DbQuiet(db.cells, to.cells, {})
  {
    hide Runs, Owned, WaitScopes, ParentsLast, Ordered, Capacity, Forest, Charged, DbStep, DbQuiet, CellInv, CellStep;
    hide Count, ClaimCell, AllPlaced;
    var c := db.cells[r];
    RunOf(db.cells, r);
    var d := ClaimCell(c, a, p, now + cfg.leaseSeconds).value;
    ClaimKeeps(c, a, p, now + cfg.leaseSeconds, now);
    ClaimStarts(c, a, p, now + cfg.leaseSeconds);
    StartStep(db.cells, r, d, now);
    ClaimOwned(db.cells, db.branches, r, d);
    ClaimCapacity(db.order, db.cells, r, d, cfg);
    ClaimParents(db.cells, r, d);
    PlacedForest(db.cells, db.cells[r := d], cfg.maxDepth);
    PlacedOrder(db.order, db.cells, db.cells[r := d]);
    PlacedCharged(db.order, db.cells, db.cells[r := d], db.books);
  }

  lemma NothingHappens(db: Db, now: Time, resets: set<Slot>)
    ensures DbStep(db.cells, now, db.cells, now) && DbQuiet(db.cells, db.cells, resets)
  {
    hide CellStep, Quiet;
    DbStepTick(db.cells, now, now);
    forall r | r in db.cells ensures Quiet(db.cells[r], db.cells[r], r, resets) {
      StaysQuiet(db.cells[r], r, resets);
    }
  }

  lemma ClaimInKeeps(db: Db, now: Time, a: AttemptId, p: ProcessId, cfg: Config)
    requires DbInv(db, cfg) && ClaimIn(db, now, a, p, cfg).Ok?
    ensures var to := ClaimIn(db, now, a, p, cfg).value;
            DbInv(to, cfg) && DbStep(db.cells, now, to.cells, now) && DbQuiet(db.cells, to.cells, {})
  {
    hide DbInv, DbStep, DbQuiet, Count, Pick, Claimable, ClaimRun;
    NothingHappens(db, now, {});
    PickIsFirst(db, db.order, cfg);
    if Chosen(db, cfg).Some? && Chosen(db, cfg).value in db.cells {
      ClaimRunKeeps(db, now, cfg, Chosen(db, cfg).value, a, p);
    }
  }
}
