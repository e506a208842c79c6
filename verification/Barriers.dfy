/** The interrupt barrier, wake-ups, and the cancellation barrier over the tree of runs. */
module Barriers {
  import opened Domain
  import opened RunMachine
  import opened RunInvariant
  import opened RunSteps
  import opened Tables
  import opened TablesInvariant
  import opened Transactions
  import opened Scans
  import opened Settling
  import opened World
  import opened WorldInvariant
  import opened WorldSteps
  import opened Effects

  // ---------------------------------------------------------------- the interrupt barrier

  /** In every reachable state a run that may execute has an answer to everything it waited for, and a run that
      waits lacks one. */
  lemma InterruptBarrier(w: World, cfg: Config, r: RunId)
    requires Reachable(w, cfg) && r in w.db.cells
    ensures var c := w.db.cells[r];
            && (c.run.status.Queued? || c.run.status.Running? || c.run.status.Recovering? ==>
                  forall i :: i in c.run.required ==> HasAnswer(AnswersOf(c), i))
            && (Waiting(c.run.status) ==> exists i :: i in c.run.required && !HasAnswer(AnswersOf(c), i))
  {
    hide LocksOk, Histories, HasAnswer;
    ReachableKeeps(w, cfg);
    CellOf(w.db, cfg, r);
  }

  /** An interaction that was resolved, expired or cancelled is never touched again. */
  lemma AnsweredForever(w: World, cfg: Config, v: World, r: RunId, k: RequestKey)
    requires Reachable(w, cfg) && Reaches(w, cfg, v)
    requires r in w.db.cells && k in w.db.cells[r].interactions && !Unclosed(w.db.cells[r].interactions[k])
    ensures r in v.db.cells && k in v.db.cells[r].interactions
    ensures v.db.cells[r].interactions[k] == w.db.cells[r].interactions[k]
  {
    hide WorldInv, LeaseStep, OpsFrozen, TreeGrows;
    ReachableKeeps(w, cfg);
    ReachesKeeps(w, cfg, v);
    assert CellStep(w.db.cells[r], w.now, v.db.cells[r], v.now);
    assert InteractionFrozen(w.db.cells[r].interactions[k], v.db.cells[r].interactions[k]);
  }

  // ---------------------------------------------------------------- no lost wake-up

  /** The scan gives a bound wait without resolution its resolution exactly if every child has ended, for mode `all`, or
      some child has, for mode `any`; every other wait stays as it was. */
  lemma ScanResolvesIff(db: Db, r: RunId, k: OpKey)
    requires r in db.cells && k in db.cells[r].waits
    ensures k in RefreshIn(db).cells[r].waits
    ensures var m, x, y := db.cells, db.cells[r].waits[k], RefreshIn(db).cells[r].waits[k];
            var ended := set i | i in x.children && i in m && Terminal(m[i].run.status);
            if x.bound && x.resolution.None?
               && match x.mode
                  case All => forall i :: i in x.children ==> i in ended
                  case Any => exists i :: i in x.children && i in ended
            then y == x.(resolution := Some(ChildrenReady), revision := x.revision + 1)
            else y == x
  {
    hide Wake;
    var c := db.cells[r];
    var ready := ReadyWaits(db.cells, c);
    WakesNoWait(c.(waits := ResolveWaits(c.waits, ready)));
    assert RefreshIn(db).cells[r] == RefreshCell(c, ready);
  }

  lemma WakesNoWait(c: Cell)
    ensures Wake(c).waits == c.waits
  {
    hide BarrierMet;
  }

  /** After a scan no bound wait is without its resolution whose children have all ended, for mode `all`, or some of
      whose children have, for mode `any`. */
  lemma ScanMissesNoWait(db: Db, r: RunId, k: OpKey)
    requires r in db.cells && k in RefreshIn(db).cells[r].waits && RefreshIn(db).cells[r].waits[k].bound
    requires var n, x := RefreshIn(db).cells, RefreshIn(db).cells[r].waits[k];
             match x.mode
             case All => forall i :: i in x.children ==> i in n && Terminal(n[i].run.status)
             case Any => exists i :: i in x.children && i in n && Terminal(n[i].run.status)
    ensures RefreshIn(db).cells[r].waits[k].resolution.Some?
  {
    hide RefreshIn;
    var n := RefreshIn(db).cells;
    ScanEndsNothing(db);
    ScanKeepsWaits(db, r);
    ScanResolvesIff(db, r, k);
  }

  lemma ScanEndsNothing(db: Db)
    ensures RefreshIn(db).cells.Keys == db.cells.Keys
    ensures forall x :: x in db.cells ==>
              (Terminal(RefreshIn(db).cells[x].run.status) <==> Terminal(db.cells[x].run.status))
  {
    hide RefreshCell, ReadyWaits, Terminal;
    var n := RefreshIn(db).cells;
    forall x | x in db.cells ensures Terminal(n[x].run.status) <==> Terminal(db.cells[x].run.status) {
      RefreshEndsNothing(db.cells[x], ReadyWaits(db.cells, db.cells[x]));
    }
  }

  lemma ScanKeepsWaits(db: Db, r: RunId)
    requires r in db.cells
    ensures RefreshIn(db).cells[r].waits.Keys == db.cells[r].waits.Keys
  {
    hide Wake, ReadyWaits;
    var c := db.cells[r];
    WakesNoWait(c.(waits := ResolveWaits(c.waits, ReadyWaits(db.cells, c))));
  }

  /** No bound wait that would answer the interrupt is satisfied: one of mode `all` has a child that has not ended, one
      of mode `any` has no child that has. */
  predicate Unready(n: map<RunId, Cell>, r: RunId, i: Interrupt)
    requires r in n
  {
    forall k :: k in n[r].waits && n[r].waits[k].interrupt == Some(i) ==>
      var x := n[r].waits[k];
      match x.mode
      case All => exists c :: c in x.children && !(c in n && Terminal(n[c].run.status))
      case Any => forall c :: c in x.children ==> !(c in n && Terminal(n[c].run.status))
  }

  /** So a run that still waits after the scan lacks an answer that no finished child could have given. */
  lemma NoLostWakeUp(w: World, cfg: Config, r: RunId)
    requires Reachable(w, cfg) && r in w.db.cells
    ensures var n := RefreshIn(w.db).cells;
            Waiting(n[r].run.status) ==>
              exists i :: i in n[r].run.required && !HasAnswer(AnswersOf(n[r]), i)
                          && Unready(n, r, i)
  {
    hide LocksOk, Histories, RefreshIn, CellInv, Unready, Runs;
    ReachableKeeps(w, cfg);
    RefreshInKeeps(w.db, w.now, cfg);
    var to := RefreshIn(w.db);
    StillThere(w.db.cells, to.cells, w.now);
    CellOf(to, cfg, r);
    ScannedBarrier(w.db, r);
  }

  lemma ScannedBarrier(db: Db, r: RunId)
    requires r in db.cells && r in RefreshIn(db).cells && CellInv(RefreshIn(db).cells[r])
    ensures var n := RefreshIn(db).cells;
            Waiting(n[r].run.status) ==>
              exists i :: i in n[r].run.required && !HasAnswer(AnswersOf(n[r]), i)
                          && Unready(n, r, i)
  {
    hide RefreshIn, Leases, CancelFlag, Ledger, Closed, Delivered;
    var n := RefreshIn(db).cells;
    if Waiting(n[r].run.status) {
      var i :| i in n[r].run.required && !HasAnswer(AnswersOf(n[r]), i);
      if !Unready(n, r, i) {
        var k :| k in n[r].waits && n[r].waits[k].interrupt == Some(i)
                 && !match n[r].waits[k].mode
                     case All => exists c :: c in n[r].waits[k].children && !(c in n && Terminal(n[c].run.status))
                     case Any => forall c :: c in n[r].waits[k].children ==> !(c in n && Terminal(n[c].run.status));
        assert WaitOk(n[r].waits[k]);
        ScanMissesNoWait(db, r, k);
      }
    }
  }

  // ---------------------------------------------------------------- the cancellation barrier

  /** A run whose status was `before` when its tree was cancelled is cancelling or cancelled, or had ended. */
  predicate Ending(before: Status, c: Cell) {
    || c.run.status.Cancelling? || c.run.status.Cancelled?
    || (Terminal(before) && c.run.status == before)
  }

  /** Every run that is below `top` in `n` was there before, and is ended or ending. */
  ghost predicate TreeEnding(m: map<RunId, Cell>, n: map<RunId, Cell>, top: RunId) {
    forall x :: x in n && Under(n, top, x) ==> x in m && Under(m, top, x) && Ending(m[x].run.status, n[x])
  }

  lemma {:induction false} UnderPlaced(m: map<RunId, Cell>, n: map<RunId, Cell>, top: RunId, x: RunId)
    requires n.Keys == m.Keys && forall r :: r in m ==> SameIdentity(m[r].run, n[r].run)
    ensures Under(n, top, x) == Under(m, top, x)
    decreases if x in m then m[x].run.depth else 0
  {
    if x in m {
      assert SameIdentity(m[x].run, n[x].run);
      if x != top && m[x].run.parent.Some? {
        var p := m[x].run.parent.value;
        if p in m && m[p].run.depth < m[x].run.depth {
          UnderPlaced(m, n, top, p);
        }
      }
    }
  }

  lemma CancelledStatus(c: Cell)
    requires CancelCell(c).Ok?
    ensures Ending(c.run.status, CancelOr(c)) && (Terminal(c.run.status) ==> CancelOr(c) == c)
  {
    hide RevokeExcept, WithdrawAll, DropAll, EndsAtOnce;
  }

  lemma CancelledCell(c: Cell, now: Time)
    requires CellInv(c)
    ensures Ending(c.run.status, CancelOr(c)) && SameIdentity(c.run, CancelOr(c).run)
    ensures Terminal(c.run.status) ==> CancelOr(c) == c
  {
    hide CellInv, CellStep, CancelCell, Ending;
    CancelKeeps(c, now);
    CancelFixed(c);
    CancelledStatus(c);
  }

  lemma CancelledCells(db: Db, now: Time, cfg: Config, top: RunId, x: RunId)
    requires DbInv(db, cfg) && CancelIn(db, top).Ok? && x in db.cells
    ensures var d := CancelIn(db, top).value.cells[x];
            && SameIdentity(db.cells[x].run, d.run) && (Terminal(db.cells[x].run.status) ==> d == db.cells[x])
            && if Under(db.cells, top, x) then Ending(db.cells[x].run.status, d) else d == db.cells[x]
  {
    hide CellInv, Under, Runs, Ending, CancelOr, DbInv;
    CellOf(db, cfg, x);
    CancelledCell(db.cells[x], now);
  }

  /** One cancellation reaches the whole tree, and only the tree; what had ended is left as it was. */
  lemma CancelReachesTree(db: Db, now: Time, cfg: Config, top: RunId)
    requires DbInv(db, cfg) && CancelIn(db, top).Ok?
    ensures CancelIn(db, top).value.cells.Keys == db.cells.Keys
    ensures TreeEnding(db.cells, CancelIn(db, top).value.cells, top)
    ensures forall x :: x in db.cells && (!Under(db.cells, top, x) || Terminal(db.cells[x].run.status))
              ==> CancelIn(db, top).value.cells[x] == db.cells[x]
  {
    hide CellInv, Under, Runs, Ending, CancelOr, DbInv;
    var m, n := db.cells, CancelIn(db, top).value.cells;
    forall x | x in m
      ensures SameIdentity(m[x].run, n[x].run) && (Under(m, top, x) ==> Ending(m[x].run.status, n[x]))
      ensures Terminal(m[x].run.status) || !Under(m, top, x) ==> n[x] == m[x]
    {
      CancelledCells(db, now, cfg, top, x);
    }
    forall x | x in n && Under(n, top, x) ensures x in m && Under(m, top, x) && Ending(m[x].run.status, n[x]) {
      UnderPlaced(m, n, top, x);
    }
  }

  // ---------------------------------------------------------------- and it stays

  lemma EndingStays(before: Status, c: Cell, now: Time, d: Cell, later: Time)
    requires CellStep(c, now, d, later) && CellInv(c) && CellInv(d) && Ending(before, c)
    ensures Ending(before, d) && d.deps == c.deps
  {
    hide Leases, Forms, Ledger, Closed, Delivered, Barrier, AttemptsGrow, FenceShrinks, OpsFrozen, InteractionsFrozen;
  }

  /** Who is under `top` later was under it when the barrier rose: its parent could delegate no more. */
  lemma {:induction false} TreeStays(o: map<RunId, Cell>, m: map<RunId, Cell>, now: Time, n: map<RunId, Cell>,
                                     later: Time,
                                     maxDepth: nat, top: RunId, x: RunId)
    requires Forest(m, maxDepth) && Forest(n, maxDepth) && DbStep(m, now, n, later) && Runs(m) && Runs(n)
    requires TreeEnding(o, m, top) && top in m && x in n && Under(n, top, x)
    ensures x in m && Under(m, top, x) && x in o && Under(o, top, x) && Ending(o[x].run.status, n[x])
    decreases n[x].run.depth
  {
    hide CellStep, CellInv, Ending;
    if x != top {
      var p := n[x].run.parent.value;
      TreeStays(o, m, now, n, later, maxDepth, top, p);
      EndingStays(o[p].run.status, m[p], now, n[p], later);
      assert Rooted(n, x, maxDepth) && Branching(m, p);
      var d :| d in n[p].deps && d.child == x;
      assert m[x].run.parent == Some(p);
      assert Rooted(m, x, maxDepth);
    }
    EndingStays(o[x].run.status, m[x], now, n[x], later);
  }

  /** After a cancellation every run of the tree is ended or cancelling, at every later time; none is queued, runs,
      waits, completes or fails that had not ended before, and the tree gains no member. */
  lemma CancellationBarrier(w: World, cfg: Config, top: RunId, v: World)
    requires Reachable(w, cfg) && Apply(w, cfg, Cancel(top)).Ok? && Reaches(Next(w, cfg, Cancel(top)), cfg, v)
    ensures TreeEnding(w.db.cells, v.db.cells, top)
  {
    hide WorldInv, Under, Ending, CancelIn, DbStep, Reaches, Runs, Forest, DbInv;
    var mid := Next(w, cfg, Cancel(top));
    ReachableKeeps(w, cfg);
    StepKeeps(w, cfg, Cancel(top));
    ReachesKeeps(mid, cfg, v);
    ForestOf(w, cfg);
    ForestOf(mid, cfg);
    ForestOf(v, cfg);
    CancelReachesTree(w.db, w.now, cfg, top);
    CancelledTop(w.db, top);
    forall x | x in v.db.cells && Under(v.db.cells, top, x)
      ensures x in w.db.cells && Under(w.db.cells, top, x) && Ending(w.db.cells[x].run.status, v.db.cells[x])
    {
      TreeStays(w.db.cells, mid.db.cells, mid.now, v.db.cells, v.now, cfg.maxDepth, top, x);
    }
  }

  lemma CancelledTop(db: Db, top: RunId)
    requires CancelIn(db, top).Ok?
    ensures top in db.cells
  {}
}
