/** What settling an outcome that waits does to runs other than its own.  The source checks that an interaction
    belongs to the settling run, and looks up waits and operations by id alone. */
module Outcomes {
  import opened Domain
  import opened RunMachine
  import opened RunInvariant
  import opened Tables
  import opened TablesInvariant
  import opened WorldInvariant
  import opened Effects
  import opened Executors
  import opened Witnesses

  /** The reference names a row of another run, and binding it would write that row. */
  predicate Intrudes(cells: map<RunId, Cell>, self: RunId, r: Ref) {
    && r.run != self
    && (r.ChildrenRef?
        || (r.ReviewRef? && r.op.Some? && r.run in cells && r.op.value in cells[r.run].ops
            && cells[r.run].ops[r.op.value].state.Running?))
  }

  predicate OthersUntouched(m: map<RunId, Cell>, n: map<RunId, Cell>, self: RunId) {
    forall x :: x in m && x != self ==> x in n && n[x] == m[x]
  }

  ghost predicate RowsAge(c: Cell, d: Cell) {
    && (forall k :: k in c.waits ==> k in d.waits && c.waits[k].revision <= d.waits[k].revision)
    && (forall k :: k in c.ops ==> k in d.ops && c.ops[k].revision <= d.ops[k].revision)
  }

  lemma BindRefAges(c: Cell, inputRevision: nat, r: Ref)
    requires BindRef(c, inputRevision, r).Ok?
    ensures RowsAge(c, BindRef(c, inputRevision, r).value)
  {
    hide InterruptTaken;
  }

  lemma {:induction false} BindAllAges(cells: map<RunId, Cell>, self: RunId, inputRevision: nat, refs: seq<Ref>,
                                       x: RunId)
    requires BindAll(cells, self, inputRevision, refs).Ok? && x in cells
    ensures x in BindAll(cells, self, inputRevision, refs).value
    ensures RowsAge(cells[x], BindAll(cells, self, inputRevision, refs).value[x])
    decreases |refs|
  {
    hide BindRef;
    if refs != [] {
      BindRefAges(cells[refs[0].run], inputRevision, refs[0]);
      var c := BindRef(cells[refs[0].run], inputRevision, refs[0]).value;
      BindAllAges(cells[refs[0].run := c], self, inputRevision, refs[1..], x);
    }
  }

  /** Binding one reference leaves other runs alone unless it intrudes; if it does, a row's revision goes up. */
  lemma BindOne(cells: map<RunId, Cell>, self: RunId, inputRevision: nat, r: Ref)
    requires r.run in cells && !(r.UserRef? && r.run != self) && BindRef(cells[r.run], inputRevision, r).Ok?
    ensures var d := BindRef(cells[r.run], inputRevision, r).value;
            if Intrudes(cells, self, r) then d != cells[r.run] && !RowsAge(d, cells[r.run])
            else r.run == self || d == cells[r.run]
  {
    hide InterruptTaken;
  }

  /** The rows of other runs stay as they are exactly when no reference intrudes. */
  lemma {:induction false} OthersUntouchedIff(cells: map<RunId, Cell>, self: RunId, inputRevision: nat, refs: seq<Ref>)
    requires BindAll(cells, self, inputRevision, refs).Ok? && self in cells
    ensures OthersUntouched(cells, BindAll(cells, self, inputRevision, refs).value, self)
       <==> forall r :: r in refs ==> !Intrudes(cells, self, r)
    decreases |refs|
  {
    hide BindRef;
    if refs != [] {
      var r := refs[0];
      var d := BindRef(cells[r.run], inputRevision, r).value;
      var mid := cells[r.run := d];
      BindOne(cells, self, inputRevision, r);
      OthersUntouchedIff(mid, self, inputRevision, refs[1..]);
      BindAllAges(mid, self, inputRevision, refs[1..], r.run);
      if Intrudes(cells, self, r) {
        AgesOnce(cells[r.run], d, BindAll(mid, self, inputRevision, refs[1..]).value[r.run]);
        assert r in refs;
      } else {
        forall x ensures Intrudes(mid, self, x) <==> Intrudes(cells, self, x) {}
        assert forall x :: x in refs <==> x == r || x in refs[1..];
      }
    }
  }

  lemma AgesOnce(c: Cell, d: Cell, e: Cell)
    requires !RowsAge(d, c) && RowsAge(d, e)
    ensures e != c
  {}

  lemma BoundOthers(cells: map<RunId, Cell>, saved: Cell, self: RunId, refs: seq<Ref>)
    requires self in cells
    ensures (forall r :: r in refs ==> !Intrudes(cells[self := saved], self, r))
       <==> (forall r :: r in refs ==> !Intrudes(cells, self, r))
  {
    forall r: Ref ensures Intrudes(cells[self := saved], self, r) <==> Intrudes(cells, self, r) {}
  }

  /** What the settlement would bind. */
  function BoundRefs(db: Db, ctx: Context, o: Outcome): seq<Ref>
    requires ctx.run in db.cells
  {
    if db.cells[ctx.run].run.status.Running? && o.kind.Await? then o.refs else []
  }

  /** A whole settlement leaves the rows of other runs as they are exactly when no reference that it binds intrudes. */
  lemma SettlementUntouchedIff(db: Db, now: Time, ctx: Context, o: Outcome)
    requires SettleIn(db, now, ctx, o).Ok?
    ensures ctx.run in db.cells
    ensures OthersUntouched(db.cells, SettleIn(db, now, ctx, o).value.cells, ctx.run)
       <==> forall r :: r in BoundRefs(db, ctx, o) ==> !Intrudes(db.cells, ctx.run, r)
  {
    hide StopCell, AckCancelCell, SettleWaiting, ChildrenDone, Intrudes, OthersUntouched;
    var saved := Checkpointed(db.cells[ctx.run], o.checkpoint);
    var cells: map<RunId, Cell> := db.cells[ctx.run := saved];
    if db.cells[ctx.run].run.status.Running? && o.kind.Await? {
      WaitingUntouchedIff(cells, ctx, o);
      BoundOthers(db.cells, saved, ctx.run, o.refs);
      UntouchedBeside(db.cells, saved, SettleWaiting(cells, ctx, o).value, ctx.run);
    } else {
      OneWritten(db.cells, SettleIn(db, now, ctx, o).value.cells, ctx.run);
    }
  }

  lemma UntouchedBeside(m: map<RunId, Cell>, saved: Cell, n: map<RunId, Cell>, self: RunId)
    requires self in m
    ensures OthersUntouched(m[self := saved], n, self) <==> OthersUntouched(m, n, self)
  {}

  lemma OneWritten(m: map<RunId, Cell>, n: map<RunId, Cell>, self: RunId)
    requires self in m && self in n && n == m[self := n[self]]
    ensures OthersUntouched(m, n, self)
  {}

  lemma WaitingUntouchedIff(m: map<RunId, Cell>, ctx: Context, o: Outcome)
    requires ctx.run in m && SettleWaiting(m, ctx, o).Ok?
    ensures OthersUntouched(m, SettleWaiting(m, ctx, o).value, ctx.run)
       <==> forall r :: r in o.refs ==> !Intrudes(m, ctx.run, r)
  {
    hide ParkCell, RefreshCell, Wake, ReadyWaits, BindAll, Intrudes;
    OthersUntouchedIff(m, ctx.run, ctx.inputRevision, o.refs);
    var bound := BindAll(m, ctx.run, ctx.inputRevision, o.refs).value;
    assert SettleWaiting(m, ctx, o).value == bound[ctx.run := SettleWaiting(m, ctx, o).value[ctx.run]];
  }

  /** Run 1 settles an outcome that names run 2's wait. */
  const THEFT := Outcome(Await, 1, 0, Some(1), None, [ChildrenRef(9, 2, KEY)])

  lemma Stolen(db: Db, now: Time)
    requires 1 in db.cells && 2 in db.cells && FencePasses(db.cells[1].run, db.cells[1].attempts, CTX, now, false)
    requires db.cells[1].run.status.Running?
    requires db.cells[2].run.status.Queued? && db.cells[2].run.required == {5}
    requires db.cells[2].interactions == map[] && db.cells[2].reviewed == {}
    requires db.cells[2].waits == map[KEY := Wait.Wait([3], All, Some(5), true, Some(ChildrenReady), 3)]
    ensures SettleIn(db, now, CTX, THEFT).Ok?
    ensures var n := SettleIn(db, now, CTX, THEFT).value;
            2 in n.cells && n.cells[2].run.status.Queued? && !Barrier(n.cells[2].run, AnswersOf(n.cells[2]))
  {
    hide FencePasses, RefreshCell, ReadyWaits;
    FenceWidens(db.cells[1].run, db.cells[1].attempts, now);
    assert THEFT.refs[0].ChildrenRef? && THEFT.refs[0] in THEFT.refs && THEFT.refs[1..] == [];
    var saved := Checkpointed(db.cells[1], Some(1));
    var m := db.cells[1 := saved];
    var d := BindRef(m[2], 0, THEFT.refs[0]).value;
    assert BindAll(m, 1, 0, THEFT.refs) == Ok(m[2 := d]);
    assert d.waits[KEY].interrupt == Some(9) && !HasAnswer(AnswersOf(d), 5) && 5 in d.run.required;
  }

  lemma FenceWidens(r: Run, m: map<AttemptId, Attempt>, now: Time)
    ensures FencePasses(r, m, CTX, now, false) ==> FencePasses(r, m, CTX, now, true)
  {}

  /** From a reachable database, a settlement by a fenced context whose outcome names another run's wait succeeds, and
      leaves that run queued without an answer that it requires. */
  lemma IntrusionBreaksBarrier()
    ensures exists w, cfg ::
      && Reachable(w, cfg) && DbInv(w.db, cfg) && Admitted(w, CTX, false) && SettleIn(w.db, w.now, CTX, THEFT).Ok?
      && var n := SettleIn(w.db, w.now, CTX, THEFT).value;
         2 in n.cells && n.cells[2].run.status.Queued? && !Barrier(n.cells[2].run, AnswersOf(n.cells[2]))
  {
    hide Reachable, SettleIn, Barrier, WorldInv, DbInv;
    var w, cfg := TwoRuns();
    ReachableKeeps(w, cfg);
    DbOf(w, cfg);
    Stolen(w.db, w.now);
  }
}
