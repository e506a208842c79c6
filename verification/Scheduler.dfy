/** The scheduler's methods over the store, each against the function that specifies it. */
module Scheduler {
  import opened Domain
  import opened Collections
  import opened RunMachine
  import opened RunInvariant
  import opened Tables
  import opened TablesInvariant
  import opened Store
  import opened NewRuns
  import opened RunSteps
  import opened RowEvents
  import opened Transactions
  import opened Claiming
  import opened Settling
  import opened Scans
  import opened TaskTree
  import opened SchedulerLoops
  import Budget

  class Scheduler {
    const store: Store
    const cfg: Config

    constructor (store: Store, cfg: Config)
      ensures this.store == store && this.cfg == cfg
    {
      this.store, this.cfg := store, cfg;
    }

    ghost predicate Valid()
      reads store
    {
      DbInv(store.Contents(), cfg)
    }

    /** The context may act for its run. */
    predicate Fenced(ctx: Context, now: Time)
      reads store
    {
      ctx.run in store.cells && FencePasses(store.cells[ctx.run].run, store.cells[ctx.run].attempts, ctx, now, false)
    }

    // ---------------------------------------------------------------- transition

    method CloseInteractions(r: RunId)
      requires r in store.cells
      modifies store`cells
      ensures store.cells == old(store.cells)[r := old(store.cells)[r].(interactions :=
                WithdrawAll(old(store.cells)[r].interactions))]
    {
      var c := store.cells[r];
      var rows := c.interactions;
      var rest := rows.Keys;
      assert rows == WithdrawExcept(rows, rest) && store.cells == store.cells[r := c.(interactions := rows)];
      while rest != {}
        invariant rest <= rows.Keys
        invariant store.cells == old(store.cells)[r := c.(interactions := WithdrawExcept(rows, rest))]
        decreases |rest|
      {
        var k :| k in rest;
        WithdrawOneMore(rows, rest, k);
        if Unclosed(rows[k]) {
          var ok := store.UpdateInteraction(r, k, rows[k].revision,
            rows[k].(status := InteractionStatus.Cancelled, resolution := Some(Withdrawn)));
          assert ok;
        }
        rest := rest - {k};
      }
      assert WithdrawExcept(rows, rest) == WithdrawAll(rows);
    }

    method DropOperations(r: RunId)
      requires r in store.cells
      modifies store`cells
      ensures store.cells == old(store.cells)[r := old(store.cells)[r].(ops := DropAll(old(store.cells)[r].ops))]
    {
      var c := store.cells[r];
      var rows := c.ops;
      var rest := rows.Keys;
      assert rows == DropExcept(rows, rest) && store.cells == store.cells[r := c.(ops := rows)];
      while rest != {}
        invariant rest <= rows.Keys
        invariant store.cells == old(store.cells)[r := c.(ops := DropExcept(rows, rest))]
        decreases |rest|
      {
        var k :| k in rest;
        DropOneMore(rows, rest, k);
        if rows[k].state.Prepared? || rows[k].state.Authorized? {
          var ok := store.UpdateOperation(r, k, rows[k].revision,
            rows[k].(state := OpState.Cancelled, result := Some(RUN_TERMINAL)));
          assert ok;
        }
        rest := rest - {k};
      }
      assert DropExcept(rows, rest) == DropAll(rows);
    }

    /** `transition` of the row `row`, as read at its revision and patched by the caller. */
    method Transition(r: RunId, row: Run, to: Status) returns (res: Result<Run>)
      requires r in store.cells
      modifies store`cells, store`branches
      ensures res.Ok? <==> Allowed(row.status, to) && old(store.cells)[r].run.revision == row.revision
      ensures res.Ok? ==>
        && store.cells == old(store.cells)[r := RunMachine.Transition(old(store.cells)[r].(run := row), to).value]
        && store.branches == (if Terminal(to) then Released(old(store.branches), row.branch, r)
                              else old(store.branches))
        && res.value == store.cells[r].run
      ensures res.Err? ==> store.cells == old(store.cells) && store.branches == old(store.branches)
    {
      if !Allowed(row.status, to) {
        return Err(InvalidTransition);
      }
      var moved := store.UpdateRun(r, row.revision, row.(status := to));
      if !moved {
        return Err(RevisionConflict);
      }
      if Terminal(to) {
        if row.branch in store.branches && store.branches[row.branch] == Some(r) {
          var freed := store.SetBranchOwner(row.branch, Some(r), None);
          assert freed;
        }
        store.RevokeGrants(r, {});
        CloseInteractions(r);
        DropOperations(r);
      }
      return Ok(store.cells[r].run);
    }

    // ---------------------------------------------------------------- cancel

    /** The worklist: the run itself, then the children of each listed run. */
    method Descendants(top: RunId) returns (ids: seq<RunId>, rows: seq<Run>)
      requires Valid() && top in store.cells
      ensures Distinct(ids) && |rows| == |ids|
      ensures forall i :: 0 <= i < |ids| ==> ids[i] in store.cells && rows[i] == store.cells[ids[i]].run
      ensures forall x :: x in store.cells ==> (x in ids <==> Under(store.cells, top, x))
    {
      hide Runs, Ordered, Rooted, Branching, Owned, Capacity, WaitScopes, ParentsLast, Charged, Under;
      ids := [top];
      var cursor := 0;
      assert Under(store.cells, top, top) by { TopIsUnder(store.cells, top); }
      while cursor < |ids|
        invariant cursor <= |ids| && Distinct(ids) && Listed(store.cells, top, ids, cursor)
        invariant TaskTree.Closed(store.cells, ids, cursor)
        decreases |store.cells| - cursor
      {
        Extends(store.cells, cfg.maxDepth, top, ids, cursor);
        ListIsShort(store.cells, ids);
        ids := ids + ChildIds(store.cells[ids[cursor]].deps);
        cursor := cursor + 1;
      }
      rows := seq(|ids|, i requires 0 <= i < |ids| && ids[i] in store.cells reads store => store.cells[ids[i]].run);
      forall x | x in store.cells ensures x in ids <==> Under(store.cells, top, x) {
        ListsTheTree(store.cells, top, ids, x);
      }
    }

    /** The barrier of one run: its flag, grants and forms, and then its status. */
    method CancelRun(r: RunId, row: Run)
      requires r in store.cells && store.cells[r].run == row && CellInv(store.cells[r])
      modifies store`cells, store`branches
      ensures store.cells == old(store.cells)[r := CancelOr(old(store.cells)[r])]
      ensures var d := CancelOr(old(store.cells)[r]);
              store.branches == if Terminal(d.run.status) && !Terminal(row.status)
                                then Released(old(store.branches), row.branch, r) else old(store.branches)
    {
      hide CellInv, RevokeExcept, WithdrawAll, DropAll;
      ghost var c := store.cells[r];
      CancelKeeps(c, 0);
      if Terminal(row.status) {
        assert store.cells == store.cells[r := c];
        return;
      }
      var marked := store.UpdateRun(r, row.revision, row.(cancelRequested := true));
      assert marked;
      store.RevokeGrants(r, {});
      CloseInteractions(r);
      var barred := store.cells[r];
      assert barred == Barred(c);
      if barred.run.status.Queued?
         || (barred.run.status.WaitingUser? && barred.deps == []
             && !exists k :: k in barred.ops && BusyOp(barred.ops[k])) {
        var ended := Transition(r, barred.run, Status.Cancelled);
        assert ended.Ok?;
      } else if !barred.run.status.Cancelling? {
        var ending := Transition(r, barred.run, Status.Cancelling);
        assert ending.Ok?;
      }
    }

    /** `cancel`: the rows are read before any is written, and each is written once at the revision it was read at. */
    method Cancel(top: RunId) returns (res: Result<()>)
      requires Valid()
      modifies store`cells, store`branches
      ensures res.Ok? <==> CancelIn(old(store.Contents()), top).Ok?
      ensures res.Err? ==> res.error == NotFound
      ensures store.Contents() == if res.Ok? then CancelIn(old(store.Contents()), top).value else old(store.Contents())
      ensures Valid()
    {
      hide DbInv, CellInv, CancelOr, Freed, Under, Runs;
      if top !in store.cells {
        return Err(NotFound);
      }
      ghost var db := store.Contents();
      ghost var m, branches := store.cells, store.branches;
      var ids, rows := Descendants(top);
      OwnersOf(db, cfg);
      FreedNothing(branches, m);
      assert CancelledUpTo(m, ids[..0]) == m;
      var i := 0;
      while i < |ids|
        invariant i <= |ids|
        invariant store.cells == CancelledUpTo(m, ids[..i])
        invariant store.branches == Freed(branches, store.cells)
        invariant store.order == db.order && store.books == db.books
      {
        CancelOneMore(m, ids, i);
        CellOf(db, cfg, ids[i]);
        CancelledRun(m[ids[i]], 0);
        OwnerOf(db, cfg, ids[i]);
        FreedStep(branches, store.cells, ids[i], CancelOr(m[ids[i]]));
        EndedOwnsNothing(branches, store.cells, ids[i]);
        CancelRun(ids[i], rows[i]);
        i := i + 1;
      }
      assert ids[..i] == ids;
      assert store.cells == map r | r in m :: if Under(m, top, r) then CancelOr(m[r]) else m[r];
      CancelInKeeps(db, top, 0, cfg);
      return Ok(());
    }

    // ---------------------------------------------------------------- claim

    method CountRuns(q: Query) returns (n: nat)
      ensures n == Count(store.order, store.cells, q)
    {
      n := 0;
      var i := |store.order|;
      while i > 0
        invariant 0 <= i <= |store.order| && n == Count(store.order[i..], store.cells, q)
      {
        i := i - 1;
        assert store.order[i..][1..] == store.order[i + 1..];
        if store.order[i] in store.cells && Hit(q, store.cells[store.order[i]]) {
          n := n + 1;
        }
      }
      assert store.order[0..] == store.order;
    }

    /** The writes of a claim. */
    method Start(r: RunId, row: Run, a: AttemptId, p: ProcessId, expiry: Time) returns (res: Result<Context>)
      requires r in store.cells && store.cells[r].run == row && row.status.Queued? && row.branch in store.branches
      modifies store`cells, store`branches
      ensures res.Ok? <==> ClaimRun(old(store.Contents()), r, a, p, expiry).Ok?
      ensures res.Err? ==> res.error == Integrity
      ensures store.Contents() == if res.Ok? then ClaimRun(old(store.Contents()), r, a, p, expiry).value
                                  else old(store.Contents())
      ensures res.Ok? ==> res.value == Context(r, a, row.token + 1, row.inputRevision)
    {
      var cells, branches := store.cells, store.branches;
      var owned := store.SetBranchOwner(row.branch, store.branches[row.branch], Some(r));
      assert owned;
      var added := store.AddAttempt(r, a, Attempt(row.token + 1, p, expiry, false));
      if !added {
        store.Restore(cells, branches);
        return Err(Integrity);
      }
      var started := Transition(r, row.(attempt := Some(a), token := row.token + 1), Status.Running);
      assert started.Ok?;
      return Ok(Context(r, a, row.token + 1, row.inputRevision));
    }

    /** Whether the row may be claimed now; a queued run was never asked to cancel. */
    method MayClaim(r: RunId) returns (yes: bool)
      requires Valid() && r in store.cells
      ensures yes <==> Claimable(store.Contents(), r, cfg)
    {
      hide DbInv, CellInv, Runs, Count;
      var row := store.cells[r].run;
      if !row.status.Queued? || row.branch !in store.branches
         || (store.branches[row.branch].Some? && store.branches[row.branch] != Some(r)) {
        return false;
      }
      if row.cancelRequested {
        CellOf(store.Contents(), cfg, r);
        NotQueuedWhenCancelled(store.cells[r]);
        assert false;
      }
      if row.parent.Some? {
        var siblings := CountRuns(BusyChildren(row.root));
        return siblings < cfg.childConcurrency;
      }
      return true;
    }

    /** `claim`: the first queued run, by creation, whose branch is free and whose root has room for it. */
    method Claim(p: ProcessId, a: AttemptId, now: Time) returns (res: Result<Option<Context>>)
      requires Valid()
      modifies store`cells, store`branches
      ensures res.Ok? <==> ClaimIn(old(store.Contents()), now, a, p, cfg).Ok?
      ensures res.Err? ==> res.error == Integrity
      ensures store.Contents() == if res.Ok? then ClaimIn(old(store.Contents()), now, a, p, cfg).value
                                  else old(store.Contents())
      ensures Valid()
      ensures res.Ok? && res.value.Some? && 0 < cfg.leaseSeconds ==> Fenced(res.value.value, now)
    {
      hide DbInv, CellInv, Runs, FencePasses, Count, Claimable;
      ghost var db := store.Contents();
      var running := CountRuns(BusyRuns);
      if running >= cfg.workerSlots {
        return Ok(None);
      }
      OrderListed(db, cfg);
      var i := 0;
      while i < |store.order|
        invariant 0 <= i <= |db.order| && store.Contents() == db
        invariant Pick(db, db.order, cfg) == Pick(db, db.order[i..], cfg)
      {
        var r := store.order[i];
        assert db.order[i..][1..] == db.order[i + 1..];
        var claimable := MayClaim(r);
        if claimable {
          var started := ClaimThis(r, a, p, now);
          return started;
        }
        i := i + 1;
      }
      return Ok(None);
    }

    method ClaimThis(r: RunId, a: AttemptId, p: ProcessId, now: Time) returns (res: Result<Option<Context>>)
      requires Valid() && r in store.cells && Claimable(store.Contents(), r, cfg)
      requires Count(store.order, store.cells, BusyRuns) < cfg.workerSlots
      modifies store`cells, store`branches
      ensures res.Ok? <==> ClaimRun(old(store.Contents()), r, a, p, now + cfg.leaseSeconds).Ok?
      ensures res.Err? ==> res.error == Integrity
      ensures store.Contents() == if res.Ok? then ClaimRun(old(store.Contents()), r, a, p, now + cfg.leaseSeconds).value
                                  else old(store.Contents())
      ensures Valid()
      ensures res.Ok? && res.value.Some? && 0 < cfg.leaseSeconds ==> Fenced(res.value.value, now)
    {
      hide DbInv, CellInv, Runs, FencePasses, Count, ClaimCell;
      ghost var db := store.Contents();
      CellOf(db, cfg, r);
      NotQueuedWhenCancelled(db.cells[r]);
      var started := Start(r, store.cells[r].run, a, p, now + cfg.leaseSeconds);
      if started.Err? {
        return Err(started.error);
      }
      ClaimRunKeeps(db, now, cfg, r, a, p);
      if 0 < cfg.leaseSeconds {
        ClaimedFence(db.cells[r], r, a, p, now, cfg.leaseSeconds);
      }
      return Ok(Some(started.value));
    }

    // ---------------------------------------------------------------- answers and expiry

    /** `_wake`. */
    method WakeRun(r: RunId)
      requires r in store.cells
      modifies store`cells, store`branches
      ensures store.cells == old(store.cells)[r := Wake(old(store.cells)[r])] && store.branches == old(store.branches)
    {
      hide BarrierMet, ReadyInterrupts;
      var c := store.cells[r];
      ReadyMeansAnswered(AnswersOf(c), c.run.required);
      if Waiting(c.run.status) && !c.run.cancelRequested && c.run.required <= ReadyInterrupts(AnswersOf(c)) {
        var woken := Transition(r, c.run, Status.Queued);
        assert woken.Ok?;
      } else {
        assert store.cells == store.cells[r := c];
      }
    }

    method LapseInteractions(r: RunId, now: Time)
      requires r in store.cells
      modifies store`cells
      ensures store.cells == old(store.cells)[r := old(store.cells)[r].(interactions :=
                LapseAll(old(store.cells)[r].interactions, now))]
    {
      var c := store.cells[r];
      var rows := c.interactions;
      var rest := rows.Keys;
      assert rows == LapseExcept(rows, now, rest) && store.cells == store.cells[r := c.(interactions := rows)];
      while rest != {}
        invariant rest <= rows.Keys
        invariant store.cells == old(store.cells)[r := c.(interactions := LapseExcept(rows, now, rest))]
        decreases |rest|
      {
        var k :| k in rest;
        LapseOneMore(rows, now, rest, k);
        if rows[k].status.Open? && rows[k].expires.Some? && rows[k].expires.value <= now {
          var ok := store.UpdateInteraction(r, k, rows[k].revision,
            rows[k].(status := InteractionStatus.Expired, resolution := Some(Lapsed)));
          assert ok;
        }
        rest := rest - {k};
      }
      assert LapseExcept(rows, now, rest) == LapseAll(rows, now);
    }

    method ExpireRun(r: RunId, now: Time)
      requires r in store.cells
      modifies store`cells, store`branches
      ensures store.cells == old(store.cells)[r := ExpireCell(old(store.cells)[r], now)]
      ensures store.branches == old(store.branches)
    {
      hide Wake, LapseAll;
      if Waiting(store.cells[r].run.status) {
        LapseInteractions(r, now);
        WakeRun(r);
      } else {
        assert store.cells == store.cells[r := store.cells[r]];
      }
    }

    /** `expire_interactions`. */
    method ExpireInteractions(now: Time)
      requires Valid()
      modifies store`cells, store`branches
      ensures store.Contents() == ExpireIn(old(store.Contents()), now)
      ensures Valid()
    {
      hide DbInv, CellInv, Runs, ExpireCell, Freed;
      ghost var db := store.Contents();
      ghost var m := store.cells;
      OrderListed(db, cfg);
      assert ExpiredUpTo(m, now, db.order[..0]) == m;
      var i := 0;
      while i < |store.order|
        invariant 0 <= i <= |db.order| && store.order == db.order && store.books == db.books
        invariant store.cells == ExpiredUpTo(m, now, db.order[..i]) && store.branches == db.branches
      {
        ExpireOneMore(m, now, db.order, i);
        ExpireRun(store.order[i], now);
        i := i + 1;
      }
      assert db.order[..i] == db.order;
      ExpiredAll(db, now, cfg);
      ExpireInKeeps(db, now, cfg);
    }

    /** `respond`, after the response was checked against its form. */
    method Respond(r: RunId, k: RequestKey, expected: nat, response: nat, schemaOk: bool, bindingOk: bool, now: Time)
      returns (res: Result<()>)
      requires Valid()
      modifies store`cells, store`branches
      ensures var next := RowIn(old(store.Contents()), now, r,
                                RowEvent.Respond(k, expected, response, schemaOk, bindingOk));
              res.Ok? == next.Ok? && (res.Err? ==> res.error == next.error)
              && store.Contents() == if next.Ok? then next.value else old(store.Contents())
      ensures Valid()
    {
      hide DbInv, CellInv, Runs, Freed, Wake;
      ghost var db := store.Contents();
      if r !in store.cells || k !in store.cells[r].interactions {
        return Err(NotFound);
      }
      var i, status := store.cells[r].interactions[k], store.cells[r].run.status;
      if i.revision != expected {
        return Err(RevisionConflict);
      } else if !i.status.Open? || !status.WaitingUser? {
        return Err(InteractionClosed);
      } else if i.expires.Some? && i.expires.value <= now {
        return Err(InteractionExpired);
      } else if !schemaOk {
        return Err(ResponseSchema);
      } else if k.Approval? && !bindingOk {
        return Err(BindingMismatch);
      }
      var resolved := store.UpdateInteraction(r, k, i.revision,
        i.(status := InteractionStatus.Resolved, resolution := Some(Resolution.Answered(response))));
      assert resolved;
      WakeRun(r);
      RespondedDb(db, r, k, expected, response, now, schemaOk, bindingOk, cfg);
      return Ok(());
    }

    // ---------------------------------------------------------------- idle cancellations

    method FinishRun(r: RunId)
      requires Valid() && r in store.cells
      modifies store`cells, store`branches
      ensures store.Contents() == FinishIn(old(store.Contents()), r) && Valid()
    {
      hide DbInv, CellInv, Runs, Freed, AnyUnresolved, ChildrenDone, RevokeExcept, WithdrawAll, DropAll;
      ghost var db := store.Contents();
      var c := store.cells[r];
      FinishInKeeps(db, r, 0, cfg);
      OwnersOf(db, cfg);
      OwnerOf(db, cfg, r);
      FreedNothing(db.branches, db.cells);
      FreedStep(db.branches, db.cells, r, FinishIdleCell(c, ChildrenDone(db.cells, c)));
      if c.run.status.Cancelling? && AttemptOver(c) && !AnyUnresolved(c) && ChildrenDone(store.cells, c) {
        var ended := Transition(r, c.run, Status.Cancelled);
        assert ended.Ok?;
      } else {
        EndedOwnsNothing(db.branches, db.cells, r);
        assert store.cells == store.cells[r := c];
      }
    }

    /** `finish_idle_cancellations`: the latest run first, so that children end before their parents look. */
    method FinishIdle()
      requires Valid()
      modifies store`cells, store`branches
      ensures store.Contents() == FinishAll(old(store.Contents()), old(store.order)) && Valid()
    {
      hide DbInv, FinishIn;
      ghost var db := store.Contents();
      OrderListed(db, cfg);
      assert db.order == db.order[..|db.order|];
      var i := |store.order|;
      while i > 0
        invariant 0 <= i <= |db.order| && Valid()
        invariant store.order == db.order && store.cells.Keys == db.cells.Keys
        invariant FinishAll(db, db.order) == FinishAll(store.Contents(), db.order[..i])
      {
        i := i - 1;
        assert db.order[..i + 1][..i] == db.order[..i];
        FinishKeepsRuns(store.Contents(), store.order[i]);
        FinishRun(store.order[i]);
      }
    }

    // ---------------------------------------------------------------- recovery

    /** The loop of `recover` over the operations of a run whose process is gone; tells whether one is unknown. */
    method RecoverOperations(r: RunId, written: set<OpKey>) returns (unknown: bool)
      requires r in store.cells
      modifies store`cells
      ensures store.cells == old(store.cells)[r := old(store.cells)[r].(ops :=
                RecoverOps(old(store.cells)[r], written))]
      ensures unknown <==> AnyUnknown(RecoverOps(old(store.cells)[r], written))
    {
      hide SavedExchange, RecoverOps, UnknownSoFar, RecoverExcept;
      var c := store.cells[r];
      var rows := c.ops;
      var rest := rows.Keys;
      unknown := false;
      RecoveredAll(c, written);
      assert store.cells == store.cells[r := c.(ops := rows)];
      while rest != {}
        invariant rest <= rows.Keys
        invariant store.cells == old(store.cells)[r := c.(ops := RecoverExcept(c, written, rest))]
        invariant unknown <==> UnknownSoFar(c, written, rest)
        decreases |rest|
      {
        var k :| k in rest;
        var op := rows[k];
        RecoverOneMore(c, written, rest, k);
        var next := op;
        if !op.state.Running? {
          unknown := unknown || op.state.Unknown?;
        } else if SavedExchange(c, k) {
        } else if op.meta.continuation.Some? {
          next := op.(state := OpState.Unknown);
          unknown := true;
        } else if op.tool.kind == FileWrite && op.meta.file.Some? && k in written {
          next := op.(state := OpState.Succeeded,
                      result := Some(ToolResult(OpState.Succeeded, op.meta.file.value.afterHash)));
        } else if op.tool.effect == Read {
          next := op.(state := OpState.Prepared, grant := None);
        } else {
          next := op.(state := OpState.Unknown);
          unknown := true;
        }
        if next != op {
          var ok := store.UpdateOperation(r, k, op.revision, next);
          assert ok;
        }
        rest := rest - {k};
      }
    }

    /** What `recover` reads of one run before its transaction: the attempt, if its lease has lapsed. */
    method Observe(r: RunId, now: Time) returns (seen: Option<Sighting>)
      requires r in store.cells
      ensures var row := store.cells[r].run;
              seen.Some? <==> && (row.status.Running? || row.status.Recovering? || row.status.Cancelling?)
                              && row.attempt.Some? && row.attempt.value in store.cells[r].attempts
                              && store.cells[r].attempts[row.attempt.value].lease <= now
      ensures seen.Some? ==> seen.value.run == r && store.cells[r].run.attempt == Some(seen.value.attempt)
                             && seen.value.lease == store.cells[r].attempts[seen.value.attempt].lease
    {
      var row := store.cells[r].run;
      if !(row.status.Running? || row.status.Recovering? || row.status.Cancelling?) {
        return None;
      } else if row.attempt.None? || row.attempt.value !in store.cells[r].attempts {
        return None;
      }
      var a := row.attempt.value;
      var lease := store.cells[r].attempts[a].lease;
      if now < lease {
        return None;
      }
      return Some(Sighting(r, a, lease));
    }

    /** The transaction of `recover` on one run, for the attempt that was read before it. */
    method Recover(seen: Sighting, alive: bool, written: set<OpKey>, now: Time) returns (res: Result<()>)
      requires Valid()
      modifies store`cells, store`branches
      ensures res.Ok? <==> RecoverIn(old(store.Contents()), seen.run, seen.attempt, alive, written).Ok?
      ensures res.Err? ==> res.error == NotFound
      ensures var to := RecoverIn(old(store.Contents()), seen.run, seen.attempt, alive, written);
              store.Contents() == if res.Ok? then to.value else old(store.Contents())
      ensures Valid()
    {
      hide DbInv, CellInv, Runs, RecoverCell;
      ghost var db := store.Contents();
      var r, a := seen.run, seen.attempt;
      if r !in store.cells {
        return Err(NotFound);
      }
      if store.cells[r].run.attempt != Some(a) {
        return Ok(());
      }
      CellOf(db, cfg, r);
      RecoverMoves(db.cells[r], a, alive, written, r, now);
      RecoverInKeeps(db, now, r, a, alive, written, cfg);
      RecoverEndsNothing(db.cells[r], a, alive, written);
      PutFreesNothing(db, r, RecoverCell(db.cells[r], a, alive, written).value, cfg);
      RecoverRun(r, a, alive, written);
      return Ok(());
    }

    method RecoverRun(r: RunId, a: AttemptId, alive: bool, written: set<OpKey>)
      requires r in store.cells && RecoverCell(store.cells[r], a, alive, written).Ok?
      modifies store`cells, store`branches
      ensures store.cells == old(store.cells)[r := RecoverCell(old(store.cells)[r], a, alive, written).value]
      ensures store.branches == old(store.branches)
    {
      hide KeptGrants, RevokeExcept, RecoverOps, AnyUnknown;
      if store.cells[r].run.status.Running? {
        var seen := Transition(r, store.cells[r].run, Status.Recovering);
        assert seen.Ok?;
      }
      store.RevokeGrants(r, KeptGrants(store.cells[r]));
      if alive {
        return;
      }
      ghost var revoked := store.cells[r];
      store.EndAttempt(r, a);
      SameRecovery(revoked, store.cells[r], written);
      var unknown := RecoverOperations(r, written);
      if store.cells[r].run.status.Recovering? {
        var moved := Transition(r, store.cells[r].run, if unknown then Status.NeedsReview else Status.Queued);
        assert moved.Ok?;
      }
    }

    // ---------------------------------------------------------------- child waits

    method ResolveChildren(r: RunId, k: OpKey, ghost c: Cell, ghost done: set<OpKey>)
      requires r in store.cells && store.cells[r] == RefreshCell(c, done)
      requires k in c.waits && k !in done && c.waits[k].bound && c.waits[k].resolution.None?
      modifies store`cells, store`branches
      ensures store.cells == old(store.cells)[r := RefreshCell(c, done + {k})] && store.branches == old(store.branches)
    {
      hide RefreshCell, Wake;
      RefreshOneMore(c, done, k);
      var row := store.cells[r].waits[k];
      var ok := store.UpdateWait(r, k, row.revision, row.(resolution := Some(ChildrenReady)));
      assert ok;
      WakeRun(r);
    }

    /** `_refresh_waits` of one parent: every wait that became ready is resolved, with a wake-up after each. */
    method RefreshRun(r: RunId)
      requires r in store.cells
      modifies store`cells, store`branches
      ensures store.cells == old(store.cells)[r := RefreshCell(old(store.cells)[r],
                ReadyWaits(old(store.cells), old(store.cells)[r]))]
      ensures store.branches == old(store.branches)
    {
      hide RefreshCell, WaitReady;
      ghost var m := store.cells;
      var c := store.cells[r];
      var rest := c.waits.Keys;
      ghost var ready := ReadyWaits(m, c);
      assert ready - rest == {} && store.cells == store.cells[r := c];
      RefreshNothing(c);
      while rest != {}
        invariant rest <= c.waits.Keys
        invariant store.cells == m[r := RefreshCell(c, ready - rest)] && store.branches == old(store.branches)
        decreases |rest|
      {
        var k :| k in rest;
        ghost var done := ready - rest;
        assert ready - (rest - {k}) == if k in ready then done + {k} else done;
        RefreshEndsNothing(c, done);
        SameEndsSameReady(m, store.cells, c);
        if !c.waits[k].bound || c.waits[k].resolution.Some? {
          RefreshNoMore(c, done, k);
        } else if WaitReady(store.cells, c.waits[k]) {
          ResolveChildren(r, k, c, done);
        }
        rest := rest - {k};
      }
      assert ready - rest == ready;
    }

    /** `refresh_waits`. */
    method RefreshWaits()
      requires Valid()
      modifies store`cells, store`branches
      ensures store.Contents() == RefreshIn(old(store.Contents())) && Valid()
    {
      hide DbInv, RefreshCell, ReadyWaits, Freed;
      ghost var db := store.Contents();
      ghost var m := store.cells;
      OrderListed(db, cfg);
      OwnersOf(db, cfg);
      assert RefreshedUpTo(m, db.order[..0]) == m;
      var i := 0;
      while i < |store.order|
        invariant 0 <= i <= |db.order| && store.order == db.order && store.books == db.books
        invariant store.cells == RefreshedUpTo(m, db.order[..i]) && store.branches == db.branches
      {
        RefreshNextRun(m, db.order, i);
        RefreshRun(store.order[i]);
        i := i + 1;
      }
      assert db.order[..i] == db.order;
      RefreshedAll(db, db.order);
      RefreshInKeeps(db, 0, cfg);
    }

    // ---------------------------------------------------------------- settle

    /** One round of the loop over an outcome's interrupt references. */
    method Bind(self: RunId, inputRevision: nat, ref: Ref) returns (res: Result<()>)
      modifies store`cells
      ensures var m := old(store.cells);
              var bound := if ref.run !in m then Err(NotFound)
                           else if ref.UserRef? && ref.run != self then Err(InterruptMismatch)
                           else BindRef(m[ref.run], inputRevision, ref);
              && res.Ok? == bound.Ok? && (res.Err? ==> res.error == bound.error)
              && store.cells == if bound.Ok? then m[ref.run := bound.value] else m
    {
      if ref.run !in store.cells {
        return Err(NotFound);
      }
      var c := store.cells[ref.run];
      assert store.cells == store.cells[ref.run := c];
      match ref
      case UserRef(interrupt, r, k) =>
        if r != self {
          return Err(InterruptMismatch);
        } else if k !in c.interactions {
          return Err(NotFound);
        } else if c.interactions[k].inputRevision != inputRevision {
          return Err(InterruptMismatch);
        } else if c.interactions[k].status.PendingBinding? {
          if InterruptTaken(c.interactions, interrupt, inputRevision) {
            return Err(Integrity);
          }
          var ok := store.UpdateInteraction(r, k, c.interactions[k].revision,
            c.interactions[k].(status := InteractionStatus.Open, interrupt := Some(interrupt)));
          assert ok;
        }
        return Ok(());
      case ChildrenRef(interrupt, r, k) =>
        if k !in c.waits {
          return Err(NotFound);
        }
        var ok := store.UpdateWait(r, k, c.waits[k].revision, c.waits[k].(interrupt := Some(interrupt), bound := true));
        assert ok;
        return Ok(());
      case ReviewRef(_, r, op) =>
        if op.Some? {
          if op.value !in c.ops {
            return Err(NotFound);
          } else if c.ops[op.value].state.Running? {
            var ok := store.UpdateOperation(r, op.value, c.ops[op.value].revision,
              c.ops[op.value].(state := OpState.Unknown));
            assert ok;
          }
        }
        return Ok(());
    }

    /** The branch of `settle` for an outcome that waits, after the checkpoint was recorded. */
    method SettleAwait(ctx: Context, o: Outcome) returns (res: Result<()>)
      requires ctx.run in store.cells && store.cells[ctx.run].run.status.Running?
      modifies store`cells, store`branches
      ensures var next := SettleWaiting(old(store.cells), ctx, o);
              && res.Ok? == next.Ok? && (res.Err? ==> res.error == next.error)
              && (res.Ok? ==> store.cells == next.value)
      ensures store.branches == old(store.branches)
    {
      hide BindRef, RefreshCell, Wake, ReadyWaits, ParkedStatus, RequiredOf;
      if o.checkpoint.None? {
        return Err(CheckpointRequired);
      }
      ghost var m := store.cells;
      var i := 0;
      while i < |o.refs|
        invariant 0 <= i <= |o.refs| && store.branches == old(store.branches)
        invariant BindAll(m, ctx.run, ctx.inputRevision, o.refs)
               == BindAll(store.cells, ctx.run, ctx.inputRevision, o.refs[i..])
        invariant ctx.run in store.cells && store.cells[ctx.run].run == m[ctx.run].run
      {
        assert o.refs[i..][1..] == o.refs[i + 1..];
        BindKeepsRun(store.cells, ctx.inputRevision, o.refs[i]);
        var bound := Bind(ctx.run, ctx.inputRevision, o.refs[i]);
        if bound.Err? {
          return bound;
        }
        i := i + 1;
      }
      ghost var bound := store.cells;
      assert o.refs[i..] == [] && BindAll(m, ctx.run, ctx.inputRevision, o.refs) == Ok(bound);
      var row := store.cells[ctx.run].run;
      ParkedStatuses(o.refs);
      var parked := Transition(ctx.run, row.(required := RequiredOf(o.refs)), ParkedStatus(o.refs));
      assert parked.Ok?;
      store.EndAttempt(ctx.run, ctx.attempt);
      ghost var p := store.cells[ctx.run];
      assert ParkCell(bound[ctx.run], ctx.attempt, o.refs) == Ok(p) && store.cells == bound[ctx.run := p];
      RefreshRun(ctx.run);
      WakeRun(ctx.run);
      return Ok(());
    }

    /** The branches of `settle` that end the run's attempt without waiting. */
    method SettleStop(ctx: Context, o: Outcome, childrenDone: bool) returns (res: Result<()>)
      requires ctx.run in store.cells
      requires (store.cells[ctx.run].run.status.Running? || store.cells[ctx.run].run.status.Cancelling?)
      modifies store`cells, store`branches
      ensures var c := old(store.cells)[ctx.run];
              var next := Stopped(c, ctx, o, childrenDone);
              && res.Ok? == next.Ok? && (res.Err? ==> res.error == next.error && store.cells == old(store.cells))
              && (res.Ok? ==> store.cells == old(store.cells)[ctx.run := next.value])
              && store.branches == (if res.Ok? && Terminal(next.value.run.status)
                                    then Released(old(store.branches), c.run.branch, ctx.run) else old(store.branches))
    {
      hide AnyUnresolved, RevokeExcept, WithdrawAll, DropAll;
      var c := store.cells[ctx.run];
      var unresolved := AnyUnresolved(c);
      if c.run.status.Cancelling? {
        if !unresolved && childrenDone {
          var ended := Transition(ctx.run, c.run, Status.Cancelled);
          assert ended.Ok?;
        }
      } else if unresolved {
        var review := Transition(ctx.run, c.run, Status.NeedsReview);
        assert review.Ok?;
      } else if o.kind.Final? {
        if o.checkpoint.None? || o.result.None? {
          return Err(FinalNotDurable);
        } else if !childrenDone {
          return Err(ChildrenUnsettled);
        }
        var completed := Transition(ctx.run, c.run.(result := o.result), Status.Completed);
        assert completed.Ok?;
      } else {
        var failed := Transition(ctx.run, c.run, Status.Failed);
        assert failed.Ok?;
      }
      ghost var e := store.cells[ctx.run];
      store.EndAttempt(ctx.run, ctx.attempt);
      assert RunMachine.EndAttempt(e, ctx.attempt).run == e.run;
      assert store.cells == old(store.cells)[ctx.run := RunMachine.EndAttempt(e, ctx.attempt)];
      return Ok(());
    }

    /** `settle`: one transaction, from the fence to the end of the attempt. */
    method Settle(ctx: Context, o: Outcome, now: Time) returns (res: Result<()>)
      requires Valid()
      modifies store`cells, store`branches
      ensures var next := SettleIn(old(store.Contents()), now, ctx, o);
              && res.Ok? == next.Ok? && (res.Err? ==> res.error == next.error)
              && store.Contents() == if next.Ok? then next.value else old(store.Contents())
    {
      hide DbInv, FencePasses, ChildrenDone, AckCancelCell, StopCell, SettleWaiting, Freed;
      ghost var db := store.Contents();
      if o.run != ctx.run || o.inputRevision != ctx.inputRevision {
        return Err(OutcomeMismatch);
      } else if ctx.run !in store.cells {
        return Err(NotFound);
      }
      var c := store.cells[ctx.run];
      if !FencePasses(c.run, c.attempts, ctx, now, true) {
        return Err(FenceError(c, ctx, now));
      }
      FencedStatus(c, ctx, now);
      var cells, branches := store.cells, store.branches;
      if o.checkpoint.Some? {
        var saved := store.UpdateRun(ctx.run, c.run.revision, c.run.(checkpoint := o.checkpoint));
        assert saved;
      }
      assert store.cells == cells[ctx.run := Checkpointed(c, o.checkpoint)];
      if c.run.status.Running? && o.kind.Await? {
        res := SettleAwait(ctx, o);
        if res.Ok? {
          AwaitFreesNothing(db, cfg, ctx, o);
        }
      } else {
        CheckpointKeepsChildren(db.cells, ctx.run, o.checkpoint);
        var childrenDone := ChildrenDone(store.cells, store.cells[ctx.run]);
        res := SettleStop(ctx, o, childrenDone);
        if res.Ok? {
          StopFrees(db, cfg, ctx, o, childrenDone);
        }
      }
      if res.Err? {
        store.Restore(cells, branches);
      }
    }

    /** The worker's settlement: admission of input and the settlement of a final outcome exclude each other. */
    method SettleFinal(ctx: Context, o: Outcome, now: Time) returns (res: Result<()>)
      requires Valid()
      modifies store`cells, store`branches
      ensures var next := WorkerSettleIn(old(store.Contents()), now, ctx, o);
              && res.Ok? == next.Ok? && (res.Err? ==> res.error == next.error)
              && store.Contents() == if next.Ok? then next.value else old(store.Contents())
      ensures Scoped(o.refs, ctx.run) ==> Valid()
    {
      hide DbInv, SettleIn, PendingInputs;
      ghost var db := store.Contents();
      if WorkerSettleIn(db, now, ctx, o).Ok? && Scoped(o.refs, ctx.run) {
        SettleKeeps(db, now, ctx, o, cfg);
      }
      if ctx.run in store.cells && o.kind.Final? && PendingInputs(store.cells[ctx.run]) != {} {
        return Err(InputPending);
      }
      res := Settle(ctx, o, now);
    }

    // ---------------------------------------------------------------- delegate

    /** One child is reserved and settled at once. */
    method PayChild(root: RunId, key: Budget.ReservationKey) returns (res: Result<()>)
      modifies store`books
      ensures var price := ReserveChild(old(store.books), root, key);
              && res.Ok? == price.Ok? && (res.Err? ==> res.error == price.error)
              && store.books == if price.Ok? then price.value else old(store.books)
    {
      hide Budget.ReserveIn, Budget.SettleIn;
      var books := store.books;
      if Budget.MayReserve(books, root, key, ONE_CHILD) {
        PaidError(books, root, key);
      }
      res := store.Reserve(root, key, ONE_CHILD);
      if res.Err? {
        return;
      }
      res := store.Settle(key, Some(ONE_CHILD));
      if res.Err? {
        store.RestoreBooks(books);
      }
    }

    /** The writes of a new delegation: the child's row and branch, the dependency, and its price. */
    method StartChild(ctx: Context, k: OpKey, argsHash: nat, r: RunId, child: Run) returns (res: Result<()>)
      requires ctx.run in store.cells && r !in store.cells && child.branch !in store.branches
      modifies store
      ensures var price := ReserveChild(old(store.books), child.root, Budget.ChildKey(ctx.run, k));
              res.Ok? == price.Ok? && (res.Err? ==> res.error == price.error)
      ensures res.Ok? ==>
        var db := old(store.Contents());
        var m := db.cells[ctx.run := Delegating(db.cells[ctx.run], k, r, argsHash)];
        store.Contents() == Insert(db.(cells := m), r, child).(branches := db.branches[child.branch := None],
          books := ReserveChild(db.books, child.root, Budget.ChildKey(ctx.run, k)).value)
      ensures res.Err? ==> store.Contents() == old(store.Contents())
    {
      hide ReserveChild, Inserted, Position;
      ghost var db := store.Contents();
      res := PayChild(child.root, Budget.ChildKey(ctx.run, k));
      if res.Err? {
        return;
      }
      ghost var m := db.cells[ctx.run := Delegating(db.cells[ctx.run], k, r, argsHash)];
      SamePosition(db.order, db.cells, m, child.createdAt, r);
      var added := store.AddBranch(child.branch);
      assert added;
      store.InsertRun(r, child);
      store.AddDependency(ctx.run, Dependency(k, r, argsHash));
      assert store.cells == m[r := NewCell(child)];
      return Ok(());
    }

    /** `delegate`: a replay finds its child; a new delegation must be allowed, within depth and budget. */
    method Delegate(ctx: Context, k: OpKey, argsHash: nat, current: set<Capability>, requested: Option<set<Capability>>,
                    r: RunId, branch: BranchId, now: Time) returns (res: Result<()>)
      requires Valid()
      modifies store
      ensures var next := DelegateIn(old(store.Contents()), ctx, now, k, argsHash, current, requested, r, branch,
                                     cfg.maxDepth);
              && res.Ok? == next.Ok? && (res.Err? ==> res.error == next.error)
              && store.Contents() == if next.Ok? then next.value else old(store.Contents())
      ensures Valid()
    {
      hide DbInv, FencePasses, ReserveChild, Inserted, Position;
      ghost var db := store.Contents();
      if DelegateIn(db, ctx, now, k, argsHash, current, requested, r, branch, cfg.maxDepth).Ok? {
        DelegateKeeps(db, ctx, now, k, argsHash, current, requested, r, branch, cfg);
      }
      if ctx.run !in store.cells {
        return Err(NotFound);
      }
      var c := store.cells[ctx.run];
      if !FencePasses(c.run, c.attempts, ctx, now, false) {
        return Err(FenceError(c, ctx, now));
      } else if c.run.deadline.Some? && c.run.deadline.value <= now {
        return Err(DeadlineExceeded);
      } else if SameDelegation(c.deps, k) {
        if exists d :: d in c.deps && d.key == k && d.argsHash != argsHash {
          return Err(DelegationConflict);
        }
        return Ok(());
      } else if c.run.root !in store.cells {
        return Err(NotFound);
      } else if store.cells[c.run.root].run.cancelRequested || c.run.cancelRequested || cfg.maxDepth <= c.run.depth {
        return Err(DelegationLimit);
      }
      var allowed := current * c.run.capabilities;
      var granted := if requested.Some? then requested.value else allowed;
      if !(granted <= allowed) {
        return Err(ChildPermission);
      } else if r in store.cells || branch in store.branches {
        return Err(Integrity);
      }
      res := StartChild(ctx, k, argsHash, r, ChildRun(c.run, ctx.run, branch, now, granted));
    }

    // ---------------------------------------------------------------- reconcile

    /** `reconcile`: the operation, the grants, and then the run if nothing is left to review. */
    method Reconcile(r: RunId, k: OpKey, expected: nat, decision: Decision, noted: bool,
                     now: Time) returns (res: Result<()>)
      requires Valid()
      modifies store`cells, store`branches
      ensures var next := RowIn(old(store.Contents()), now, r, RowEvent.Reconcile(k, expected, decision, noted));
              && res.Ok? == next.Ok? && (res.Err? ==> res.error == next.error)
              && store.Contents() == if next.Ok? then next.value else old(store.Contents())
      ensures Valid()
    {
      hide DbInv, AnyUnaccepted, RevokeExcept;
      ghost var db := store.Contents();
      ghost var e := RowEvent.Reconcile(k, expected, decision, noted);
      if r !in store.cells {
        return Err(NotFound);
      }
      var c := store.cells[r];
      if !c.run.status.NeedsReview? && !c.run.status.Cancelling? {
        return Err(RunNotReviewing);
      } else if k !in c.ops {
        return Err(NotFound);
      } else if c.ops[k].revision != expected || !c.ops[k].state.Unknown? {
        return Err(RevisionConflict);
      } else if !noted {
        return Err(EvidenceRequired);
      }
      var op := ReconcileOp(c.ops[k], decision);
      if op.Err? {
        return Err(op.error);
      }
      ReconciledDb(db, r, k, expected, decision, noted, now, cfg);
      var updated := store.UpdateOperation(r, k, expected, op.value);
      assert updated;
      store.RevokeGrants(r, {});
      var row := store.cells[r].run;
      if row.status.NeedsReview? && !decision.AcceptUnresolved? && !AnyUnaccepted(store.cells[r].ops) {
        store.PutReviewed(r, row.required);
        var resumed := Transition(r, row, Status.Queued);
        assert resumed.Ok?;
      } else if row.status.NeedsReview? && decision.AcceptUnresolved? {
        var stopping := Transition(r, row.(cancelRequested := true), Status.Cancelling);
        assert stopping.Ok?;
      }
      return Ok(());
    }
  }

  /** What a reservation of one child can meet when it is settled at once. */
  lemma PaidError(b: Budget.Books, root: RunId, key: Budget.ReservationKey)
    requires Budget.MayReserve(b, root, key, ONE_CHILD)
    ensures var reserved := Budget.ReserveIn(b, root, key, ONE_CHILD);
            && key in reserved.reservations && reserved.reservations[key].amount == ONE_CHILD
            && reserved.reservations[key].account == root
  {}
}
