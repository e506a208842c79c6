/** What the ends of runs leave behind: children that an ended run did not wait for, and the runs that are cancelling
    beside those that run. */
module Endings {
  import opened Domain
  import opened Collections
  import opened RunMachine
  import opened RunInvariant
  import opened RunSteps
  import opened Tables
  import opened TablesInvariant
  import opened RowEvents
  import opened Transactions
  import opened Claiming
  import opened Scans
  import opened Settling
  import opened Gateway
  import opened World
  import opened WorldInvariant
  import opened WorldSteps
  import opened Effects
  import opened Barriers
  import opened Shifts
  import opened Trees

  // ---------------------------------------------------------------- children that are left

  /** Every run below `p` that has not ended is cancelling. */
  ghost predicate Sinking(m: map<RunId, Cell>, p: RunId) {
    forall x :: x in m && Under(m, p, x) ==> Terminal(m[x].run.status) || m[x].run.status.Cancelling?
  }

  /** A cancelled run has no live child, or is sinking with its whole tree. */
  ghost predicate NoneDeserted(m: map<RunId, Cell>) {
    forall p :: p in m && m[p].run.status.Cancelled? ==> ChildrenDone(m, m[p]) || Sinking(m, p)
  }

  lemma DoneStays(m: map<RunId, Cell>, now: Time, n: map<RunId, Cell>, later: Time, p: RunId)
    requires DbStep(m, now, n, later) && p in m && ChildrenDone(m, m[p])
    requires Terminal(m[p].run.status) || m[p].run.cancelRequested
    ensures p in n && ChildrenDone(n, n[p])
  {
    hide LeaseStep, OpsFrozen, InteractionsFrozen;
    assert CellStep(m[p], now, n[p], later);
    forall d | d in n[p].deps ensures d.child in n && Terminal(n[d.child].run.status) {
      TerminalStays(m[d.child], now, n[d.child], later);
    }
  }

  lemma TerminalStays(c: Cell, now: Time, d: Cell, later: Time)
    requires CellStep(c, now, d, later)
    ensures Terminal(c.run.status) ==> d.run.status == c.run.status
  {
    hide AttemptsGrow, FenceShrinks, OpsFrozen, InteractionsFrozen, TreeGrows;
  }

  lemma SinkingStays(m: map<RunId, Cell>, now: Time, n: map<RunId, Cell>, later: Time, maxDepth: nat, p: RunId)
    requires Forest(m, maxDepth) && Forest(n, maxDepth) && DbStep(m, now, n, later) && Runs(m) && Runs(n)
    requires p in m && Sinking(m, p)
    ensures Sinking(n, p)
  {
    hide Forest, DbStep, Runs, Under;
    assert TreeEnding(m, m, p);
    forall x | x in n && Under(n, p, x) ensures Terminal(n[x].run.status) || n[x].run.status.Cancelling? {
      TreeStays(m, m, now, n, later, maxDepth, p, x);
    }
  }

  lemma {:induction false} UnderBelow(m: map<RunId, Cell>, top: RunId, p: RunId, x: RunId)
    requires p in m && x in m && Under(m, top, p) && Under(m, p, x)
    ensures Under(m, top, x)
    decreases m[x].run.depth
  {
    if x != p && x != top {
      UnderBelow(m, top, p, m[x].run.parent.value);
    }
  }

  lemma CancelSinks(w: World, cfg: Config, top: RunId, p: RunId)
    requires WorldInv(w, cfg) && p in w.db.cells && Apply(w, cfg, Cancel(top)).Ok? && Under(w.db.cells, top, p)
    ensures Sinking(Next(w, cfg, Cancel(top)).db.cells, p)
  {
    hide WorldInv, DbInv, Under, CancelIn, Next, Apply;
    ForestOf(w, cfg);
    Cancelled(w, cfg, top);
    CancelReachesTree(w.db, w.now, cfg, top);
    var m, n := w.db.cells, CancelIn(w.db, top).value.cells;
    SamePlaces(w.db, top);
    UnderPlaced(m, n, top, p);
    forall x | x in n && Under(n, p, x) ensures Terminal(n[x].run.status) || n[x].run.status.Cancelling? {
      UnderBelow(n, top, p, x);
      assert Ending(m[x].run.status, n[x]);
    }
  }

  lemma Cancelled(w: World, cfg: Config, top: RunId)
    ensures Apply(w, cfg, Cancel(top)).Ok? == CancelIn(w.db, top).Ok?
    ensures CancelIn(w.db, top).Ok? ==> Next(w, cfg, Cancel(top)).db == CancelIn(w.db, top).value
  {
    hide CancelIn;
  }

  lemma SamePlaces(db: Db, top: RunId)
    requires CancelIn(db, top).Ok?
    ensures var n := CancelIn(db, top).value.cells;
            n.Keys == db.cells.Keys && forall r :: r in db.cells ==> SameIdentity(db.cells[r].run, n[r].run)
  {
    hide CancelCell, Under, SameIdentity;
    forall r | r in db.cells
      ensures SameIdentity(db.cells[r].run, CancelOr(db.cells[r]).run) && SameIdentity(db.cells[r].run, db.cells[r].run)
    {
      CancelFixed(db.cells[r]);
      PlacedMeans(db.cells[r], CancelOr(db.cells[r]));
    }
  }

  lemma PlacedMeans(c: Cell, d: Cell)
    requires Fixed(c, d) || d == c
    ensures SameIdentity(c.run, d.run) && SameIdentity(c.run, c.run)
  {}

  lemma {:induction false} FinishHasChildren(db: Db, ids: seq<RunId>, now: Time, cfg: Config, p: RunId)
    requires DbInv(db, cfg) && p in db.cells && !db.cells[p].run.status.Cancelled?
    ensures var n := FinishAll(db, ids).cells; p in n && (n[p].run.status.Cancelled? ==> ChildrenDone(n, n[p]))
    decreases |ids|
  {
    hide DbInv, FinishIdleCell, ChildrenDone, DbStep, DbQuiet;
    if ids != [] {
      var y, rest := ids[|ids| - 1], ids[..|ids| - 1];
      var mid := FinishIn(db, y);
      FinishInKeeps(db, y, now, cfg);
      FinishAllKeeps(mid, rest, now, cfg);
      if y in db.cells {
        FinishShifts(db.cells[y], ChildrenDone(db.cells, db.cells[y]));
      }
      if mid.cells[p].run.status.Cancelled? {
        FinishedChildren(db, p, now);
        DoneStays(mid.cells, now, FinishAll(db, ids).cells, now, p);
      } else {
        FinishHasChildren(mid, rest, now, cfg, p);
      }
    }
  }

  lemma FinishedChildren(db: Db, p: RunId, now: Time)
    requires p in db.cells && ChildrenDone(db.cells, db.cells[p])
    requires DbStep(db.cells, now, FinishIn(db, p).cells, now) && Terminal(FinishIn(db, p).cells[p].run.status)
    ensures ChildrenDone(FinishIn(db, p).cells, FinishIn(db, p).cells[p])
  {
    hide AnyUnresolved, RevokeExcept, WithdrawAll, DropAll;
  }

  /** Other events than a cancellation end a cancelling run only with its children ended. */
  lemma CancelledAlone(w: World, cfg: Config, e: Event, p: RunId)
    requires WorldInv(w, cfg) && Own(e) && p in w.db.cells && !w.db.cells[p].run.status.Cancelled? && !e.Cancel?
    ensures p in Next(w, cfg, e).db.cells
    ensures var n := Next(w, cfg, e).db.cells; n[p].run.status.Cancelled? ==> ChildrenDone(n, n[p])
  {
    hide WorldInv, DbInv, DbStep, Next, Apply, Under, ChildrenDone, EndsAtOnce, Lost, FinishAll;
    StatusShifts(w, cfg, e, p);
    StepKeeps(w, cfg, e);
    DbOf(w, cfg);
    Applied(w, cfg, e);
    var n := Next(w, cfg, e).db.cells;
    if n[p].run.status.Cancelled? {
      match e {
        case FinishIdle =>
          FinishHasChildren(w.db, w.db.order, w.now, cfg, p);
          Finished(w, cfg);
        case Settle(ctx, o) =>
          Asked(w.db, cfg, p);
          DoneStays(w.db.cells, w.now, n, Next(w, cfg, e).now, p);
        case _ =>
      }
    }
  }

  /** A run is cancelled with its tree, or with its children ended. */
  lemma CancelledHow(w: World, cfg: Config, e: Event, p: RunId)
    requires WorldInv(w, cfg) && Own(e) && p in w.db.cells && !w.db.cells[p].run.status.Cancelled?
    ensures p in Next(w, cfg, e).db.cells
    ensures var n := Next(w, cfg, e).db.cells; n[p].run.status.Cancelled? ==> ChildrenDone(n, n[p]) || Sinking(n, p)
  {
    hide WorldInv, Next, Apply, Under, Sinking, ChildrenDone, EndsAtOnce, Lost;
    StatusShifts(w, cfg, e, p);
    Applied(w, cfg, e);
    if !e.Cancel? {
      CancelledAlone(w, cfg, e, p);
    } else if Next(w, cfg, e).db.cells[p].run.status.Cancelled? {
      CancelSinks(w, cfg, e.top, p);
    }
  }

  /** A child that a cancellation makes cancelling, or that is cancelling already. */
  predicate Outlives(m: map<RunId, Cell>, x: RunId) {
    x in m && !Terminal(m[x].run.status) && !EndsAtOnce(m[x])
  }

  /** The cancellation ends the run at once, and leaves one of its children cancelling. */
  predicate EndsOverChild(m: map<RunId, Cell>, e: Event, p: RunId)
    requires p in m
  {
    && e.Cancel? && e.top in m && Under(m, e.top, p) && EndsAtOnce(m[p])
    && exists d :: d in m[p].deps && Outlives(m, d.child)
  }

  lemma CancelDeps(w: World, cfg: Config, top: RunId, p: RunId)
    requires WorldInv(w, cfg) && p in w.db.cells
    ensures var n := Next(w, cfg, Cancel(top)).db.cells; p in n && n[p].deps == w.db.cells[p].deps
  {
    hide WorldInv, DbInv, CellInv, CellStep, Under, CancelCell, Runs, EndsAtOnce;
    DbOf(w, cfg);
    CellOf(w.db, cfg, p);
    CancelKeeps(w.db.cells[p], 0);
  }

  lemma ChildrenPlaced(w: World, cfg: Config, top: RunId, p: RunId)
    requires WorldInv(w, cfg) && p in w.db.cells && Under(w.db.cells, top, p)
    ensures forall d :: d in w.db.cells[p].deps ==> d.child in w.db.cells && Under(w.db.cells, top, d.child)
  {
    hide WorldInv, DbInv, Runs;
    ForestOf(w, cfg);
    assert Branching(w.db.cells, p);
    forall d | d in w.db.cells[p].deps ensures d.child in w.db.cells && Under(w.db.cells, top, d.child) {
      var i :| 0 <= i < |w.db.cells[p].deps| && w.db.cells[p].deps[i] == d;
      assert Rooted(w.db.cells, d.child, cfg.maxDepth);
    }
  }

  lemma CancelledOver(w: World, cfg: Config, top: RunId, p: RunId)
    requires WorldInv(w, cfg) && top in w.db.cells && p in w.db.cells && Under(w.db.cells, top, p)
    ensures var n := Next(w, cfg, Cancel(top)).db.cells;
            && p in n && n[p].run.status == CancelStatus(w.db.cells[p])
            && (ChildrenDone(n, n[p]) <==> forall d :: d in w.db.cells[p].deps ==> !Outlives(w.db.cells, d.child))
  {
    hide WorldInv, Next, Under, EndsAtOnce;
    CancelledNow(w, cfg, top, p);
    CancelDeps(w, cfg, top, p);
    ChildrenPlaced(w, cfg, top, p);
    var m, n := w.db.cells, Next(w, cfg, Cancel(top)).db.cells;
    forall d | d in m[p].deps
      ensures d.child in m && d.child in n && (Terminal(n[d.child].run.status) <==> !Outlives(m, d.child))
    {
      CancelledNow(w, cfg, top, d.child);
    }
  }

  /** A run is cancelled over a live child exactly when it is in a tree that is cancelled, ends at once, and has a child
      that neither has ended nor ends at once. */
  lemma CancelledOverChildIff(w: World, cfg: Config, e: Event, p: RunId)
    requires Reachable(w, cfg) && Own(e) && p in w.db.cells && !Terminal(w.db.cells[p].run.status)
    ensures p in Next(w, cfg, e).db.cells
    ensures var n := Next(w, cfg, e).db.cells;
            n[p].run.status.Cancelled? && !ChildrenDone(n, n[p]) <==> EndsOverChild(w.db.cells, e, p)
  {
    hide WorldInv, Next, Apply, Under, ChildrenDone, EndsAtOnce, Lost, Outlives;
    ReachableKeeps(w, cfg);
    if !e.Cancel? {
      CancelledAlone(w, cfg, e, p);
    } else if e.top in w.db.cells && Under(w.db.cells, e.top, p) {
      CancelledOver(w, cfg, e.top, p);
    } else {
      StatusShifts(w, cfg, e, p);
      Applied(w, cfg, e);
      CancelsKnown(w, cfg, e.top);
    }
  }

  lemma Applied(w: World, cfg: Config, e: Event)
    ensures Apply(w, cfg, e).Err? ==> Next(w, cfg, e) == w
  {
    hide Apply;
  }

  lemma Finished(w: World, cfg: Config)
    ensures Next(w, cfg, FinishIdle).db == FinishAll(w.db, w.db.order)
  {
    hide FinishAll;
  }

  lemma Asked(db: Db, cfg: Config, p: RunId)
    requires DbInv(db, cfg) && p in db.cells && db.cells[p].run.status.Cancelling?
    ensures db.cells[p].run.cancelRequested
  {
    hide Ordered, Forest, Owned, Capacity, WaitScopes, ParentsLast, Charged, Leases, Forms, Ledger, Closed;
    hide Delivered, Barrier;
    assert CellInv(db.cells[p]);
  }

  lemma {:induction false} FinishAllKeys(db: Db, ids: seq<RunId>)
    ensures FinishAll(db, ids).cells.Keys == db.cells.Keys
    decreases |ids|
  {
    hide FinishIdleCell, ChildrenDone;
    if ids != [] {
      FinishAllKeys(FinishIn(db, ids[|ids| - 1]), ids[..|ids| - 1]);
    }
  }

  lemma SettleKeys(db: Db, now: Time, ctx: Context, o: Outcome)
    ensures WorkerSettleIn(db, now, ctx, o).Ok? ==> WorkerSettleIn(db, now, ctx, o).value.cells.Keys == db.cells.Keys
  {
    hide StopCell, AckCancelCell, ParkCell, BindAll, RefreshCell, Wake, ReadyWaits, ChildrenDone, PendingInputs;
    hide FencePasses;
    if ctx.run in db.cells {
      var cells: map<RunId, Cell> := db.cells[ctx.run := Checkpointed(db.cells[ctx.run], o.checkpoint)];
      if BindAll(cells, ctx.run, ctx.inputRevision, o.refs).Ok? {
        BindKeepsRuns(cells, ctx.run, ctx.inputRevision, o.refs);
      }
    }
  }

  lemma ClaimKeys(db: Db, now: Time, a: AttemptId, p: ProcessId, cfg: Config)
    ensures ClaimIn(db, now, a, p, cfg).Ok? ==> ClaimIn(db, now, a, p, cfg).value.cells.Keys == db.cells.Keys
  {
    hide Count, Pick, ClaimCell;
  }

  /** Runs are added queued. */
  lemma NewRunsWait(w: World, cfg: Config, e: Event, p: RunId)
    requires p in Next(w, cfg, e).db.cells && p !in w.db.cells
    ensures Next(w, cfg, e).db.cells[p].run.status.Queued?
  {
    hide ApplyRow, ExpireCell, RefreshCell, FinishAll, WorkerSettleIn, ClaimIn, GateCell, CancelCell, RecoverCell;
    hide ApplyLookup, ApplyEnter, ApplySend, Under, ReadyWaits, ReserveChild, Inserted, ResetBy, FencePasses, Enabled;
    if Apply(w, cfg, e).Ok? {
      match e {
        case FinishIdle => FinishAllKeys(w.db, w.db.order);
        case Settle(ctx, o) => SettleKeys(w.db, w.now, ctx, o);
        case Claim(q, a) => ClaimKeys(w.db, w.now, a, q, cfg);
        case Lookup(q, s, ctx, tool, argsHash) => LookupDb(w, q, s, ctx, tool, argsHash);
        case Enter(lock) => OutsideDb(w, lock);
        case Send(lock) => OutsideDb(w, lock);
        case _ =>
      }
    }
  }

  lemma NoneDesertedStep(w: World, cfg: Config, e: Event)
    requires WorldInv(w, cfg) && Own(e) && NoneDeserted(w.db.cells)
    ensures NoneDeserted(Next(w, cfg, e).db.cells)
  {
    hide WorldInv, DbInv, DbStep, Next, Sinking, ChildrenDone, Forest, Runs;
    StepKeeps(w, cfg, e);
    var to := Next(w, cfg, e);
    ForestOf(w, cfg);
    ForestOf(to, cfg);
    forall p | p in to.db.cells && to.db.cells[p].run.status.Cancelled?
      ensures ChildrenDone(to.db.cells, to.db.cells[p]) || Sinking(to.db.cells, p)
    {
      if p !in w.db.cells {
        NewRunsWait(w, cfg, e, p);
      } else if !w.db.cells[p].run.status.Cancelled? {
        CancelledHow(w, cfg, e, p);
      } else if ChildrenDone(w.db.cells, w.db.cells[p]) {
        DoneStays(w.db.cells, w.now, to.db.cells, to.now, p);
      } else {
        SinkingStays(w.db.cells, w.now, to.db.cells, to.now, cfg.maxDepth, p);
      }
    }
  }

  lemma {:induction false} NoneDesertedPlay(w: World, cfg: Config, events: seq<Event>)
    requires WorldInv(w, cfg) && AllOwn(events) && NoneDeserted(w.db.cells)
    ensures NoneDeserted(Play(w, cfg, events).db.cells)
    decreases |events|
  {
    hide WorldInv, NoneDeserted, Next, DbStep;
    if events != [] {
      StepKeeps(w, cfg, events[0]);
      NoneDesertedStep(w, cfg, events[0]);
      NoneDesertedPlay(Next(w, cfg, events[0]), cfg, events[1..]);
    }
  }

  /** A run that has ended while a child has not either failed, or was cancelled together with its tree, whose other
      runs have all ended or are cancelling. */
  lemma LiveChildOfEnded(w: World, cfg: Config, p: RunId)
    requires Reachable(w, cfg) && p in w.db.cells && Terminal(w.db.cells[p].run.status)
    requires !ChildrenDone(w.db.cells, w.db.cells[p])
    ensures w.db.cells[p].run.status.Failed? || (w.db.cells[p].run.status.Cancelled? && Sinking(w.db.cells, p))
  {
    hide WorldInv, ChildrenDone, Sinking, Play, Boot;
    var now, alive, branches :| Reaches(Boot(now, alive, branches), cfg, w);
    var b := Boot(now, alive, branches);
    var events :| AllOwn(events) && w == Play(b, cfg, events);
    BootInv(now, alive, branches, cfg);
    BootEmpty(now, alive, branches);
    NoneDesertedPlay(b, cfg, events);
    ReachableKeeps(w, cfg);
    if w.db.cells[p].run.status.Completed? {
      CompletedLast(w, cfg, p);
    }
  }

  lemma BootEmpty(now: Time, alive: set<ProcessId>, branches: set<BranchId>)
    ensures Boot(now, alive, branches).db.cells == map[]
  {}

  lemma CompletedLast(w: World, cfg: Config, p: RunId)
    requires WorldInv(w, cfg) && p in w.db.cells && w.db.cells[p].run.status.Completed?
    ensures ChildrenDone(w.db.cells, w.db.cells[p])
  {
    hide LocksOk, Histories, Runs, Ordered, Forest, Owned, Capacity, WaitScopes, Charged, ChildrenDone;
  }

  lemma StopDeps(c: Cell, a: AttemptId, o: Outcome, done: bool)
    ensures StopCell(c, a, o, done).Ok? ==> StopCell(c, a, o, done).value.deps == c.deps
  {
    hide AnyUnresolved, RevokeExcept, WithdrawAll, DropAll;
  }

  lemma NotItsOwnChild(db: Db, cfg: Config, r: RunId)
    requires DbInv(db, cfg) && r in db.cells
    ensures forall d :: d in db.cells[r].deps ==> d.child != r
  {
    hide Runs, Ordered, Owned, Capacity, WaitScopes, ParentsLast, Charged;
    assert Rooted(db.cells, r, cfg.maxDepth) && Branching(db.cells, r);
  }

  /** A run that a settlement fails has a live child afterwards exactly if it had one when it was settled. */
  lemma FailureLeavesChildrenIff(db: Db, now: Time, cfg: Config, ctx: Context, o: Outcome)
    requires DbInv(db, cfg) && WorkerSettleIn(db, now, ctx, o).Ok?
    ensures ctx.run in db.cells && ctx.run in WorkerSettleIn(db, now, ctx, o).value.cells
    ensures var n := WorkerSettleIn(db, now, ctx, o).value.cells;
            n[ctx.run].run.status.Failed? ==>
              (ChildrenDone(n, n[ctx.run]) <==> ChildrenDone(db.cells, db.cells[ctx.run]))
  {
    hide DbInv, StopCell, AckCancelCell, SettleWaiting, PendingInputs, ChildrenDone;
    var c := db.cells[ctx.run];
    var saved := Checkpointed(c, o.checkpoint);
    var done := ChildrenDone(db.cells, c);
    SettleKeys(db, now, ctx, o);
    StopShifts(saved, ctx.attempt, o, done);
    StopDeps(saved, ctx.attempt, o, done);
    NotItsOwnChild(db, cfg, ctx.run);
    if c.run.status.Running? {
      var cells: map<RunId, Cell> := db.cells[ctx.run := saved];
      if SettleWaiting(cells, ctx, o).Ok? {
        WaitShifts(cells, ctx, o, ctx.run);
      }
      if StopCell(saved, ctx.attempt, o, done).Ok? {
        SameChildren(db.cells, ctx.run, StopCell(saved, ctx.attempt, o, done).value);
      }
    }
  }

  lemma SameChildren(m: map<RunId, Cell>, r: RunId, d: Cell)
    requires r in m && d.deps == m[r].deps && forall x :: x in d.deps ==> x.child != r
    ensures ChildrenDone(m[r := d], d) <==> ChildrenDone(m, m[r])
  {}

  /** A run fails only by its own settlement, and with a live child exactly if it has one then. */
  lemma FailsWithLiveChildIff(w: World, cfg: Config, e: Event, p: RunId)
    requires Reachable(w, cfg) && p in w.db.cells && !w.db.cells[p].run.status.Failed?
    ensures p in Next(w, cfg, e).db.cells
    ensures var n := Next(w, cfg, e).db.cells;
            n[p].run.status.Failed? ==>
              && e.Settle? && e.ctx.run == p
              && (ChildrenDone(n, n[p]) <==> ChildrenDone(w.db.cells, w.db.cells[p]))
  {
    hide WorldInv, DbInv, Next, Apply, ChildrenDone, Under, EndsAtOnce, Lost, WorkerSettleIn;
    ReachableKeeps(w, cfg);
    DbOf(w, cfg);
    StatusShifts(w, cfg, e, p);
    Applied(w, cfg, e);
    if e.Settle? && Apply(w, cfg, e).Ok? {
      Settled(w, cfg, e);
      FailureLeavesChildrenIff(w.db, w.now, cfg, e.ctx, e.outcome);
    }
  }

  lemma Settled(w: World, cfg: Config, e: Event)
    requires e.Settle? && Apply(w, cfg, e).Ok?
    ensures WorkerSettleIn(w.db, w.now, e.ctx, e.outcome).Ok?
    ensures Next(w, cfg, e).db == WorkerSettleIn(w.db, w.now, e.ctx, e.outcome).value
  {
    hide WorkerSettleIn;
  }

  // ---------------------------------------------------------------- running and cancelling

  function Occupied(m: map<RunId, Cell>): set<RunId> {
    set x | x in m && (m[x].run.status.Running? || m[x].run.status.Cancelling?)
  }

  /** A cancellation of the run makes it cancelling, which occupied no worker before. */
  predicate Occupies(c: Cell) {
    !Terminal(c.run.status) && !c.run.status.Running? && !c.run.status.Cancelling? && !EndsAtOnce(c)
  }

  /** The runs that the event makes cancelling and that were not busy. */
  function Newcomers(w: World, e: Event): set<RunId> {
    match e
    case Cancel(top) =>
      if top in w.db.cells then set x | x in w.db.cells && Under(w.db.cells, top, x) && Occupies(w.db.cells[x]) else {}
    case Row(r, row) =>
      if r !in w.db.cells || !w.db.cells[r].run.status.NeedsReview? || !Accepts(row) then {}
      else if ApplyRow(w.db.cells[r], w.now, row).Ok? then {r} else {}
    case _ => {}
  }

  lemma ReviewedIsBusy(c: Cell, now: Time, e: RowEvent)
    requires c.run.status.NeedsReview? && Accepts(e) && ApplyRow(c, now, e).Ok?
    ensures ApplyRow(c, now, e).value.run.status.Cancelling?
  {
    hide RevokeExcept;
  }

  /** A newcomer is busy after the event, and was not before. */
  lemma NewcomersCome(w: World, cfg: Config, e: Event, x: RunId)
    requires WorldInv(w, cfg) && x in Newcomers(w, e)
    ensures x in Occupied(Next(w, cfg, e).db.cells) && x !in Occupied(w.db.cells)
  {
    hide WorldInv, DbInv, ApplyRow, Under, EndsAtOnce, CancelCell, ResetBy;
    match e {
      case Cancel(top) => CancelledNow(w, cfg, top, x);
      case Row(r, row) => ReviewedIsBusy(w.db.cells[r], w.now, row);
      case _ =>
    }
  }

  lemma CancelledNow(w: World, cfg: Config, top: RunId, x: RunId)
    requires WorldInv(w, cfg) && top in w.db.cells && x in w.db.cells && Under(w.db.cells, top, x)
    ensures var n := Next(w, cfg, Cancel(top)).db.cells; x in n && n[x].run.status == CancelStatus(w.db.cells[x])
  {
    hide WorldInv, DbInv, CellInv, CellStep, Under, CancelCell, Runs, EndsAtOnce;
    DbOf(w, cfg);
    CellOf(w.db, cfg, x);
    CancelKeeps(w.db.cells[x], 0);
    CancelShifts(w.db.cells[x]);
  }

  /** Who becomes busy was claimed, or is a newcomer. */
  lemma BusyHow(w: World, cfg: Config, e: Event, x: RunId)
    requires WorldInv(w, cfg) && x in Occupied(Next(w, cfg, e).db.cells) && x !in Occupied(w.db.cells)
    ensures x in w.db.cells && (e.Claim? || x in Newcomers(w, e))
  {
    hide WorldInv, Next, Under, EndsAtOnce, Lost, ChildrenDone, ApplyRow, Apply;
    if x !in w.db.cells {
      NewRunsWait(w, cfg, e, x);
    } else {
      StatusShifts(w, cfg, e, x);
      Applied(w, cfg, e);
      if e.Cancel? {
        CancelsKnown(w, cfg, e.top);
      } else if e.Row? {
        RowApplied(w, cfg, e.run, e.row);
      }
    }
  }

  lemma CancelsKnown(w: World, cfg: Config, top: RunId)
    ensures Apply(w, cfg, Cancel(top)).Ok? ==> top in w.db.cells
  {}

  lemma RowApplied(w: World, cfg: Config, r: RunId, row: RowEvent)
    ensures Apply(w, cfg, Row(r, row)).Ok? ==> r in w.db.cells && ApplyRow(w.db.cells[r], w.now, row).Ok?
  {
    hide ApplyRow, ResetBy;
  }

  /** A cancellation, or an accepted review, frees no worker. */
  lemma BusyStays(w: World, cfg: Config, e: Event, x: RunId)
    requires Newcomers(w, e) != {} && x in Occupied(w.db.cells)
    ensures x in Occupied(Next(w, cfg, e).db.cells)
  {
    hide Next, Under, Occupies, ApplyRow, ChildrenDone, Lost;
    StatusShifts(w, cfg, e, x);
  }

  lemma BusyCount(db: Db, cfg: Config)
    requires DbInv(db, cfg)
    ensures Count(db.order, db.cells, BusyRuns) == |Occupied(db.cells)|
  {
    hide Runs, Forest, Owned, Capacity, WaitScopes, ParentsLast, Charged;
    OrderDistinct(db.order, db.cells);
    CountIsSize(db.order, db.cells, BusyRuns);
    assert Occupied(db.cells) == Hits(db.order, db.cells, BusyRuns);
  }

  /** A claim is made only below the limit, and makes one run busy. */
  lemma ClaimBusy(w: World, cfg: Config, e: Event)
    requires WorldInv(w, cfg) && e.Claim? && |Occupied(w.db.cells)| <= cfg.workerSlots
    ensures |Occupied(Next(w, cfg, e).db.cells)| <= cfg.workerSlots
  {
    hide WorldInv, DbInv, Pick, Count;
    DbOf(w, cfg);
    BusyCount(w.db, cfg);
    var n := Next(w, cfg, e).db.cells;
    if Occupied(n) != Occupied(w.db.cells) {
      var pick := Pick(w.db, w.db.order, cfg);
      SubsetSize(Occupied(n), Occupied(w.db.cells) + {pick.value});
    }
  }

  /** Running and cancelling runs together stay within `worker_slots` exactly if they and the runs that the event makes
      cancelling do: claims respect the limit, cancellations and accepted reviews do not look at it. */
  lemma BusyBoundIff(w: World, cfg: Config, e: Event)
    requires Reachable(w, cfg) && |Occupied(w.db.cells)| <= cfg.workerSlots
    ensures |Occupied(Next(w, cfg, e).db.cells)| <= cfg.workerSlots
       <==> |Occupied(w.db.cells)| + |Newcomers(w, e)| <= cfg.workerSlots
  {
    hide WorldInv, Next, Occupied, Newcomers;
    ReachableKeeps(w, cfg);
    var m, n := Occupied(w.db.cells), Occupied(Next(w, cfg, e).db.cells);
    if e.Claim? {
      ClaimBusy(w, cfg, e);
      ClaimsBringNone(w, e);
    } else {
      forall x | x in n && x !in m ensures x in Newcomers(w, e) {
        BusyHow(w, cfg, e, x);
      }
      forall x | x in Newcomers(w, e) ensures x in n && x !in m {
        NewcomersCome(w, cfg, e, x);
      }
      SubsetSize(n, m + Newcomers(w, e));
      if Newcomers(w, e) != {} {
        forall x | x in m ensures x in n {
          BusyStays(w, cfg, e, x);
        }
        assert n == m + Newcomers(w, e);
      }
    }
  }

  lemma ClaimsBringNone(w: World, e: Event)
    requires e.Claim?
    ensures Newcomers(w, e) == {}
  {}
}
