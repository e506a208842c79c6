/** Runs of the system that show what the theorems must not claim. */
module Witnesses {
  import opened Domain
  import opened Collections
  import opened RunMachine
  import opened RunInvariant
  import opened Tables
  import opened TablesInvariant
  import opened RowEvents
  import opened World
  import opened WorldInvariant
  import opened WorldSteps
  import opened Effects
  import opened Executors
  import opened Endings
  import Budget

  // ---------------------------------------------------------------- going on from a reachable world

  lemma BootReached(now: Time, alive: set<ProcessId>, branches: set<BranchId>, cfg: Config)
    ensures Reachable(Boot(now, alive, branches), cfg)
  {
    hide Boot;
    var b := Boot(now, alive, branches);
    var none: seq<Event> := [];
    assert AllOwn(none) && Play(b, cfg, none) == b;
    assert Reaches(b, cfg, b);
  }

  lemma Follows(w: World, cfg: Config, e: Event)
    requires Reachable(w, cfg) && Own(e)
    ensures Reachable(Next(w, cfg, e), cfg)
  {
    hide Next, Boot;
    var now, alive, branches :| Reaches(Boot(now, alive, branches), cfg, w);
    var b := Boot(now, alive, branches);
    var events :| AllOwn(events) && w == Play(b, cfg, events);
    PlayOneMore(b, cfg, events, e);
    assert AllOwn(events + [e]);
    assert Reaches(b, cfg, Next(w, cfg, e));
  }

  lemma {:induction false} PlayOneMore(w: World, cfg: Config, events: seq<Event>, e: Event)
    ensures Play(w, cfg, events + [e]) == Next(Play(w, cfg, events), cfg, e)
    decreases |events|
  {
    hide Next;
    if events == [] {
      assert Play(Next(w, cfg, e), cfg, []) == Next(w, cfg, e);
      assert [e][1..] == [] && [] + [e] == [e];
    } else {
      assert (events + [e])[0] == events[0] && (events + [e])[1..] == events[1..] + [e];
      PlayOneMore(Next(w, cfg, events[0]), cfg, events[1..], e);
    }
  }

  // ---------------------------------------------------------------- first steps

  const KEY := OpKey(0, 0)

  /** The run waits on its own branch for a first claim. */
  predicate Fresh(w: World, r: RunId) {
    && r in w.db.cells && r in w.db.branches && w.db.branches[r].None? && r in w.db.books.accounts
    && w.db.cells[r] == NewCell(RootRun(r, r, 0, w.now, None, {}))
  }

  /** The run is claimed under attempt `a`, and nothing else has happened to it. */
  predicate Claimed(w: World, r: RunId, a: AttemptId) {
    && r in w.db.cells && r in w.db.books.accounts
    && var c := w.db.cells[r];
    && c.run.status.Running? && c.run.attempt == Some(a) && c.run.token == 1 && !c.run.cancelRequested
    && c.run.parent.None? && c.run.root == r && c.run.depth == 0 && c.run.deadline.None? && c.run.inputRevision == 0
    && a in c.attempts && c.attempts[a] == Attempt(1, 7, w.now + 10, false)
    && c.run.createdAt == 0 && c.ops == map[] && c.deps == [] && c.waits == map[] && c.interactions == map[]
    && c.reviewed == {} && c.inputs == map[]
  }

  function Start(branches: set<BranchId>, cfg: Config): World {
    Next(Boot(0, {7}, branches), cfg, Submit(1, 1, 0, None, {}, map[]))
  }

  lemma Started(branches: set<BranchId>, cfg: Config)
    requires 1 in branches
    ensures var w := Start(branches, cfg);
            && Reachable(w, cfg) && Fresh(w, 1) && w.db.order == [1] && w.now == 0 && 7 in w.alive
            && w.db.cells.Keys == {1} && w.db.branches.Keys == branches
            && (forall b :: b in branches ==> w.db.branches[b].None?)
            && w.db.books.reservations == map[] && w.db.books.accounts == map[1 := Budget.Account(map[], map[], map[])]
  {
    BootReached(0, {7}, branches, cfg);
    Follows(Boot(0, {7}, branches), cfg, Submit(1, 1, 0, None, {}, map[]));
  }

  lemma ClaimsFresh(w: World, cfg: Config, r: RunId, a: AttemptId)
    requires Reachable(w, cfg) && Fresh(w, r) && 7 in w.alive && cfg.leaseSeconds == 10 && w.now == 0
    requires Pick(w.db, w.db.order, cfg) == Some(r) && Count(w.db.order, w.db.cells, BusyRuns) < cfg.workerSlots
    ensures var n := Next(w, cfg, Claim(7, a));
            && Reachable(n, cfg) && Claimed(n, r, a) && n == w.(db := n.db)
            && n.db == w.db.(cells := w.db.cells[r := n.db.cells[r]], branches := w.db.branches[r := Some(r)])
  {
    hide Reachable, Pick, Count;
    Follows(w, cfg, Claim(7, a));
  }

  /** Run 1 alone, claimed. */
  lemma Claims(branches: set<BranchId>, cfg: Config) returns (w: World)
    requires 1 in branches && cfg.workerSlots > 0 && cfg.leaseSeconds == 10
    ensures Reachable(w, cfg) && Claimed(w, 1, 50) && w.db.order == [1] && w.now == 0 && 7 in w.alive
    ensures w.db.cells.Keys == {1}
    ensures w.db.branches.Keys == branches && w.db.branches[1] == Some(1)
    ensures forall b :: b in branches && b != 1 ==> w.db.branches[b].None?
    ensures w.db.books == Budget.Books(map[1 := Budget.Account(map[], map[], map[])], map[])
  {
    hide Reachable, Start, Next;
    Started(branches, cfg);
    var s := Start(branches, cfg);
    OnlyOne(s.db, cfg);
    ClaimsFresh(s, cfg, 1, 50);
    w := Next(s, cfg, Claim(7, 50));
  }

  lemma OnlyOne(db: Db, cfg: Config)
    requires db.order == [1] && 1 in db.cells && db.cells[1].run.status.Queued? && db.cells[1].run.parent.None?
    requires db.cells[1].run.branch in db.branches && db.branches[db.cells[1].run.branch].None?
    ensures Pick(db, db.order, cfg) == Some(1) && Count(db.order, db.cells, BusyRuns) == 0
  {
    assert db.order[1..] == [];
  }

  // ---------------------------------------------------------------- a stopped context that passes again

  /** What passes the fence of run 1. */
  const CTX := Context(1, 50, 1, 0)

  lemma Sighted(w: World, cfg: Config)
    requires Reachable(w, cfg) && Claimed(w, 1, 50) && w.now == 0
    ensures var n := Next(w, cfg, Observe(1, 50));
            Reachable(n, cfg) && n == w.(sightings := w.sightings + {Sighting(1, 50, 10)})
  {
    hide Reachable;
    Follows(w, cfg, Observe(1, 50));
  }

  lemma Beats(w: World, cfg: Config)
    requires Reachable(w, cfg) && Claimed(w, 1, 50) && w.now == 0
    ensures var n := Next(w, cfg, Row(1, RowEvent.Heartbeat(CTX, 20)));
            && Reachable(n, cfg) && n.sightings == w.sightings && n.now == 0 && 1 in n.db.cells
            && n.db.cells[1] == w.db.cells[1].(attempts := w.db.cells[1].attempts[50 := Attempt(1, 7, 20, false)])
  {
    hide Reachable;
    Follows(w, cfg, Row(1, RowEvent.Heartbeat(CTX, 20)));
  }

  lemma Ticks(w: World, cfg: Config)
    requires Reachable(w, cfg)
    ensures Next(w, cfg, Tick(10)) == w.(now := w.now + 10) && Reachable(Next(w, cfg, Tick(10)), cfg)
  {
    hide Reachable;
    Follows(w, cfg, Tick(10));
  }

  lemma Suspects(w: World, cfg: Config)
    requires Reachable(w, cfg) && Sighting(1, 50, 10) in w.sightings && w.now == 10 && 1 in w.db.cells
    requires w.db.cells[1].run.status.Running? && w.db.cells[1].run.attempt == Some(50)
    ensures var n := Next(w, cfg, Event.Recover(Sighting(1, 50, 10), true, {}));
            && Reachable(n, cfg) && n.now == 10 && 1 in n.db.cells
            && n.db.cells[1].run == Moved(w.db.cells[1].run, Status.Recovering)
            && n.db.cells[1].attempts == w.db.cells[1].attempts
  {
    hide Reachable, KeptGrants, RevokeExcept;
    Follows(w, cfg, Event.Recover(Sighting(1, 50, 10), true, {}));
  }

  /** A worker renews its lease between the moment a recovery scan reads it and the scan's transaction.  Its context is
      then stopped with its lease alive, and a cancellation lets it pass again. */
  lemma StoppedContextPassesAgain(cfg: Config)
    requires cfg.workerSlots > 0 && cfg.leaseSeconds == 10
    ensures exists w :: && Reachable(w, cfg) && HasLease(w, CTX) && !Admitted(w, CTX, true)
                        && Admitted(Next(w, cfg, Cancel(1)), CTX, true)
  {
    hide Reachable, Next, Admitted;
    var w := Claims({1}, cfg);
    Sighted(w, cfg);
    var w1 := Next(w, cfg, Observe(1, 50));
    Beats(w1, cfg);
    var w2 := Next(w1, cfg, Row(1, RowEvent.Heartbeat(CTX, 20)));
    Ticks(w2, cfg);
    var w3 := Next(w2, cfg, Tick(10));
    Suspects(w3, cfg);
    var w4 := Next(w3, cfg, Event.Recover(Sighting(1, 50, 10), true, {}));
    assert !Admitted(w4, CTX, true) by { NotAdmitted(w4); }
    CancelAdmits(w4, cfg, CTX);
  }

  lemma NotAdmitted(w: World)
    requires 1 in w.db.cells && w.db.cells[1].run.status.Recovering?
    ensures !Admitted(w, CTX, true)
  {}

  // ---------------------------------------------------------------- more busy runs than workers

  const REVIEW := Outcome(Await, 1, 0, Some(1), None, [ReviewRef(9, 1, None)])

  lemma Reviewed(w: World, cfg: Config)
    requires Reachable(w, cfg) && Claimed(w, 1, 50) && w.db.order == [1] && w.db.cells.Keys == {1}
    ensures var n := Next(w, cfg, Settle(CTX, REVIEW));
            && Reachable(n, cfg) && n == w.(db := n.db) && n.db.cells.Keys == {1}
            && n.db.cells[1].run.status.NeedsReview?
            && n.db.cells[1].run.createdAt == w.db.cells[1].run.createdAt && n.db.cells[1].run.parent.None?
            && n.db.order == [1] && n.db.books == w.db.books && n.db.branches.Keys == w.db.branches.Keys
            && (forall b :: b in w.db.branches && w.db.branches[b].None? ==> n.db.branches[b].None?)
  {
    hide Reachable, ReadyWaits, BarrierMet;
    Follows(w, cfg, Settle(CTX, REVIEW));
    var saved := Checkpointed(w.db.cells[1], Some(1));
    ParksForReview(w.db.cells[1 := saved]);
  }

  lemma ParksForReview(m: map<RunId, Cell>)
    requires 1 in m && m[1].run.status.Running? && m[1].waits == map[]
    ensures SettleWaiting(m, CTX, REVIEW).Ok?
    ensures var n := SettleWaiting(m, CTX, REVIEW).value;
            && n.Keys == m.Keys && n[1].run.status.NeedsReview? && n[1].run.createdAt == m[1].run.createdAt
            && n[1].run.parent == m[1].run.parent
  {
    hide BarrierMet, ReadyWaits;
    assert REVIEW.refs[0].ReviewRef? && REVIEW.refs[0] in REVIEW.refs && REVIEW.refs[1..] == [];
    assert BindAll(m, 1, 0, REVIEW.refs) == Ok(m[1 := m[1]]);
    var parked := ParkCell(m[1], 50, REVIEW.refs).value;
    assert ResolveWaits(parked.waits, ReadyWaits(m[1 := parked], parked)) == parked.waits;
  }

  /** Run 2 beside a run 1 that is not queued. */
  lemma SecondSubmits(w: World, cfg: Config)
    requires Reachable(w, cfg) && w.db.order == [1] && w.db.cells.Keys == {1} && w.db.cells[1].run.createdAt == 0
    requires w.now == 0 && 2 in w.db.branches && w.db.branches[2].None? && w.db.books.accounts.Keys == {1}
    ensures var n := Next(w, cfg, Submit(2, 2, 0, None, {}, map[]));
            && Reachable(n, cfg) && Fresh(n, 2) && n == w.(db := n.db) && n.db.order == [1, 2]
            && n.db.cells == w.db.cells[2 := n.db.cells[2]] && n.db.branches == w.db.branches
            && n.db.books == w.db.books.(accounts := w.db.books.accounts[2 := Budget.Account(map[], map[], map[])])
  {
    hide Reachable;
    Follows(w, cfg, Submit(2, 2, 0, None, {}, map[]));
    assert w.db.order[1..] == [];
    assert Position(w.db.order, w.db.cells, 0, 2) == 1;
    assert Inserted([1], 1, 2) == [1, 2];
  }

  lemma SecondPicked(db: Db, cfg: Config)
    requires db.order == [1, 2] && 1 in db.cells && 2 in db.cells && !db.cells[1].run.status.Queued?
    requires db.cells[2].run.status.Queued? && db.cells[2].run.parent.None?
    requires db.cells[2].run.branch in db.branches && db.branches[db.cells[2].run.branch].None?
    ensures Pick(db, db.order, cfg) == Some(2)
    ensures Count(db.order, db.cells, BusyRuns) == if Hit(BusyRuns, db.cells[1]) then 1 else 0
  {
    hide Hit;
    assert db.order[1..] == [2] && db.order[1..][1..] == [];
    assert Hit(BusyRuns, db.cells[2]) == false by { QueuedIsIdle(db.cells[2]); }
    assert Count([2], db.cells, BusyRuns) == 0;
    assert Pick(db, [2], cfg) == Some(2);
  }

  lemma QueuedIsIdle(c: Cell)
    requires c.run.status.Queued?
    ensures !Hit(BusyRuns, c)
  {}

  /** With one worker slot: run 1 waits for a review, run 2 runs, and cancelling run 1 makes two busy runs. */
  lemma SlotsExceeded()
    ensures exists w, cfg :: && Reachable(w, cfg) && |Occupied(w.db.cells)| <= cfg.workerSlots
                             && |Occupied(Next(w, cfg, Cancel(1)).db.cells)| > cfg.workerSlots
  {
    hide Reachable, Next, Occupied, Newcomers;
    var cfg := Config(1, 1, 1, 10, 1);
    var w := Claims({1, 2}, cfg);
    Reviewed(w, cfg);
    var w1 := Next(w, cfg, Settle(CTX, REVIEW));
    SecondSubmits(w1, cfg);
    var w2 := Next(w1, cfg, Submit(2, 2, 0, None, {}, map[]));
    SecondPicked(w2.db, cfg);
    assert !Hit(BusyRuns, w2.db.cells[1]);
    ClaimsFresh(w2, cfg, 2, 60);
    var w3 := Next(w2, cfg, Claim(7, 60));
    TwoBusy(w3);
    BusyBoundIff(w3, cfg, Cancel(1));
  }

  lemma TwoBusy(w: World)
    requires w.db.cells.Keys == {1, 2} && w.db.cells[1].run.status.NeedsReview? && w.db.cells[2].run.status.Running?
    ensures Occupied(w.db.cells) == {2} && 1 in Newcomers(w, Cancel(1)) && |Newcomers(w, Cancel(1))| >= 1
  {
    assert Under(w.db.cells, 1, 1);
    assert |{1}| <= |Newcomers(w, Cancel(1))| by { SubsetSize({1}, Newcomers(w, Cancel(1))); }
  }

  // ---------------------------------------------------------------- ended runs with a live child

  lemma LastPosition(order: seq<RunId>, cells: map<RunId, Cell>, t: Time, r: RunId)
    requires forall i :: 0 <= i < |order| ==> Precedes(cells, order[i], t, r)
    ensures Inserted(order, Position(order, cells, t, r), r) == order + [r]
  {}

  lemma ChildAffordable(b: Budget.Books, root: RunId, key: Budget.ReservationKey)
    requires root in b.accounts && b.accounts[root].limits == map[] && key !in b.reservations
    ensures ReserveChild(b, root, key).Ok?
  {
    var reserved := Budget.ReserveIn(b, root, key, ONE_CHILD);
    assert reserved.reservations[key].amount == ONE_CHILD;
  }

  /** The run `r`, claimed as attempt `a`, has delegated to run 3, which waits on branch 3. */
  predicate Delegated(w: World, r: RunId, a: AttemptId) {
    && r in w.db.cells && 3 in w.db.cells && r != 3
    && var c := w.db.cells[r];
    && c.run.status.Running? && c.run.attempt == Some(a) && c.run.token == 1 && !c.run.cancelRequested
    && c.run.parent.None? && c.run.root == r && c.run.inputRevision == 0
    && a in c.attempts && c.attempts[a] == Attempt(1, 7, w.now + 10, false) && c.deps == [Dependency(KEY, 3, 0)]
    && c.ops == map[] && c.waits == map[] && c.interactions == map[] && c.reviewed == {} && c.inputs == map[]
    && w.db.cells[3].run.parent == Some(r) && w.db.cells[3].run.root == r && w.db.cells[3].run.depth == c.run.depth + 1
  }

  lemma Delegates(w: World, cfg: Config, r: RunId, a: AttemptId)
    requires Reachable(w, cfg) && Claimed(w, r, a) && cfg.maxDepth > 0 && w.now == 0
    requires 3 !in w.db.cells && 3 !in w.db.branches && w.db.books.reservations == map[]
    requires w.db.books.accounts[r].limits == map[]
    requires forall i :: 0 <= i < |w.db.order| ==> Precedes(w.db.cells, w.db.order[i], 0, 3)
    ensures var n := Next(w, cfg, Event.Delegate(Context(r, a, 1, 0), KEY, 0, {}, None, 3, 3));
            && Reachable(n, cfg) && Delegated(n, r, a) && n == w.(db := n.db) && n.db.order == w.db.order + [3]
            && n.db.cells == w.db.cells[r := n.db.cells[r]][3 := n.db.cells[3]]
            && n.db.cells[3] == NewCell(ChildRun(w.db.cells[r].run, r, 3, 0, {}))
            && n.db.branches == w.db.branches[3 := None]
  {
    hide Reachable, ReserveChild, Inserted, Position;
    var e := Event.Delegate(Context(r, a, 1, 0), KEY, 0, {}, None, 3, 3);
    Follows(w, cfg, e);
    ChildAffordable(w.db.books, r, Budget.ChildKey(r, KEY));
    var c := w.db.cells[r];
    var m := w.db.cells[r := c.(deps := c.deps + [Dependency(KEY, 3, 0)])];
    LastPosition(w.db.order, m, 0, 3);
    assert {} * c.run.capabilities == {};
  }

  const FAULT := Outcome(Fault, 1, 0, None, None, [])

  lemma Fails(w: World, cfg: Config)
    requires Reachable(w, cfg) && Delegated(w, 1, 50)
    ensures var n := Next(w, cfg, Settle(CTX, FAULT));
            && Reachable(n, cfg) && n.db.cells.Keys == w.db.cells.Keys && n.db.cells[1].run.status.Failed?
            && n.db.cells[1].deps == w.db.cells[1].deps && n.db.cells[3] == w.db.cells[3]
  {
    hide Reachable, ChildrenDone, RevokeExcept, WithdrawAll, DropAll;
    Follows(w, cfg, Settle(CTX, FAULT));
  }

  /** A run that failed while its child waits. */
  lemma FailedWithLiveChild(cfg: Config)
    requires cfg.workerSlots > 0 && cfg.leaseSeconds == 10 && cfg.maxDepth > 0
    ensures exists w :: Reachable(w, cfg) && 1 in w.db.cells && w.db.cells[1].run.status.Failed?
                        && !ChildrenDone(w.db.cells, w.db.cells[1])
  {
    hide Reachable, Next;
    var w := Claims({1}, cfg);
    Delegates(w, cfg, 1, 50);
    var w1 := Next(w, cfg, Event.Delegate(CTX, KEY, 0, {}, None, 3, 3));
    Fails(w1, cfg);
    var w2 := Next(w1, cfg, Settle(CTX, FAULT));
    assert w2.db.cells[1].deps[0].child == 3;
  }

  lemma ChildPicked(db: Db, cfg: Config)
    requires db.order == [1, 3] && 1 in db.cells && 3 in db.cells && db.cells[1].run.status.Running?
    requires db.cells[3].run.status.Queued? && db.cells[1].run.parent.None?
    requires db.cells[3].run.branch in db.branches && db.branches[db.cells[3].run.branch].None?
    requires cfg.childConcurrency > 0
    ensures Pick(db, db.order, cfg) == Some(3) && Count(db.order, db.cells, BusyRuns) == 1
  {
    assert db.order[1..] == [3] && [3][1..] == [];
    assert Count([3], db.cells, BusyRuns) == 0;
    var q := BusyChildren(db.cells[3].run.root);
    assert Count([3], db.cells, q) == 0 && Count(db.order, db.cells, q) == 0;
    assert Pick(db, [3], cfg) == Some(3);
  }

  lemma ChildClaimed(w: World, cfg: Config)
    requires Reachable(w, cfg) && Delegated(w, 1, 50) && 7 in w.alive && w.db.order == [1, 3]
    requires w.db.cells[3].run.status.Queued? && w.db.cells[3].attempts == map[] && 3 in w.db.branches
    requires w.db.cells[3].run.branch == 3 && w.db.branches[3].None? && cfg.workerSlots > 1 && cfg.childConcurrency > 0
    ensures var n := Next(w, cfg, Claim(7, 60));
            && Reachable(n, cfg) && Delegated(n, 1, 50) && n.now == w.now && n.db.cells.Keys == w.db.cells.Keys
            && n.db.cells[3].run.status.Running?
  {
    hide Reachable, Pick, Count;
    ChildPicked(w.db, cfg);
    Follows(w, cfg, Claim(7, 60));
  }

  const FORM := Input(KEY)
  const ASK := RowEvent.Ask(CTX, FORM, None, None)

  lemma Asks(w: World, cfg: Config)
    requires Reachable(w, cfg) && Delegated(w, 1, 50)
    ensures var n := Next(w, cfg, Row(1, ASK));
            && Reachable(n, cfg) && n.now == w.now && n.db.cells.Keys == w.db.cells.Keys
            && n.db.cells[3] == w.db.cells[3]
            && n.db.cells[1] == w.db.cells[1].(interactions := map[FORM := NewInteraction(None, 0, None)])
  {
    hide Reachable;
    Follows(w, cfg, Row(1, ASK));
  }

  const QUESTION := Outcome(Await, 1, 0, Some(1), None, [UserRef(9, 1, FORM)])

  lemma ParksForUser(m: map<RunId, Cell>)
    requires 1 in m && m[1].run.status.Running? && m[1].waits == map[] && m[1].reviewed == {}
    requires m[1].interactions == map[FORM := NewInteraction(None, 0, None)]
    ensures SettleWaiting(m, CTX, QUESTION).Ok?
    ensures var n := SettleWaiting(m, CTX, QUESTION).value;
            && n.Keys == m.Keys && n[1].run.status.WaitingUser? && n[1].run.required == {9} && n[1].deps == m[1].deps
            && n[1].interactions.Keys == {FORM} && n[1].run.cancelRequested == m[1].run.cancelRequested
            && n[1].interactions[FORM] == Interaction(None, 0, InteractionStatus.Open, 2, Some(9), None, None)
            && forall x :: x in m && x != 1 ==> n[x] == m[x]
  {
    hide ReadyWaits;
    assert QUESTION.refs[0].UserRef? && QUESTION.refs[0] in QUESTION.refs && QUESTION.refs[1..] == [];
    var c := BindRef(m[1], 0, QUESTION.refs[0]).value;
    assert BindAll(m, 1, 0, QUESTION.refs) == Ok(m[1 := c]);
    var parked := ParkCell(c, 50, QUESTION.refs).value;
    assert 9 in parked.run.required && !HasAnswer(AnswersOf(parked), 9);
    assert ResolveWaits(parked.waits, ReadyWaits(m[1 := c][1 := parked], parked)) == parked.waits;
  }

  lemma Questions(w: World, cfg: Config)
    requires Reachable(w, cfg) && 1 in w.db.cells && 3 in w.db.cells && !w.db.cells[1].run.cancelRequested
    requires w.db.cells[1].interactions == map[FORM := NewInteraction(None, 0, None)]
    requires w.db.cells[1].run.status.Running? && w.db.cells[1].waits == map[] && w.db.cells[1].reviewed == {}
    requires FencePasses(w.db.cells[1].run, w.db.cells[1].attempts, CTX, w.now, true)
    ensures var n := Next(w, cfg, Settle(CTX, QUESTION));
            && Reachable(n, cfg) && n.now == w.now && n.db.cells.Keys == w.db.cells.Keys
            && n.db.cells[3] == w.db.cells[3]
            && n.db.cells[1].run.status.WaitingUser? && n.db.cells[1].run.required == {9}
            && !n.db.cells[1].run.cancelRequested
            && n.db.cells[1].deps == w.db.cells[1].deps && n.db.cells[1].interactions.Keys == {FORM}
            && n.db.cells[1].interactions[FORM] == Interaction(None, 0, InteractionStatus.Open, 2, Some(9), None, None)
  {
    hide Reachable, SettleWaiting, FencePasses;
    Follows(w, cfg, Settle(CTX, QUESTION));
    ParksForUser(w.db.cells[1 := Checkpointed(w.db.cells[1], Some(1))]);
  }

  const ANSWER := RowEvent.Respond(FORM, 2, 0, true, true)

  lemma Answers(w: World, cfg: Config)
    requires Reachable(w, cfg) && 1 in w.db.cells && 3 in w.db.cells && w.db.cells[1].run.status.WaitingUser?
    requires w.db.cells[1].run.required == {9} && FORM in w.db.cells[1].interactions
    requires !w.db.cells[1].run.cancelRequested
    requires w.db.cells[1].interactions[FORM] == Interaction(None, 0, InteractionStatus.Open, 2, Some(9), None, None)
    ensures var n := Next(w, cfg, Row(1, ANSWER));
            && Reachable(n, cfg) && n.db.cells.Keys == w.db.cells.Keys && n.db.cells[3] == w.db.cells[3]
            && n.db.cells[1].run.status.Queued? && n.db.cells[1].deps == w.db.cells[1].deps
  {
    hide Reachable;
    Follows(w, cfg, Row(1, ANSWER));
    var c := w.db.cells[1];
    var i := Interaction(None, 0, InteractionStatus.Resolved, 3, Some(9), Some(Answered(0)), None);
    var d := c.(interactions := c.interactions[FORM := i]);
    assert d.interactions[FORM].interrupt == Some(9) && HasAnswer(AnswersOf(d), 9);
  }

  lemma CancelsQueued(w: World, cfg: Config)
    requires Reachable(w, cfg) && 1 in w.db.cells && 3 in w.db.cells && w.db.cells[1].run.status.Queued?
    requires w.db.cells[3].run.status.Running? && w.db.cells[1].deps == [Dependency(KEY, 3, 0)]
    requires w.db.cells[3].run.parent == Some(1) && w.db.cells[1].run.depth < w.db.cells[3].run.depth
    ensures var n := Next(w, cfg, Cancel(1));
            && Reachable(n, cfg) && 1 in n.db.cells && 3 in n.db.cells && n.db.cells[1].run.status.Cancelled?
            && n.db.cells[3].run.status.Cancelling? && w.db.cells[1].deps <= n.db.cells[1].deps
  {
    hide Reachable, Next, WorldInv, LeaseStep, OpsFrozen, InteractionsFrozen;
    Follows(w, cfg, Cancel(1));
    ReachableKeeps(w, cfg);
    assert Under(w.db.cells, 1, 1) && Under(w.db.cells, 1, 3);
    CancelledNow(w, cfg, 1, 1);
    CancelledNow(w, cfg, 1, 3);
    StepKeeps(w, cfg, Cancel(1));
    assert CellStep(w.db.cells[1], w.now, Next(w, cfg, Cancel(1)).db.cells[1], Next(w, cfg, Cancel(1)).now);
  }

  /** A run that was cancelled while it was queued and whose child is still cancelling. */
  lemma CancelledWithLiveChild(cfg: Config)
    requires cfg.workerSlots > 1 && cfg.leaseSeconds == 10 && cfg.maxDepth > 0 && cfg.childConcurrency > 0
    ensures exists w :: Reachable(w, cfg) && 1 in w.db.cells && w.db.cells[1].run.status.Cancelled?
                        && !ChildrenDone(w.db.cells, w.db.cells[1])
  {
    hide Reachable, Next;
    var w := Claims({1}, cfg);
    Delegates(w, cfg, 1, 50);
    var w1 := Next(w, cfg, Event.Delegate(CTX, KEY, 0, {}, None, 3, 3));
    ChildClaimed(w1, cfg);
    var w2 := Next(w1, cfg, Claim(7, 60));
    Asks(w2, cfg);
    var w3 := Next(w2, cfg, Row(1, ASK));
    Questions(w3, cfg);
    var w4 := Next(w3, cfg, Settle(CTX, QUESTION));
    Answers(w4, cfg);
    var w5 := Next(w4, cfg, Row(1, ANSWER));
    ChildIsDeeper(w5, cfg);
    CancelsQueued(w5, cfg);
    var w6 := Next(w5, cfg, Cancel(1));
    assert w6.db.cells[1].deps[0].child == 3;
  }

  lemma ChildIsDeeper(v: World, cfg: Config)
    requires Reachable(v, cfg) && 1 in v.db.cells && 3 in v.db.cells && v.db.cells[3].run.parent == Some(1)
    ensures v.db.cells[1].run.depth < v.db.cells[3].run.depth
  {
    hide WorldInv, Branching, Ordered, Charged;
    ReachableKeeps(v, cfg);
    ForestOf(v, cfg);
    assert Rooted(v.db.cells, 3, cfg.maxDepth);
  }

  // ---------------------------------------------------------------- two runs, one with an answered wait

  const SECOND := Context(2, 60, 1, 0)
  const WAIT := RowEvent.AddWait(KEY, [3], All)
  const JOIN := Outcome(Await, 2, 0, Some(1), None, [ChildrenRef(5, 2, KEY)])

  lemma WaitsForChild(w: World, cfg: Config)
    requires Reachable(w, cfg) && Delegated(w, 2, 60) && 1 in w.db.cells
    ensures var n := Next(w, cfg, Row(2, WAIT));
            && Reachable(n, cfg) && n.now == w.now && n.db.cells == w.db.cells[2 := n.db.cells[2]]
            && n.db.cells[2] == w.db.cells[2].(waits := map[KEY := Wait.Wait([3], All, None, false, None, 1)])
  {
    hide Reachable;
    Follows(w, cfg, Row(2, WAIT));
    assert w.db.cells[2].deps[0].child == 3;
  }

  lemma ChildCancelled(w: World, cfg: Config)
    requires Reachable(w, cfg) && 1 in w.db.cells && 2 in w.db.cells && 3 in w.db.cells
    requires w.db.cells[3].run.status.Queued?
    requires w.db.cells[1].run.parent.None? && w.db.cells[2].run.parent.None?
    ensures var n := Next(w, cfg, Cancel(3));
            && Reachable(n, cfg) && n.now == w.now && n.db.cells.Keys == w.db.cells.Keys
            && n.db.cells[1] == w.db.cells[1] && n.db.cells[2] == w.db.cells[2] && n.db.cells[3].run.status.Cancelled?
  {
    hide Reachable, WorldInv, CancelCell;
    Follows(w, cfg, Cancel(3));
    ReachableKeeps(w, cfg);
    assert Under(w.db.cells, 3, 3) && !Under(w.db.cells, 3, 1) && !Under(w.db.cells, 3, 2);
    CancelledNow(w, cfg, 3, 3);
  }

  lemma Joined(m: map<RunId, Cell>)
    requires 2 in m && 3 in m && m[2].run.status.Running? && Terminal(m[3].run.status)
    requires m[2].waits == map[KEY := Wait.Wait([3], All, None, false, None, 1)] && !m[2].run.cancelRequested
    ensures SettleWaiting(m, SECOND, JOIN).Ok?
    ensures var n := SettleWaiting(m, SECOND, JOIN).value;
            && n == m[2 := n[2]] && n[2].run.status.Queued? && n[2].run.required == {5}
            && n[2].interactions == m[2].interactions && n[2].reviewed == m[2].reviewed
            && n[2].waits == map[KEY := Wait.Wait([3], All, Some(5), true, Some(ChildrenReady), 3)]
  {
    hide ParkCell, RefreshCell, Wake, ReadyWaits, BindRef;
    JoinParks(m[2]);
    assert JOIN.refs[0].ChildrenRef? && JOIN.refs[1..] == [];
    var c := BindRef(m[2], 0, JOIN.refs[0]).value;
    assert BindAll(m, 2, 0, JOIN.refs) == Ok(m[2 := c]);
    var parked := ParkCell(c, 60, JOIN.refs).value;
    var bound := m[2 := c][2 := parked];
    assert KEY in ReadyWaits(bound, parked) by { AllDone(bound, parked); }
    JoinWakes(parked, ReadyWaits(bound, parked));
    assert m[2 := c][2 := Wake(RefreshCell(parked, ReadyWaits(bound, parked)))]
        == m[2 := Wake(RefreshCell(parked, ReadyWaits(bound, parked)))];
  }

  lemma AllDone(m: map<RunId, Cell>, c: Cell)
    requires 3 in m && Terminal(m[3].run.status) && KEY in c.waits && c.waits[KEY].children == [3]
    requires c.waits[KEY].mode == All
    ensures KEY in ReadyWaits(m, c)
  {}

  lemma JoinParks(c: Cell)
    requires c.run.status.Running? && c.waits == map[KEY := Wait.Wait([3], All, None, false, None, 1)]
    ensures BindRef(c, 0, JOIN.refs[0]).Ok? && ParkCell(BindRef(c, 0, JOIN.refs[0]).value, 60, JOIN.refs).Ok?
    ensures var d := ParkCell(BindRef(c, 0, JOIN.refs[0]).value, 60, JOIN.refs).value;
            && d.run.status.WaitingChildren? && d.run.required == {5} && d.run.cancelRequested == c.run.cancelRequested
            && d.interactions == c.interactions && d.reviewed == c.reviewed
            && d.waits == map[KEY := Wait.Wait([3], All, Some(5), true, None, 2)]
  {
    hide EndAttempt;
    assert JOIN.refs[0].ChildrenRef? && JOIN.refs[0] in JOIN.refs && JOIN.refs[1..] == [];
    var b := BindRef(c, 0, JOIN.refs[0]).value;
    assert b.waits == map[KEY := Wait.Wait([3], All, Some(5), true, None, 2)];
    assert RequiredOf(JOIN.refs) == {5};
    OnlyAttempts(b, Advance(b.(run := b.run.(required := {5})), Status.WaitingChildren).value, 60);
  }

  lemma JoinWakes(c: Cell, ready: set<OpKey>)
    requires c.run.status.WaitingChildren? && c.run.required == {5} && !c.run.cancelRequested && KEY in ready
    requires c.waits == map[KEY := Wait.Wait([3], All, Some(5), true, None, 2)]
    ensures var d := Wake(RefreshCell(c, ready));
            && d.run.status.Queued? && d.run.required == {5} && d.interactions == c.interactions
            && d.reviewed == c.reviewed
            && d.waits == map[KEY := Wait.Wait([3], All, Some(5), true, Some(ChildrenReady), 3)]
  {
    hide BarrierMet, ResolveWaits;
    ChildrenAnswered(c, ready);
  }

  lemma ChildrenAnswered(c: Cell, ready: set<OpKey>)
    requires KEY in ready && c.waits == map[KEY := Wait.Wait([3], All, Some(5), true, None, 2)]
    ensures var waits := ResolveWaits(c.waits, ready);
            && waits == map[KEY := Wait.Wait([3], All, Some(5), true, Some(ChildrenReady), 3)]
            && BarrierMet({5}, AnswersOf(c.(waits := waits)))
  {
    var s := AnswersOf(c.(waits := ResolveWaits(c.waits, ready)));
    assert s.waits[KEY].interrupt == Some(5) && HasAnswer(s, 5);
  }

  lemma Joins(w: World, cfg: Config)
    requires Reachable(w, cfg) && 1 in w.db.cells && 2 in w.db.cells && 3 in w.db.cells
    requires Terminal(w.db.cells[3].run.status)
    requires FencePasses(w.db.cells[2].run, w.db.cells[2].attempts, SECOND, w.now, true)
    requires w.db.cells[2].run.status.Running? && !w.db.cells[2].run.cancelRequested
    requires w.db.cells[2].waits == map[KEY := Wait.Wait([3], All, None, false, None, 1)]
    ensures var n := Next(w, cfg, Settle(SECOND, JOIN));
            && Reachable(n, cfg) && n.now == w.now && n.db.cells == w.db.cells[2 := n.db.cells[2]]
            && n.db.cells[2].run.status.Queued? && n.db.cells[2].run.required == {5}
            && n.db.cells[2].interactions == w.db.cells[2].interactions
            && n.db.cells[2].reviewed == w.db.cells[2].reviewed
            && n.db.cells[2].waits == map[KEY := Wait.Wait([3], All, Some(5), true, Some(ChildrenReady), 3)]
  {
    hide Reachable, SettleWaiting, FencePasses;
    Follows(w, cfg, Settle(SECOND, JOIN));
    Joined(w.db.cells[2 := Checkpointed(w.db.cells[2], Some(1))]);
  }

  /** Run 1 runs; run 2 is queued with its one interrupt answered by its wait for an ended child. */
  predicate Beside(w: World) {
    && 1 in w.db.cells && 2 in w.db.cells && w.db.cells[1].run.status.Running?
    && FencePasses(w.db.cells[1].run, w.db.cells[1].attempts, CTX, w.now, false)
    && w.db.cells[2].run.status.Queued? && w.db.cells[2].run.required == {5}
    && w.db.cells[2].interactions == map[] && w.db.cells[2].reviewed == {}
    && w.db.cells[2].waits == map[KEY := Wait.Wait([3], All, Some(5), true, Some(ChildrenReady), 3)]
  }

  lemma TwoRuns() returns (w: World, cfg: Config)
    ensures Reachable(w, cfg) && Beside(w)
  {
    hide Reachable, Next;
    cfg := Config(2, 2, 2, 10, 1);
    var w0 := Claims({1, 2}, cfg);
    SecondSubmits(w0, cfg);
    var w1 := Next(w0, cfg, Submit(2, 2, 0, None, {}, map[]));
    SecondPicked(w1.db, cfg);
    ClaimsFresh(w1, cfg, 2, 60);
    var w2 := Next(w1, cfg, Claim(7, 60));
    Delegates(w2, cfg, 2, 60);
    var w3 := Next(w2, cfg, Event.Delegate(SECOND, KEY, 0, {}, None, 3, 3));
    WaitsForChild(w3, cfg);
    var w4 := Next(w3, cfg, Row(2, WAIT));
    ChildCancelled(w4, cfg);
    var w5 := Next(w4, cfg, Cancel(3));
    Joins(w5, cfg);
    w := Next(w5, cfg, Settle(SECOND, JOIN));
  }
}
