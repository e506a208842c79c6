/** Starting a run, by submission or by delegation, keeps the database's invariant. */
module NewRuns {
  import opened Domain
  import opened RunMachine
  import opened RunInvariant
  import opened Tables
  import opened TablesInvariant
  import Budget

  lemma FreshCell(run: Run)
    requires run.status.Queued? && run.attempt.None? && !run.cancelRequested && run.required == {}
    ensures CellInv(NewCell(run))
  {}

  lemma {:induction false} PositionBefore(order: seq<RunId>, m: map<RunId, Cell>, t: Time, r: RunId, j: nat)
    requires Ordered(order, m) && r !in m && Position(order, m, t, r) <= j < |order|
    ensures !Precedes(m, order[j], t, r)
  {
    var i := Position(order, m, t, r);
    assert !Precedes(m, order[i], t, r);
    if i < j {
      assert Before(m, order[i], order[j]);
    }
  }

  lemma InsertedAt(order: seq<RunId>, p: nat, r: RunId, i: nat)
    requires p <= |order| && i <= |order|
    ensures |Inserted(order, p, r)| == |order| + 1
    ensures Inserted(order, p, r)[i] == if i < p then order[i] else if i == p then r else order[i - 1]
  {}

  lemma InsertSorted(order: seq<RunId>, m: map<RunId, Cell>, r: RunId, run: Run, i: nat, j: nat)
    requires Ordered(order, m) && r !in m && i < j <= |order|
    ensures |Inserted(order, Position(order, m, run.createdAt, r), r)| == |order| + 1
    ensures var s := Inserted(order, Position(order, m, run.createdAt, r), r);
            Before(m[r := NewCell(run)], s[i], s[j])
  {
    hide Inserted;
    var p := Position(order, m, run.createdAt, r);
    InsertedAt(order, p, r, i);
    InsertedAt(order, p, r, j);
    if i == p {
      PositionBefore(order, m, run.createdAt, r, j - 1);
    } else if j != p {
      assert Before(m, order[if i < p then i else i - 1], order[if j < p then j else j - 1]);
    }
  }

  lemma InsertOrdered(order: seq<RunId>, m: map<RunId, Cell>, r: RunId, run: Run)
    requires Ordered(order, m) && r !in m
    ensures Ordered(Inserted(order, Position(order, m, run.createdAt, r), r), m[r := NewCell(run)])
  {
    hide Before, Precedes;
    var p := Position(order, m, run.createdAt, r);
    var s, n := Inserted(order, p, r), m[r := NewCell(run)];
    forall i, j | 0 <= i < j < |s| ensures Before(n, s[i], s[j]) {
      InsertSorted(order, m, r, run, i, j);
    }
    forall x | x in n ensures x in s {
      assert s[p] == r;
      if x != r {
        var i :| 0 <= i < |order| && order[i] == x;
        assert s[if i < p then i else i + 1] == x;
      }
    }
  }

  lemma {:induction false} CountAgrees(order: seq<RunId>, m: map<RunId, Cell>, n: map<RunId, Cell>, q: Query)
    requires forall x :: x in order ==> (x in m <==> x in n) && (x in m ==> n[x].run == m[x].run)
    ensures Count(order, n, q) == Count(order, m, q)
    decreases |order|
  {
    if order != [] {
      CountAgrees(order[1..], m, n, q);
    }
  }

  lemma CountInsert(order: seq<RunId>, m: map<RunId, Cell>, r: RunId, run: Run, q: Query)
    requires Ordered(order, m) && r !in m
    ensures Count(Inserted(order, Position(order, m, run.createdAt, r), r), m[r := NewCell(run)], q)
         == Count(order, m, q) + (if Hit(q, NewCell(run)) then 1 else 0)
  {
    var n := m[r := NewCell(run)];
    CountInserted(order, Position(order, m, run.createdAt, r), r, n, q);
    CountAgrees(order, m, n, q);
  }

  lemma InsertCapacity(order: seq<RunId>, m: map<RunId, Cell>, r: RunId, run: Run, cfg: Config)
    requires Ordered(order, m) && r !in m && Capacity(order, m, cfg) && run.status.Queued?
    ensures Capacity(Inserted(order, Position(order, m, run.createdAt, r), r), m[r := NewCell(run)], cfg)
  {
    CountInsert(order, m, r, run, RunningRuns);
    forall root
      ensures Count(Inserted(order, Position(order, m, run.createdAt, r), r), m[r := NewCell(run)],
                    RunningChildren(root))
           <= cfg.childConcurrency
    {
      CountInsert(order, m, r, run, RunningChildren(root));
    }
  }

  lemma {:induction false} NoFamily(order: seq<RunId>, m: map<RunId, Cell>, r: RunId)
    requires forall x :: x in m ==> m[x].run.root != r
    ensures Count(order, m, Family(r)) == 0
    decreases |order|
  {
    if order != [] {
      NoFamily(order[1..], m, r);
    }
  }

  // ---------------------------------------------------------------- submission

  lemma SubmitForest(m: map<RunId, Cell>, r: RunId, run: Run, maxDepth: nat)
    requires Forest(m, maxDepth) && r !in m && run.parent.None? && run.root == r && run.depth == 0
    ensures Forest(m[r := NewCell(run)], maxDepth)
  {
    var n := m[r := NewCell(run)];
    forall x | x in n ensures Rooted(n, x, maxDepth) && Branching(n, x) {
      if x != r {
        assert Rooted(m, x, maxDepth) && Branching(m, x);
      }
    }
  }

  lemma SubmitCosted(order: seq<RunId>, m: map<RunId, Cell>, accounts: map<Budget.AccountId, Budget.Account>, r: RunId,
                     run: Run, maxDepth: nat, limits: map<Budget.Dimension, Option<real>>)
    requires Costed(order, m, accounts) && Ordered(order, m) && Forest(m, maxDepth) && r !in m && run.parent.None?
    ensures Costed(Inserted(order, Position(order, m, run.createdAt, r), r), m[r := NewCell(run)],
                   accounts[r := Budget.Account(limits, map[], map[])])
  {
    hide Inserted;
    var n := accounts[r := Budget.Account(limits, map[], map[])];
    forall a | a in n
      ensures Budget.Get(n[a].consumed, Budget.Children)
           == Count(Inserted(order, Position(order, m, run.createdAt, r), r), m[r := NewCell(run)], Family(a)) as real
    {
      CountInsert(order, m, r, run, Family(a));
      if a == r {
        forall x | x in m ensures m[x].run.root != r {
          assert Rooted(m, x, maxDepth);
        }
        NoFamily(order, m, r);
      }
    }
  }

  lemma InsertRows(m: map<RunId, Cell>, r: RunId, run: Run, branches: map<BranchId, Option<RunId>>)
    requires Runs(m) && Owned(m, branches) && WaitScopes(m) && ParentsLast(m) && r !in m
    requires run.status.Queued? && run.attempt.None? && !run.cancelRequested && run.required == {}
    requires run.branch in branches
    ensures var n := m[r := NewCell(run)]; Runs(n) && Owned(n, branches) && WaitScopes(n) && ParentsLast(n)
  {
    hide CellInv, IsChild;
    var n := m[r := NewCell(run)];
    FreshCell(run);
    forall x | x in n && n[x].run.status.Completed? ensures ChildrenDone(n, n[x]) {
      assert ChildrenDone(m, m[x]);
    }
  }

  lemma SubmitKeeps(db: Db, cfg: Config, r: RunId, branch: BranchId, inputRevision: nat, createdAt: Time,
                    deadline: Option<Time>, capabilities: set<Capability>, limits: map<Budget.Dimension, Option<real>>)
    requires DbInv(db, cfg)
    requires SubmitIn(db, r, branch, inputRevision, createdAt, deadline, capabilities, limits).Ok?
    ensures DbInv(SubmitIn(db, r, branch, inputRevision, createdAt, deadline, capabilities, limits).value, cfg)
  {
    hide Runs, Owned, WaitScopes, ParentsLast, Ordered, Capacity, Forest, Costed, Budget.Conserved;
    var run := RootRun(r, branch, inputRevision, createdAt, deadline, capabilities);
    InsertRows(db.cells, r, run, db.branches);
    InsertOrdered(db.order, db.cells, r, run);
    InsertCapacity(db.order, db.cells, r, run, cfg);
    SubmitForest(db.cells, r, run, cfg.maxDepth);
    SubmitCosted(db.order, db.cells, db.books.accounts, r, run, cfg.maxDepth, limits);
    Budget.OpenAccount(db.books, r, limits);
  }

  // ---------------------------------------------------------------- delegation

  function Delegating(c: Cell, k: OpKey, r: RunId, argsHash: nat): Cell {
    c.(deps := c.deps + [Dependency(k, r, argsHash)])
  }

  lemma DelegatingStep(c: Cell, k: OpKey, r: RunId, argsHash: nat, now: Time)
    requires CellInv(c) && c.run.status.Running? && !c.run.cancelRequested
    ensures var d := Delegating(c, k, r, argsHash); CellInv(d) && CellStep(c, now, d, now)
  {
    hide Leases, Barrier, Ledger, Forms, Closed;
    RowsReflexive(c);
    LeaseReflexive(c, now, now);
  }

  /** The rows with the parent's new dependency, before the child is there. */
  lemma DelegatingRows(m: map<RunId, Cell>, p: RunId, d: Cell, branches: map<BranchId, Option<RunId>>)
    requires Runs(m) && Owned(m, branches) && WaitScopes(m) && ParentsLast(m) && p in m
    requires CellInv(d) && d == m[p].(deps := d.deps) && m[p].deps <= d.deps && d.run.status.Running?
    ensures var n := m[p := d]; Runs(n) && Owned(n, branches) && WaitScopes(n) && ParentsLast(n)
  {
    hide CellInv;
    var n := m[p := d];
    forall x | x in n && n[x].run.status.Completed? ensures ChildrenDone(n, n[x]) {
      assert ChildrenDone(m, m[x]);
    }
    forall r, k, x | r in n && k in n[r].waits && x in n[r].waits[k].children ensures IsChild(n[r].deps, x) {
      assert IsChild(m[r].deps, x);
    }
  }

  lemma SameRunsOrder(order: seq<RunId>, m: map<RunId, Cell>, n: map<RunId, Cell>, cfg: Config)
    requires n.Keys == m.Keys && forall r :: r in m ==> n[r].run == m[r].run
    ensures Ordered(order, m) ==> Ordered(order, n)
    ensures Capacity(order, m, cfg) ==> Capacity(order, n, cfg)
  {
    CountAgrees(order, m, n, RunningRuns);
    forall root ensures Count(order, n, RunningChildren(root)) == Count(order, m, RunningChildren(root)) {
      CountAgrees(order, m, n, RunningChildren(root));
    }
    if Ordered(order, m) {
      forall i, j | 0 <= i < j < |order| ensures Before(n, order[i], order[j]) {
        assert Before(m, order[i], order[j]);
      }
    }
  }

  lemma DelegateRooted(m: map<RunId, Cell>, p: RunId, k: OpKey, r: RunId, argsHash: nat, child: Run, maxDepth: nat,
                       x: RunId)
    requires Forest(m, maxDepth) && p in m && r !in m && (x in m || x == r)
    requires child.parent == Some(p) && child.root == m[p].run.root && child.depth == m[p].run.depth + 1
    requires child.depth <= maxDepth && child.capabilities <= m[p].run.capabilities
    ensures Rooted(m[p := Delegating(m[p], k, r, argsHash)][r := NewCell(child)], x, maxDepth)
  {
    hide Branching;
    var n := m[p := Delegating(m[p], k, r, argsHash)][r := NewCell(child)];
    assert Rooted(m, p, maxDepth);
    if x == r {
      assert n[p].deps[|m[p].deps|].child == r;
    } else {
      assert Rooted(m, x, maxDepth);
      if m[x].run.parent == Some(p) {
        var d :| d in m[p].deps && d.child == x;
        assert d in n[p].deps;
      }
    }
  }

  lemma DelegateBranching(m: map<RunId, Cell>, p: RunId, k: OpKey, r: RunId, argsHash: nat, child: Run, maxDepth: nat,
                          x: RunId)
    requires Forest(m, maxDepth) && p in m && r !in m && !SameDelegation(m[p].deps, k) && (x in m || x == r)
    requires child.parent == Some(p)
    ensures Branching(m[p := Delegating(m[p], k, r, argsHash)][r := NewCell(child)], x)
  {
    hide Rooted;
    if x != r {
      assert Branching(m, x);
    }
  }

  lemma DelegateForest(m: map<RunId, Cell>, p: RunId, k: OpKey, r: RunId, argsHash: nat, child: Run, maxDepth: nat)
    requires Forest(m, maxDepth) && p in m && r !in m && !SameDelegation(m[p].deps, k)
    requires child.parent == Some(p) && child.root == m[p].run.root && child.depth == m[p].run.depth + 1
    requires child.depth <= maxDepth && child.capabilities <= m[p].run.capabilities
    ensures Forest(m[p := Delegating(m[p], k, r, argsHash)][r := NewCell(child)], maxDepth)
  {
    hide Rooted, Branching;
    forall x | x in m || x == r
      ensures Rooted(m[p := Delegating(m[p], k, r, argsHash)][r := NewCell(child)], x, maxDepth)
      ensures Branching(m[p := Delegating(m[p], k, r, argsHash)][r := NewCell(child)], x)
    {
      DelegateRooted(m, p, k, r, argsHash, child, maxDepth, x);
      DelegateBranching(m, p, k, r, argsHash, child, maxDepth, x);
    }
  }

  predicate OneMore(x: Budget.Account, y: Budget.Account, more: bool) {
    Budget.Get(y.consumed, Budget.Children) == Budget.Get(x.consumed, Budget.Children) + (if more then 1.0 else 0.0)
  }

  /** The reservation of one child is new, is settled at once, and costs the root one child. */
  lemma ChildCharged(b: Budget.Books, root: RunId, key: Budget.ReservationKey)
    requires Budget.Conserved(b) && key.ChildKey? && key !in b.reservations && ReserveChild(b, root, key).Ok?
    ensures var c := ReserveChild(b, root, key).value;
            && Budget.Conserved(c) && c.accounts.Keys == b.accounts.Keys
            && c.reservations == b.reservations[key := Budget.Reservation(root, ONE_CHILD, Some(ONE_CHILD),
                                                                          Budget.Settled)]
            && forall a :: a in b.accounts ==> OneMore(b.accounts[a], c.accounts[a], a == root)
  {
    hide Budget.Conserved;
    Budget.ReserveConserves(b, root, key, ONE_CHILD);
    Budget.SettleConserves(Budget.ReserveIn(b, root, key, ONE_CHILD), key, Some(ONE_CHILD));
  }

  lemma DelegateKeyed(m: map<RunId, Cell>, n: map<RunId, Cell>, b: map<Budget.ReservationKey, Budget.Reservation>,
                      p: RunId, k: OpKey, r: RunId, argsHash: nat, child: Run, paid: Budget.Reservation)
    requires Keyed(m, b) && p in m && r !in m && ChildCharge(Budget.ChildKey(p, k), paid)
    requires n == m[p := Delegating(m[p], k, r, argsHash)][r := NewCell(child)]
    ensures Keyed(n, b[Budget.ChildKey(p, k) := paid])
  {
    var c := b[Budget.ChildKey(p, k) := paid];
    forall x | x in c && x.ChildKey? ensures x.run in n && SameDelegation(n[x.run].deps, x.op) {
      if x == Budget.ChildKey(p, k) {
        assert n[p].deps[|m[p].deps|].key == k;
      } else {
        var d :| d in m[x.run].deps && d.key == x.op;
        assert d in n[x.run].deps;
      }
    }
  }

  lemma DelegateCosted(order: seq<RunId>, m: map<RunId, Cell>, accounts: map<Budget.AccountId, Budget.Account>,
                       charged: map<Budget.AccountId, Budget.Account>, r: RunId, child: Run)
    requires Costed(order, m, accounts) && Ordered(order, m) && r !in m && child.parent.Some?
    requires charged.Keys == accounts.Keys
    requires forall a :: a in accounts ==> OneMore(accounts[a], charged[a], a == child.root)
    ensures Costed(Inserted(order, Position(order, m, child.createdAt, r), r), m[r := NewCell(child)], charged)
  {
    hide Inserted, Ordered;
    forall a | a in charged
      ensures Budget.Get(charged[a].consumed, Budget.Children)
           == Count(Inserted(order, Position(order, m, child.createdAt, r), r), m[r := NewCell(child)],
                    Family(a)) as real
    {
      CountInsert(order, m, r, child, Family(a));
    }
  }

  lemma SameRunsCosted(order: seq<RunId>, m: map<RunId, Cell>, n: map<RunId, Cell>,
                       accounts: map<Budget.AccountId, Budget.Account>)
    requires n.Keys == m.Keys && (forall r :: r in m ==> n[r].run == m[r].run) && Costed(order, m, accounts)
    ensures Costed(order, n, accounts)
  {
    forall a | a in accounts
      ensures Budget.Get(accounts[a].consumed, Budget.Children) == Count(order, n, Family(a)) as real
    {
      CountAgrees(order, m, n, Family(a));
    }
  }

  lemma DelegateCharged(order: seq<RunId>, m: map<RunId, Cell>, b: Budget.Books, p: RunId, k: OpKey, r: RunId,
                        argsHash: nat, child: Run)
    requires Charged(order, m, b) && Ordered(order, m) && p in m && r !in m && !SameDelegation(m[p].deps, k)
    requires child.parent == Some(p) && child.root == m[p].run.root
    requires ReserveChild(b, child.root, Budget.ChildKey(p, k)).Ok?
    ensures Charged(Inserted(order, Position(order, m[p := Delegating(m[p], k, r, argsHash)], child.createdAt, r), r),
                    m[p := Delegating(m[p], k, r, argsHash)][r := NewCell(child)],
                    ReserveChild(b, child.root, Budget.ChildKey(p, k)).value)
  {
    hide Budget.Conserved, ReserveChild, Costed, Ordered, Inserted, Count;
    assert Budget.ChildKey(p, k) !in b.reservations;
    ChildCharged(b, child.root, Budget.ChildKey(p, k));
    var m1 := m[p := Delegating(m[p], k, r, argsHash)];
    DelegateKeyed(m, m1[r := NewCell(child)], b.reservations, p, k, r, argsHash, child,
                  Budget.Reservation(child.root, ONE_CHILD, Some(ONE_CHILD), Budget.Settled));
    hide Keyed;
    SameRunsOrder(order, m, m1, Config(0, 0, 0, 0, 0));
    SameRunsCosted(order, m, m1, b.accounts);
    DelegateCosted(order, m1, b.accounts, ReserveChild(b, child.root, Budget.ChildKey(p, k)).value.accounts, r, child);
  }

  // ---------------------------------------------------------------- the whole transaction

  /** A call of `delegate` that creates a child, rather than finding the one it created before. */
  predicate Delegates(db: Db, ctx: Context, k: OpKey) {
    ctx.run in db.cells && !SameDelegation(db.cells[ctx.run].deps, k)
  }

  lemma DelegateKeeps(db: Db, ctx: Context, now: Time, k: OpKey, argsHash: nat, current: set<Capability>,
                      requested: Option<set<Capability>>, r: RunId, branch: BranchId, cfg: Config)
    requires DbInv(db, cfg)
    requires DelegateIn(db, ctx, now, k, argsHash, current, requested, r, branch, cfg.maxDepth).Ok?
    ensures DbInv(DelegateIn(db, ctx, now, k, argsHash, current, requested, r, branch, cfg.maxDepth).value, cfg)
  {
    hide Runs, Owned, WaitScopes, ParentsLast, Ordered, Capacity, Forest, Charged, ReserveChild, Inserted;
    if Delegates(db, ctx, k) {
      var c := db.cells[ctx.run];
      var granted := if requested.Some? then requested.value else current * c.run.capabilities;
      var child := ChildRun(c.run, ctx.run, branch, now, granted);
      var m1 := db.cells[ctx.run := Delegating(c, k, r, argsHash)];
      assert CellInv(c) by { RunOf(db.cells, ctx.run); }
      DelegatingStep(c, k, r, argsHash, now);
      hide CellInv, CellStep;
      var branches := db.branches[branch := None];
      NewBranch(db.cells, db.branches, branch);
      DelegatingRows(db.cells, ctx.run, Delegating(c, k, r, argsHash), branches);
      InsertRows(m1, r, child, branches);
      SameRunsOrder(db.order, db.cells, m1, cfg);
      InsertOrdered(db.order, m1, r, child);
      InsertCapacity(db.order, m1, r, child, cfg);
      DelegateForest(db.cells, ctx.run, k, r, argsHash, child, cfg.maxDepth);
      DelegateCharged(db.order, db.cells, db.books, ctx.run, k, r, argsHash, child);
    }
  }

  lemma RunOf(m: map<RunId, Cell>, r: RunId)
    requires Runs(m) && r in m
    ensures CellInv(m[r])
  {}

  lemma NewBranch(m: map<RunId, Cell>, branches: map<BranchId, Option<RunId>>, branch: BranchId)
    requires Owned(m, branches) && branch !in branches
    ensures Owned(m, branches[branch := None])
  {}
}
