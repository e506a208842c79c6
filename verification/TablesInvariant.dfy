/** What every transaction keeps of the whole database. */
module TablesInvariant {
  import opened Domain
  import opened RunMachine
  import opened RunInvariant
  import opened Tables
  import Budget

  // ---------------------------------------------------------------- the invariant

  ghost predicate Runs(cells: map<RunId, Cell>) {
    forall r :: r in cells ==> CellInv(cells[r])
  }

  ghost predicate Ordered(order: seq<RunId>, cells: map<RunId, Cell>) {
    && (forall i, j :: 0 <= i < j < |order| ==> Before(cells, order[i], order[j]))
    && (forall i :: 0 <= i < |order| ==> order[i] in cells)
    && (forall r :: r in cells ==> r in order)
  }

  predicate Rooted(cells: map<RunId, Cell>, r: RunId, maxDepth: nat)
    requires r in cells
  {
    var q := cells[r].run;
    && q.root in cells && cells[q.root].run.parent.None?
    && (q.parent.None? ==> q.root == r && q.depth == 0)
    && (q.parent.Some? ==>
          && q.parent.value in cells
          && var p := cells[q.parent.value];
          && q.depth == p.run.depth + 1 && q.depth <= maxDepth && q.root == p.run.root
          && q.capabilities <= p.run.capabilities && IsChild(p.deps, r))
  }

  ghost predicate Branching(cells: map<RunId, Cell>, r: RunId)
    requires r in cells
  {
    var deps := cells[r].deps;
    && (forall i :: 0 <= i < |deps| ==> deps[i].child in cells && cells[deps[i].child].run.parent == Some(r))
    && (forall i, j :: 0 <= i < j < |deps| ==> deps[i].key != deps[j].key && deps[i].child != deps[j].child)
  }

  /** The dependencies and the parent pointers are one forest of bounded depth. */
  ghost predicate Forest(cells: map<RunId, Cell>, maxDepth: nat) {
    forall r :: r in cells ==> Rooted(cells, r, maxDepth) && Branching(cells, r)
  }

  predicate Live(c: Cell) {
    c.run.attempt.Some? && !Terminal(c.run.status)
  }

  /** A branch is owned exactly by its claimed run that has not ended. */
  ghost predicate Owned(cells: map<RunId, Cell>, branches: map<BranchId, Option<RunId>>) {
    && (forall r :: r in cells ==>
          cells[r].run.branch in branches && (Live(cells[r]) ==> branches[cells[r].run.branch] == Some(r)))
    && (forall b :: b in branches && branches[b].Some? ==>
          branches[b].value in cells && cells[branches[b].value].run.branch == b && Live(cells[branches[b].value]))
  }

  ghost predicate Capacity(order: seq<RunId>, cells: map<RunId, Cell>, cfg: Config) {
    && Count(order, cells, RunningRuns) <= cfg.workerSlots
    && (forall root :: Count(order, cells, RunningChildren(root)) <= cfg.childConcurrency)
  }

  ghost predicate WaitScopes(cells: map<RunId, Cell>) {
    forall r, k, x :: r in cells && k in cells[r].waits && x in cells[r].waits[k].children ==> IsChild(cells[r].deps, x)
  }

  ghost predicate ParentsLast(cells: map<RunId, Cell>) {
    forall r :: r in cells && cells[r].run.status.Completed? ==> ChildrenDone(cells, cells[r])
  }

  /** Nobody but `delegate` draws on the children dimension. */
  predicate ChildCharge(key: Budget.ReservationKey, r: Budget.Reservation) {
    if key.ChildKey? then r.amount == ONE_CHILD && r.actual == Some(ONE_CHILD) && r.state.Settled?
    else Budget.Children !in r.amount
  }

  /** Every charge for a child belongs to a dependency. */
  ghost predicate Keyed(cells: map<RunId, Cell>, m: map<Budget.ReservationKey, Budget.Reservation>) {
    && (forall k :: k in m ==> ChildCharge(k, m[k]))
    && (forall k :: k in m && k.ChildKey? ==> k.run in cells && SameDelegation(cells[k.run].deps, k.op))
  }

  /** The children a root's account has consumed are the descendants that root has. */
  ghost predicate Costed(order: seq<RunId>, cells: map<RunId, Cell>, accounts: map<Budget.AccountId, Budget.Account>) {
    && (forall r :: r in cells && cells[r].run.parent.None? ==> r in accounts)
    && (forall a :: a in accounts ==>
          Budget.Get(accounts[a].consumed, Budget.Children) == Count(order, cells, Family(a)) as real)
  }

  ghost predicate Charged(order: seq<RunId>, cells: map<RunId, Cell>, b: Budget.Books) {
    Budget.Conserved(b) && Keyed(cells, b.reservations) && Costed(order, cells, b.accounts)
  }

  ghost predicate DbInv(db: Db, cfg: Config) {
    && Runs(db.cells)
    && Ordered(db.order, db.cells)
    && Forest(db.cells, cfg.maxDepth)
    && Owned(db.cells, db.branches)
    && Capacity(db.order, db.cells, cfg)
    && WaitScopes(db.cells)
    && ParentsLast(db.cells)
    && Charged(db.order, db.cells, db.books)
  }

  // ---------------------------------------------------------------- counting

  lemma {:induction false} CountLess(order: seq<RunId>, m: map<RunId, Cell>, n: map<RunId, Cell>, q: Query)
    requires forall r :: r in order && r in n && Hit(q, n[r]) ==> r in m && Hit(q, m[r])
    ensures Count(order, n, q) <= Count(order, m, q)
    decreases |order|
  {
    if order != [] {
      CountLess(order[1..], m, n, q);
    }
  }

  lemma {:induction false} CountGain(order: seq<RunId>, m: map<RunId, Cell>, n: map<RunId, Cell>, q: Query, r: RunId)
    requires forall x :: x in order && x != r && x in n && Hit(q, n[x]) ==> x in m && Hit(q, m[x])
    requires forall i, j :: 0 <= i < j < |order| ==> order[i] != order[j]
    ensures Count(order, n, q) <= Count(order, m, q) + 1
    decreases |order|
  {
    if order != [] {
      if order[0] == r {
        CountLess(order[1..], m, n, q);
      } else {
        CountGain(order[1..], m, n, q, r);
      }
    }
  }

  lemma {:induction false} CountImplied(order: seq<RunId>, m: map<RunId, Cell>, q: Query, w: Query)
    requires forall r :: r in order && r in m && Hit(q, m[r]) ==> Hit(w, m[r])
    ensures Count(order, m, q) <= Count(order, m, w)
    decreases |order|
  {
    if order != [] {
      CountImplied(order[1..], m, q, w);
    }
  }

  lemma {:induction false} CountInserted(order: seq<RunId>, i: nat, r: RunId, m: map<RunId, Cell>, q: Query)
    requires i <= |order|
    ensures Count(Inserted(order, i, r), m, q) == Count(order, m, q) + (if r in m && Hit(q, m[r]) then 1 else 0)
    decreases i
  {
    var s := Inserted(order, i, r);
    if i == 0 {
      assert s == [r] + order;
      assert s[1..] == order;
    } else {
      assert s[0] == order[0];
      assert s[1..] == Inserted(order[1..], i - 1, r);
      CountInserted(order[1..], i - 1, r, m, q);
    }
  }

  // ---------------------------------------------------------------- transactions that start no run

  /** Nothing that places a run in the order and the forest changed. */
  predicate Placed(c: Cell, d: Cell) {
    SameIdentity(c.run, d.run) && d.deps == c.deps
  }

  ghost predicate AllPlaced(m: map<RunId, Cell>, n: map<RunId, Cell>) {
    n.Keys == m.Keys && forall r :: r in m ==> Placed(m[r], n[r])
  }

  /** One run's rows moved on without being claimed, delegating or starting. */
  predicate Fixed(c: Cell, d: Cell) {
    && Placed(c, d) && d.run.attempt == c.run.attempt
    && (d.run.status.Running? ==> c.run.status.Running?)
    && (Terminal(c.run.status) ==> d.run.status == c.run.status)
  }

  ghost predicate AllFixed(m: map<RunId, Cell>, n: map<RunId, Cell>) {
    n.Keys == m.Keys && forall r :: r in m ==> Fixed(m[r], n[r])
  }

  /** No wait names a run that its waiter did not delegate to. */
  ghost predicate WaitsKept(c: Cell, d: Cell) {
    forall k, x :: k in d.waits && x in d.waits[k].children ==>
      IsChild(c.deps, x) || (k in c.waits && x in c.waits[k].children)
  }

  ghost predicate Advanced(c: Cell, d: Cell, now: Time) {
    CellInv(d) && CellStep(c, now, d, now) && Fixed(c, d) && WaitsKept(c, d)
  }

  ghost predicate AllAdvanced(m: map<RunId, Cell>, n: map<RunId, Cell>, now: Time) {
    n.Keys == m.Keys && forall r :: r in m ==> Advanced(m[r], n[r], now)
  }

  /** A run completes only when its children had ended. */
  predicate CompletesAfterChildren(m: map<RunId, Cell>, n: map<RunId, Cell>) {
    forall r :: r in m && r in n && n[r].run.status.Completed? && !m[r].run.status.Completed? ==> ChildrenDone(m, m[r])
  }

  lemma PlacedForest(m: map<RunId, Cell>, n: map<RunId, Cell>, maxDepth: nat)
    requires AllPlaced(m, n) && Forest(m, maxDepth)
    ensures Forest(n, maxDepth)
  {
    forall r | r in n ensures Rooted(n, r, maxDepth) && Branching(n, r) {
      assert Placed(m[r], n[r]) && Rooted(m, r, maxDepth) && Branching(m, r);
    }
  }

  lemma FixedOwned(m: map<RunId, Cell>, n: map<RunId, Cell>, branches: map<BranchId, Option<RunId>>)
    requires AllFixed(m, n) && Owned(m, branches)
    ensures Owned(n, Freed(branches, n))
  {}

  lemma PlacedOrder(order: seq<RunId>, m: map<RunId, Cell>, n: map<RunId, Cell>)
    requires AllPlaced(m, n) && Ordered(order, m)
    ensures Ordered(order, n)
  {
    forall i, j | 0 <= i < j < |order| ensures Before(n, order[i], order[j]) {
      assert Before(m, order[i], order[j]);
    }
  }

  lemma FixedCapacity(order: seq<RunId>, m: map<RunId, Cell>, n: map<RunId, Cell>, cfg: Config)
    requires AllFixed(m, n) && Capacity(order, m, cfg)
    ensures Capacity(order, n, cfg)
  {
    CountLess(order, m, n, RunningRuns);
    forall root ensures Count(order, n, RunningChildren(root)) <= cfg.childConcurrency {
      CountLess(order, m, n, RunningChildren(root));
    }
  }

  lemma PlacedFamily(order: seq<RunId>, m: map<RunId, Cell>, n: map<RunId, Cell>, root: RunId)
    requires AllPlaced(m, n)
    ensures Count(order, n, Family(root)) == Count(order, m, Family(root))
  {
    CountLess(order, m, n, Family(root));
    CountLess(order, n, m, Family(root));
  }

  lemma PlacedCharged(order: seq<RunId>, m: map<RunId, Cell>, n: map<RunId, Cell>, b: Budget.Books)
    requires AllPlaced(m, n) && Charged(order, m, b)
    ensures Charged(order, n, b)
  {
    hide Budget.Conserved;
    forall r | r in n && n[r].run.parent.None? ensures r in b.accounts {
      assert Placed(m[r], n[r]);
    }
    forall a | a in b.accounts
      ensures Budget.Get(b.accounts[a].consumed, Budget.Children) == Count(order, n, Family(a)) as real
    {
      PlacedFamily(order, m, n, a);
    }
  }

  lemma FixedParents(m: map<RunId, Cell>, n: map<RunId, Cell>)
    requires AllFixed(m, n) && ParentsLast(m) && CompletesAfterChildren(m, n)
    ensures ParentsLast(n)
  {
    forall r | r in n && n[r].run.status.Completed? ensures ChildrenDone(n, n[r]) {
      assert Fixed(m[r], n[r]) && ChildrenDone(m, m[r]);
    }
  }

  lemma KeptWaits(m: map<RunId, Cell>, n: map<RunId, Cell>)
    requires AllFixed(m, n) && WaitScopes(m) && forall r :: r in m ==> WaitsKept(m[r], n[r])
    ensures WaitScopes(n)
  {
    forall r, k, x | r in n && k in n[r].waits && x in n[r].waits[k].children ensures IsChild(n[r].deps, x) {
      assert Fixed(m[r], n[r]) && WaitsKept(m[r], n[r]);
    }
  }

  lemma AdvancedParts(m: map<RunId, Cell>, n: map<RunId, Cell>, now: Time)
    requires AllAdvanced(m, n, now)
    ensures AllFixed(m, n) && AllPlaced(m, n) && Runs(n) && forall r :: r in m ==> WaitsKept(m[r], n[r])
  {
    hide CellInv, CellStep, WaitsKept;
    forall r | r in m ensures Fixed(m[r], n[r]) && CellInv(n[r]) && WaitsKept(m[r], n[r]) {
      assert Advanced(m[r], n[r], now);
    }
  }

  lemma UpdateKeeps(db: Db, cells: map<RunId, Cell>, now: Time, cfg: Config)
    requires DbInv(db, cfg) && AllAdvanced(db.cells, cells, now) && CompletesAfterChildren(db.cells, cells)
    ensures DbInv(Update(db, cells), cfg)
  {
    hide Runs, Forest, Owned, Ordered, Capacity, Charged, ParentsLast, WaitScopes, AllAdvanced, AllFixed, AllPlaced;
    hide CompletesAfterChildren, WaitsKept;
    AdvancedParts(db.cells, cells, now);
    PlacedForest(db.cells, cells, cfg.maxDepth);
    FixedOwned(db.cells, cells, db.branches);
    PlacedOrder(db.order, db.cells, cells);
    FixedCapacity(db.order, db.cells, cells, cfg);
    PlacedCharged(db.order, db.cells, cells, db.books);
    FixedParents(db.cells, cells);
    KeptWaits(db.cells, cells);
  }

  lemma StaysAdvanced(c: Cell, now: Time)
    requires CellInv(c)
    ensures Advanced(c, c, now)
  {
    CellStepTick(c, now, now);
  }

  lemma OneAdvanced(m: map<RunId, Cell>, r: RunId, d: Cell, now: Time)
    requires Runs(m) && r in m && Advanced(m[r], d, now)
    ensures AllAdvanced(m, m[r := d], now)
  {
    forall x | x in m ensures Advanced(m[x], m[r := d][x], now) {
      if x != r {
        StaysAdvanced(m[x], now);
      }
    }
  }

  lemma OneCompletes(m: map<RunId, Cell>, r: RunId, d: Cell)
    requires r in m
    requires d.run.status.Completed? && !m[r].run.status.Completed? ==> ChildrenDone(m, m[r])
    ensures CompletesAfterChildren(m, m[r := d])
  {}

  lemma PutKeeps(db: Db, r: RunId, d: Cell, now: Time, cfg: Config)
    requires DbInv(db, cfg) && r in db.cells && Advanced(db.cells[r], d, now)
    requires d.run.status.Completed? && !db.cells[r].run.status.Completed? ==> ChildrenDone(db.cells, db.cells[r])
    ensures DbInv(Update(db, db.cells[r := d]), cfg)
  {
    var cells := db.cells[r := d];
    assert AllAdvanced(db.cells, cells, now) by {
      OneAdvanced(db.cells, r, d, now);
    }
    assert CompletesAfterChildren(db.cells, cells) by {
      OneCompletes(db.cells, r, d);
    }
    UpdateKeeps(db, cells, now, cfg);
  }
}
