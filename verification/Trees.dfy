/** Branch ownership, capacity and the bounds on delegation, in every reachable state. */
module Trees {
  import opened Domain
  import opened RunMachine
  import opened RunInvariant
  import opened Tables
  import opened TablesInvariant
  import opened Claiming
  import opened World
  import opened WorldInvariant
  import opened Effects
  import Budget

  lemma DbAt(w: World, cfg: Config)
    requires Reachable(w, cfg)
    ensures WorldInv(w, cfg) && DbInv(w.db, cfg)
  {
    hide LocksOk, Histories, DbInv;
    ReachableKeeps(w, cfg);
  }

  // ---------------------------------------------------------------- ownership and capacity

  /** A branch's owner is exactly its run that was claimed and has not ended; there is at most one. */
  lemma BranchOwnership(w: World, cfg: Config, b: BranchId, r: RunId)
    requires Reachable(w, cfg) && b in w.db.branches
    ensures w.db.branches[b] == Some(r) <==> r in w.db.cells && w.db.cells[r].run.branch == b && Live(w.db.cells[r])
    ensures forall x, y :: (x in w.db.cells && y in w.db.cells && Live(w.db.cells[x]) && Live(w.db.cells[y])
                            && w.db.cells[x].run.branch == w.db.cells[y].run.branch) ==> x == y
  {
    hide WorldInv, Runs, Ordered, Forest, Capacity, WaitScopes, ParentsLast, Charged;
    DbAt(w, cfg);
  }

  function Hits(order: seq<RunId>, m: map<RunId, Cell>, q: Query): set<RunId> {
    set x | x in order && x in m && Hit(q, m[x])
  }

  lemma {:induction false} CountIsSize(order: seq<RunId>, m: map<RunId, Cell>, q: Query)
    requires forall i, j :: 0 <= i < j < |order| ==> order[i] != order[j]
    ensures Count(order, m, q) == |Hits(order, m, q)|
    decreases |order|
  {
    hide Hit, Hits;
    if order == [] {
      NoHits(m, q);
    } else {
      assert forall i :: 0 <= i < |order[1..]| ==> order[1..][i] == order[i + 1];
      CountIsSize(order[1..], m, q);
      FirstHit(order, m, q);
    }
  }

  lemma NoHits(m: map<RunId, Cell>, q: Query)
    ensures Hits([], m, q) == {}
  {}

  lemma FirstHit(order: seq<RunId>, m: map<RunId, Cell>, q: Query)
    requires order != [] && forall i, j :: 0 <= i < j < |order| ==> order[i] != order[j]
    ensures order[0] !in Hits(order[1..], m, q)
    ensures Hits(order, m, q)
         == Hits(order[1..], m, q) + (if order[0] in m && Hit(q, m[order[0]]) then {order[0]} else {})
  {
    hide Hit;
    assert forall x :: x in order <==> x == order[0] || x in order[1..];
    assert forall i :: 0 <= i < |order[1..]| ==> order[1..][i] == order[i + 1];
  }

  /** At most `worker_slots` runs run, and at most `child_concurrency` children of one root. */
  lemma CapacityHolds(w: World, cfg: Config, root: RunId)
    requires Reachable(w, cfg)
    ensures |set r | r in w.db.cells && w.db.cells[r].run.status.Running?| <= cfg.workerSlots
    ensures |set r | r in w.db.cells && w.db.cells[r].run.status.Running? && w.db.cells[r].run.root == root
                     && w.db.cells[r].run.parent.Some?| <= cfg.childConcurrency
  {
    hide WorldInv, Runs, Forest, Owned, WaitScopes, ParentsLast, Charged;
    DbAt(w, cfg);
    OrderDistinct(w.db.order, w.db.cells);
    CountIsSize(w.db.order, w.db.cells, RunningRuns);
    CountIsSize(w.db.order, w.db.cells, RunningChildren(root));
    assert (set r | r in w.db.cells && w.db.cells[r].run.status.Running?) == Hits(w.db.order, w.db.cells, RunningRuns);
    assert (set r | r in w.db.cells && w.db.cells[r].run.status.Running? && w.db.cells[r].run.root == root
                    && w.db.cells[r].run.parent.Some?) == Hits(w.db.order, w.db.cells, RunningChildren(root));
  }

  /** A run claimed for the first time overtakes no older root run of its branch that was never claimed. */
  lemma ClaimsInOrder(w: World, cfg: Config, x: RunId)
    requires Reachable(w, cfg) && Chosen(w.db, cfg).Some?
    requires x in w.db.cells && Unclaimed(w.db.cells[x]) && w.db.cells[x].run.parent.None?
    ensures var r := Chosen(w.db, cfg).value;
            r in w.db.cells && (Unclaimed(w.db.cells[r]) && w.db.cells[r].run.branch == w.db.cells[x].run.branch
                                ==> r == x || Before(w.db.cells, r, x))
  {
    hide WorldInv, DbInv, Chosen, Before;
    DbAt(w, cfg);
    FirstInFirstOut(w.db, cfg, x);
  }

  // ---------------------------------------------------------------- delegation

  /** One delegation gives one child, however often it is replayed and whatever happens in between. */
  lemma DelegatesOnce(w: World, cfg: Config, v: World, r: RunId)
    requires Reachable(w, cfg) && Reaches(w, cfg, v) && r in w.db.cells
    ensures r in v.db.cells && w.db.cells[r].deps <= v.db.cells[r].deps
    ensures forall d, e :: d in v.db.cells[r].deps && e in v.db.cells[r].deps && d.key == e.key ==> d == e
    ensures forall d, e :: d in v.db.cells[r].deps && e in v.db.cells[r].deps && d.child == e.child ==> d == e
  {
    hide WorldInv, DbInv, Runs, LeaseStep, OpsFrozen, InteractionsFrozen, Rooted;
    ReachableKeeps(w, cfg);
    ReachesKeeps(w, cfg, v);
    assert CellStep(w.db.cells[r], w.now, v.db.cells[r], v.now);
    ForestOf(v, cfg);
    assert Branching(v.db.cells, r);
  }

  /** A replay finds the child it made, or refuses other arguments; it creates nothing. */
  lemma ReplayCreatesNothing(db: Db, ctx: Context, now: Time, k: OpKey, argsHash: nat, current: set<Capability>,
                             requested: Option<set<Capability>>, r: RunId, branch: BranchId, maxDepth: nat)
    requires ctx.run in db.cells && SameDelegation(db.cells[ctx.run].deps, k)
    requires DelegateIn(db, ctx, now, k, argsHash, current, requested, r, branch, maxDepth).Ok?
    ensures DelegateIn(db, ctx, now, k, argsHash, current, requested, r, branch, maxDepth).value == db
    ensures exists d :: d in db.cells[ctx.run].deps && d.key == k && d.argsHash == argsHash
  {
    hide ReserveChild, FencePasses;
  }

  /** `x` is a proper descendant of `root`. */
  predicate Descends(m: map<RunId, Cell>, root: RunId, x: RunId) {
    x in m && x != root && Under(m, root, x)
  }

  lemma {:induction false} RootAbove(m: map<RunId, Cell>, maxDepth: nat, root: RunId, x: RunId)
    requires Forest(m, maxDepth) && root in m && m[root].run.parent.None? && x in m
    ensures Under(m, root, x) <==> m[x].run.root == root
    ensures Descends(m, root, x) <==> Hit(Family(root), m[x])
    decreases m[x].run.depth
  {
    hide Branching;
    assert Rooted(m, x, maxDepth) && Rooted(m, root, maxDepth);
    if m[x].run.parent.Some? {
      RootAbove(m, maxDepth, root, m[x].run.parent.value);
    }
  }

  function Descendants(m: map<RunId, Cell>, root: RunId): set<RunId> {
    set x | x in m && Descends(m, root, x)
  }

  lemma FamilySize(order: seq<RunId>, m: map<RunId, Cell>, maxDepth: nat, root: RunId)
    requires Ordered(order, m) && Forest(m, maxDepth) && root in m && m[root].run.parent.None?
    ensures |Descendants(m, root)| == Count(order, m, Family(root))
  {
    hide Hit, Under, Forest, Descends;
    forall x | x in m ensures Descends(m, root, x) <==> Hit(Family(root), m[x]) {
      RootAbove(m, maxDepth, root, x);
    }
    OrderDistinct(order, m);
    CountIsSize(order, m, Family(root));
    assert Descendants(m, root) == Hits(order, m, Family(root));
  }

  lemma RootCharged(db: Db, root: RunId)
    requires Charged(db.order, db.cells, db.books) && root in db.cells && db.cells[root].run.parent.None?
    ensures root in db.books.accounts && Budget.Conserved(db.books)
    ensures Budget.Get(db.books.accounts[root].consumed, Budget.Children)
         == Count(db.order, db.cells, Family(root)) as real
  {
    hide Budget.Conserved, Keyed;
  }

  /** The number of descendants of a root is what its account has consumed of `children`, hence within the limit
      of the account. */
  lemma DescendantsAreCharged(w: World, cfg: Config, root: RunId)
    requires Reachable(w, cfg) && root in w.db.cells && w.db.cells[root].run.parent.None?
    ensures root in w.db.books.accounts
    ensures var a := w.db.books.accounts[root];
            && |Descendants(w.db.cells, root)| as real == Budget.Get(a.consumed, Budget.Children)
            && (Budget.Children in a.limits && a.limits[Budget.Children].Some? && 0.0 <= a.limits[Budget.Children].value
                ==> |Descendants(w.db.cells, root)| as real <= a.limits[Budget.Children].value)
  {
    hide WorldInv, DbInv, Runs, Budget.Conserved, Descendants, Charged, Forest, Ordered;
    ReachableKeeps(w, cfg);
    ForestOf(w, cfg);
    ChargedOf(w, cfg);
    FamilySize(w.db.order, w.db.cells, cfg.maxDepth, root);
    RootCharged(w.db, root);
    NotOverdrawn(w.db.books, root, Budget.Children);
  }

  lemma NotOverdrawn(b: Budget.Books, a: Budget.AccountId, d: Budget.Dimension)
    requires Budget.Conserved(b) && a in b.accounts
    ensures d in b.accounts[a].limits && b.accounts[a].limits[d].Some? && 0.0 <= b.accounts[a].limits[d].value
            ==> Budget.Get(b.accounts[a].consumed, d) <= b.accounts[a].limits[d].value
  {
    assert Budget.Balanced(b, a, d) && Budget.Within(b.accounts[a], d);
    Budget.OpenIsNotNegative(b, a, d);
  }

  /** A run's depth is bounded, and its capabilities are among those of every ancestor. */
  lemma {:induction false} DelegationNarrows(m: map<RunId, Cell>, maxDepth: nat, top: RunId, x: RunId)
    requires Forest(m, maxDepth) && top in m && x in m && Under(m, top, x)
    ensures m[x].run.depth <= maxDepth && m[top].run.depth <= m[x].run.depth
    ensures m[x].run.capabilities <= m[top].run.capabilities
    decreases m[x].run.depth
  {
    assert Rooted(m, x, maxDepth);
    if x != top {
      DelegationNarrows(m, maxDepth, top, m[x].run.parent.value);
    }
  }

  lemma DelegationBounds(w: World, cfg: Config, top: RunId, x: RunId)
    requires Reachable(w, cfg) && top in w.db.cells && x in w.db.cells && Under(w.db.cells, top, x)
    ensures w.db.cells[x].run.depth <= cfg.maxDepth
    ensures w.db.cells[x].run.capabilities <= w.db.cells[top].run.capabilities
  {
    hide WorldInv, Under, Forest, Ordered, Charged;
    ReachableKeeps(w, cfg);
    ForestOf(w, cfg);
    DelegationNarrows(w.db.cells, cfg.maxDepth, top, x);
  }
}
