/** How runs come to be and to run: what a claim takes, and what a submission and a delegation make. */
module Starts {
  import opened Domain
  import opened RunMachine
  import opened Tables
  import opened TablesInvariant
  import opened Claiming
  import opened World
  import opened WorldInvariant
  import opened Effects
  import opened Trees
  import opened Endings
  import opened Fences
  import Budget

  // ---------------------------------------------------------------- claiming

  /** The root's descendants that keep a worker busy. */
  function BusyBelow(m: map<RunId, Cell>, root: RunId): set<RunId> {
    set x | x in m && (m[x].run.status.Running? || m[x].run.status.Cancelling?) && m[x].run.root == root
            && m[x].run.parent.Some?
  }

  /** The run is queued, its branch is free or its own, and its root has room for another busy child if it is one. */
  predicate Eligible(db: Db, x: RunId, cfg: Config) {
    && x in db.cells && db.cells[x].run.status.Queued? && db.cells[x].run.branch in db.branches
    && (match db.branches[db.cells[x].run.branch]
        case None => true
        case Some(owner) => owner == x)
    && (db.cells[x].run.parent.Some? ==> |BusyBelow(db.cells, db.cells[x].run.root)| < cfg.childConcurrency)
  }

  /** The first eligible run, while there is a free worker. */
  ghost predicate NextUp(db: Db, r: RunId, cfg: Config) {
    && |Occupied(db.cells)| < cfg.workerSlots && Eligible(db, r, cfg)
    && forall x :: Eligible(db, x, cfg) ==> x == r || Before(db.cells, r, x)
  }

  lemma BusyChildrenCount(db: Db, cfg: Config, root: RunId)
    requires DbInv(db, cfg)
    ensures Count(db.order, db.cells, BusyChildren(root)) == |BusyBelow(db.cells, root)|
  {
    hide Runs, Forest, Owned, Capacity, WaitScopes, ParentsLast, Charged;
    OrderDistinct(db.order, db.cells);
    CountIsSize(db.order, db.cells, BusyChildren(root));
    assert BusyBelow(db.cells, root) == Hits(db.order, db.cells, BusyChildren(root));
  }

  lemma EligibleIff(db: Db, cfg: Config, x: RunId)
    requires DbInv(db, cfg)
    ensures Eligible(db, x, cfg) <==> Claimable(db, x, cfg)
  {
    hide DbInv, Count, BusyBelow;
    if x in db.cells {
      BusyChildrenCount(db, cfg, db.cells[x].run.root);
    }
  }

  lemma EarlierIsFirst(db: Db, cfg: Config, i: nat, r: RunId, x: RunId)
    requires Ordered(db.order, db.cells) && i < |db.order| && db.order[i] == r
    requires forall j :: 0 <= j < i ==> db.order[j] != x
    requires x in db.cells
    ensures x == r || Before(db.cells, r, x)
  {
    var j :| 0 <= j < |db.order| && db.order[j] == x;
    if i < j {
      assert Before(db.cells, db.order[i], db.order[j]);
    }
  }

  /** The run that a claim takes is the one that is next up; it takes none if there is none. */
  lemma ChosenIff(db: Db, cfg: Config, r: RunId)
    requires DbInv(db, cfg)
    ensures Chosen(db, cfg) == Some(r) <==> NextUp(db, r, cfg)
  {
    hide Runs, Forest, Owned, Capacity, WaitScopes, ParentsLast, Charged, Ordered, Eligible, Claimable, Occupied;
    hide Before, Pick, Count;
    BusyCount(db, cfg);
    PickIsFirst(db, db.order, cfg);
    forall x ensures Eligible(db, x, cfg) <==> Claimable(db, x, cfg) {
      EligibleIff(db, cfg, x);
    }
    OnlyKnown(db, cfg);
    if Pick(db, db.order, cfg).Some? {
      FirstIsNext(db, cfg, Pick(db, db.order, cfg).value);
      if NextUp(db, r, cfg) {
        NotBoth(db.cells, r, Pick(db, db.order, cfg).value);
      }
    }
  }

  lemma OnlyKnown(db: Db, cfg: Config)
    requires DbInv(db, cfg)
    ensures forall x :: Eligible(db, x, cfg) ==> x in db.cells && x in db.order
  {
    hide Runs, Forest, Owned, Capacity, WaitScopes, ParentsLast, Charged, Before;
  }

  lemma NotBoth(m: map<RunId, Cell>, x: RunId, y: RunId)
    ensures !(Before(m, x, y) && Before(m, y, x))
  {}

  lemma FirstIsNext(db: Db, cfg: Config, r: RunId)
    requires DbInv(db, cfg) && Pick(db, db.order, cfg) == Some(r)
    requires forall x :: Eligible(db, x, cfg) <==> Claimable(db, x, cfg)
    ensures Eligible(db, r, cfg)
    ensures forall x :: Eligible(db, x, cfg) ==> x == r || Before(db.cells, r, x)
  {
    hide Runs, Forest, Owned, Capacity, WaitScopes, ParentsLast, Charged, Ordered, Eligible, Claimable, Before, Pick;
    PickIsFirst(db, db.order, cfg);
    OnlyKnown(db, cfg);
    var i :| 0 <= i < |db.order| && db.order[i] == r && Claimable(db, r, cfg)
             && forall j :: 0 <= j < i ==> !Claimable(db, db.order[j], cfg);
    forall x | Eligible(db, x, cfg) ensures x == r || Before(db.cells, r, x) {
      EarlierIsFirst(db, cfg, i, r, x);
    }
  }

  /** The claimed run runs under a new attempt of the claiming process, with the next token and a lease from now on;
      its other rows are as they were. */
  predicate Begins(c: Cell, d: Cell, a: AttemptId, p: ProcessId, expiry: Time) {
    && a !in c.attempts && d.attempts == c.attempts[a := Attempt(c.run.token + 1, p, expiry, false)]
    && d.run == c.run.(status := Status.Running, revision := d.run.revision, attempt := Some(a),
                       token := c.run.token + 1)
    && d == c.(run := d.run, attempts := d.attempts)
  }

  lemma BeginsWith(c: Cell, a: AttemptId, p: ProcessId, expiry: Time)
    requires c.run.status.Queued?
    ensures ClaimCell(c, a, p, expiry).Ok? <==> a !in c.attempts
    ensures ClaimCell(c, a, p, expiry).Err? ==> ClaimCell(c, a, p, expiry).error == Integrity
    ensures ClaimCell(c, a, p, expiry).Ok? ==> Begins(c, ClaimCell(c, a, p, expiry).value, a, p, expiry)
  {}

  /** A claim by a living process takes the run that is next up, and its branch with it; nothing else changes, and
      nothing at all if no run is next up or the attempt's id is taken. */
  lemma ClaimDoes(w: World, cfg: Config, p: ProcessId, a: AttemptId, r: RunId)
    requires Reachable(w, cfg) && p in w.alive
    ensures var n := Next(w, cfg, Claim(p, a));
            && (NextUp(w.db, r, cfg) && a !in w.db.cells[r].attempts ==>
                  && r in n.db.cells && Begins(w.db.cells[r], n.db.cells[r], a, p, w.now + cfg.leaseSeconds)
                  && n == w.(db := w.db.(cells := w.db.cells[r := n.db.cells[r]],
                                         branches := w.db.branches[w.db.cells[r].run.branch := Some(r)])))
            && (NextUp(w.db, r, cfg) && a in w.db.cells[r].attempts ==>
                  n == w && Apply(w, cfg, Claim(p, a)) == Err(Integrity))
            && ((forall x :: !NextUp(w.db, x, cfg)) ==> n == w)
  {
    hide WorldInv, DbInv, Reachable, Eligible, Occupied, Before, Begins, Count, Pick, ClaimCell;
    ReachableKeeps(w, cfg);
    DbOf(w, cfg);
    ChosenIff(w.db, cfg, r);
    if Chosen(w.db, cfg).Some? {
      ChosenIff(w.db, cfg, Chosen(w.db, cfg).value);
    }
    if NextUp(w.db, r, cfg) {
      QueuedIfNext(w.db, r, cfg);
      BeginsWith(w.db.cells[r], a, p, w.now + cfg.leaseSeconds);
    }
  }

  lemma QueuedIfNext(db: Db, r: RunId, cfg: Config)
    requires NextUp(db, r, cfg)
    ensures r in db.cells && db.cells[r].run.status.Queued?
  {
    hide Before;
  }

  // ---------------------------------------------------------------- delegation

  /** The limit that a root's account puts on its children, if any. */
  function ChildLimit(b: Budget.Books, root: RunId): Option<real> {
    if root in b.accounts && Budget.Children in b.accounts[root].limits
    then b.accounts[root].limits[Budget.Children] else None
  }

  lemma NoChildIsOutstanding(order: seq<RunId>, m: map<RunId, Cell>, b: Budget.Books, root: Budget.AccountId)
    requires Charged(order, m, b) && root in b.accounts
    ensures Budget.Get(b.accounts[root].reserved, Budget.Children) == 0.0
  {
    var open := Budget.OpenShares(b, root, Budget.Children);
    assert Budget.Balanced(b, root, Budget.Children);
    forall k | k in open ensures open[k] == 0.0 {
      assert ChildCharge(k, b.reservations[k]);
    }
    Budget.AllZero(open);
  }

  /** One more child fits the limit together with the descendants that the root has. */
  predicate RoomForChild(m: map<RunId, Cell>, b: Budget.Books, root: RunId) {
    match ChildLimit(b, root)
    case None => true
    case Some(limit) => |Descendants(m, root)| as real + 1.0 <= limit
  }

  /** One child is paid for: consumed on the root's account, with nothing left set aside. */
  ghost predicate Paid(b: Budget.Books, c: Budget.Books, root: RunId, key: Budget.ReservationKey) {
    && root in b.accounts && root in c.accounts
    && c.reservations
       == b.reservations[key := Budget.Reservation(root, ONE_CHILD, Some(ONE_CHILD), Budget.Settled)]
    && c.accounts == b.accounts[root := c.accounts[root]] && c.accounts[root].limits == b.accounts[root].limits
    && (forall d :: Budget.Get(c.accounts[root].reserved, d) == Budget.Get(b.accounts[root].reserved, d))
    && (forall d :: Budget.Get(c.accounts[root].consumed, d)
                 == Budget.Get(b.accounts[root].consumed, d) + (if d.Children? then 1.0 else 0.0))
  }

  lemma ChildFits(b: Budget.Books, root: RunId, key: Budget.ReservationKey)
    requires key !in b.reservations && root in b.accounts
    ensures Budget.MayReserve(b, root, key, ONE_CHILD) <==> Budget.Fits(b.accounts[root], Budget.Children, 1.0)
  {
    hide Budget.Fits;
    assert ONE_CHILD[Budget.Children] == 1.0;
  }

  lemma ChildSettles(b: Budget.Books, root: RunId, key: Budget.ReservationKey)
    requires key !in b.reservations && Budget.MayReserve(b, root, key, ONE_CHILD)
    ensures Budget.MaySettle(Budget.ReserveIn(b, root, key, ONE_CHILD), key, Some(ONE_CHILD))
  {
    hide Budget.Plus, Budget.Fits;
  }

  lemma PaidTwice(b: Budget.Books, c: Budget.Books, d: Budget.Books, root: RunId, key: Budget.ReservationKey)
    requires Budget.SetsAside(b, c, root, key, ONE_CHILD) && Budget.Charges(c, d, key, ONE_CHILD)
    ensures Paid(b, d, root, key)
  {
    assert forall x: Budget.Dimension :: Budget.Get(ONE_CHILD, x) == if x.Children? then 1.0 else 0.0;
  }

  lemma PriceIff(b: Budget.Books, root: RunId, key: Budget.ReservationKey)
    requires key !in b.reservations && root in b.accounts
    ensures ReserveChild(b, root, key).Ok? <==> Budget.Fits(b.accounts[root], Budget.Children, 1.0)
    ensures ReserveChild(b, root, key).Ok? ==> Paid(b, ReserveChild(b, root, key).value, root, key)
  {
    hide Budget.Fits, Budget.MayReserve, Budget.MaySettle, Budget.ReserveIn, Budget.SettleIn, Paid, Budget.Charges;
    ChildFits(b, root, key);
    if Budget.MayReserve(b, root, key, ONE_CHILD) {
      var reserved := Budget.ReserveIn(b, root, key, ONE_CHILD);
      ChildSettles(b, root, key);
      Budget.ReservationHolds(b, root, key, ONE_CHILD);
      Budget.SettlementCharges(reserved, key, Some(ONE_CHILD));
      PaidTwice(b, reserved, Budget.SettleIn(reserved, key, Some(ONE_CHILD)), root, key);
    }
  }

  lemma RoomIff(w: World, cfg: Config, root: RunId)
    requires WorldInv(w, cfg) && Reachable(w, cfg) && root in w.db.cells && w.db.cells[root].run.parent.None?
    ensures root in w.db.books.accounts
    ensures Budget.Fits(w.db.books.accounts[root], Budget.Children, 1.0)
       <==> RoomForChild(w.db.cells, w.db.books, root)
  {
    hide WorldInv, Reachable, Charged, Descendants;
    DescendantsAreCharged(w, cfg, root);
    ChargedOf(w, cfg);
    NoChildIsOutstanding(w.db.order, w.db.cells, w.db.books, root);
  }

  /** The child that a delegation makes: queued below its parent, on a new branch, with the capabilities that were asked
      for, or else all that the parent and the present policy have in common. */
  function NewChild(parent: Run, p: RunId, branch: BranchId, now: Time, current: set<Capability>,
                    requested: Option<set<Capability>>): Run {
    Run(branch, parent.root, Some(p), parent.depth + 1, now, parent.deadline,
        (match requested
         case None => set x | x in current && x in parent.capabilities
         case Some(asked) => asked),
        Status.Queued, 1, 1, 0, None, false, {}, None, None)
  }

  /** A run that has just been made: it is queued and has no rows. */
  predicate Fresh(c: Cell) {
    && c.run.status.Queued? && c.run.attempt.None? && c.run.token == 0 && !c.run.cancelRequested
    && c.run.required == {} && c.run.checkpoint.None? && c.run.result.None?
    && c.attempts == map[] && c.ops == map[] && c.grants == map[] && c.interactions == map[] && c.waits == map[]
    && c.reviewed == {} && c.inputs == map[] && c.deps == []
  }

  /** What a new delegation needs, besides a worker in charge of a run that is not past its deadline. */
  ghost predicate MayDelegate(w: World, cfg: Config, ctx: Context, current: set<Capability>,
                              requested: Option<set<Capability>>, child: RunId, branch: BranchId)
    requires ctx.run in w.db.cells
  {
    var parent := w.db.cells[ctx.run].run;
    && parent.root in w.db.cells && !w.db.cells[parent.root].run.cancelRequested && parent.depth < cfg.maxDepth
    && (match requested
        case None => true
        case Some(asked) => forall x :: x in asked ==> x in current && x in parent.capabilities)
    && child !in w.db.cells && branch !in w.db.branches && RoomForChild(w.db.cells, w.db.books, parent.root)
  }

  ghost predicate Delegates(m: Db, n: Db, ctx: Context, k: OpKey, argsHash: nat, now: Time, current: set<Capability>,
                            requested: Option<set<Capability>>, child: RunId, branch: BranchId)
    requires ctx.run in m.cells
  {
    var c := m.cells[ctx.run];
    && child in n.cells && Fresh(n.cells[child])
    && n.cells[child].run == NewChild(c.run, ctx.run, branch, now, current, requested)
    && n.cells == m.cells[ctx.run := c.(deps := c.deps + [Dependency(k, child, argsHash)])][child := n.cells[child]]
    && n.branches == m.branches[branch := None] && Paid(m.books, n.books, c.run.root, Budget.ChildKey(ctx.run, k))
  }

  /** A delegation that the run has made before is found again if it has the same arguments, and changes nothing. */
  lemma DelegatesAgain(db: Db, ctx: Context, now: Time, k: OpKey, argsHash: nat, current: set<Capability>,
                       requested: Option<set<Capability>>, r: RunId, branch: BranchId, maxDepth: nat)
    requires ctx.run in db.cells && exists d :: d in db.cells[ctx.run].deps && d.key == k
    ensures var to := DelegateIn(db, ctx, now, k, argsHash, current, requested, r, branch, maxDepth);
            && (to.Ok? <==>
                  && InCharge(db.cells[ctx.run], ctx, now, false)
                  && (db.cells[ctx.run].run.deadline.Some? ==> now < db.cells[ctx.run].run.deadline.value)
                  && forall d :: d in db.cells[ctx.run].deps && d.key == k ==> d.argsHash == argsHash)
            && (to.Ok? ==> to.value == db)
  {
    hide FencePasses, InCharge, ReserveChild;
    FenceIff(db.cells[ctx.run], ctx, now, false);
  }

  /** A new delegation succeeds exactly if its worker is in charge before the deadline, no cancellation was asked for at
      the root, depth and capabilities allow it, and the root's limit leaves room for one more descendant. */
  lemma DelegateIff(w: World, cfg: Config, ctx: Context, k: OpKey, argsHash: nat, current: set<Capability>,
                    requested: Option<set<Capability>>, r: RunId, branch: BranchId)
    requires Reachable(w, cfg) && ctx.run in w.db.cells
    requires forall d :: d in w.db.cells[ctx.run].deps ==> d.key != k
    ensures var e := Event.Delegate(ctx, k, argsHash, current, requested, r, branch);
            && (Apply(w, cfg, e).Ok? <==>
                  && InCharge(w.db.cells[ctx.run], ctx, w.now, false)
                  && (w.db.cells[ctx.run].run.deadline.Some? ==> w.now < w.db.cells[ctx.run].run.deadline.value)
                  && MayDelegate(w, cfg, ctx, current, requested, r, branch))
            && (Apply(w, cfg, e).Ok? ==>
                  Delegates(w.db, Next(w, cfg, e).db, ctx, k, argsHash, w.now, current, requested, r, branch))
  {
    hide WorldInv, DbInv, Reachable, FencePasses, ReserveChild, RoomForChild, Inserted, Position, Paid, LeaseHeld;
    ReachableKeeps(w, cfg);
    DelegationParts(w, cfg, ctx, k);
    FenceIff(w.db.cells[ctx.run], ctx, w.now, false);
    var root := w.db.cells[ctx.run].run.root;
    RoomIff(w, cfg, root);
    PriceIff(w.db.books, root, Budget.ChildKey(ctx.run, k));
    ChildIsNew(w.db.cells[ctx.run].run, ctx.run, branch, w.now, current, requested);
  }

  lemma ChildIsNew(parent: Run, p: RunId, branch: BranchId, now: Time, current: set<Capability>,
                   requested: Option<set<Capability>>)
    ensures NewChild(parent, p, branch, now, current, requested)
         == ChildRun(parent, p, branch, now,
                     if requested.Some? then requested.value else current * parent.capabilities)
  {
    assert (set x | x in current && x in parent.capabilities) == current * parent.capabilities;
  }

  lemma DelegationParts(w: World, cfg: Config, ctx: Context, k: OpKey)
    requires WorldInv(w, cfg) && ctx.run in w.db.cells && forall d :: d in w.db.cells[ctx.run].deps ==> d.key != k
    ensures var root := w.db.cells[ctx.run].run.root;
            root in w.db.cells && w.db.cells[root].run.parent.None?
    ensures Budget.ChildKey(ctx.run, k) !in w.db.books.reservations
  {
    hide LocksOk, Histories, Runs, Ordered, Owned, Capacity, WaitScopes, ParentsLast, Branching, Budget.Conserved;
    hide Costed;
    assert Rooted(w.db.cells, ctx.run, cfg.maxDepth);
  }

  // ---------------------------------------------------------------- submission

  /** A submission succeeds exactly with a fresh id, on a branch that exists.  It makes a queued root run with the
      capabilities, deadline and limits that were given, and an account on which nothing has been drawn. */
  lemma SubmitDoes(w: World, cfg: Config, r: RunId, branch: BranchId, inputRevision: nat, deadline: Option<Time>,
                   capabilities: set<Capability>, limits: map<Budget.Dimension, Option<real>>)
    ensures var e := Submit(r, branch, inputRevision, deadline, capabilities, limits);
            && (Apply(w, cfg, e).Ok? <==> r !in w.db.cells && r !in w.db.books.accounts && branch in w.db.branches)
            && (Apply(w, cfg, e).Ok? ==>
                  var n := Next(w, cfg, e).db;
                  && r in n.cells && n.cells == w.db.cells[r := n.cells[r]] && Fresh(n.cells[r])
                  && (var q := n.cells[r].run;
                      && q.branch == branch && q.root == r && q.parent.None? && q.depth == 0 && q.createdAt == w.now
                      && q.deadline == deadline && q.capabilities == capabilities && q.inputRevision == inputRevision)
                  && n.branches == w.db.branches && n.books.reservations == w.db.books.reservations
                  && n.books.accounts == w.db.books.accounts[r := Budget.Account(limits, map[], map[])])
  {
    hide Inserted, Position;
  }
}
