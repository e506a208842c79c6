/** The whole database and the transactions that read or write more than one run. */
module Tables {
  import opened Domain
  import opened RunMachine
  import Budget

  /** `order` lists every run by (created_at, id); `branches` holds each branch's `active_run_id`. */
  datatype Db = Db(
    cells: map<RunId, Cell>, order: seq<RunId>, branches: map<BranchId, Option<RunId>>, books: Budget.Books)

  // ---------------------------------------------------------------- queries

  datatype Query =
    | RunningRuns | BusyRuns | RunningChildren(root: RunId) | BusyChildren(root: RunId) | Family(root: RunId)

  predicate Hit(q: Query, c: Cell) {
    match q
    case RunningRuns => c.run.status.Running?
    case BusyRuns => c.run.status.Running? || c.run.status.Cancelling?
    case RunningChildren(root) => c.run.status.Running? && c.run.root == root && c.run.parent.Some?
    case BusyChildren(root) =>
      (c.run.status.Running? || c.run.status.Cancelling?) && c.run.root == root && c.run.parent.Some?
    case Family(root) => c.run.root == root && c.run.parent.Some?
  }

  function Count(order: seq<RunId>, cells: map<RunId, Cell>, q: Query): nat
    decreases |order|
  {
    if order == [] then 0
    else (if order[0] in cells && Hit(q, cells[order[0]]) then 1 else 0) + Count(order[1..], cells, q)
  }

  predicate ChildrenDone(cells: map<RunId, Cell>, c: Cell) {
    forall d :: d in c.deps ==> d.child in cells && Terminal(cells[d.child].run.status)
  }

  predicate DoneRun(cells: map<RunId, Cell>, r: RunId) {
    r in cells && Terminal(cells[r].run.status)
  }

  predicate WaitReady(cells: map<RunId, Cell>, w: Wait) {
    if w.mode.All? then forall r :: r in w.children ==> DoneRun(cells, r)
    else exists r :: r in w.children && DoneRun(cells, r)
  }

  function ReadyWaits(cells: map<RunId, Cell>, c: Cell): set<OpKey> {
    set k | k in c.waits && WaitReady(cells, c.waits[k])
  }

  // ---------------------------------------------------------------- writing cells

  function Freed(branches: map<BranchId, Option<RunId>>, cells: map<RunId, Cell>): map<BranchId, Option<RunId>> {
    map b | b in branches ::
      if branches[b].Some? && DoneRun(cells, branches[b].value) then None else branches[b]
  }

  /** New run rows; every branch whose owner has ended is released. */
  function Update(db: Db, cells: map<RunId, Cell>): Db {
    db.(cells := cells, branches := Freed(db.branches, cells))
  }

  function Put(db: Db, r: RunId, c: Result<Cell>): Result<Db> {
    if c.Err? then Err(c.error) else Ok(Update(db, db.cells[r := c.value]))
  }

  // ---------------------------------------------------------------- new runs

  predicate Precedes(cells: map<RunId, Cell>, x: RunId, t: Time, y: RunId) {
    x in cells && (cells[x].run.createdAt < t || (cells[x].run.createdAt == t && x < y))
  }

  predicate Before(cells: map<RunId, Cell>, x: RunId, y: RunId) {
    y in cells && Precedes(cells, x, cells[y].run.createdAt, y)
  }

  /** Where a row created at `t` with id `r` belongs. */
  function Position(order: seq<RunId>, cells: map<RunId, Cell>, t: Time, r: RunId): (i: nat)
    ensures i <= |order|
    ensures forall j :: 0 <= j < i ==> Precedes(cells, order[j], t, r)
    ensures i < |order| ==> !Precedes(cells, order[i], t, r)
    decreases |order|
  {
    if order == [] || !Precedes(cells, order[0], t, r) then 0 else 1 + Position(order[1..], cells, t, r)
  }

  function Inserted(order: seq<RunId>, i: nat, r: RunId): seq<RunId>
    requires i <= |order|
  {
    order[..i] + [r] + order[i..]
  }

  function NewCell(run: Run): Cell {
    Cell(run, map[], map[], map[], map[], map[], {}, map[], [])
  }

  function Insert(db: Db, r: RunId, run: Run): Db {
    db.(cells := db.cells[r := NewCell(run)],
        order := Inserted(db.order, Position(db.order, db.cells, run.createdAt, r), r))
  }

  function RootRun(r: RunId, branch: BranchId, inputRevision: nat, createdAt: Time, deadline: Option<Time>,
                   capabilities: set<Capability>): Run {
    Run(branch, r, None, 0, createdAt, deadline, capabilities, Status.Queued, 1, inputRevision, 0, None, false, {},
        None, None)
  }

  /** `submit`, from the point where its request has been checked. */
  function SubmitIn(db: Db, r: RunId, branch: BranchId, inputRevision: nat, createdAt: Time, deadline: Option<Time>,
                    capabilities: set<Capability>, limits: map<Budget.Dimension, Option<real>>): Result<Db> {
    if r in db.cells || r in db.books.accounts then Err(Integrity)
    else if branch !in db.branches then Err(NotFound)
    else
      var next := Insert(db, r, RootRun(r, branch, inputRevision, createdAt, deadline, capabilities));
      Ok(next.(books := db.books.(accounts := db.books.accounts[r := Budget.Account(limits, map[], map[])])))
  }

  predicate SameDelegation(deps: seq<Dependency>, k: OpKey) {
    exists d :: d in deps && d.key == k
  }

  function ChildRun(parent: Run, p: RunId, branch: BranchId, createdAt: Time, capabilities: set<Capability>): Run {
    Run(branch, parent.root, Some(p), parent.depth + 1, createdAt, parent.deadline, capabilities, Status.Queued, 1, 1,
        0, None, false, {}, None, None)
  }

  const ONE_CHILD: Budget.Amount := map[Budget.Children := 1.0]

  function ReserveChild(b: Budget.Books, root: RunId, key: Budget.ReservationKey): Result<Budget.Books> {
    if !Budget.MayReserve(b, root, key, ONE_CHILD)
    then Err(if key in b.reservations then ReservationConflict
             else if root in b.accounts then BudgetExhausted else NotFound)
    else
      var reserved := Budget.ReserveIn(b, root, key, ONE_CHILD);
      if !Budget.MaySettle(reserved, key, Some(ONE_CHILD))
      then Err(if key in reserved.reservations && reserved.reservations[key].state.Settled? then SettlementConflict
               else NotFound)
      else Ok(Budget.SettleIn(reserved, key, Some(ONE_CHILD)))
  }

  /** `delegate`.  `current` is the present policy's capability set, `requested` what the request names
      (None asks for everything allowed); `r` and `branch` are the fresh ids. */
  function DelegateIn(db: Db, ctx: Context, now: Time, k: OpKey, argsHash: nat, current: set<Capability>,
                      requested: Option<set<Capability>>, r: RunId, branch: BranchId, maxDepth: nat): Result<Db> {
    if ctx.run !in db.cells then Err(NotFound)
    else
      var c := db.cells[ctx.run];
      if !FencePasses(c.run, c.attempts, ctx, now, false) then Err(FenceError(c, ctx, now))
      else if c.run.deadline.Some? && c.run.deadline.value <= now then Err(DeadlineExceeded)
      else if SameDelegation(c.deps, k) then
        if exists d :: d in c.deps && d.key == k && d.argsHash != argsHash then Err(DelegationConflict) else Ok(db)
      else if c.run.root !in db.cells then Err(NotFound)
      else if db.cells[c.run.root].run.cancelRequested || c.run.cancelRequested || maxDepth <= c.run.depth
      then Err(DelegationLimit)
      else
        var allowed := current * c.run.capabilities;
        var granted := if requested.Some? then requested.value else allowed;
        if !(granted <= allowed) then Err(ChildPermission)
        else if r in db.cells || branch in db.branches then Err(Integrity)
        else
          var books :- ReserveChild(db.books, c.run.root, Budget.ChildKey(ctx.run, k));
          var child := ChildRun(c.run, ctx.run, branch, now, granted);
          var parent := c.(deps := c.deps + [Dependency(k, r, argsHash)]);
          var next := Insert(db.(cells := db.cells[ctx.run := parent]), r, child);
          Ok(next.(branches := db.branches[branch := None], books := books))
  }

  // ---------------------------------------------------------------- claiming

  predicate BranchFree(db: Db, r: RunId)
    requires r in db.cells
  {
    var b := db.cells[r].run.branch;
    b in db.branches && (db.branches[b].None? || db.branches[b] == Some(r))
  }

  predicate Claimable(db: Db, r: RunId, cfg: Config) {
    && r in db.cells
    && db.cells[r].run.status.Queued?
    && BranchFree(db, r)
    && (db.cells[r].run.parent.Some? ==>
          Count(db.order, db.cells, BusyChildren(db.cells[r].run.root)) < cfg.childConcurrency)
  }

  /** The first claimable run of `ids`. */
  function Pick(db: Db, ids: seq<RunId>, cfg: Config): Option<RunId>
    decreases |ids|
  {
    if ids == [] then None
    else if Claimable(db, ids[0], cfg) then Some(ids[0])
    else Pick(db, ids[1..], cfg)
  }

  function ClaimRun(db: Db, r: RunId, a: AttemptId, p: ProcessId, expiry: Time): Result<Db>
    requires r in db.cells
  {
    var c :- ClaimCell(db.cells[r], a, p, expiry);
    Ok(db.(cells := db.cells[r := c], branches := db.branches[c.run.branch := Some(r)]))
  }

  function ClaimIn(db: Db, now: Time, a: AttemptId, p: ProcessId, cfg: Config): Result<Db> {
    if Count(db.order, db.cells, BusyRuns) >= cfg.workerSlots then Ok(db)
    else
      var pick := Pick(db, db.order, cfg);
      if pick.None? || pick.value !in db.cells then Ok(db)
      else ClaimRun(db, pick.value, a, p, now + cfg.leaseSeconds)
  }

  // ---------------------------------------------------------------- settling

  /** The loop over `outcome.interrupt_refs`.  An interaction must belong to the settling run; the source
      looks up waits and operations by id alone. */
  function BindAll(cells: map<RunId, Cell>, self: RunId, inputRevision: nat, refs: seq<Ref>): Result<map<RunId, Cell>>
    decreases |refs|
  {
    if refs == [] then Ok(cells)
    else
      var r := refs[0];
      if r.run !in cells then Err(NotFound)
      else if r.UserRef? && r.run != self then Err(InterruptMismatch)
      else
        var c :- BindRef(cells[r.run], inputRevision, r);
        BindAll(cells[r.run := c], self, inputRevision, refs[1..])
  }

  /** The refs of an outcome name rows of the run that settles. */
  predicate Scoped(refs: seq<Ref>, self: RunId) {
    forall r :: r in refs ==> r.run == self
  }

  function SettleWaiting(cells: map<RunId, Cell>, ctx: Context, o: Outcome): Result<map<RunId, Cell>>
    requires ctx.run in cells
  {
    if o.checkpoint.None? then Err(CheckpointRequired)
    else
      var bound :- BindAll(cells, ctx.run, ctx.inputRevision, o.refs);
      if ctx.run !in bound then Err(NotFound)
      else
        var parked :- ParkCell(bound[ctx.run], ctx.attempt, o.refs);
        var woken := RefreshCell(parked, ReadyWaits(bound[ctx.run := parked], parked));
        Ok(bound[ctx.run := Wake(woken)])
  }

  function SettleIn(db: Db, now: Time, ctx: Context, o: Outcome): Result<Db> {
    if o.run != ctx.run || o.inputRevision != ctx.inputRevision then Err(OutcomeMismatch)
    else if ctx.run !in db.cells then Err(NotFound)
    else
      var c := db.cells[ctx.run];
      if !FencePasses(c.run, c.attempts, ctx, now, true) then Err(FenceError(c, ctx, now))
      else
        var saved := Checkpointed(c, o.checkpoint);
        var cells := db.cells[ctx.run := saved];
        if c.run.status.Cancelling? then
          Put(db, ctx.run, AckCancelCell(saved, ctx.attempt, ChildrenDone(db.cells, c)))
        else if o.kind.Await? then
          var settled :- SettleWaiting(cells, ctx, o);
          Ok(Update(db, settled))
        else Put(db, ctx.run, StopCell(saved, ctx.attempt, o, ChildrenDone(db.cells, c)))
  }

  /** The worker's settlement loop: a final outcome is not settled while steering input is pending. */
  function WorkerSettleIn(db: Db, now: Time, ctx: Context, o: Outcome): Result<Db> {
    if ctx.run in db.cells && o.kind.Final? && PendingInputs(db.cells[ctx.run]) != {} then Err(InputPending)
    else SettleIn(db, now, ctx, o)
  }

  // ---------------------------------------------------------------- scans and trees

  function ExpireIn(db: Db, now: Time): Db {
    Update(db, map r | r in db.cells :: ExpireCell(db.cells[r], now))
  }

  function RefreshIn(db: Db): Db {
    Update(db, map r | r in db.cells :: RefreshCell(db.cells[r], ReadyWaits(db.cells, db.cells[r])))
  }

  /** `x` is `top` or one of its descendants. */
  predicate Under(cells: map<RunId, Cell>, top: RunId, x: RunId)
    decreases if x in cells then cells[x].run.depth else 0
  {
    || x == top
    || (x in cells && cells[x].run.parent.Some?
        && var p := cells[x].run.parent.value;
           p in cells && cells[p].run.depth < cells[x].run.depth && Under(cells, top, p))
  }

  function CancelOr(c: Cell): Cell {
    if CancelCell(c).Ok? then CancelCell(c).value else c
  }

  function CancelIn(db: Db, top: RunId): Result<Db> {
    if top !in db.cells then Err(NotFound)
    else Ok(Update(db, map r | r in db.cells :: if Under(db.cells, top, r) then CancelOr(db.cells[r]) else db.cells[r]))
  }

  function FinishIn(db: Db, r: RunId): Db {
    if r !in db.cells then db
    else Update(db, db.cells[r := FinishIdleCell(db.cells[r], ChildrenDone(db.cells, db.cells[r]))])
  }

  /** Latest run first, so children end before their parents look. */
  function FinishAll(db: Db, ids: seq<RunId>): Db
    decreases |ids|
  {
    if ids == [] then db
    else FinishAll(FinishIn(db, ids[|ids| - 1]), ids[..|ids| - 1])
  }

  /** The transaction of `recover`, for an attempt whose lease was read, and found lapsed, before it.  Inside the
      transaction the lease is not looked at again. */
  function RecoverIn(db: Db, r: RunId, a: AttemptId, alive: bool, written: set<OpKey>): Result<Db> {
    if r !in db.cells then Err(NotFound)
    else if db.cells[r].run.attempt != Some(a) then Ok(db)
    else Put(db, r, RecoverCell(db.cells[r], a, alive, written))
  }
}
