/** The store's tables as an object, with the writes that guard themselves by a revision and the ledger of
    reservations.  A write that fails raises; the scheduler's transactions restore what they read at their start. */
module Store {
  import opened Domain
  import opened RunMachine
  import opened Tables
  import Budget

  class Store {
    var cells: map<RunId, Cell>
    var order: seq<RunId>
    var branches: map<BranchId, Option<RunId>>
    var books: Budget.Books

    ghost function Contents(): Db
      reads this
    {
      Db(cells, order, branches, books)
    }

    constructor (branchIds: set<BranchId>)
      ensures Contents() == Db(map[], [], map b | b in branchIds :: None, Budget.Books(map[], map[]))
    {
      cells, order, books := map[], [], Budget.Books(map[], map[]);
      branches := map b | b in branchIds :: None;
    }

    // ---------------------------------------------------------------- rows under a revision

    /** `update_run`: the row is replaced only at the revision it was read at. */
    method UpdateRun(r: RunId, expected: nat, row: Run) returns (ok: bool)
      modifies this`cells
      ensures ok <==> r in old(cells) && old(cells)[r].run.revision == expected
      ensures cells == if ok then old(cells)[r := old(cells)[r].(run := row.(revision := expected + 1))] else old(cells)
    {
      ok := r in cells && cells[r].run.revision == expected;
      if ok {
        cells := cells[r := cells[r].(run := row.(revision := expected + 1))];
      }
    }

    method UpdateInteraction(r: RunId, k: RequestKey, expected: nat, row: Interaction) returns (ok: bool)
      modifies this`cells
      ensures ok <==> r in old(cells) && k in old(cells)[r].interactions
                      && old(cells)[r].interactions[k].revision == expected
      ensures ok ==> cells == old(cells)[r := old(cells)[r].(interactions :=
                       old(cells)[r].interactions[k := row.(revision := expected + 1)])]
      ensures !ok ==> cells == old(cells)
    {
      ok := r in cells && k in cells[r].interactions && cells[r].interactions[k].revision == expected;
      if ok {
        var c := cells[r];
        cells := cells[r := c.(interactions := c.interactions[k := row.(revision := expected + 1)])];
      }
    }

    method UpdateOperation(r: RunId, k: OpKey, expected: nat, row: Operation) returns (ok: bool)
      modifies this`cells
      ensures ok <==> r in old(cells) && k in old(cells)[r].ops && old(cells)[r].ops[k].revision == expected
      ensures ok ==> cells == old(cells)[r := old(cells)[r].(ops :=
                       old(cells)[r].ops[k := row.(revision := expected + 1)])]
      ensures !ok ==> cells == old(cells)
    {
      ok := r in cells && k in cells[r].ops && cells[r].ops[k].revision == expected;
      if ok {
        var c := cells[r];
        cells := cells[r := c.(ops := c.ops[k := row.(revision := expected + 1)])];
      }
    }

    method UpdateWait(r: RunId, k: OpKey, expected: nat, row: Wait) returns (ok: bool)
      modifies this`cells
      ensures ok <==> r in old(cells) && k in old(cells)[r].waits && old(cells)[r].waits[k].revision == expected
      ensures ok ==> cells == old(cells)[r := old(cells)[r].(waits :=
                       old(cells)[r].waits[k := row.(revision := expected + 1)])]
      ensures !ok ==> cells == old(cells)
    {
      ok := r in cells && k in cells[r].waits && cells[r].waits[k].revision == expected;
      if ok {
        var c := cells[r];
        cells := cells[r := c.(waits := c.waits[k := row.(revision := expected + 1)])];
      }
    }

    /** `set_branch_owner`: the owner changes only from the one expected. */
    method SetBranchOwner(b: BranchId, expected: Option<RunId>, owner: Option<RunId>) returns (ok: bool)
      modifies this`branches
      ensures ok <==> b in old(branches) && old(branches)[b] == expected
      ensures branches == if ok then old(branches)[b := owner] else old(branches)
    {
      ok := b in branches && branches[b] == expected;
      if ok {
        branches := branches[b := owner];
      }
    }

    method RevokeGrants(r: RunId, keep: set<GrantId>)
      requires r in cells
      modifies this`cells
      ensures cells == old(cells)[r := old(cells)[r].(grants := RevokeExcept(old(cells)[r].grants, keep))]
    {
      cells := cells[r := cells[r].(grants := RevokeExcept(cells[r].grants, keep))];
    }

    method EndAttempt(r: RunId, a: AttemptId)
      requires r in cells
      modifies this`cells
      ensures cells == old(cells)[r := RunMachine.EndAttempt(old(cells)[r], a)]
    {
      var c := cells[r];
      if a in c.attempts {
        cells := cells[r := c.(attempts := c.attempts[a := c.attempts[a].(ended := true)])];
      } else {
        assert cells == cells[r := c];
      }
    }

    /** `add_attempt`: the id is the table's key. */
    method AddAttempt(r: RunId, a: AttemptId, row: Attempt) returns (ok: bool)
      requires r in cells
      modifies this`cells
      ensures ok <==> a !in old(cells)[r].attempts
      ensures cells == if ok then old(cells)[r := old(cells)[r].(attempts := old(cells)[r].attempts[a := row])]
                       else old(cells)
    {
      ok := a !in cells[r].attempts;
      if ok {
        cells := cells[r := cells[r].(attempts := cells[r].attempts[a := row])];
      }
    }

    /** `insert_run`, keeping the list of runs in the order (created_at, id). */
    method InsertRun(r: RunId, run: Run)
      requires r !in cells
      modifies this`cells, this`order
      ensures cells == old(cells)[r := NewCell(run)]
      ensures order == Inserted(old(order), Position(old(order), old(cells), run.createdAt, r), r)
    {
      var i := 0;
      while i < |order| && Precedes(cells, order[i], run.createdAt, r)
        invariant 0 <= i <= |order|
        invariant Position(order, cells, run.createdAt, r) == i + Position(order[i..], cells, run.createdAt, r)
      {
        assert order[i..][1..] == order[i + 1..];
        i := i + 1;
      }
      cells, order := cells[r := NewCell(run)], order[..i] + [r] + order[i..];
    }

    /** `add_branch`: a new branch belongs to nobody. */
    method AddBranch(b: BranchId) returns (ok: bool)
      modifies this`branches
      ensures ok <==> b !in old(branches)
      ensures branches == if ok then old(branches)[b := None] else old(branches)
    {
      ok := b !in branches;
      if ok {
        branches := branches[b := None];
      }
    }

    /** `add_dependency`. */
    method AddDependency(r: RunId, d: Dependency)
      requires r in cells
      modifies this`cells
      ensures cells == old(cells)[r := old(cells)[r].(deps := old(cells)[r].deps + [d])]
    {
      cells := cells[r := cells[r].(deps := cells[r].deps + [d])];
    }

    /** `put` of a run's review resolutions. */
    method PutReviewed(r: RunId, interrupts: set<Interrupt>)
      requires r in cells
      modifies this`cells
      ensures cells == old(cells)[r := old(cells)[r].(reviewed := interrupts)]
    {
      cells := cells[r := cells[r].(reviewed := interrupts)];
    }

    method AddOperation(r: RunId, k: OpKey, row: Operation)
      requires r in cells && k !in cells[r].ops
      modifies this`cells
      ensures cells == old(cells)[r := old(cells)[r].(ops := old(cells)[r].ops[k := row])]
    {
      cells := cells[r := cells[r].(ops := cells[r].ops[k := row])];
    }

    /** The row of a request key that is there is kept. */
    method AddInteraction(r: RunId, k: RequestKey, row: Interaction)
      requires r in cells
      modifies this`cells
      ensures cells == old(cells)[r := old(cells)[r].(interactions := Registered(old(cells)[r].interactions, k, row))]
    {
      if k !in cells[r].interactions {
        cells := cells[r := cells[r].(interactions := cells[r].interactions[k := row])];
      } else {
        assert cells == cells[r := cells[r]];
      }
    }

    method PutGrant(r: RunId, g: GrantId, row: Grant)
      requires r in cells
      modifies this`cells
      ensures cells == old(cells)[r := old(cells)[r].(grants := old(cells)[r].grants[g := row])]
    {
      cells := cells[r := cells[r].(grants := cells[r].grants[g := row])];
    }

    method RestoreCells(cells: map<RunId, Cell>)
      modifies this`cells
      ensures this.cells == cells
    {
      this.cells := cells;
    }

    method RestoreBooks(books: Budget.Books)
      modifies this`books
      ensures this.books == books
    {
      this.books := books;
    }

    /** A transaction that raises leaves the tables as they were when it began. */
    method Restore(cells: map<RunId, Cell>, branches: map<BranchId, Option<RunId>>)
      modifies this`cells, this`branches
      ensures this.cells == cells && this.branches == branches
    {
      this.cells, this.branches := cells, branches;
    }

    // ---------------------------------------------------------------- reservations

    /** `reserve`. */
    method Reserve(account: Budget.AccountId, key: Budget.ReservationKey,
                   amount: Budget.Amount) returns (res: Result<()>)
      modifies this`books
      ensures res.Ok? <==> Budget.MayReserve(old(books), account, key, amount)
      ensures books == if res.Ok? then Budget.ReserveIn(old(books), account, key, amount) else old(books)
      ensures res.Ok? <==>
                if key in old(books).reservations
                then && old(books).reservations[key].account == account && old(books).reservations[key].amount == amount
                else
                  && account in old(books).accounts
                  && var a := old(books).accounts[account];
                     forall d :: d in amount ==>
                       && 0.0 <= amount[d]
                       && (d in a.limits && a.limits[d].Some? ==>
                             Budget.Get(a.reserved, d) + Budget.Get(a.consumed, d) + amount[d] <= a.limits[d].value)
      ensures res.Ok? && key !in old(books).reservations ==>
                Budget.SetsAside(old(books), books, account, key, amount)
      ensures res.Err? ==> if key in books.reservations then res.error == ReservationConflict
                           else if account !in books.accounts then res.error == NotFound
                           else Refused(books.accounts[account], amount, res.error)
    {
      if key in books.reservations {
        var saved := books.reservations[key];
        if saved.account != account || saved.amount != amount {
          return Err(ReservationConflict);
        }
        return Ok(());
      }
      if account !in books.accounts {
        return Err(NotFound);
      }
      var a := books.accounts[account];
      var reserved := ReserveDimensions(a, amount);
      if reserved.Err? {
        return Err(reserved.error);
      }
      books := books.(accounts := books.accounts[account := a.(reserved := reserved.value)],
                      reservations := books.reservations[key :=
                        Budget.Reservation(account, amount, None, Budget.Reserved)]);
      return Ok(());
    }

    /** `settle`. */
    method Settle(key: Budget.ReservationKey, actual: Option<Budget.Amount>) returns (res: Result<()>)
      modifies this`books
      ensures res.Ok? <==> Budget.MaySettle(old(books), key, actual)
      ensures books == if res.Ok? then Budget.SettleIn(old(books), key, actual) else old(books)
      ensures res.Ok? <==>
                && key in old(books).reservations
                && var r := old(books).reservations[key];
                   if r.state.Settled? then actual == r.actual
                   else actual.Some? ==>
                     && r.account in old(books).accounts
                     && forall d :: d in actual.value ==> 0.0 <= actual.value[d] <= Budget.Get(r.amount, d)
      ensures res.Ok? && actual.Some? && !old(books).reservations[key].state.Settled? ==>
                Budget.Charges(old(books), books, key, actual.value)
      ensures res.Ok? && old(books).reservations[key].state.Settled? ==>
                books == old(books) && books.reservations[key].actual == actual
      ensures res.Err? ==> res.error == if key !in books.reservations then NotFound
                                        else if books.reservations[key].state.Settled? then SettlementConflict
                                        else if books.reservations[key].account !in books.accounts then NotFound
                                        else UsageExceedsReservation
    {
      if key !in books.reservations {
        return Err(NotFound);
      }
      var saved := books.reservations[key];
      if saved.state.Settled? {
        if saved.actual != actual {
          return Err(SettlementConflict);
        }
        return Ok(());
      }
      if actual.None? {
        books := books.(reservations := books.reservations[key := saved.(state := Budget.ReservationState.Unknown)]);
        return Ok(());
      }
      if saved.account !in books.accounts {
        return Err(NotFound);
      }
      var a := books.accounts[saved.account];
      var within := CheckUsage(saved.amount, actual.value);
      if !within {
        return Err(UsageExceedsReservation);
      }
      var reserved, consumed := SettleDimensions(a, saved.amount, actual.value);
      books := books.(accounts := books.accounts[saved.account := a.(reserved := reserved, consumed := consumed)],
                      reservations := books.reservations[key := saved.(state := Budget.Settled, actual := actual)]);
      return Ok(());
    }
  }

  /** One dimension of the amount is negative, or does not fit the account's limit. */
  predicate RefusedFor(a: Budget.Account, amount: Budget.Amount, d: Budget.Dimension, e: Error) {
    && d in amount
    && if amount[d] < 0.0 then e.NegativeReservation? else e.BudgetExhausted? && !Budget.Fits(a, d, amount[d])
  }

  predicate Refused(a: Budget.Account, amount: Budget.Amount, e: Error) {
    exists d :: RefusedFor(a, amount, d, e)
  }

  /** Each dimension is checked against the account and added to what is reserved. */
  method ReserveDimensions(a: Budget.Account, amount: Budget.Amount) returns (res: Result<Budget.Amount>)
    ensures res.Ok? <==> forall d :: d in amount ==> 0.0 <= amount[d] && Budget.Fits(a, d, amount[d])
    ensures res.Ok? ==> res.value == Budget.Plus(a.reserved, amount)
    ensures res.Err? ==> Refused(a, amount, res.error)
  {
    hide Budget.Plus;
    var reserved, rest := a.reserved, amount.Keys;
    PlusNothing(a.reserved, amount);
    while rest != {}
      invariant rest <= amount.Keys
      invariant reserved == Budget.Plus(a.reserved, amount - rest)
      invariant forall d :: d in amount && d !in rest ==> 0.0 <= amount[d] && Budget.Fits(a, d, amount[d])
      decreases |rest|
    {
      var d :| d in rest;
      PlusOneMore(a.reserved, amount, rest, d);
      if amount[d] < 0.0 {
        assert RefusedFor(a, amount, d, NegativeReservation);
        return Err(NegativeReservation);
      }
      if d in a.limits && a.limits[d].Some?
         && Budget.Get(reserved, d) + Budget.Get(a.consumed, d) + amount[d] > a.limits[d].value {
        assert !Budget.Fits(a, d, amount[d]) && RefusedFor(a, amount, d, BudgetExhausted);
        return Err(BudgetExhausted);
      }
      reserved := reserved[d := Budget.Get(reserved, d) + amount[d]];
      rest := rest - {d};
    }
    assert amount - rest == amount;
    return Ok(reserved);
  }

  lemma PlusNothing(m: Budget.Amount, amount: Budget.Amount)
    ensures Budget.Plus(m, amount - amount.Keys) == m
  {}

  lemma PlusOneMore(m: Budget.Amount, amount: Budget.Amount, rest: set<Budget.Dimension>, d: Budget.Dimension)
    requires d in rest && rest <= amount.Keys
    ensures Budget.Get(Budget.Plus(m, amount - rest), d) == Budget.Get(m, d)
    ensures Budget.Plus(m, amount - (rest - {d})) == Budget.Plus(m, amount - rest)[d := Budget.Get(m, d) + amount[d]]
  {}

  /** The usage must fit the reservation in every dimension it names. */
  method CheckUsage(amount: Budget.Amount, used: Budget.Amount) returns (ok: bool)
    ensures ok <==> Budget.Usage(amount, used)
  {
    var rest := used.Keys;
    while rest != {}
      invariant rest <= used.Keys
      invariant forall d :: d in used && d !in rest ==> 0.0 <= used[d] <= Budget.Get(amount, d)
      decreases |rest|
    {
      var d :| d in rest;
      if used[d] < 0.0 || used[d] > Budget.Get(amount, d) {
        return false;
      }
      rest := rest - {d};
    }
    return true;
  }

  /** Every dimension of the reservation is given back, and what was used of it is consumed. */
  method SettleDimensions(a: Budget.Account, amount: Budget.Amount, used: Budget.Amount)
    returns (reserved: Budget.Amount, consumed: Budget.Amount)
    ensures reserved == Budget.Minus(a.reserved, amount)
    ensures consumed == Budget.PlusOn(a.consumed, amount, used)
  {
    hide Budget.Minus, Budget.PlusOn;
    reserved, consumed := a.reserved, a.consumed;
    var rest := amount.Keys;
    SettleNothing(a, amount, used);
    while rest != {}
      invariant rest <= amount.Keys
      invariant reserved == Budget.Minus(a.reserved, amount - rest)
      invariant consumed == Budget.PlusOn(a.consumed, amount - rest, used)
      decreases |rest|
    {
      var d :| d in rest;
      MinusOneMore(a.reserved, amount, rest, d);
      PlusOnOneMore(a.consumed, amount, used, rest, d);
      reserved := reserved[d := Budget.Get(reserved, d) - amount[d]];
      consumed := consumed[d := Budget.Get(consumed, d) + Budget.Get(used, d)];
      rest := rest - {d};
    }
    assert amount - rest == amount;
  }

  lemma SettleNothing(a: Budget.Account, amount: Budget.Amount, used: Budget.Amount)
    ensures Budget.Minus(a.reserved, amount - amount.Keys) == a.reserved
    ensures Budget.PlusOn(a.consumed, amount - amount.Keys, used) == a.consumed
  {}

  lemma MinusOneMore(m: Budget.Amount, amount: Budget.Amount, rest: set<Budget.Dimension>, d: Budget.Dimension)
    requires d in rest && rest <= amount.Keys
    ensures var n := Budget.Minus(m, amount - rest);
            Budget.Minus(m, amount - (rest - {d})) == n[d := Budget.Get(n, d) - amount[d]]
  {}

  lemma PlusOnOneMore(m: Budget.Amount, amount: Budget.Amount, used: Budget.Amount, rest: set<Budget.Dimension>,
                      d: Budget.Dimension)
    requires d in rest && rest <= amount.Keys
    ensures var n := Budget.PlusOn(m, amount - rest, used);
            Budget.PlusOn(m, amount - (rest - {d}), used) == n[d := Budget.Get(n, d) + Budget.Get(used, d)]
  {}
}
