/** Permits that bound concurrent model calls across processes, tied to reservations of the budget ledger. */
module Permits {
  import opened Domain
  import opened Collections
  import opened Store
  import Budget

  /** `permits` maps a call's reservation key to the process that makes the call. */
  datatype Pool = Pool(books: Budget.Books, permits: map<Budget.ReservationKey, ProcessId>, alive: set<ProcessId>)

  /** The permits of processes that still run. */
  function Live(p: Pool): set<Budget.ReservationKey> {
    set k | k in p.permits && p.permits[k] in p.alive
  }

  datatype PoolEvent =
    | Acquire(process: ProcessId, account: Budget.AccountId, key: Budget.ReservationKey, amount: Budget.Amount)
    | Complete(settled: Budget.ReservationKey, actual: Option<Budget.Amount>)
    | Die(dead: ProcessId)
    | Charge(other: Budget.AccountId, reservation: Budget.ReservationKey, cost: Budget.Amount)

  /** One round of `reserve`: with all permits taken the caller tries again; an unaffordable reservation raises. */
  function AcquireIn(p: Pool, process: ProcessId, account: Budget.AccountId, key: Budget.ReservationKey,
                     amount: Budget.Amount, concurrency: nat): Pool {
    if process !in p.alive || |Live(p)| >= concurrency || !Budget.MayReserve(p.books, account, key, amount) then p
    else p.(books := Budget.ReserveIn(p.books, account, key, amount), permits := p.permits[key := process])
  }

  /** `settle`: the permit is given back even when the settlement raises. */
  function CompleteIn(p: Pool, key: Budget.ReservationKey, actual: Option<Budget.Amount>): Pool {
    p.(books := if Budget.MaySettle(p.books, key, actual) then Budget.SettleIn(p.books, key, actual) else p.books,
       permits := p.permits - {key})
  }

  function ApplyPool(p: Pool, e: PoolEvent, concurrency: nat): Pool {
    match e
    case Acquire(process, account, key, amount) => AcquireIn(p, process, account, key, amount, concurrency)
    case Complete(key, actual) => CompleteIn(p, key, actual)
    case Die(process) => p.(alive := p.alive - {process})
    case Charge(account, key, amount) =>
      if Budget.MayReserve(p.books, account, key, amount)
      then p.(books := Budget.ReserveIn(p.books, account, key, amount)) else p
  }

  function PlayPool(p: Pool, events: seq<PoolEvent>, concurrency: nat): Pool
    decreases |events|
  {
    if events == [] then p else PlayPool(ApplyPool(p, events[0], concurrency), events[1..], concurrency)
  }

  ghost predicate PoolInv(p: Pool, concurrency: nat) {
    |Live(p)| <= concurrency && Budget.Conserved(p.books)
  }

  lemma PoolKeeps(p: Pool, e: PoolEvent, concurrency: nat)
    requires PoolInv(p, concurrency)
    ensures PoolInv(ApplyPool(p, e, concurrency), concurrency)
  {
    hide Budget.Conserved;
    var q := ApplyPool(p, e, concurrency);
    match e
    case Acquire(process, account, key, amount) =>
      if q != p {
        Budget.ReserveConserves(p.books, account, key, amount);
        assert Live(q) == Live(p) + {key};
      }
    case Complete(key, actual) =>
      if Budget.MaySettle(p.books, key, actual) {
        Budget.SettleConserves(p.books, key, actual);
      }
      SubsetSize(Live(q), Live(p));
    case Die(process) => SubsetSize(Live(q), Live(p));
    case Charge(account, key, amount) =>
      if Budget.MayReserve(p.books, account, key, amount) {
        Budget.ReserveConserves(p.books, account, key, amount);
      }
      assert Live(q) == Live(p);
  }

  /** Over any sequence of calls, completions, charges and process deaths, live permits never exceed the limit, every
      account's reserved and consumed amounts are the sums of its reservations, and no limit is passed. */
  lemma {:induction false} PermitsAndBooksHold(p: Pool, events: seq<PoolEvent>, concurrency: nat)
    requires PoolInv(p, concurrency)
    ensures PoolInv(PlayPool(p, events, concurrency), concurrency)
    decreases |events|
  {
    hide PoolInv, ApplyPool;
    if events != [] {
      PoolKeeps(p, events[0], concurrency);
      PermitsAndBooksHold(ApplyPool(p, events[0], concurrency), events[1..], concurrency);
    }
  }

  /** What an account shows is what its reservations add up to. */
  lemma AccountsAddUp(accounts: map<Budget.AccountId, map<Budget.Dimension, Option<real>>>, alive: set<ProcessId>,
                      events: seq<PoolEvent>, concurrency: nat, a: Budget.AccountId, d: Budget.Dimension)
    ensures var untouched := map x | x in accounts :: Budget.Account(accounts[x], map[], map[]);
            var b := PlayPool(Pool(Budget.Books(untouched, map[]), map[], alive), events, concurrency).books;
            a in b.accounts ==>
              && Budget.Get(b.accounts[a].reserved, d) == Budget.Sum(Budget.OpenShares(b, a, d))
              && Budget.Get(b.accounts[a].consumed, d) == Budget.Sum(Budget.SpentShares(b, a, d))
              && Budget.Within(b.accounts[a], d)
  {
    var untouched := map x | x in accounts :: Budget.Account(accounts[x], map[], map[]);
    var p := Pool(Budget.Books(untouched, map[]), map[], alive);
    Untouched(p.books);
    assert Live(p) == {};
    PermitsAndBooksHold(p, events, concurrency);
    var b := PlayPool(p, events, concurrency).books;
    assert a in b.accounts ==> Budget.Balanced(b, a, d) && Budget.Within(b.accounts[a], d);
  }

  lemma Untouched(b: Budget.Books)
    requires b.reservations == map[]
    requires forall a :: a in b.accounts ==> b.accounts[a].reserved == map[] && b.accounts[a].consumed == map[]
    ensures Budget.Conserved(b)
  {
    forall a, d | a in b.accounts ensures Budget.Balanced(b, a, d) {
      assert Budget.OpenShares(b, a, d) == map[] && Budget.SpentShares(b, a, d) == map[];
    }
  }

  /** A permit is taken by a living process, with fewer than `concurrency` permits of living processes out, and with
      its reservation; otherwise nothing happens. */
  lemma AcquireDoes(p: Pool, process: ProcessId, account: Budget.AccountId, key: Budget.ReservationKey,
                    amount: Budget.Amount, concurrency: nat)
    ensures var q := AcquireIn(p, process, account, key, amount, concurrency);
            if process in p.alive && |set k | k in p.permits && p.permits[k] in p.alive| < concurrency
               && Budget.MayReserve(p.books, account, key, amount)
            then
              && q.permits == p.permits[key := process] && q.alive == p.alive
              && (if key in p.books.reservations then q.books == p.books
                  else Budget.SetsAside(p.books, q.books, account, key, amount))
            else q == p
  {
    hide Budget.MayReserve, Budget.ReserveIn;
    if Budget.MayReserve(p.books, account, key, amount) {
      Budget.ReservationHolds(p.books, account, key, amount);
    }
    assert Live(p) == set k | k in p.permits && p.permits[k] in p.alive;
  }

  /** The end of a call gives its permit back, whether or not the settlement is accepted. */
  lemma CompleteDoes(p: Pool, key: Budget.ReservationKey, used: Budget.Amount)
    ensures var q := CompleteIn(p, key, Some(used));
            && q.permits == (map k | k in p.permits && k != key :: p.permits[k])
            && q.alive == p.alive
            && (if !Budget.MaySettle(p.books, key, Some(used)) || p.books.reservations[key].state.Settled?
                then q.books == p.books else Budget.Charges(p.books, q.books, key, used))
  {
    hide Budget.MaySettle, Budget.SettleIn, Budget.Charges;
    if Budget.MaySettle(p.books, key, Some(used)) {
      Budget.SettlementCharges(p.books, key, Some(used));
      KeyIsThere(p.books, key, Some(used));
    }
  }

  lemma KeyIsThere(b: Budget.Books, key: Budget.ReservationKey, actual: Option<Budget.Amount>)
    requires Budget.MaySettle(b, key, actual)
    ensures key in b.reservations
  {}

  // ---------------------------------------------------------------- the books follow the events

  datatype Request = Request(account: Budget.AccountId, amount: Budget.Amount)

  /** The reservation that the event asks for. */
  function Asks(e: PoolEvent): map<Budget.ReservationKey, Request> {
    match e
    case Acquire(_, account, key, amount) => map[key := Request(account, amount)]
    case Charge(account, key, amount) => map[key := Request(account, amount)]
    case _ => map[]
  }

  /** The usage that the event reports. */
  function Tells(e: PoolEvent): map<Budget.ReservationKey, Budget.Amount> {
    if e.Complete? && e.actual.Some? then map[e.settled := e.actual.value] else map[]
  }

  predicate IsSettled(b: Budget.Books, k: Budget.ReservationKey) {
    k in b.reservations && b.reservations[k].state.Settled?
  }

  /** What the events asked for, where a reservation was made of it. */
  function Requests(p: Pool, events: seq<PoolEvent>, concurrency: nat): map<Budget.ReservationKey, Request>
    decreases |events|
  {
    if events == [] then map[]
    else
      var q := ApplyPool(p, events[0], concurrency);
      Requests(q, events[1..], concurrency)
      + map k | k in Asks(events[0]) && k !in p.books.reservations && k in q.books.reservations :: Asks(events[0])[k]
  }

  /** What the events reported, where it settled a reservation. */
  function Reports(p: Pool, events: seq<PoolEvent>, concurrency: nat): map<Budget.ReservationKey, Budget.Amount>
    decreases |events|
  {
    if events == [] then map[]
    else
      var q := ApplyPool(p, events[0], concurrency);
      Reports(q, events[1..], concurrency)
      + map k | k in Tells(events[0]) && !IsSettled(p.books, k) && IsSettled(q.books, k) :: Tells(events[0])[k]
  }

  /** How a reservation came to be what it is. */
  predicate Accounted(p: Pool, b: Budget.Books, k: Budget.ReservationKey, asked: map<Budget.ReservationKey, Request>,
                      told: map<Budget.ReservationKey, Budget.Amount>) {
    && (k in b.reservations <==> k in p.books.reservations || k in asked)
    && (k in asked ==> k !in p.books.reservations)
    && (k in b.reservations ==>
          Request(b.reservations[k].account, b.reservations[k].amount)
          == if k in asked then asked[k] else Request(p.books.reservations[k].account, p.books.reservations[k].amount))
    && (IsSettled(b, k) <==> IsSettled(p.books, k) || k in told)
    && (k in told ==> !IsSettled(p.books, k) && b.reservations[k].actual == Some(told[k]))
    && (IsSettled(p.books, k) ==> b.reservations[k].actual == p.books.reservations[k].actual)
  }

  lemma EventAccounted(p: Pool, e: PoolEvent, concurrency: nat, k: Budget.ReservationKey)
    ensures var q := ApplyPool(p, e, concurrency);
            Accounted(p, q.books, k,
                      map j | j in Asks(e) && j !in p.books.reservations && j in q.books.reservations :: Asks(e)[j],
                      map j | j in Tells(e) && !IsSettled(p.books, j) && IsSettled(q.books, j) :: Tells(e)[j])
  {
    hide Budget.Plus, Budget.Minus, Budget.PlusOn, Budget.Fits, Budget.Usage, Live;
  }

  lemma AccountedBoth(p: Pool, b: Budget.Books, q: Pool, k: Budget.ReservationKey,
                      asked: map<Budget.ReservationKey, Request>, told: map<Budget.ReservationKey, Budget.Amount>,
                      more: map<Budget.ReservationKey, Request>, later: map<Budget.ReservationKey, Budget.Amount>)
    requires Accounted(p, q.books, k, asked, told) && Accounted(q, b, k, more, later)
    ensures Accounted(p, b, k, more + asked, later + told)
  {}

  /** Reservations are made of what the events asked for, and settled with what they reported, the first report for a
      reservation being the one that counts. */
  lemma {:induction false} BooksFollowEvents(p: Pool, events: seq<PoolEvent>, concurrency: nat,
                                             k: Budget.ReservationKey)
    ensures Accounted(p, PlayPool(p, events, concurrency).books, k, Requests(p, events, concurrency),
                      Reports(p, events, concurrency))
    decreases |events|
  {
    hide ApplyPool, Accounted, IsSettled, Asks, Tells;
    if events == [] {
      NothingAccounted(p, k);
    } else {
      var e, q := events[0], ApplyPool(p, events[0], concurrency);
      EventAccounted(p, e, concurrency, k);
      BooksFollowEvents(q, events[1..], concurrency, k);
      AccountedBoth(p, PlayPool(p, events, concurrency).books, q, k,
        map j | j in Asks(e) && j !in p.books.reservations && j in q.books.reservations :: Asks(e)[j],
        map j | j in Tells(e) && !IsSettled(p.books, j) && IsSettled(q.books, j) :: Tells(e)[j],
        Requests(q, events[1..], concurrency), Reports(q, events[1..], concurrency));
    }
  }

  lemma NothingAccounted(p: Pool, k: Budget.ReservationKey)
    ensures Accounted(p, p.books, k, map[], map[])
  {}

  /** What was asked for on the account and is not settled. */
  function Outstanding(asked: map<Budget.ReservationKey, Request>, told: map<Budget.ReservationKey, Budget.Amount>,
                       a: Budget.AccountId, d: Budget.Dimension): map<Budget.ReservationKey, real> {
    map k | k in asked :: if asked[k].account == a && k !in told then Budget.Get(asked[k].amount, d) else 0.0
  }

  /** What was reported for the account. */
  function Used(asked: map<Budget.ReservationKey, Request>, told: map<Budget.ReservationKey, Budget.Amount>,
                a: Budget.AccountId, d: Budget.Dimension): map<Budget.ReservationKey, real> {
    map k | k in asked :: if asked[k].account == a && k in told then Budget.Get(told[k], d) else 0.0
  }

  /** Starting from untouched accounts, what an account shows as consumed is the sum of the usages that the events
      reported for it, and what it shows as reserved is the sum of what they asked for and have not settled. */
  lemma ReportedIsCharged(accounts: map<Budget.AccountId, map<Budget.Dimension, Option<real>>>, alive: set<ProcessId>,
                          events: seq<PoolEvent>, concurrency: nat, a: Budget.AccountId, d: Budget.Dimension)
    requires a in accounts
    ensures var untouched := map x | x in accounts :: Budget.Account(accounts[x], map[], map[]);
            var p := Pool(Budget.Books(untouched, map[]), map[], alive);
            var (asked, told) := (Requests(p, events, concurrency), Reports(p, events, concurrency));
            var b := PlayPool(p, events, concurrency).books;
            && a in b.accounts
            && Budget.Get(b.accounts[a].consumed, d) == Budget.Sum(Used(asked, told, a, d))
            && Budget.Get(b.accounts[a].reserved, d) == Budget.Sum(Outstanding(asked, told, a, d))
  {
    hide PlayPool, Requests, Reports, Accounted, Budget.Within;
    var untouched := map x | x in accounts :: Budget.Account(accounts[x], map[], map[]);
    var p := Pool(Budget.Books(untouched, map[]), map[], alive);
    AccountsAddUp(accounts, alive, events, concurrency, a, d);
    AccountsStay(p, events, concurrency, a);
    forall k
      ensures Accounted(p, PlayPool(p, events, concurrency).books, k, Requests(p, events, concurrency),
                        Reports(p, events, concurrency))
    {
      BooksFollowEvents(p, events, concurrency, k);
    }
    SharesAreReported(p, PlayPool(p, events, concurrency).books, Requests(p, events, concurrency),
                      Reports(p, events, concurrency), a, d);
  }

  /** Two maps agree on a key. */
  predicate SameAt(m: map<Budget.ReservationKey, real>, n: map<Budget.ReservationKey, real>, k: Budget.ReservationKey) {
    (k in m <==> k in n) && (k in m && k in n ==> m[k] == n[k])
  }

  lemma ShareIsReported(p: Pool, b: Budget.Books, k: Budget.ReservationKey,
                        asked: map<Budget.ReservationKey, Request>, told: map<Budget.ReservationKey, Budget.Amount>,
                        a: Budget.AccountId, d: Budget.Dimension)
    requires k !in p.books.reservations && Accounted(p, b, k, asked, told)
    ensures SameAt(Budget.SpentShares(b, a, d), Used(asked, told, a, d), k)
    ensures SameAt(Budget.OpenShares(b, a, d), Outstanding(asked, told, a, d), k)
  {}

  lemma SharesAreReported(p: Pool, b: Budget.Books, asked: map<Budget.ReservationKey, Request>,
                          told: map<Budget.ReservationKey, Budget.Amount>, a: Budget.AccountId, d: Budget.Dimension)
    requires p.books.reservations == map[] && forall k :: Accounted(p, b, k, asked, told)
    ensures Budget.SpentShares(b, a, d) == Used(asked, told, a, d)
    ensures Budget.OpenShares(b, a, d) == Outstanding(asked, told, a, d)
  {
    hide Accounted, Budget.SpentShares, Budget.OpenShares, Used, Outstanding;
    var spent, used := Budget.SpentShares(b, a, d), Used(asked, told, a, d);
    var open, left := Budget.OpenShares(b, a, d), Outstanding(asked, told, a, d);
    forall k ensures SameAt(spent, used, k) && SameAt(open, left, k) {
      ShareIsReported(p, b, k, asked, told, a, d);
    }
    Agree(spent, used);
    Agree(open, left);
  }

  lemma Agree(m: map<Budget.ReservationKey, real>, n: map<Budget.ReservationKey, real>)
    requires forall k :: SameAt(m, n, k)
    ensures m == n
  {
    assert forall k :: SameAt(m, n, k) ==> (k in m <==> k in n);
  }

  lemma {:induction false} AccountsStay(p: Pool, events: seq<PoolEvent>, concurrency: nat, a: Budget.AccountId)
    requires a in p.books.accounts
    ensures a in PlayPool(p, events, concurrency).books.accounts
    decreases |events|
  {
    hide Budget.Plus, Budget.Minus, Budget.PlusOn, Budget.Fits, Budget.Usage, Live;
    if events != [] {
      AccountsStay(ApplyPool(p, events[0], concurrency), events[1..], concurrency, a);
    }
  }

  // ---------------------------------------------------------------- the adapter of one process

  class ModelBudget {
    const store: Store
    const process: ProcessId
    const concurrency: nat

    constructor (store: Store, process: ProcessId, concurrency: nat)
      ensures this.store == store && this.process == process && this.concurrency == concurrency
    {
      this.store, this.process, this.concurrency := store, process, concurrency;
    }

    /** The permits whose process still runs, as the transaction lists them. */
    method Active(permits: map<Budget.ReservationKey, ProcessId>,
                  alive: set<ProcessId>) returns (active: set<Budget.ReservationKey>)
      ensures active == Live(Pool(store.books, permits, alive))
    {
      active := {};
      var rest := permits.Keys;
      while rest != {}
        invariant rest <= permits.Keys
        invariant active == set k | k in permits && k !in rest && permits[k] in alive
        decreases |rest|
      {
        var k :| k in rest;
        if permits[k] in alive {
          active := active + {k};
        }
        rest := rest - {k};
      }
    }

    /** One round of the loop of `reserve`: None when every permit is taken, and the caller waits. */
    method TryReserve(permits: map<Budget.ReservationKey, ProcessId>, alive: set<ProcessId>, account: Budget.AccountId,
                      key: Budget.ReservationKey, amount: Budget.Amount)
      returns (taken: Option<Result<map<Budget.ReservationKey, ProcessId>>>)
      requires process in alive
      modifies store`books
      ensures var p := Pool(old(store.books), permits, alive);
              var q := AcquireIn(p, process, account, key, amount, concurrency);
              && store.books == q.books
              && (taken.None? <==> |Live(p)| >= concurrency)
              && (taken.Some? && taken.value.Ok? ==> taken.value.value == q.permits && key in q.permits)
              && (taken.Some? && taken.value.Err? ==> q == p)
    {
      var active := Active(permits, alive);
      if |active| >= concurrency {
        return None;
      }
      var reserved := store.Reserve(account, key, amount);
      if reserved.Err? {
        return Some(Err(reserved.error));
      }
      return Some(Ok(permits[key := process]));
    }
  }
}
