/** Root budgets: reservations against limits, their settlement, and the permits that bound concurrent
    model calls across processes. */
module Budget {
  import opened Domain

  datatype Dimension = ModelCalls | TotalTokens | Cost | ToolCalls | Children

  type Amount = map<Dimension, real>

  function Get(m: Amount, d: Dimension): real {
    if d in m then m[d] else 0.0
  }

  type AccountId = nat

  /** A limit of None, like a missing one, does not bound its dimension. */
  datatype Account = Account(limits: map<Dimension, Option<real>>, consumed: Amount, reserved: Amount)

  datatype ReservationKey =
    | ModelKey(attempt: nat)
    | ToolKey(run: RunId, op: OpKey)
    | ChildKey(run: RunId, op: OpKey)

  datatype ReservationState = Reserved | Unknown | Settled

  datatype Reservation = Reservation(account: AccountId, amount: Amount, actual: Option<Amount>,
                                     state: ReservationState)

  datatype Books = Books(accounts: map<AccountId, Account>, reservations: map<ReservationKey, Reservation>)

  // ---------------------------------------------------------------- the two operations on values

  predicate Fits(a: Account, d: Dimension, value: real) {
    d in a.limits && a.limits[d].Some? ==> Get(a.reserved, d) + Get(a.consumed, d) + value <= a.limits[d].value
  }

  /** A reservation that is new and affordable, or one that is there with the same content. */
  predicate MayReserve(b: Books, account: AccountId, key: ReservationKey, amount: Amount) {
    if key in b.reservations
    then b.reservations[key].account == account && b.reservations[key].amount == amount
    else account in b.accounts
         && forall d :: d in amount ==> 0.0 <= amount[d] && Fits(b.accounts[account], d, amount[d])
  }

  function Plus(m: Amount, n: Amount): Amount {
    map d | d in m.Keys + n.Keys :: Get(m, d) + Get(n, d)
  }

  /** `m` with `n` taken away on the dimensions of `n`. */
  function Minus(m: Amount, n: Amount): Amount {
    map d | d in m.Keys + n.Keys :: Get(m, d) - Get(n, d)
  }

  /** `m` with the parts of `n` on the dimensions of `dims` added. */
  function PlusOn(m: Amount, dims: Amount, n: Amount): Amount {
    map d | d in m.Keys + dims.Keys :: if d in dims then Get(m, d) + Get(n, d) else Get(m, d)
  }

  function ReserveIn(b: Books, account: AccountId, key: ReservationKey, amount: Amount): Books
    requires MayReserve(b, account, key, amount)
  {
    if key in b.reservations then b
    else
      var a := b.accounts[account];
      b.(accounts := b.accounts[account := a.(reserved := Plus(a.reserved, amount))],
         reservations := b.reservations[key := Reservation(account, amount, None, Reserved)])
  }

  predicate Usage(amount: Amount, actual: Amount) {
    forall d :: d in actual ==> 0.0 <= actual[d] <= Get(amount, d)
  }

  predicate MaySettle(b: Books, key: ReservationKey, actual: Option<Amount>) {
    && key in b.reservations
    && var r := b.reservations[key];
    if r.state.Settled? then r.actual == actual
    else actual.Some? ==> r.account in b.accounts && Usage(r.amount, actual.value)
  }

  function SettleIn(b: Books, key: ReservationKey, actual: Option<Amount>): Books
    requires MaySettle(b, key, actual)
  {
    var r := b.reservations[key];
    if r.state.Settled? then b
    else if actual.None? then b.(reservations := b.reservations[key := r.(state := ReservationState.Unknown)])
    else
      var a := b.accounts[r.account];
      b.(accounts := b.accounts[r.account :=
             a.(reserved := Minus(a.reserved, r.amount), consumed := PlusOn(a.consumed, r.amount, actual.value))],
         reservations := b.reservations[key := r.(state := Settled, actual := actual)])
  }

  // ---------------------------------------------------------------- what they do to the books

  /** The new reservation sets its amount aside, and touches nothing else. */
  ghost predicate SetsAside(b: Books, c: Books, account: AccountId, key: ReservationKey, amount: Amount) {
    && account in b.accounts && account in c.accounts
    && c.reservations == b.reservations[key := Reservation(account, amount, None, Reserved)]
    && c.accounts == b.accounts[account := c.accounts[account]]
    && var (x, y) := (b.accounts[account], c.accounts[account]);
    && y.limits == x.limits && y.consumed == x.consumed
    && forall d :: Get(y.reserved, d) == Get(x.reserved, d) + Get(amount, d)
  }

  /** The usage that was reported is consumed, what had been set aside for it is free again, and nothing else is
      touched. */
  ghost predicate Charges(b: Books, c: Books, key: ReservationKey, used: Amount) {
    && key in b.reservations
    && var r := b.reservations[key];
    && r.account in b.accounts && r.account in c.accounts
    && c.reservations == b.reservations[key := Reservation(r.account, r.amount, Some(used), Settled)]
    && c.accounts == b.accounts[r.account := c.accounts[r.account]]
    && var (x, y) := (b.accounts[r.account], c.accounts[r.account]);
    && y.limits == x.limits
    && (forall d :: Get(y.consumed, d) == Get(x.consumed, d) + Get(used, d))
    && (forall d :: Get(y.reserved, d) == Get(x.reserved, d) - Get(r.amount, d))
  }

  /** What a reservation that is accepted does: a repeated one nothing, a new one `SetsAside`; each dimension of a new
      one fits the limit of the account together with what is reserved and consumed there. */
  lemma ReservationHolds(b: Books, account: AccountId, key: ReservationKey, amount: Amount)
    requires MayReserve(b, account, key, amount)
    ensures var c := ReserveIn(b, account, key, amount);
            if key in b.reservations
            then c == b && b.reservations[key].account == account && b.reservations[key].amount == amount
            else
              && SetsAside(b, c, account, key, amount)
              && forall d :: d in amount ==>
                   && 0.0 <= amount[d]
                   && (d in b.accounts[account].limits && b.accounts[account].limits[d].Some? ==>
                         Get(c.accounts[account].reserved, d) + Get(c.accounts[account].consumed, d)
                         <= b.accounts[account].limits[d].value)
  {}

  /** What a settlement that is accepted does: the first one with a usage charges it, one without a usage only marks the
      reservation, and one of a settled reservation nothing. */
  lemma SettlementCharges(b: Books, key: ReservationKey, actual: Option<Amount>)
    requires MaySettle(b, key, actual)
    ensures var r, c := b.reservations[key], SettleIn(b, key, actual);
            if r.state.Settled? then c == b && r.actual == actual
            else if actual.None? then
              && c.accounts == b.accounts
              && c.reservations == b.reservations[key := c.reservations[key]]
              && c.reservations[key] == Reservation(r.account, r.amount, r.actual, ReservationState.Unknown)
            else
              && Charges(b, c, key, actual.value)
              && forall d :: d in actual.value ==> 0.0 <= actual.value[d] <= Get(r.amount, d)
  {}

  /** Once charged, the same settlement is accepted again and changes nothing; any other is refused. */
  lemma ChargedOnce(b: Books, key: ReservationKey, used: Amount, again: Option<Amount>)
    requires MaySettle(b, key, Some(used)) && !b.reservations[key].state.Settled?
    ensures var c := SettleIn(b, key, Some(used));
            && (MaySettle(c, key, again) <==> again == Some(used))
            && SettleIn(c, key, Some(used)) == c
  {}

  // ---------------------------------------------------------------- conservation

  function OpenShare(r: Reservation, a: AccountId, d: Dimension): real {
    if r.account == a && !r.state.Settled? then Get(r.amount, d) else 0.0
  }

  function SpentShare(r: Reservation, a: AccountId, d: Dimension): real {
    if r.account == a && r.state.Settled? && r.actual.Some? then Get(r.actual.value, d) else 0.0
  }

  ghost function Sum(m: map<ReservationKey, real>): real
    decreases |m|
  {
    if m == map[] then 0.0
    else
      var k :| k in m;
      m[k] + Sum(m - {k})
  }

  lemma {:induction false} SumWithout(m: map<ReservationKey, real>, k: ReservationKey)
    requires k in m
    ensures Sum(m) == m[k] + Sum(m - {k})
    decreases |m|
  {
    var j :| j in m && Sum(m) == m[j] + Sum(m - {j});
    if j != k {
      SumWithout(m - {j}, k);
      SumWithout(m - {k}, j);
      assert m - {j} - {k} == m - {k} - {j};
    }
  }

  lemma SumUpdated(m: map<ReservationKey, real>, k: ReservationKey, v: real)
    ensures Sum(m[k := v]) == Sum(m) - (if k in m then m[k] else 0.0) + v
  {
    var n := m[k := v];
    SumWithout(n, k);
    assert n - {k} == m - {k};
    if k in m {
      SumWithout(m, k);
    } else {
      assert m - {k} == m;
    }
  }

  ghost function OpenShares(b: Books, a: AccountId, d: Dimension): map<ReservationKey, real> {
    map k | k in b.reservations :: OpenShare(b.reservations[k], a, d)
  }

  ghost function SpentShares(b: Books, a: AccountId, d: Dimension): map<ReservationKey, real> {
    map k | k in b.reservations :: SpentShare(b.reservations[k], a, d)
  }

  ghost predicate Balanced(b: Books, a: AccountId, d: Dimension)
    requires a in b.accounts
  {
    && Get(b.accounts[a].reserved, d) == Sum(OpenShares(b, a, d))
    && Get(b.accounts[a].consumed, d) == Sum(SpentShares(b, a, d))
  }

  /** An account is never drawn beyond its limit (one with a negative limit is never drawn at all). */
  predicate Within(a: Account, d: Dimension) {
    d in a.limits && a.limits[d].Some? ==>
      || Get(a.reserved, d) + Get(a.consumed, d) <= a.limits[d].value
      || (Get(a.reserved, d) == 0.0 && Get(a.consumed, d) == 0.0)
  }

  predicate ReservationOk(b: Books, r: Reservation) {
    && r.account in b.accounts
    && (forall d :: d in r.amount ==> 0.0 <= r.amount[d])
    && (r.state.Settled? <==> r.actual.Some?)
    && (r.actual.Some? ==> Usage(r.amount, r.actual.value))
  }

  ghost predicate Conserved(b: Books) {
    && (forall k :: k in b.reservations ==> ReservationOk(b, b.reservations[k]))
    && (forall a, d :: a in b.accounts ==> Balanced(b, a, d))
    && (forall a, d :: a in b.accounts ==> Within(b.accounts[a], d))
  }

  lemma OpenAccount(b: Books, account: AccountId, limits: map<Dimension, Option<real>>)
    requires Conserved(b) && account !in b.accounts
    ensures Conserved(b.(accounts := b.accounts[account := Account(limits, map[], map[])]))
  {
    var c := b.(accounts := b.accounts[account := Account(limits, map[], map[])]);
    forall a, d | a in c.accounts ensures Balanced(c, a, d) {
      assert OpenShares(c, a, d) == OpenShares(b, a, d);
      assert SpentShares(c, a, d) == SpentShares(b, a, d);
      if a == account {
        AllZero(OpenShares(c, a, d));
        AllZero(SpentShares(c, a, d));
      } else {
        assert Balanced(b, a, d);
      }
    }
  }

  lemma {:induction false} AllZero(m: map<ReservationKey, real>)
    requires forall k :: k in m ==> m[k] == 0.0
    ensures Sum(m) == 0.0
    decreases |m|
  {
    if m != map[] {
      var k :| k in m && Sum(m) == m[k] + Sum(m - {k});
      AllZero(m - {k});
    }
  }

  lemma OpenUpdated(b: Books, c: Books, key: ReservationKey, r: Reservation, a: AccountId, d: Dimension)
    requires c.reservations == b.reservations[key := r]
    ensures Sum(OpenShares(c, a, d)) == Sum(OpenShares(b, a, d)) + OpenShare(r, a, d)
              - (if key in b.reservations then OpenShare(b.reservations[key], a, d) else 0.0)
  {
    var share := OpenShare(r, a, d);
    assert OpenShares(c, a, d) == OpenShares(b, a, d)[key := share];
    SumUpdated(OpenShares(b, a, d), key, share);
  }

  lemma SpentUpdated(b: Books, c: Books, key: ReservationKey, r: Reservation, a: AccountId, d: Dimension)
    requires c.reservations == b.reservations[key := r]
    ensures Sum(SpentShares(c, a, d)) == Sum(SpentShares(b, a, d)) + SpentShare(r, a, d)
              - (if key in b.reservations then SpentShare(b.reservations[key], a, d) else 0.0)
  {
    var share := SpentShare(r, a, d);
    assert SpentShares(c, a, d) == SpentShares(b, a, d)[key := share];
    SumUpdated(SpentShares(b, a, d), key, share);
  }

  lemma ReserveConserves(b: Books, account: AccountId, key: ReservationKey, amount: Amount)
    requires Conserved(b) && MayReserve(b, account, key, amount)
    ensures Conserved(ReserveIn(b, account, key, amount))
  {
    if key !in b.reservations {
      var c := ReserveIn(b, account, key, amount);
      var r := Reservation(account, amount, None, Reserved);
      forall a, d | a in c.accounts ensures Balanced(c, a, d) && Within(c.accounts[a], d) {
        assert Balanced(b, a, d) && Within(b.accounts[a], d);
        OpenUpdated(b, c, key, r, a, d);
        SpentUpdated(b, c, key, r, a, d);
      }
    }
  }

  lemma SettleConserves(b: Books, key: ReservationKey, actual: Option<Amount>)
    requires Conserved(b) && MaySettle(b, key, actual)
    ensures Conserved(SettleIn(b, key, actual))
  {
    var r := b.reservations[key];
    if !r.state.Settled? {
      var c := SettleIn(b, key, actual);
      var s := if actual.None? then r.(state := ReservationState.Unknown) else r.(state := Settled, actual := actual);
      assert ReservationOk(b, r);
      forall a, d | a in c.accounts ensures Balanced(c, a, d) && Within(c.accounts[a], d) {
        assert Balanced(b, a, d) && Within(b.accounts[a], d);
        OpenUpdated(b, c, key, s, a, d);
        SpentUpdated(b, c, key, s, a, d);
        SpentIsNotNegative(b, a, d);
        OpenCoversShare(b, a, d, key);
      }
    }
  }

  lemma {:induction false} SumNotNegative(m: map<ReservationKey, real>)
    requires forall k :: k in m ==> 0.0 <= m[k]
    ensures 0.0 <= Sum(m)
    decreases |m|
  {
    if m != map[] {
      var k :| k in m && Sum(m) == m[k] + Sum(m - {k});
      SumNotNegative(m - {k});
    }
  }

  lemma SpentIsNotNegative(b: Books, a: AccountId, d: Dimension)
    requires forall k :: k in b.reservations ==> ReservationOk(b, b.reservations[k])
    ensures 0.0 <= Sum(SpentShares(b, a, d))
  {
    SumNotNegative(SpentShares(b, a, d));
  }

  lemma OpenIsNotNegative(b: Books, a: AccountId, d: Dimension)
    requires forall k :: k in b.reservations ==> ReservationOk(b, b.reservations[k])
    ensures 0.0 <= Sum(OpenShares(b, a, d))
  {
    SumNotNegative(OpenShares(b, a, d));
  }

  lemma OpenCoversShare(b: Books, a: AccountId, d: Dimension, key: ReservationKey)
    requires key in b.reservations
    requires forall k :: k in b.reservations ==> ReservationOk(b, b.reservations[k])
    ensures OpenShare(b.reservations[key], a, d) <= Sum(OpenShares(b, a, d))
  {
    var m := OpenShares(b, a, d);
    SumWithout(m, key);
    SumNotNegative(m - {key});
  }
}
