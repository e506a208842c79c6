/** Plugin contributions: which version owns a name, and what is published under it. */
module Plugins {
  import opened Domain
  import opened Dependencies

  datatype Name = Name(namespace: nat, id: nat)

  type Setting = nat

  /** A contribution of one version. */
  datatype Entry = Entry(version: Identity, name: Name)

  // ---------------------------------------------------------------- published contributions

  /** One name a manifest contributes.  Categories may share a namespace, as skills and skill sources do. */
  datatype Offer = Offer(category: nat, name: Name, config: Setting)

  /** The stored contributions, the version that owns each name, and what is published under it. */
  datatype Board = Board(entries: map<Entry, Setting>, owners: map<Name, Identity>, published: map<Name, Setting>)

  predicate Rivals(entries: map<Entry, Setting>, name: Name, e: Entry) {
    e in entries && e.name == name
  }

  /** The owner of a name is a highest version among its contributions, all of which come from one plugin. */
  ghost predicate Owns(entries: map<Entry, Setting>, owner: Identity, name: Name) {
    && Entry(owner, name) in entries
    && forall e :: Rivals(entries, name, e) ==>
         e.version.version.rank <= owner.version.rank && e.version.plugin == owner.plugin
  }

  /** A name has an owner exactly when something contributes it, and an owned name is published. */
  ghost predicate Owned(b: Board) {
    && (forall name :: name in b.owners ==> Owns(b.entries, b.owners[name], name) && name in b.published)
    && (forall e :: e in b.entries ==> e.name in b.owners)
  }

  /** What is published under an owned name is the owner's contribution. */
  ghost predicate Shown(b: Board) {
    forall name :: ShownAt(b, name)
  }

  predicate ShownAt(b: Board, name: Name) {
    (name in b.owners && name in b.published && Entry(b.owners[name], name) in b.entries) ==>
      b.published[name] == b.entries[Entry(b.owners[name], name)]
  }

  predicate Newer(b: Board, v: Identity, name: Name) {
    name !in b.owners || b.owners[name].version.rank < v.version.rank
  }

  /** One contribution is stored, and published unless a version at least as high owns the name. */
  function Contribute(b: Board, v: Identity, o: Offer): Board {
    Board(b.entries[Entry(v, o.name) := o.config],
          if Newer(b, v, o.name) then b.owners[o.name := v] else b.owners,
          if Newer(b, v, o.name) then b.published[o.name := o.config] else b.published)
  }

  function ContributeAll(b: Board, v: Identity, offers: seq<Offer>): Board
    decreases |offers|
  {
    if offers == [] then b else Contribute(ContributeAll(b, v, offers[..|offers| - 1]), v, offers[|offers| - 1])
  }

  /** The version may contribute under the name: nobody publishes it, or its own plugin does. */
  predicate Free(b: Board, v: Identity, name: Name) {
    name in b.published ==> name in b.owners && b.owners[name].plugin == v.plugin
  }

  predicate AllFree(b: Board, v: Identity, offers: seq<Offer>) {
    forall i :: 0 <= i < |offers| ==> Free(b, v, offers[i].name)
  }

  function KeyOf(o: Offer): (nat, Name) {
    (o.category, o.name)
  }

  /** No category lists a name twice. */
  predicate Unrepeated(offers: seq<Offer>) {
    forall i, j :: 0 <= i < j < |offers| ==> KeyOf(offers[i]) != KeyOf(offers[j])
  }

  predicate Offered(offers: seq<Offer>, name: Name) {
    exists i :: 0 <= i < |offers| && offers[i].name == name
  }

  function First(offers: seq<Offer>, name: Name): (c: Option<Setting>)
    ensures c.Some? <==> Offered(offers, name)
    decreases |offers|
  {
    if offers == [] then None
    else
      var front, last := offers[..|offers| - 1], offers[|offers| - 1];
      var c := First(front, name);
      assert Offered(front, name) ==> Offered(offers, name);
      assert Offered(offers, name) ==> Offered(front, name) || last.name == name;
      if c.Some? then c else if last.name == name then Some(last.config) else None
  }

  function Last(offers: seq<Offer>, name: Name): (c: Option<Setting>)
    ensures c.Some? <==> Offered(offers, name)
    decreases |offers|
  {
    if offers == [] then None
    else
      var front, last := offers[..|offers| - 1], offers[|offers| - 1];
      assert Offered(front, name) ==> Offered(offers, name);
      assert Offered(offers, name) ==> Offered(front, name) || last.name == name;
      if last.name == name then Some(last.config) else Last(front, name)
  }

  /** The condition on one offered name: if the version owns it already, its stored configuration is the last one
      offered; if the version takes it, the first one offered is the last. */
  predicate NameInStep(b: Board, v: Identity, offers: seq<Offer>, name: Name) {
    && (name in b.owners && b.owners[name] == v && Entry(v, name) in b.entries ==>
          Last(offers, name) == Some(b.entries[Entry(v, name)]))
    && (Newer(b, v, name) ==> First(offers, name) == Last(offers, name))
  }

  ghost predicate InStep(b: Board, v: Identity, offers: seq<Offer>) {
    forall name :: Offered(offers, name) ==> NameInStep(b, v, offers, name)
  }

  lemma ContributeOwned(b: Board, v: Identity, o: Offer)
    requires Owned(b) && Free(b, v, o.name)
    ensures Owned(Contribute(b, v, o))
    ensures forall name :: Free(b, v, name) ==> Free(Contribute(b, v, o), v, name)
  {
    var n := Contribute(b, v, o);
    forall x | x in n.owners ensures Owns(n.entries, n.owners[x], x) {
      if x in b.owners {
        assert Owns(b.entries, b.owners[x], x);
      }
      forall e | Rivals(n.entries, x, e)
        ensures e.version.version.rank <= n.owners[x].version.rank && e.version.plugin == n.owners[x].plugin
      {
        assert e == Entry(v, o.name) || Rivals(b.entries, x, e);
      }
    }
  }

  /** A contribution leaves what is published in step with its owners exactly unless the owner of the name stores
      another configuration under it. */
  lemma ContributeShowsIff(b: Board, v: Identity, o: Offer)
    requires Owned(b) && Shown(b)
    ensures Shown(Contribute(b, v, o)) <==>
            !(o.name in b.owners && b.owners[o.name] == v && b.entries[Entry(v, o.name)] != o.config)
  {
    var n := Contribute(b, v, o);
    OwnersStored(b, o.name);
    assert ShownAt(b, o.name);
    forall name | name != o.name ensures ShownAt(n, name) {
      assert ShownAt(b, name);
    }
    assert Shown(n) <==> ShownAt(n, o.name);
  }

  /** Contributing keeps owners right. */
  lemma {:induction false} ContributeAllOwned(b: Board, v: Identity, offers: seq<Offer>)
    requires Owned(b) && AllFree(b, v, offers)
    ensures Owned(ContributeAll(b, v, offers))
    ensures forall name :: Free(b, v, name) ==> Free(ContributeAll(b, v, offers), v, name)
    decreases |offers|
  {
    hide Owned, Free, Contribute;
    if offers != [] {
      var n := |offers| - 1;
      assert AllFree(b, v, offers[..n]) && Free(b, v, offers[n].name);
      ContributeAllOwned(b, v, offers[..n]);
      ContributeOwned(ContributeAll(b, v, offers[..n]), v, offers[n]);
    }
  }

  /** What a whole manifest leaves under one name. */
  lemma {:induction false} ContributeAllAt(b: Board, v: Identity, offers: seq<Offer>, name: Name)
    ensures var n := ContributeAll(b, v, offers);
            && (Offered(offers, name) ==>
                  Entry(v, name) in n.entries && Some(n.entries[Entry(v, name)]) == Last(offers, name))
            && (!Offered(offers, name) ==> (Entry(v, name) in n.entries <==> Entry(v, name) in b.entries))
            && (!Offered(offers, name) && Entry(v, name) in b.entries ==>
                  n.entries[Entry(v, name)] == b.entries[Entry(v, name)])
            && (if Offered(offers, name) && Newer(b, v, name)
                then && name in n.owners && n.owners[name] == v
                     && name in n.published && Some(n.published[name]) == First(offers, name)
                else && (name in n.owners <==> name in b.owners)
                     && (name in b.owners ==> n.owners[name] == b.owners[name])
                     && (name in n.published <==> name in b.published)
                     && (name in b.published ==> n.published[name] == b.published[name]))
    decreases |offers|
  {
    if offers != [] {
      var n := |offers| - 1;
      var front, last := offers[..n], offers[n];
      ContributeAllAt(b, v, front, name);
      assert Offered(front, name) ==> Offered(offers, name);
      assert Offered(offers, name) ==> Offered(front, name) || last.name == name;
      assert last.name == name ==> Offered(offers, name);
    }
  }

  lemma {:induction false} OthersKept(b: Board, v: Identity, offers: seq<Offer>)
    ensures forall e: Entry :: e.version != v ==>
      && (e in ContributeAll(b, v, offers).entries <==> e in b.entries)
      && (e in b.entries ==> ContributeAll(b, v, offers).entries[e] == b.entries[e])
    decreases |offers|
  {
    if offers != [] {
      OthersKept(b, v, offers[..|offers| - 1]);
    }
  }

  lemma NameShownIff(b: Board, v: Identity, offers: seq<Offer>, name: Name)
    requires Owned(b) && ShownAt(b, name)
    ensures ShownAt(ContributeAll(b, v, offers), name) <==> (Offered(offers, name) ==> NameInStep(b, v, offers, name))
  {
    hide ContributeAll, First, Last;
    OwnersStored(b, name);
    ContributeAllAt(b, v, offers, name);
    OthersKept(b, v, offers);
  }

  /** A whole manifest leaves what is published in step with its owners exactly if each offered name is in step: a
      name the version owns is stored as it was, a name it takes is offered first as last, others do not matter. */
  lemma ContributeAllShowsIff(b: Board, v: Identity, offers: seq<Offer>)
    requires Owned(b) && Shown(b)
    ensures Shown(ContributeAll(b, v, offers)) <==> InStep(b, v, offers)
  {
    hide ContributeAll, Owned, NameInStep, Offered;
    var n := ContributeAll(b, v, offers);
    forall name ensures ShownAt(n, name) <==> (Offered(offers, name) ==> NameInStep(b, v, offers, name)) {
      assert ShownAt(b, name);
      NameShownIff(b, v, offers, name);
    }
  }

  lemma OwnersStored(b: Board, name: Name)
    requires Owned(b)
    ensures name in b.owners ==> Entry(b.owners[name], name) in b.entries
  {
    assert name in b.owners ==> Owns(b.entries, b.owners[name], name);
  }

  /** A manifest that offers a name as a skill and as a skill source stores one configuration and publishes the
      other. */
  lemma TwiceOffered(v: Identity, name: Name)
    ensures var offers := [Offer(0, name, 1), Offer(1, name, 2)];
            var b := Board(map[], map[], map[]);
            Unrepeated(offers) && AllFree(b, v, offers) && Owned(b) && Shown(b) && !Shown(ContributeAll(b, v, offers))
  {
    var b := Board(map[], map[], map[]);
    var offers := [Offer(0, name, 1), Offer(1, name, 2)];
    assert offers[..1] == [offers[0]] && offers[..1][..0] == [];
    assert offers[0].name == name && Offered(offers, name);
    assert First(offers[..1], name) == Some(1);
    ContributeAllShowsIff(b, v, offers);
    assert !NameInStep(b, v, offers, name);
  }

  /** The keys that `register_atomic` stages. */
  function Staged(offers: seq<Offer>): set<(nat, Name)> {
    set o | o in offers :: KeyOf(o)
  }

  lemma StagedOneMore(offers: seq<Offer>, i: nat)
    requires i < |offers| && Unrepeated(offers[..i])
    ensures Staged(offers[..i + 1]) == Staged(offers[..i]) + {KeyOf(offers[i])}
    ensures KeyOf(offers[i]) in Staged(offers[..i]) ==> !Unrepeated(offers)
    ensures KeyOf(offers[i]) !in Staged(offers[..i]) ==> Unrepeated(offers[..i + 1])
  {
    var front := offers[..i];
    assert offers[..i + 1] == front + [offers[i]];
    if KeyOf(offers[i]) in Staged(front) {
      var o :| o in front && KeyOf(o) == KeyOf(offers[i]);
      var j :| 0 <= j < i && front[j] == o;
      assert offers[j] == o;
    } else {
      forall j | 0 <= j < i ensures KeyOf(offers[j]) != KeyOf(offers[i]) {
        assert front[j] in front;
      }
      forall j, k | 0 <= j < k < i ensures KeyOf(offers[j]) != KeyOf(offers[k]) {
        assert front[j] == offers[j] && front[k] == offers[k];
      }
    }
  }

  /** The staging of `register_atomic`. */
  method Stages(offers: seq<Offer>) returns (ok: bool)
    ensures ok <==> Unrepeated(offers)
  {
    var staged: set<(nat, Name)> := {};
    var i := 0;
    while i < |offers|
      invariant 0 <= i <= |offers| && staged == Staged(offers[..i]) && Unrepeated(offers[..i])
    {
      var key := KeyOf(offers[i]);
      StagedOneMore(offers, i);
      if key in staged {
        return false;
      }
      staged := staged + {key};
      i := i + 1;
    }
    assert offers[..i] == offers;
    return true;
  }

  class Extensions {
    var entries: map<Entry, Setting>
    var owners: map<Name, Identity>
    var published: map<Name, Setting>

    /** Names that the host itself publishes have no owner. */
    constructor (host: map<Name, Setting>)
      ensures Contents() == Board(map[], map[], host) && Valid() && Shown(Contents())
    {
      entries, owners, published := map[], map[], host;
    }

    function Contents(): Board
      reads this
    {
      Board(entries, owners, published)
    }

    ghost predicate Valid()
      reads this
    {
      Owned(Contents())
    }

    /** `register_atomic`: nothing is registered if one name belongs to another plugin or to the host, or is listed
        twice in one category. */
    method Register(v: Identity, offers: seq<Offer>) returns (ok: bool)
      requires Valid()
      modifies this
      ensures Valid()
      ensures ok <==> AllFree(old(Contents()), v, offers) && Unrepeated(offers)
      ensures Contents() == if ok then ContributeAll(old(Contents()), v, offers) else old(Contents())
      ensures ok && old(Shown(Contents())) ==> (Shown(Contents()) <==> InStep(old(Contents()), v, offers))
    {
      hide Owned, Shown, Free, InStep;
      var i := 0;
      while i < |offers|
        invariant 0 <= i <= |offers| && AllFree(Contents(), v, offers[..i])
      {
        if !Free(Contents(), v, offers[i].name) {
          return false;
        }
        i := i + 1;
      }
      assert offers[..i] == offers;
      var staged := Stages(offers);
      if !staged {
        return false;
      }
      ContributeAllOwned(Contents(), v, offers);
      if Shown(Contents()) {
        ContributeAllShowsIff(Contents(), v, offers);
      }
      i := 0;
      while i < |offers|
        invariant 0 <= i <= |offers| && Contents() == ContributeAll(old(Contents()), v, offers[..i])
      {
        var name, config := offers[i].name, offers[i].config;
        assert offers[..i + 1][..i] == offers[..i];
        var publish := name !in owners || owners[name].version.rank < v.version.rank;
        entries := entries[Entry(v, name) := config];
        if publish {
          published, owners := published[name := config], owners[name := v];
        }
        i := i + 1;
      }
      assert offers[..i] == offers;
      return true;
    }

    /** One withdrawal; a name loses its owner only with its last contribution. */
    method UnregisterOne(e: Entry)
      requires Valid() && e in entries
      modifies this
      ensures Valid() && entries == old(entries) - {e}
      ensures Elsewhere(old(owners), owners, {e.name}) && Elsewhere(old(published), published, {e.name})
      ensures old(Shown(Contents())) ==> Shown(Contents())
    {
      hide Owned, Elsewhere, Shown;
      OwnersStored(Contents(), e.name);
      OwnerOf(Contents(), e);
      var name, o, p := e.name, owners, published;
      Nowhere(owners, {name});
      Nowhere(published, {name});
      if owners[name] == e.version {
        var left := set x | x in entries && x != e && x.name == name;
        if left == {} {
          LastWithdrawn(Contents(), e);
          OneRemoved(owners, name);
          OneRemoved(published, name);
          o, p := owners - {name}, published - {name};
        } else {
          var highest := Highest(left);
          FallsBack(Contents(), e, highest);
          OneReplaced(owners, name, highest.version);
          OneReplaced(published, name, entries[highest]);
          o, p := owners[name := highest.version], published[name := entries[highest]];
        }
      } else {
        OtherStays(Contents(), e);
      }
      entries, owners, published := entries - {e}, o, p;
    }

    /** `unregister`: what the version published falls back to the highest version that is left. */
    method Unregister(v: Identity)
      requires Valid()
      modifies this
      ensures Valid()
      ensures entries == old(entries) - EntriesBy(old(entries), v)
      ensures Elsewhere(old(owners), owners, NamesBy(old(entries), v))
      ensures Elsewhere(old(published), published, NamesBy(old(entries), v))
      ensures old(Shown(Contents())) ==> Shown(Contents())
    {
      hide Owned, Elsewhere, Shown;
      Nowhere(owners, NamesBy(entries, v));
      Nowhere(published, NamesBy(entries, v));
      var rest := EntriesBy(entries, v);
      ghost var all := rest;
      while rest != {}
        invariant Valid() && rest <= all
        invariant entries == old(entries) - (all - rest)
        invariant Elsewhere(old(owners), owners, NamesBy(old(entries), v))
        invariant Elsewhere(old(published), published, NamesBy(old(entries), v))
        invariant old(Shown(Contents())) ==> Shown(Contents())
        decreases |rest|
      {
        var e :| e in rest;
        ghost var o, p := owners, published;
        UnregisterOne(e);
        assert e in old(entries) && e.name in NamesBy(old(entries), v);
        ElsewhereToo(old(owners), o, owners, NamesBy(old(entries), v), e.name);
        ElsewhereToo(old(published), p, published, NamesBy(old(entries), v), e.name);
        rest := rest - {e};
      }
    }
  }

  /** Two tables agree outside `names`. */
  ghost predicate Elsewhere<T>(m: map<Name, T>, n: map<Name, T>, names: set<Name>) {
    forall x :: x !in names ==> (x in m <==> x in n) && (x in m ==> m[x] == n[x])
  }

  lemma Nowhere<T>(m: map<Name, T>, names: set<Name>)
    ensures Elsewhere(m, m, names)
  {}

  lemma OneRemoved<T>(m: map<Name, T>, name: Name)
    ensures Elsewhere(m, m - {name}, {name})
  {}

  lemma OneReplaced<T>(m: map<Name, T>, name: Name, value: T)
    ensures Elsewhere(m, m[name := value], {name})
  {}

  lemma ElsewhereToo<T>(m: map<Name, T>, n: map<Name, T>, o: map<Name, T>, names: set<Name>, name: Name)
    requires Elsewhere(m, n, names) && Elsewhere(n, o, {name}) && name in names
    ensures Elsewhere(m, o, names)
  {}

  function NamesBy(entries: map<Entry, Setting>, v: Identity): set<Name> {
    set e | e in entries && e.version == v :: e.name
  }

  function EntriesBy(entries: map<Entry, Setting>, v: Identity): set<Entry> {
    set e | e in entries && e.version == v
  }

  lemma OwnerOf(b: Board, e: Entry)
    requires Owned(b) && e in b.entries
    ensures e.name in b.owners && e.name in b.published
  {}

  method Highest(left: set<Entry>) returns (h: Entry)
    requires left != {}
    ensures h in left && forall x :: x in left ==> x.version.version.rank <= h.version.version.rank
  {
    h :| h in left;
    var rest := left - {h};
    while rest != {}
      invariant rest <= left && h in left
      invariant forall x :: x in left && x !in rest ==> x.version.version.rank <= h.version.version.rank
      decreases |rest|
    {
      var x :| x in rest;
      if h.version.version.rank < x.version.version.rank {
        h := x;
      }
      rest := rest - {x};
    }
  }

  lemma OtherStays(b: Board, e: Entry)
    requires Owned(b) && e in b.entries && e.name in b.owners && b.owners[e.name] != e.version
    ensures Owned(b.(entries := b.entries - {e}))
    ensures Shown(b) ==> Shown(b.(entries := b.entries - {e}))
  {
    var n := b.(entries := b.entries - {e});
    forall x | x in n.owners ensures Owns(n.entries, n.owners[x], x) {
      assert Owns(b.entries, b.owners[x], x);
      forall y | Rivals(n.entries, x, y)
        ensures y.version.version.rank <= n.owners[x].version.rank && y.version.plugin == n.owners[x].plugin
      {
        assert Rivals(b.entries, x, y);
      }
    }
    if Shown(b) {
      forall name ensures ShownAt(n, name) {
        assert ShownAt(b, name);
      }
    }
  }

  lemma LastWithdrawn(b: Board, e: Entry)
    requires Owned(b) && e in b.entries
    requires (set x | x in b.entries && x != e && x.name == e.name) == {}
    ensures var n := Board(b.entries - {e}, b.owners - {e.name}, b.published - {e.name});
            Owned(n) && (Shown(b) ==> Shown(n))
  {
    var n := Board(b.entries - {e}, b.owners - {e.name}, b.published - {e.name});
    forall x | x in n.owners ensures Owns(n.entries, n.owners[x], x) {
      assert Owns(b.entries, b.owners[x], x);
      forall y | Rivals(n.entries, x, y)
        ensures y.version.version.rank <= n.owners[x].version.rank && y.version.plugin == n.owners[x].plugin
      {
        assert Rivals(b.entries, x, y);
      }
    }
    forall y | y in n.entries ensures y.name in n.owners {
      assert y.name == e.name ==> y in (set x | x in b.entries && x != e && x.name == e.name);
    }
    if Shown(b) {
      forall name ensures ShownAt(n, name) {
        assert ShownAt(b, name);
      }
    }
  }

  lemma FallsBack(b: Board, e: Entry, h: Entry)
    requires Owned(b) && e in b.entries && h in b.entries && h != e && h.name == e.name
    requires forall x :: x in b.entries && x != e && x.name == e.name ==>
               x.version.version.rank <= h.version.version.rank
    ensures var n := Board(b.entries - {e}, b.owners[e.name := h.version], b.published[e.name := b.entries[h]]);
            Owned(n) && (Shown(b) && b.owners[e.name] == e.version ==> Shown(n))
  {
    var n := Board(b.entries - {e}, b.owners[e.name := h.version], b.published[e.name := b.entries[h]]);
    assert Rivals(b.entries, e.name, h) && Owns(b.entries, b.owners[e.name], e.name);
    assert h == Entry(h.version, e.name);
    forall x | x in n.owners ensures Owns(n.entries, n.owners[x], x) {
      assert Owns(b.entries, b.owners[x], x);
      forall y | Rivals(n.entries, x, y)
        ensures y.version.version.rank <= n.owners[x].version.rank && y.version.plugin == n.owners[x].plugin
      {
        assert Rivals(b.entries, x, y);
      }
    }
    if Shown(b) && b.owners[e.name] == e.version {
      forall name ensures ShownAt(n, name) {
        assert ShownAt(b, name);
      }
    }
  }
}
