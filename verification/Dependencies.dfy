/** Resolution of plugin dependencies: a depth-first visit whose result lists dependencies before dependents. */
module Dependencies {
  import opened Domain
  import opened Collections

  type PluginId = nat

  /** Different texts may stand for equal versions; `rank` is the order of versions. */
  datatype Version = Version(text: nat, rank: nat)

  datatype Identity = Identity(plugin: PluginId, version: Version)

  /** A requirement of some version among `allowed`. */
  datatype Need = Need(plugin: PluginId, allowed: set<Version>)

  datatype Manifest = Manifest(key: Identity, needs: seq<Need>)

  datatype Fault = Cycle | Conflict | Missing

  datatype Answer = Done | Refused(fault: Fault)

  // ---------------------------------------------------------------- what is chosen

  predicate InBatch(batch: seq<Manifest>, p: PluginId) {
    exists m :: m in batch && m.key.plugin == p
  }

  predicate Fits(m: Manifest, n: Need) {
    m.key.plugin == n.plugin && m.key.version in n.allowed
  }

  /** The first of the highest fitting versions. */
  function Chosen(batch: seq<Manifest>, n: Need): (r: Option<Manifest>)
    ensures r.Some? ==> r.value in batch && Fits(r.value, n)
    ensures r.Some? ==> forall m :: m in batch && Fits(m, n) ==> m.key.version.rank <= r.value.key.version.rank
    ensures r.None? ==> forall m :: m in batch ==> !Fits(m, n)
    decreases |batch|
  {
    if batch == [] then None
    else
      var rest := Chosen(batch[..|batch| - 1], n);
      var last := batch[|batch| - 1];
      if Fits(last, n) && (rest.None? || rest.value.key.version.rank < last.key.version.rank) then Some(last) else rest
  }

  predicate Installed(installed: set<Identity>, n: Need) {
    exists i :: i in installed && i.plugin == n.plugin && i.version in n.allowed
  }

  function Keys(batch: seq<Manifest>): set<Identity> {
    set m | m in batch :: m.key
  }

  /** `x` needs `y`: some manifest of `x` names a plugin of the batch, and `y` is chosen for it. */
  predicate Edge(batch: seq<Manifest>, x: Identity, y: Identity) {
    exists m, n :: m in batch && m.key == x && n in m.needs && Chosen(batch, n).Some? && Chosen(batch, n).value.key == y
  }

  predicate Path(batch: seq<Manifest>, p: seq<Identity>) {
    forall i :: 0 <= i < |p| - 1 ==> Edge(batch, p[i], p[i + 1])
  }

  ghost predicate HasCycle(batch: seq<Manifest>) {
    exists p: seq<Identity> :: |p| >= 2 && p[0] == p[|p| - 1] && Path(batch, p)
  }

  /** The fault is in the batch: a cycle of what is chosen, a need that none of the named plugin's versions in the
      batch fits, or one of a plugin outside the batch that nothing installed fits. */
  ghost predicate Faulty(batch: seq<Manifest>, installed: set<Identity>, fault: Fault) {
    match fault
    case Cycle => HasCycle(batch)
    case Conflict => exists m, n :: m in batch && n in m.needs && InBatch(batch, n.plugin) && Chosen(batch, n).None?
    case Missing => exists m, n :: m in batch && n in m.needs && !InBatch(batch, n.plugin) && !Installed(installed, n)
  }

  predicate Listed(order: seq<Manifest>, k: Identity, before: nat)
    requires before <= |order|
  {
    exists j :: 0 <= j < before && order[j].key == k
  }

  /** A need is met by a manifest that comes earlier, or by an installed one. */
  predicate Met(batch: seq<Manifest>, installed: set<Identity>, order: seq<Manifest>, n: Need, before: nat)
    requires before <= |order|
  {
    if InBatch(batch, n.plugin) then Chosen(batch, n).Some? && Listed(order, Chosen(batch, n).value.key, before)
    else Installed(installed, n)
  }

  predicate Sorted(batch: seq<Manifest>, installed: set<Identity>, order: seq<Manifest>) {
    && (forall i :: 0 <= i < |order| ==> order[i] in batch)
    && (forall i, j :: 0 <= i < j < |order| ==> order[i].key != order[j].key)
    && (forall i, n :: 0 <= i < |order| && n in order[i].needs ==> Met(batch, installed, order, n, i))
  }

  lemma MetLater(batch: seq<Manifest>, installed: set<Identity>, order: seq<Manifest>, more: seq<Manifest>, n: Need,
                 before: nat, later: nat)
    requires before <= |order| && before <= later <= |order + more| && Met(batch, installed, order, n, before)
    ensures Met(batch, installed, order + more, n, later)
  {
    if InBatch(batch, n.plugin) {
      var k := Chosen(batch, n).value.key;
      var j :| 0 <= j < before && order[j].key == k;
      assert (order + more)[j].key == k;
    }
  }

  lemma Appended(batch: seq<Manifest>, installed: set<Identity>, order: seq<Manifest>, m: Manifest)
    requires Sorted(batch, installed, order) && m in batch && m.key !in Keys(order)
    requires forall n :: n in m.needs ==> Met(batch, installed, order, n, |order|)
    ensures Sorted(batch, installed, order + [m]) && Keys(order + [m]) == Keys(order) + {m.key}
  {
    var next := order + [m];
    forall i, n | 0 <= i < |next| && n in next[i].needs ensures Met(batch, installed, next, n, i) {
      if i < |order| {
        MetLater(batch, installed, order, [m], n, i, i);
      } else {
        MetLater(batch, installed, order, [m], n, |order|, |order|);
      }
    }
    forall i, j | 0 <= i < j < |next| ensures next[i].key != next[j].key {
      assert order[i].key in Keys(order);
    }
    forall x | x in Keys(next) ensures x in Keys(order) + {m.key} {
      var y :| y in next && y.key == x;
    }
    forall x | x in Keys(order) ensures x in Keys(next) {
      var y :| y in order && y.key == x;
      assert y in next;
    }
    assert m in next;
  }

  // ---------------------------------------------------------------- the visit

  /** What is being visited is a path of chosen dependencies; what was visited is sorted. */
  ghost predicate Consistent(batch: seq<Manifest>, installed: set<Identity>, visiting: set<Identity>,
                             visited: set<Identity>, order: seq<Manifest>, stack: seq<Identity>) {
    && visiting == (set x | x in stack) && visiting <= Keys(batch) && visiting !! visited
    && Path(batch, stack)
    && visited == Keys(order)
    && Sorted(batch, installed, order)
  }

  lemma Enters(batch: seq<Manifest>, installed: set<Identity>, visiting: set<Identity>, visited: set<Identity>,
               order: seq<Manifest>, stack: seq<Identity>, m: Manifest)
    requires Consistent(batch, installed, visiting, visited, order, stack) && m in batch
    requires m.key !in visiting && m.key !in visited && (stack != [] ==> Edge(batch, stack[|stack| - 1], m.key))
    ensures Consistent(batch, installed, visiting + {m.key}, visited, order, stack + [m.key])
    ensures |Keys(batch) - (visiting + {m.key})| < |Keys(batch) - visiting|
  {
    hide Sorted, Edge;
    Pushed(batch, stack, m.key);
    assert m.key in Keys(batch) - visiting;
    StrictSubsetSize(Keys(batch) - (visiting + {m.key}), Keys(batch) - visiting);
  }

  lemma Leaves(batch: seq<Manifest>, installed: set<Identity>, visiting: set<Identity>, visited: set<Identity>,
               order: seq<Manifest>, stack: seq<Identity>, m: Manifest)
    requires Consistent(batch, installed, visiting + {m.key}, visited, order, stack + [m.key]) && m in batch
    requires m.key !in visiting && m.key !in stack
    requires forall n :: n in m.needs ==> Met(batch, installed, order, n, |order|)
    ensures Consistent(batch, installed, visiting, visited + {m.key}, order + [m], stack)
  {
    hide Sorted, Edge, Met;
    assert m.key !in visited;
    Appended(batch, installed, order, m);
    Popped(batch, stack, m.key);
  }

  class Resolver {
    const batch: seq<Manifest>
    const installed: set<Identity>
    var visiting: set<Identity>
    var visited: set<Identity>
    var order: seq<Manifest>
    /** The identities being visited, outermost first. */
    ghost var stack: seq<Identity>

    constructor (batch: seq<Manifest>, installed: set<Identity>)
      ensures this.batch == batch && this.installed == installed && Valid() && stack == [] && order == []
    {
      this.batch, this.installed := batch, installed;
      visiting, visited, order, stack := {}, {}, [], [];
    }

    ghost predicate Valid()
      reads this
    {
      Consistent(batch, installed, visiting, visited, order, stack)
    }

    /** `visit`. */
    method Visit(m: Manifest) returns (res: Answer)
      requires Valid() && m in batch && (stack != [] ==> Edge(batch, stack[|stack| - 1], m.key))
      modifies this
      ensures res.Done? ==> Valid() && stack == old(stack) && visiting == old(visiting)
                            && old(order) <= order && m.key in visited
      ensures res.Refused? ==> Faulty(batch, installed, res.fault)
      decreases |Keys(batch) - visiting|, 0
    {
      hide Consistent, Path, HasCycle, Met, Edge;
      var key := m.key;
      OnStack(batch, installed, visiting, visited, order, stack);
      if key in visiting {
        ClosedPath(batch, stack, key);
        return Refused(Cycle);
      }
      if key in visited {
        return Done;
      }
      ghost var under, open := stack, visiting;
      Enters(batch, installed, visiting, visited, order, stack, m);
      visiting, stack := visiting + {key}, stack + [key];
      var i := 0;
      while i < |m.needs|
        invariant 0 <= i <= |m.needs| && Valid()
        invariant stack == under + [key] && visiting == open + {key} && old(order) <= order
        invariant forall k :: 0 <= k < i ==> Met(batch, installed, order, m.needs[k], |order|)
      {
        ghost var before := order;
        res := Meet(m, m.needs[i]);
        if res.Refused? {
          return;
        }
        StillMet(batch, installed, before, order, m.needs[..i]);
        i := i + 1;
      }
      assert forall n :: n in m.needs ==> Met(batch, installed, order, n, |order|);
      Leaves(batch, installed, open, visited, order, under, m);
      assert visiting - {key} == open;
      visiting, stack := visiting - {key}, under;
      visited, order := visited + {key}, order + [m];
      return Done;
    }

    /** One dependency of the manifest that is being visited. */
    method Meet(m: Manifest, n: Need) returns (res: Answer)
      requires Valid() && m in batch && n in m.needs && stack != [] && stack[|stack| - 1] == m.key
      modifies this
      ensures res.Done? ==> Valid() && stack == old(stack) && visiting == old(visiting) && old(order) <= order
                            && Met(batch, installed, order, n, |order|)
      ensures res.Refused? ==> Faulty(batch, installed, res.fault)
      decreases |Keys(batch) - visiting|, 1
    {
      hide Consistent, HasCycle;
      if InBatch(batch, n.plugin) {
        var chosen := Chosen(batch, n);
        if chosen.None? {
          return Refused(Conflict);
        }
        res := Visit(chosen.value);
        if res.Done? {
          OnStack(batch, installed, visiting, visited, order, stack);
          ListedNow(order, chosen.value.key);
        }
        return;
      } else if !Installed(installed, n) {
        return Refused(Missing);
      }
      return Done;
    }

    /** `resolve_dependencies`: every manifest of the batch is listed once, each after what was chosen for it. */
    method Resolve() returns (res: Answer)
      requires Valid() && stack == [] && order == []
      modifies this
      ensures res.Done? ==> Sorted(batch, installed, order) && Keys(order) == Keys(batch)
      ensures res.Refused? ==> Faulty(batch, installed, res.fault)
      ensures Unambiguous(batch) ==> (res.Done? <==> forall f :: !Faulty(batch, installed, f))
    {
      var i := 0;
      while i < |batch|
        invariant 0 <= i <= |batch| && Valid() && stack == []
        invariant forall k :: 0 <= k < i ==> batch[k].key in visited
      {
        ghost var before := order;
        res := Visit(batch[i]);
        if res.Refused? {
          return;
        }
        KeysGrow(before, order);
        i := i + 1;
      }
      KeysOf(batch, installed, order);
      if Unambiguous(batch) {
        SortedIsSound(batch, installed, order);
      }
      return Done;
    }
  }

  lemma OnStack(batch: seq<Manifest>, installed: set<Identity>, visiting: set<Identity>, visited: set<Identity>,
                order: seq<Manifest>, stack: seq<Identity>)
    requires Consistent(batch, installed, visiting, visited, order, stack)
    ensures Path(batch, stack) && visited == Keys(order) && forall x :: x in visiting <==> x in stack
  {}

  lemma Pushed(batch: seq<Manifest>, stack: seq<Identity>, key: Identity)
    requires Path(batch, stack) && (stack != [] ==> Edge(batch, stack[|stack| - 1], key))
    ensures Path(batch, stack + [key]) && (set x | x in stack + [key]) == (set x | x in stack) + {key}
  {}

  lemma Popped(batch: seq<Manifest>, stack: seq<Identity>, key: Identity)
    requires Path(batch, stack + [key]) && key !in stack
    ensures Path(batch, stack) && (set x | x in stack + [key]) - {key} == (set x | x in stack)
  {
    forall i | 0 <= i < |stack| - 1 ensures Edge(batch, stack[i], stack[i + 1]) {
      assert Edge(batch, (stack + [key])[i], (stack + [key])[i + 1]);
    }
  }

  lemma ClosedPath(batch: seq<Manifest>, stack: seq<Identity>, key: Identity)
    requires Path(batch, stack) && key in stack && Edge(batch, stack[|stack| - 1], key)
    ensures HasCycle(batch)
  {
    var i :| 0 <= i < |stack| && stack[i] == key;
    var p := stack[i..] + [key];
    forall k | 0 <= k < |p| - 1 ensures Edge(batch, p[k], p[k + 1]) {
      if k + 1 < |stack| - i {
        assert Edge(batch, stack[i + k], stack[i + k + 1]);
      }
    }
    assert |p| >= 2 && p[0] == p[|p| - 1] && Path(batch, p);
  }

  lemma StillMet(batch: seq<Manifest>, installed: set<Identity>, before: seq<Manifest>, order: seq<Manifest>,
                 needs: seq<Need>)
    requires before <= order && forall k :: 0 <= k < |needs| ==> Met(batch, installed, before, needs[k], |before|)
    ensures forall k :: 0 <= k < |needs| ==> Met(batch, installed, order, needs[k], |order|)
  {
    assert order == before + order[|before|..];
    forall k | 0 <= k < |needs| ensures Met(batch, installed, order, needs[k], |order|) {
      MetLater(batch, installed, before, order[|before|..], needs[k], |before|, |order|);
    }
  }

  lemma ListedNow(order: seq<Manifest>, k: Identity)
    requires k in Keys(order)
    ensures Listed(order, k, |order|)
  {
    var m :| m in order && m.key == k;
    var j :| 0 <= j < |order| && order[j] == m;
  }

  lemma KeysGrow(before: seq<Manifest>, order: seq<Manifest>)
    requires before <= order
    ensures Keys(before) <= Keys(order)
  {
    forall x | x in Keys(before) ensures x in Keys(order) {
      var y :| y in before && y.key == x;
      assert y in order;
    }
  }

  lemma KeysOf(batch: seq<Manifest>, installed: set<Identity>, order: seq<Manifest>)
    requires Sorted(batch, installed, order) && forall k :: 0 <= k < |batch| ==> batch[k].key in Keys(order)
    ensures Keys(order) == Keys(batch)
  {
    forall x | x in Keys(order) ensures x in Keys(batch) {
      var y :| y in order && y.key == x;
      assert y in batch;
    }
    forall x | x in Keys(batch) ensures x in Keys(order) {
      var y :| y in batch && y.key == x;
      var k :| 0 <= k < |batch| && batch[k] == y;
    }
  }

  // ---------------------------------------------------------------- no order of a cyclic batch

  /** A version of a plugin has one manifest. */
  predicate Unambiguous(batch: seq<Manifest>) {
    forall m, n :: m in batch && n in batch && m.key == n.key ==> m == n
  }

  ghost function IndexOf(order: seq<Manifest>, k: Identity): (i: nat)
    requires k in Keys(order)
    ensures i < |order| && order[i].key == k
  {
    ListedNow(order, k);
    var j :| 0 <= j < |order| && order[j].key == k;
    j
  }

  lemma EdgeGoesBack(batch: seq<Manifest>, installed: set<Identity>, order: seq<Manifest>, x: Identity, y: Identity)
    requires Sorted(batch, installed, order) && Keys(order) == Keys(batch) && Unambiguous(batch) && Edge(batch, x, y)
    ensures x in Keys(order) && y in Keys(order) && IndexOf(order, y) < IndexOf(order, x)
  {
    var m, n :| m in batch && m.key == x && n in m.needs && Chosen(batch, n).Some? && Chosen(batch, n).value.key == y;
    assert m.key in Keys(batch) && y in Keys(batch);
    var i := IndexOf(order, x);
    assert order[i] == m;
    assert Chosen(batch, n).value.key.plugin == n.plugin && InBatch(batch, n.plugin);
    assert Met(batch, installed, order, n, i);
    var j :| 0 <= j < i && order[j].key == y;
    assert IndexOf(order, y) == j;
  }

  lemma {:induction false} PathGoesBack(batch: seq<Manifest>, installed: set<Identity>, order: seq<Manifest>,
                                        p: seq<Identity>)
    requires Sorted(batch, installed, order) && Keys(order) == Keys(batch) && Unambiguous(batch)
    requires |p| >= 2 && Path(batch, p)
    ensures p[0] in Keys(order) && p[|p| - 1] in Keys(order) && IndexOf(order, p[|p| - 1]) < IndexOf(order, p[0])
    decreases |p|
  {
    EdgeGoesBack(batch, installed, order, p[0], p[1]);
    if |p| > 2 {
      assert Path(batch, p[1..]);
      PathGoesBack(batch, installed, order, p[1..]);
    }
  }

  lemma SortedIsAcyclic(batch: seq<Manifest>, installed: set<Identity>, order: seq<Manifest>)
    requires Sorted(batch, installed, order) && Keys(order) == Keys(batch) && Unambiguous(batch)
    ensures !HasCycle(batch)
  {
    forall p: seq<Identity> | |p| >= 2 && Path(batch, p) ensures p[0] != p[|p| - 1] {
      PathGoesBack(batch, installed, order, p);
    }
  }

  /** A batch that could be sorted has no fault of any kind. */
  lemma SortedIsSound(batch: seq<Manifest>, installed: set<Identity>, order: seq<Manifest>)
    requires Sorted(batch, installed, order) && Keys(order) == Keys(batch) && Unambiguous(batch)
    ensures forall f :: !Faulty(batch, installed, f)
  {
    hide HasCycle;
    SortedIsAcyclic(batch, installed, order);
    forall m, n | m in batch && n in m.needs
      ensures if InBatch(batch, n.plugin) then Chosen(batch, n).Some? else Installed(installed, n)
    {
      assert m.key in Keys(batch);
      var i := IndexOf(order, m.key);
      assert order[i] == m;
      assert Met(batch, installed, order, n, i);
    }
  }
}
