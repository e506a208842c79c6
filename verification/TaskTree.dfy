/** The worklist that `cancel` builds visits every run of a tree exactly once. */
module TaskTree {
  import opened Domain
  import opened Collections
  import opened Tables
  import opened TablesInvariant

  function ChildIds(deps: seq<Dependency>): seq<RunId> {
    seq(|deps|, i requires 0 <= i < |deps| => deps[i].child)
  }

  /** Everything listed is below `top`, and all but `top` come after their parent has been looked at. */
  predicate Listed(m: map<RunId, Cell>, top: RunId, ids: seq<RunId>, cursor: nat) {
    && 0 < |ids| && ids[0] == top && cursor <= |ids|
    && (forall i :: 0 <= i < |ids| ==> ids[i] in m && Under(m, top, ids[i]))
    && (forall i :: 0 < i < |ids| ==> m[ids[i]].run.parent.Some? && m[ids[i]].run.parent.value in ids[..cursor])
  }

  /** The children of everything looked at are listed. */
  predicate Closed(m: map<RunId, Cell>, ids: seq<RunId>, cursor: nat)
    requires cursor <= |ids|
  {
    forall x, p :: x in m && m[x].run.parent == Some(p) && p in ids[..cursor] ==> x in ids
  }

  lemma {:induction false} UnderIsDeeper(m: map<RunId, Cell>, top: RunId, x: RunId)
    requires x in m && top in m && Under(m, top, x)
    ensures m[top].run.depth <= m[x].run.depth
    decreases m[x].run.depth
  {
    if x != top {
      UnderIsDeeper(m, top, m[x].run.parent.value);
    }
  }

  /** A child of the run under the cursor is not listed yet. */
  lemma ChildIsNew(m: map<RunId, Cell>, maxDepth: nat, top: RunId, ids: seq<RunId>, cursor: nat, x: RunId)
    requires Forest(m, maxDepth) && top in m && Listed(m, top, ids, cursor) && Distinct(ids) && cursor < |ids|
    requires x in m && m[x].run.parent == Some(ids[cursor])
    ensures x !in ids
  {
    hide Under, Branching;
    assert Rooted(m, x, maxDepth);
    UnderIsDeeper(m, top, ids[cursor]);
    assert ids[cursor] !in ids[..cursor];
    forall i | 0 <= i < |ids| ensures ids[i] != x {
      assert i > 0 ==> m[ids[i]].run.parent.value in ids[..cursor];
    }
  }

  lemma ChildrenAreUnder(m: map<RunId, Cell>, maxDepth: nat, top: RunId, p: RunId, i: nat)
    requires Forest(m, maxDepth) && p in m && Under(m, top, p) && i < |m[p].deps|
    ensures m[p].deps[i].child in m && m[m[p].deps[i].child].run.parent == Some(p) && Under(m, top, m[p].deps[i].child)
    ensures forall j :: 0 <= j < i ==> m[p].deps[j].child != m[p].deps[i].child
  {
    assert Branching(m, p) && Rooted(m, m[p].deps[i].child, maxDepth);
  }

  /** One step of the worklist. */
  lemma Extends(m: map<RunId, Cell>, maxDepth: nat, top: RunId, ids: seq<RunId>, cursor: nat)
    requires Forest(m, maxDepth) && top in m && Listed(m, top, ids, cursor) && Distinct(ids) && cursor < |ids|
    requires Closed(m, ids, cursor)
    ensures var next := ids + ChildIds(m[ids[cursor]].deps);
            Listed(m, top, next, cursor + 1) && Distinct(next) && Closed(m, next, cursor + 1)
  {
    hide Under, Forest;
    var p := ids[cursor];
    var kids := ChildIds(m[p].deps);
    var next := ids + kids;
    forall i | 0 <= i < |kids|
      ensures kids[i] in m && m[kids[i]].run.parent == Some(p) && Under(m, top, kids[i]) && kids[i] !in ids
      ensures forall j :: 0 <= j < i ==> kids[j] != kids[i]
    {
      ChildrenAreUnder(m, maxDepth, top, p, i);
      ChildIsNew(m, maxDepth, top, ids, cursor, kids[i]);
    }
    assert next[..cursor + 1] == ids[..cursor] + [p];
    forall x, q | x in m && m[x].run.parent == Some(q) && q in next[..cursor + 1] ensures x in next {
      if q == p {
        ChildIsListed(m, maxDepth, p, x);
      }
    }
  }

  lemma ChildIsListed(m: map<RunId, Cell>, maxDepth: nat, p: RunId, x: RunId)
    requires Forest(m, maxDepth) && x in m && m[x].run.parent == Some(p)
    ensures p in m && x in ChildIds(m[p].deps)
  {
    assert Rooted(m, x, maxDepth);
    var d :| d in m[p].deps && d.child == x;
    var i :| 0 <= i < |m[p].deps| && m[p].deps[i] == d;
    assert ChildIds(m[p].deps)[i] == x;
  }

  /** When the cursor has reached the end, the list is the whole tree. */
  lemma {:induction false} ListsTheTree(m: map<RunId, Cell>, top: RunId, ids: seq<RunId>, x: RunId)
    requires Listed(m, top, ids, |ids|) && Closed(m, ids, |ids|) && x in m
    ensures x in ids <==> Under(m, top, x)
    decreases m[x].run.depth
  {
    assert ids[..|ids|] == ids;
    if Under(m, top, x) && x != top {
      ListsTheTree(m, top, ids, m[x].run.parent.value);
    }
  }

  /** Distinct members of a finite table are no more than its rows. */
  lemma ListIsShort(m: map<RunId, Cell>, ids: seq<RunId>)
    requires Distinct(ids) && forall i :: 0 <= i < |ids| ==> ids[i] in m
    ensures |ids| <= |m|
  {
    SetOfDistinct(ids);
    var s := set i | 0 <= i < |ids| :: ids[i];
    assert s <= m.Keys;
    SubsetSize(s, m.Keys);
  }

  lemma {:induction false} SetOfDistinct(ids: seq<RunId>)
    requires Distinct(ids)
    ensures |set i | 0 <= i < |ids| :: ids[i]| == |ids|
    decreases |ids|
  {
    var s := set i | 0 <= i < |ids| :: ids[i];
    if ids != [] {
      var front := ids[..|ids| - 1];
      SetOfDistinct(front);
      var t := set i | 0 <= i < |front| :: front[i];
      assert s == t + {ids[|ids| - 1]} by {
        forall x | x in s ensures x in t + {ids[|ids| - 1]} {
          var i :| 0 <= i < |ids| && ids[i] == x;
          assert i < |front| ==> front[i] == x;
        }
        forall x | x in t ensures x in s {
          var i :| 0 <= i < |front| && front[i] == x;
          assert ids[i] == x;
        }
      }
    } else {
      assert s == {};
    }
  }

}
