/** Compaction of an append-only history: which messages a summary covers, what stays in the view, and which
    summary is active. */
module Compaction {
  import opened Domain
  import opened History

  type Constraint = nat
  type SummaryId = nat

  // ---------------------------------------------------------------- messages and their ids

  function Ids(s: seq<Message>): seq<MessageId> {
    seq(|s|, i requires 0 <= i < |s| => s[i].id)
  }

  function Members(s: seq<MessageId>): set<MessageId> {
    set x | x in s
  }

  predicate UniqueIds(s: seq<Message>) {
    forall i, j :: 0 <= i < j < |s| ==> s[i].id != s[j].id
  }

  /** Images stand on user messages only. */
  predicate HasImage(m: Message) {
    m.body.Human? && m.body.image
  }

  /** The messages that a summary of `covered` leaves in the view. */
  function Kept(s: seq<Message>, covered: set<MessageId>): seq<Message>
    decreases |s|
  {
    if s == [] then []
    else (if s[0].id !in covered || HasImage(s[0]) then [s[0]] else []) + Kept(s[1..], covered)
  }

  function Images(s: seq<Message>): seq<Message>
    decreases |s|
  {
    if s == [] then [] else (if HasImage(s[0]) then [s[0]] else []) + Images(s[1..])
  }

  function Turns(s: seq<Message>): nat
    decreases |s|
  {
    if s == [] then 0 else (if s[0].body.Human? then 1 else 0) + Turns(s[1..])
  }

  /** Where the `n`-th last user message stands. */
  function NthLast(s: seq<Message>, n: nat): (i: nat)
    requires 1 <= n <= Turns(s)
    ensures i < |s| && s[i].body.Human? && Turns(s[i..]) == n
    decreases |s|
  {
    assert s[0..] == s && Turns(s) == (if s[0].body.Human? then 1 else 0) + Turns(s[1..]);
    if Turns(s) == n && s[0].body.Human? then 0
    else
      var i := NthLast(s[1..], n);
      assert s[1..][i..] == s[i + 1..];
      i + 1
  }

  /** `dict.fromkeys`: the first occurrence of each ref, in order. */
  function Dedupe(s: seq<MessageId>): seq<MessageId>
    decreases |s|
  {
    if s == [] then []
    else
      var front := Dedupe(s[..|s| - 1]);
      if s[|s| - 1] in s[..|s| - 1] then front else front + [s[|s| - 1]]
  }

  // ---------------------------------------------------------------- what composing does

  function Boundary(working: seq<Message>, turns: nat): nat
    requires 1 <= turns
  {
    if Turns(working) > turns then NthLast(working, turns) else 0
  }

  lemma BoundaryInside(working: seq<Message>, turns: nat)
    requires 1 <= turns
    ensures Boundary(working, turns) <= |working|
  {}

  /** A summary replaces messages only while everything it covers is part of the history. */
  predicate Belongs(history: seq<Message>, covered: seq<MessageId>) {
    Members(covered) <= Members(Ids(history))
  }

  /** The messages to work with: without those the summary covers, or all of them if it does not belong. */
  function Working(history: seq<Message>, covered: seq<MessageId>): seq<Message> {
    if Belongs(history, covered) then Kept(history, Members(covered)) else history
  }

  /** The refs the next summary covers: those of the active one, then the candidates. */
  function NextCovered(history: seq<Message>, covered: seq<MessageId>, turns: nat): seq<MessageId>
    requires 1 <= turns
  {
    var working := Working(history, covered);
    BoundaryInside(working, turns);
    Dedupe(covered + Ids(working[..Boundary(working, turns)]))
  }

  function NextView(history: seq<Message>, covered: seq<MessageId>, turns: nat): seq<Message>
    requires 1 <= turns
  {
    var working := Working(history, covered);
    BoundaryInside(working, turns);
    Images(working[..Boundary(working, turns)]) + working[Boundary(working, turns)..]
  }

  /** The loops of `_compose`: leave out what the summary covers, if it belongs, find the user messages, and cut. */
  method Compose(history: seq<Message>, covered: seq<MessageId>, turns: nat, compacts: bool)
    returns (view: seq<Message>, candidates: seq<MessageId>, belongs: bool)
    requires 1 <= turns
    ensures belongs == Belongs(history, covered)
    ensures var working := Working(history, covered);
            && Boundary(working, turns) <= |working|
            && candidates == (if compacts then Ids(working[..Boundary(working, turns)]) else [])
            && view == if compacts then NextView(history, covered, turns) else working
  {
    var working := history;
    belongs := Members(covered) <= Members(Ids(history));
    if belongs {
      working := Keep(history, covered);
    }
    BoundaryInside(working, turns);
    if !compacts {
      return working, [], belongs;
    }
    var humans := UserIndices(working);
    TurnsIsCount(working, humans);
    var boundary := if |humans| > turns then humans[|humans| - turns] else 0;
    if |humans| > turns {
      NthLastIs(working, humans, turns);
    }
    var images := ImagesOf(working[..boundary]);
    return images + working[boundary..], Ids(working[..boundary]), belongs;
  }

  method Keep(history: seq<Message>, covered: seq<MessageId>) returns (working: seq<Message>)
    ensures working == Kept(history, Members(covered))
  {
    hide Kept;
    KeptNothing(Members(covered));
    assert history[0..] == history;
    working := [];
    var i := 0;
    while i < |history|
      invariant 0 <= i <= |history|
      invariant Kept(history, Members(covered)) == working + Kept(history[i..], Members(covered))
    {
      KeptOneMore(history, Members(covered), i);
      if history[i].id !in covered || HasImage(history[i]) {
        working := working + [history[i]];
      }
      i := i + 1;
    }
    assert history[i..] == [];
  }

  lemma KeptNothing(covered: set<MessageId>)
    ensures Kept([], covered) == []
  {}

  lemma KeptOneMore(history: seq<Message>, covered: set<MessageId>, i: nat)
    requires i < |history|
    ensures Kept(history[i..], covered)
         == (if history[i].id !in covered || HasImage(history[i]) then [history[i]] else [])
            + Kept(history[i + 1..], covered)
  {
    assert history[i..][1..] == history[i + 1..];
  }

  method ImagesOf(s: seq<Message>) returns (images: seq<Message>)
    ensures images == Images(s)
  {
    images := [];
    var i := 0;
    while i < |s|
      invariant 0 <= i <= |s|
      invariant Images(s) == images + Images(s[i..])
    {
      assert s[i..][1..] == s[i + 1..];
      if HasImage(s[i]) {
        images := images + [s[i]];
      }
      i := i + 1;
    }
  }

  /** The positions of the user messages, in order. */
  predicate Positions(s: seq<Message>, indices: seq<nat>) {
    && (forall k :: 0 <= k < |indices| ==> indices[k] < |s| && s[indices[k]].body.Human?)
    && (forall k, l :: 0 <= k < l < |indices| ==> indices[k] < indices[l])
    && (forall i :: 0 <= i < |s| && s[i].body.Human? ==> i in indices)
  }

  method UserIndices(s: seq<Message>) returns (indices: seq<nat>)
    ensures Positions(s, indices)
  {
    indices := [];
    var i := 0;
    while i < |s|
      invariant 0 <= i <= |s|
      invariant Positions(s[..i], indices)
    {
      ghost var before := indices;
      if s[i].body.Human? {
        indices := indices + [i];
      }
      assert forall j :: 0 <= j < i && s[..i + 1][j].body.Human? ==> s[..i][j].body.Human? && j in before;
      assert s[i].body.Human? ==> indices[|indices| - 1] == i;
      i := i + 1;
    }
    assert s[..i] == s;
  }

  lemma {:induction false} TurnsIsCount(s: seq<Message>, indices: seq<nat>)
    requires Positions(s, indices)
    ensures |indices| == Turns(s)
    decreases |s|
  {
    if s == [] {
    } else {
      var n := |s| - 1;
      TurnsOfFront(s);
      if s[n].body.Human? {
        var k :| 0 <= k < |indices| && indices[k] == n;
        assert indices[|indices| - 1] <= n;
        PositionsOfFront(s, indices);
        TurnsIsCount(s[..n], indices[..k]);
      } else {
        assert Positions(s[..n], indices) by {
          assert forall j :: 0 <= j < n && s[..n][j].body.Human? ==> s[j].body.Human?;
        }
        TurnsIsCount(s[..n], indices);
      }
    }
  }

  lemma PositionsOfFront(s: seq<Message>, indices: seq<nat>)
    requires Positions(s, indices) && s != [] && indices != [] && indices[|indices| - 1] == |s| - 1
    ensures Positions(s[..|s| - 1], indices[..|indices| - 1])
  {
    var n, f := |s| - 1, indices[..|indices| - 1];
    forall j | 0 <= j < n && s[..n][j].body.Human? ensures j in f {
      var k :| 0 <= k < |indices| && indices[k] == j;
      assert f[k] == j;
    }
  }

  lemma {:induction false} TurnsOfFront(s: seq<Message>)
    requires s != []
    ensures Turns(s) == Turns(s[..|s| - 1]) + (if s[|s| - 1].body.Human? then 1 else 0)
    decreases |s|
  {
    if |s| > 1 {
      TurnsOfFront(s[1..]);
      assert s[1..][..|s| - 2] == s[..|s| - 1][1..];
    }
  }

  lemma {:induction false} TurnsAppend(a: seq<Message>, b: seq<Message>)
    ensures Turns(a + b) == Turns(a) + Turns(b)
    decreases |a|
  {
    if a == [] {
      assert a + b == b;
    } else {
      assert (a + b)[1..] == a[1..] + b;
      TurnsAppend(a[1..], b);
    }
  }

  /** The position is unique: user messages before it or after it change the count. */
  lemma NthLastUnique(s: seq<Message>, i: nat, j: nat)
    requires i <= j < |s| && s[i].body.Human? && s[j].body.Human? && Turns(s[i..]) == Turns(s[j..])
    ensures i == j
  {
    if i < j {
      assert s[i..] == s[i..j] + s[j..] && s[i..j][0] == s[i];
      TurnsAppend(s[i..j], s[j..]);
    }
  }

  function Shifted(indices: seq<nat>, k: nat): seq<nat>
    requires k < |indices| && forall l :: k <= l < |indices| ==> indices[k] <= indices[l]
  {
    seq(|indices| - k, l requires 0 <= l < |indices| - k => (indices[k + l] - indices[k]) as nat)
  }

  lemma ShiftedAt(s: seq<Message>, indices: seq<nat>, k: nat, l: nat)
    requires Positions(s, indices) && k <= l < |indices|
    ensures forall m :: k <= m < |indices| ==> indices[k] <= indices[m]
    ensures Shifted(indices, k)[l - k] == indices[l] - indices[k]
    ensures s[indices[k]..][indices[l] - indices[k]] == s[indices[l]]
  {}

  lemma ShiftedPositions(s: seq<Message>, indices: seq<nat>, k: nat)
    requires Positions(s, indices) && k < |indices|
    ensures forall l :: k <= l < |indices| ==> indices[k] <= indices[l]
    ensures Positions(s[indices[k]..], Shifted(indices, k))
  {
    var i := indices[k];
    ShiftedAt(s, indices, k, k);
    var tail := Shifted(indices, k);
    hide Shifted;
    assert |tail| == |indices| - k by { ShiftedSize(indices, k); }
    forall m | 0 <= m < |tail|
      ensures tail[m] == indices[k + m] - i && tail[m] < |s[i..]| && s[i..][tail[m]].body.Human?
    {
      ShiftedAt(s, indices, k, k + m);
    }
    forall j | 0 <= j < |s[i..]| && s[i..][j].body.Human? ensures j in tail {
      assert s[i + j].body.Human?;
      var l :| 0 <= l < |indices| && indices[l] == i + j;
      assert l >= k;
      assert tail[l - k] == j;
    }
  }

  lemma ShiftedSize(indices: seq<nat>, k: nat)
    requires k < |indices| && forall l :: k <= l < |indices| ==> indices[k] <= indices[l]
    ensures |Shifted(indices, k)| == |indices| - k
  {}

  lemma NthLastIs(s: seq<Message>, indices: seq<nat>, n: nat)
    requires Positions(s, indices) && 1 <= n < |indices| && |indices| == Turns(s)
    ensures NthLast(s, n) == indices[|indices| - n]
  {
    hide Positions;
    var k := |indices| - n;
    PositionAt(s, indices, k);
    ShiftedPositions(s, indices, k);
    TurnsIsCount(s[indices[k]..], Shifted(indices, k));
    if NthLast(s, n) <= indices[k] {
      NthLastUnique(s, NthLast(s, n), indices[k]);
    } else {
      NthLastUnique(s, indices[k], NthLast(s, n));
    }
  }

  lemma PositionAt(s: seq<Message>, indices: seq<nat>, k: nat)
    requires Positions(s, indices) && k < |indices|
    ensures indices[k] < |s| && s[indices[k]].body.Human?
    ensures forall l :: k <= l < |indices| ==> indices[k] <= indices[l]
  {}

  /** `list(dict.fromkeys(...))`. */
  method MergeRefs(previous: seq<MessageId>, candidates: seq<MessageId>) returns (merged: seq<MessageId>)
    ensures merged == Dedupe(previous + candidates)
  {
    var all, i := previous + candidates, 0;
    merged := [];
    while i < |all|
      invariant 0 <= i <= |all|
      invariant merged == Dedupe(all[..i]) && (forall x :: x in merged <==> x in all[..i])
    {
      assert all[..i + 1][..i] == all[..i];
      if all[i] !in merged {
        merged := merged + [all[i]];
      }
      i := i + 1;
    }
    assert all[..i] == all;
  }

  // ---------------------------------------------------------------- nothing is lost

  /** The covered refs are, in order, exactly the history before some user message, and enough turns follow. */
  predicate Cut(history: seq<Message>, covered: seq<MessageId>, turns: nat) {
    && |covered| <= |history| && covered == Ids(history[..|covered|])
    && (covered != [] ==>
          |covered| < |history| && history[|covered|].body.Human? && turns <= Turns(history[|covered|..]))
  }

  lemma {:induction false} KeptSuffix(s: seq<Message>, covered: set<MessageId>)
    requires forall i :: 0 <= i < |s| ==> s[i].id !in covered
    ensures Kept(s, covered) == s
    decreases |s|
  {
    if s != [] {
      KeptSuffix(s[1..], covered);
      assert s == [s[0]] + s[1..];
    }
  }

  lemma {:induction false} KeptPrefix(a: seq<Message>, b: seq<Message>, covered: set<MessageId>)
    requires forall i :: 0 <= i < |a| ==> a[i].id in covered
    ensures Kept(a + b, covered) == Images(a) + Kept(b, covered)
    decreases |a|
  {
    if a == [] {
      assert a + b == b;
    } else {
      var rest := a[1..];
      assert (a + b)[0] == a[0] && (a + b)[1..] == rest + b;
      assert a[0].id in covered && forall i :: 0 <= i < |rest| ==> rest[i] == a[i + 1];
      KeptPrefix(rest, b, covered);
      assert Images(a) == (if HasImage(a[0]) then [a[0]] else []) + Images(rest);
    }
  }

  /** With a cut, the view is the images of the covered part and the rest of the history. */
  lemma KeptAtCut(history: seq<Message>, covered: seq<MessageId>, turns: nat)
    requires UniqueIds(history) && Cut(history, covered, turns)
    ensures Kept(history, Members(covered)) == Images(history[..|covered|]) + history[|covered|..]
  {
    var p := |covered|;
    var a, b := history[..p], history[p..];
    assert history == a + b;
    forall i | 0 <= i < |a| ensures a[i].id in Members(covered) {
      assert covered[i] == a[i].id;
    }
    forall i | 0 <= i < |b| ensures b[i].id !in Members(covered) {
      forall k | 0 <= k < p ensures covered[k] != b[i].id {
        assert covered[k] == history[k].id && b[i] == history[p + i];
      }
    }
    KeptPrefix(a, b, Members(covered));
    KeptSuffix(b, Members(covered));
  }

  lemma {:induction false} ImagesShape(s: seq<Message>)
    ensures forall i :: 0 <= i < |Images(s)| ==> HasImage(Images(s)[i]) && Images(s)[i] in s
    ensures Images(Images(s)) == Images(s)
    decreases |s|
  {
    if s != [] {
      ImagesShape(s[1..]);
      var rest := Images(s[1..]);
      if HasImage(s[0]) {
        assert Images(s) == [s[0]] + rest && Images(s)[1..] == rest;
      } else {
        assert Images(s) == rest;
      }
    }
  }

  lemma {:induction false} ImagesAppend(a: seq<Message>, b: seq<Message>)
    ensures Images(a + b) == Images(a) + Images(b)
    decreases |a|
  {
    if a == [] {
      assert a + b == b;
    } else {
      assert (a + b)[0] == a[0] && (a + b)[1..] == a[1..] + b;
      ImagesAppend(a[1..], b);
    }
  }

  lemma {:induction false} DedupeSkips(a: seq<MessageId>, b: seq<MessageId>)
    requires forall x :: x in b ==> x in a
    ensures Dedupe(a + b) == Dedupe(a)
    decreases |b|
  {
    if b == [] {
      assert a + b == a;
    } else {
      var n := |b| - 1;
      assert (a + b)[..|a + b| - 1] == a + b[..n] && (a + b)[|a + b| - 1] == b[n];
      assert b[n] in a;
      DedupeSkips(a, b[..n]);
    }
  }

  lemma {:induction false} DedupeDistinct(a: seq<MessageId>, b: seq<MessageId>)
    requires forall i, j :: 0 <= i < j < |b| ==> b[i] != b[j]
    requires forall x :: x in b ==> x !in a
    ensures Dedupe(a + b) == Dedupe(a) + b
    decreases |b|
  {
    if b == [] {
      assert a + b == a;
    } else {
      var n := |b| - 1;
      assert (a + b)[..|a + b| - 1] == a + b[..n] && (a + b)[|a + b| - 1] == b[n];
      forall x | x in b[..n] ensures x !in a {
        assert x in b;
      }
      assert b[n] in b;
      DedupeDistinct(a, b[..n]);
      assert b == b[..n] + [b[n]];
    }
  }

  lemma {:induction false} DedupeUnique(a: seq<MessageId>)
    requires forall i, j :: 0 <= i < j < |a| ==> a[i] != a[j]
    ensures Dedupe(a) == a
  {
    DedupeDistinct([], a);
    assert [] + a == a;
  }

  /** The boundary never falls among the images that a summary left behind: enough turns come after them. */
  lemma BoundaryAfterImages(images: seq<Message>, rest: seq<Message>, turns: nat)
    requires 1 <= turns && Turns(images + rest) > turns && (images == [] || turns <= Turns(rest))
    ensures |images| <= NthLast(images + rest, turns) < |images| + |rest|
  {
    var s := images + rest;
    var i := NthLast(s, turns);
    var k := if i < |images| then i else |images|;
    assert s[k..] == images[k..] + rest;
    assert k < |images| ==> images[k..][0] == s[k];
    TurnsAppend(images[k..], rest);
  }

  /** With a cut, what is covered is part of the history. */
  lemma WorkingAtCut(history: seq<Message>, covered: seq<MessageId>, turns: nat)
    requires Cut(history, covered, turns)
    ensures Belongs(history, covered) && Working(history, covered) == Kept(history, Members(covered))
  {
    hide Kept;
    forall x | x in covered ensures x in Ids(history) {
      var i :| 0 <= i < |covered| && covered[i] == x;
      assert Ids(history)[i] == x;
    }
  }

  lemma CutStays(history: seq<Message>, covered: seq<MessageId>, turns: nat)
    requires 1 <= turns && UniqueIds(history) && Cut(history, covered, turns)
    requires Turns(Kept(history, Members(covered))) <= turns
    ensures NextCovered(history, covered, turns) == covered
    ensures NextView(history, covered, turns) == Kept(history, Members(covered))
  {
    hide Kept, Turns, UniqueIds, Belongs;
    WorkingAtCut(history, covered, turns);
    var working := Kept(history, Members(covered));
    CoveredDistinct(history, |covered|);
    DedupeUnique(covered);
    assert working[..0] == [] && working[0..] == working && Ids([]) == [] && covered + [] == covered;
    assert Images([]) == [];
  }

  lemma CutFound(history: seq<Message>, covered: seq<MessageId>, turns: nat) returns (d: nat)
    requires 1 <= turns && UniqueIds(history) && Cut(history, covered, turns)
    requires Turns(Kept(history, Members(covered))) > turns
    ensures var p := |covered|; p + d < |history| && history[p + d].body.Human? && Turns(history[p + d..]) == turns
    ensures var working := Kept(history, Members(covered));
            && |working| >= |Images(history[..|covered|])| + d
            && Boundary(working, turns) == |Images(history[..|covered|])| + d
  {
    hide Kept, Images, UniqueIds;
    var p := |covered|;
    var images, rest := Images(history[..p]), history[p..];
    KeptAtCut(history, covered, turns);
    assert covered == [] ==> images == [] by { assert history[..0] == [] && Images([]) == [] by { NoImages(); } }
    BoundaryAfterImages(images, rest, turns);
    d := NthLast(images + rest, turns) - |images|;
    assert (images + rest)[|images| + d..] == history[p + d..];
  }

  lemma NoImages()
    ensures Images([]) == []
  {}

  /** Where compaction cuts: with more than `turns` user messages at work, at the one from which on exactly `turns` are
      left; otherwise nowhere.  What comes before the cut is covered, in order and once, after what was covered. */
  lemma CutsExactly(history: seq<Message>, covered: seq<MessageId>, turns: nat)
    requires 1 <= turns && UniqueIds(history) && Cut(history, covered, turns)
    ensures var next := NextCovered(history, covered, turns);
            if Turns(Kept(history, Members(covered))) <= turns then next == covered
            else
              && |next| < |history| && next == Ids(history[..|next|]) && history[|next|].body.Human?
              && Turns(history[|next|..]) == turns
  {
    hide NextCovered, NextView, Kept, UniqueIds, Working, Boundary;
    if Turns(Kept(history, Members(covered))) <= turns {
      CutStays(history, covered, turns);
    } else {
      var d := CutFound(history, covered, turns);
      CutMoved(history, covered, turns, d);
    }
  }

  /** Compaction moves the cut from one user message to a later one, and its view is the one the new cut gives. */
  lemma CompactionCuts(history: seq<Message>, covered: seq<MessageId>, turns: nat)
    requires 1 <= turns && UniqueIds(history) && Cut(history, covered, turns)
    ensures Cut(history, NextCovered(history, covered, turns), turns) && covered <= NextCovered(history, covered, turns)
    ensures NextView(history, covered, turns) == Working(history, NextCovered(history, covered, turns))
  {
    hide NextCovered, NextView, Kept, UniqueIds, Cut, Working;
    if Turns(Kept(history, Members(covered))) <= turns {
      CutStays(history, covered, turns);
    } else {
      var d := CutFound(history, covered, turns);
      MovesCut(history, covered, turns, d);
    }
    WorkingAtCut(history, NextCovered(history, covered, turns), turns);
  }

  lemma CoveredDistinct(history: seq<Message>, p: nat)
    requires UniqueIds(history) && p <= |history|
    ensures forall i, j :: 0 <= i < j < p ==> Ids(history[..p])[i] != Ids(history[..p])[j]
  {}

  /** Refs that are there already are skipped, and new distinct ones are appended. */
  lemma DedupeMerge(covered: seq<MessageId>, again: seq<MessageId>, more: seq<MessageId>)
    requires forall i, j :: 0 <= i < j < |covered| ==> covered[i] != covered[j]
    requires forall i, j :: 0 <= i < j < |more| ==> more[i] != more[j]
    requires (forall x :: x in again ==> x in covered) && (forall x :: x in more ==> x !in covered)
    ensures Dedupe(covered + (again + more)) == covered + more
  {
    hide Dedupe;
    DedupeSkips(covered, again);
    DedupeUnique(covered);
    forall x | x in more ensures x !in covered + again {
      assert x in again ==> x in covered;
    }
    DedupeDistinct(covered + again, more);
    assert covered + (again + more) == covered + again + more;
  }

  lemma IdsAppend(a: seq<Message>, b: seq<Message>)
    ensures Ids(a + b) == Ids(a) + Ids(b)
  {}

  /** The candidates are the images the last summary left and the messages up to the new boundary. */
  lemma MergedRefs(history: seq<Message>, covered: seq<MessageId>, q: nat)
    requires UniqueIds(history) && |covered| <= q <= |history| && covered == Ids(history[..|covered|])
    ensures Dedupe(covered + Ids(Images(history[..|covered|]) + history[|covered|..q])) == Ids(history[..q])
  {
    hide Dedupe, Images, UniqueIds, Ids;
    var p := |covered|;
    var front, middle := history[..p], history[p..q];
    assert history[..q] == front + middle;
    CoveredDistinct(history, p);
    MiddleIsNew(history, covered, q);
    IdsAppend(front, middle);
    MergedParts(covered, front, middle);
  }

  lemma MergedParts(covered: seq<MessageId>, front: seq<Message>, middle: seq<Message>)
    requires covered == Ids(front) && forall i, j :: 0 <= i < j < |covered| ==> covered[i] != covered[j]
    requires forall i, j :: 0 <= i < j < |middle| ==> Ids(middle)[i] != Ids(middle)[j]
    requires forall x :: x in Ids(middle) ==> x !in covered
    ensures Dedupe(covered + Ids(Images(front) + middle)) == covered + Ids(middle)
  {
    hide Dedupe, Images;
    ImageRefsCovered(front);
    IdsLength(middle);
    DedupeMerge(covered, Ids(Images(front)), Ids(middle));
    IdsAppend(Images(front), middle);
  }

  lemma IdsLength(s: seq<Message>)
    ensures |Ids(s)| == |s|
  {}

  lemma ImageRefsCovered(s: seq<Message>)
    ensures forall x :: x in Ids(Images(s)) ==> x in Ids(s)
  {
    ImagesShape(s);
    forall x | x in Ids(Images(s)) ensures x in Ids(s) {
      var i :| 0 <= i < |Images(s)| && Ids(Images(s))[i] == x;
      var j :| 0 <= j < |s| && s[j] == Images(s)[i];
      assert Ids(s)[j] == x;
    }
  }

  lemma MiddleIsNew(history: seq<Message>, covered: seq<MessageId>, q: nat)
    requires UniqueIds(history) && |covered| <= q <= |history| && covered == Ids(history[..|covered|])
    ensures forall i, j :: 0 <= i < j < q - |covered| ==> Ids(history[|covered|..q])[i] != Ids(history[|covered|..q])[j]
    ensures forall x :: x in Ids(history[|covered|..q]) ==> x !in covered
  {
    var p := |covered|;
    forall i, k | 0 <= i < q - p && 0 <= k < p ensures Ids(history[p..q])[i] != covered[k] {
      assert covered[k] == history[k].id && Ids(history[p..q])[i] == history[p + i].id;
    }
  }

  lemma CutMoved(history: seq<Message>, covered: seq<MessageId>, turns: nat, d: nat)
    requires 1 <= turns && UniqueIds(history) && Cut(history, covered, turns) && |covered| + d < |history|
    requires var working := Kept(history, Members(covered));
             && |working| >= |Images(history[..|covered|])| + d
             && Boundary(working, turns) == |Images(history[..|covered|])| + d
    ensures NextCovered(history, covered, turns) == Ids(history[..|covered| + d])
  {
    hide Kept, Images, Dedupe, UniqueIds, Boundary, Belongs;
    WorkingAtCut(history, covered, turns);
    var p := |covered|;
    var images := Images(history[..p]);
    var working := Kept(history, Members(covered));
    KeptAtCut(history, covered, turns);
    assert working[..|images| + d] == images + history[p..p + d];
    MergedRefs(history, covered, p + d);
  }

  lemma MovesCut(history: seq<Message>, covered: seq<MessageId>, turns: nat, d: nat)
    requires 1 <= turns && UniqueIds(history) && Cut(history, covered, turns)
    requires var p := |covered|; p + d < |history| && history[p + d].body.Human? && Turns(history[p + d..]) == turns
    requires var working := Kept(history, Members(covered));
             && |working| >= |Images(history[..|covered|])| + d
             && Boundary(working, turns) == |Images(history[..|covered|])| + d
    ensures Cut(history, NextCovered(history, covered, turns), turns) && covered <= NextCovered(history, covered, turns)
    ensures NextView(history, covered, turns) == Kept(history, Members(NextCovered(history, covered, turns)))
  {
    hide Kept, Images, Dedupe, UniqueIds, Boundary, Belongs;
    WorkingAtCut(history, covered, turns);
    var p := |covered|;
    var q := p + d;
    var images, middle := Images(history[..p]), history[p..q];
    var working := Kept(history, Members(covered));
    KeptAtCut(history, covered, turns);
    var b := |images| + d;
    assert working[..b] == images + middle && working[b..] == history[q..];
    MergedRefs(history, covered, q);
    var next := NextCovered(history, covered, turns);
    assert next == Ids(history[..q]);
    assert covered == Ids(history[..q])[..p];
    KeptAtCut(history, next, turns);
    ImagesAppend(history[..p], middle);
    ImagesShape(history[..p]);
    ImagesAppend(images, middle);
    assert history[..q] == history[..p] + middle;
  }

  /** What a summary and its view account for. */
  lemma NothingIsLost(history: seq<Message>, covered: seq<MessageId>, turns: nat)
    requires UniqueIds(history) && Cut(history, covered, turns)
    ensures var view, p := Working(history, covered), |covered|;
            && Belongs(history, covered)
            && (forall m :: m in history ==> m.id in covered || m in view)
            && (forall m :: m in view ==> m in history)
            && (covered != [] ==> turns <= Turns(history[p..])) && view == Images(history[..p]) + history[p..]
            && (Paired(history, {}) ==> Paired(history[..p], {}) && Paired(view, {}))
  {
    hide Paired, Kept, Images, UniqueIds, Belongs;
    WorkingAtCut(history, covered, turns);
    var p := |covered|;
    var a, b := history[..p], history[p..];
    assert history == a + b;
    KeptAtCut(history, covered, turns);
    ImagesShape(a);
    forall m | m in history ensures m.id in covered || m in b {
      var i :| 0 <= i < |history| && history[i] == m;
      if i < p {
        assert covered[i] == m.id;
      } else {
        assert b[i - p] == m;
      }
    }
    if Paired(history, {}) {
      CutHistories(a, b, covered);
    }
  }

  /** Both sides of a cut at a user message are valid, and images may stand before the second. */
  lemma CutHistories(a: seq<Message>, b: seq<Message>, covered: seq<MessageId>)
    requires Paired(a + b, {}) && (b == [] || b[0].body.Human? || a == [])
    ensures Paired(a, {}) && Paired(Images(a) + b, {})
  {
    hide Paired, Images;
    ImagesShape(a);
    if a == [] {
      assert a + b == b;
      NoImages();
      assert Images(a) + b == b;
      EmptyPaired();
    } else {
      CutPaired(a, b, {});
      PrefixedPaired(Images(a), b, {});
    }
  }

  lemma EmptyPaired()
    ensures Paired([], {})
  {}

  /** New messages leave the cut where it is. */
  lemma AppendKeepsCut(history: seq<Message>, covered: seq<MessageId>, turns: nat, more: seq<Message>)
    requires Cut(history, covered, turns)
    ensures Cut(history + more, covered, turns)
  {
    var p := |covered|;
    assert (history + more)[..p] == history[..p];
    if covered != [] {
      assert (history + more)[p..] == history[p..] + more;
      TurnsAppend(history[p..], more);
    }
  }

  // ---------------------------------------------------------------- the active summary

  /** The pointer's content; its key's revision in the store is kept beside it. */
  datatype Pointer = Pointer(revision: nat, inputRevision: nat, summary: Option<SummaryId>)

  datatype Pins = Pins(revision: nat, items: set<Constraint>)

  datatype Summary = Summary(covered: seq<MessageId>, constraints: set<Constraint>)

  /** A compaction under way, with what it read: revisions, the summary it extends, refs and constraints. */
  datatype Work = Work(
    input: nat, context: nat, pins: nat, covered: seq<MessageId>, constraints: set<Constraint>)

  datatype Thread = Thread(
    history: seq<Message>, stored: nat, pointer: Option<Pointer>, pins: Pins, summaries: map<SummaryId, Summary>,
    work: map<SummaryId, Work>)

  datatype ContextEvent =
    | Append(more: seq<Message>)
    | Refresh(inputRevision: nat)
    | Pin(items: set<Constraint>)
    | Begin(id: SummaryId, inputRevision: nat, hard: set<Constraint>)
    | Activate(id: SummaryId, constraints: set<Constraint>)

  function Active(t: Thread): Option<SummaryId> {
    if t.pointer.Some? then t.pointer.value.summary else None
  }

  function CoveredBy(t: Thread): seq<MessageId> {
    if Active(t).Some? && Active(t).value in t.summaries then t.summaries[Active(t).value].covered else []
  }

  function ConstraintsOf(t: Thread): set<Constraint> {
    if Active(t).Some? && Active(t).value in t.summaries then t.summaries[Active(t).value].constraints else {}
  }

  /** `compare_and_set` of the pointer. */
  function SetPointer(t: Thread, expected: nat, p: Pointer): Result<Thread> {
    if t.stored != expected then Err(RevisionConflict) else Ok(t.(stored := expected + 1, pointer := Some(p)))
  }

  /** `_pointer`. */
  function RefreshPointer(t: Thread, input: nat): Result<Thread> {
    if t.pointer.None? then SetPointer(t, 0, Pointer(1, input, None))
    else
      var p := t.pointer.value;
      if p.inputRevision > input then Err(RevisionConflict)
      else if p.inputRevision < input then SetPointer(t, p.revision,
                                                      p.(inputRevision := input, revision := p.revision + 1))
      else Ok(t)
  }

  function ApplyContext(t: Thread, e: ContextEvent, turns: nat): Result<Thread>
    requires 1 <= turns
  {
    match e
    case Append(more) => if UniqueIds(t.history + more) then Ok(t.(history := t.history + more)) else Err(Integrity)
    case Refresh(input) => RefreshPointer(t, input)
    case Pin(items) => Ok(t.(pins := Pins(t.pins.revision + 1, items)))
    case Begin(id, input, hard) =>
      if id in t.work || id in t.summaries || !Paired(t.history, {}) then Err(Integrity)
      else
        var next :- RefreshPointer(t, input);
        if next.pointer.None? then Err(Integrity)
        else
          Ok(next.(work := next.work[id := Work(input, next.pointer.value.revision, next.pins.revision,
                                                NextCovered(next.history, CoveredBy(next), turns),
                                                ConstraintsOf(next) + hard + next.pins.items)]))
    case Activate(id, constraints) =>
      if id !in t.work then Err(NotFound)
      else
        var w := t.work[id];
        if !(w.constraints <= constraints) then Err(Integrity)
        else if t.pins.revision != w.pins then Err(RevisionConflict)
        else
          var next :- SetPointer(t, w.context, Pointer(w.context + 1, w.input, Some(id)));
          Ok(next.(summaries := next.summaries[id := Summary(w.covered, constraints)], work := next.work - {id}))
  }

  function NextThread(t: Thread, e: ContextEvent, turns: nat): Thread
    requires 1 <= turns
  {
    var to := ApplyContext(t, e, turns);
    if to.Ok? then to.value else t
  }

  /** A compaction whose source is the stored pointer extends the active summary. */
  predicate WorkOk(t: Thread, w: Work, turns: nat) {
    && w.context <= t.stored
    && (w.context == t.stored ==>
          && t.pointer.Some? && t.pointer.value.inputRevision == w.input
          && ConstraintsOf(t) <= w.constraints && CoveredBy(t) <= w.covered && Cut(t.history, w.covered, turns))
  }

  ghost predicate ThreadInv(t: Thread, turns: nat) {
    && UniqueIds(t.history)
    && (t.pointer.None? <==> t.stored == 0)
    && (t.pointer.Some? ==> t.pointer.value.revision == t.stored)
    && (Active(t).Some? ==> Active(t).value in t.summaries)
    && Cut(t.history, CoveredBy(t), turns)
    && (forall id :: id in t.work ==> id !in t.summaries && WorkOk(t, t.work[id], turns))
  }

  /** What no event undoes. */
  ghost predicate ThreadStep(t: Thread, u: Thread) {
    && t.history <= u.history && t.stored <= u.stored
    && (t.pointer.Some? ==> u.pointer.Some? && t.pointer.value.inputRevision <= u.pointer.value.inputRevision)
    && (t.stored == u.stored ==> u.pointer == t.pointer)
    && (forall id :: id in t.summaries ==> id in u.summaries && u.summaries[id] == t.summaries[id])
    && ConstraintsOf(t) <= ConstraintsOf(u) && CoveredBy(t) <= CoveredBy(u)
  }

  lemma RefreshKeeps(t: Thread, input: nat, turns: nat)
    requires ThreadInv(t, turns) && RefreshPointer(t, input).Ok?
    ensures var u := RefreshPointer(t, input).value;
            && ThreadInv(u, turns) && ThreadStep(t, u) && u.pointer.Some? && u.pointer.value.inputRevision == input
            && Active(u) == Active(t) && u == t.(stored := u.stored, pointer := u.pointer)
  {
    var u := RefreshPointer(t, input).value;
    assert CoveredBy(u) == CoveredBy(t) && ConstraintsOf(u) == ConstraintsOf(t);
    forall id | id in u.work ensures WorkOk(u, u.work[id], turns) {
      assert WorkOk(t, t.work[id], turns);
    }
  }

  lemma AppendKeeps(t: Thread, more: seq<Message>, turns: nat)
    requires ThreadInv(t, turns) && UniqueIds(t.history + more)
    ensures ThreadInv(t.(history := t.history + more), turns) && ThreadStep(t, t.(history := t.history + more))
  {
    var u := t.(history := t.history + more);
    AppendKeepsCut(t.history, CoveredBy(t), turns, more);
    forall id | id in u.work ensures WorkOk(u, u.work[id], turns) {
      assert WorkOk(t, t.work[id], turns);
      if t.work[id].context == t.stored {
        AppendKeepsCut(t.history, t.work[id].covered, turns, more);
      }
    }
  }

  lemma NewWorkKeeps(t: Thread, id: SummaryId, w: Work, turns: nat)
    requires ThreadInv(t, turns) && id !in t.summaries && WorkOk(t, w, turns)
    ensures ThreadInv(t.(work := t.work[id := w]), turns) && ThreadStep(t, t.(work := t.work[id := w]))
  {
    hide Cut;
    var u := t.(work := t.work[id := w]);
    assert CoveredBy(u) == CoveredBy(t) && ConstraintsOf(u) == ConstraintsOf(t);
    forall i | i in u.work ensures WorkOk(u, u.work[i], turns) && i !in u.summaries {
      assert i != id ==> WorkOk(t, t.work[i], turns);
    }
  }

  lemma StepsCompose(t: Thread, u: Thread, v: Thread)
    requires ThreadStep(t, u) && ThreadStep(u, v)
    ensures ThreadStep(t, v)
  {}

  lemma BeginKeeps(t: Thread, e: ContextEvent, turns: nat)
    requires 1 <= turns && ThreadInv(t, turns) && e.Begin? && ApplyContext(t, e, turns).Ok?
    ensures ThreadInv(ApplyContext(t, e, turns).value, turns) && ThreadStep(t, ApplyContext(t, e, turns).value)
  {
    hide NextCovered, Cut, ThreadStep, Paired;
    RefreshKeeps(t, e.inputRevision, turns);
    var next := RefreshPointer(t, e.inputRevision).value;
    CompactionCuts(next.history, CoveredBy(next), turns);
    var u := ApplyContext(t, e, turns).value;
    NewWorkKeeps(next, e.id, u.work[e.id], turns);
    StepsCompose(t, next, u);
  }

  lemma ActivateKeeps(t: Thread, e: ContextEvent, turns: nat)
    requires 1 <= turns && ThreadInv(t, turns) && e.Activate? && ApplyContext(t, e, turns).Ok?
    ensures ThreadInv(ApplyContext(t, e, turns).value, turns) && ThreadStep(t, ApplyContext(t, e, turns).value)
  {
    hide Cut;
    var u := ApplyContext(t, e, turns).value;
    assert WorkOk(t, t.work[e.id], turns);
    assert CoveredBy(u) == t.work[e.id].covered && ConstraintsOf(u) == e.constraints;
    forall id | id in u.work ensures id !in u.summaries && WorkOk(u, u.work[id], turns) {
      assert WorkOk(t, t.work[id], turns);
    }
  }

  lemma ContextKeeps(t: Thread, e: ContextEvent, turns: nat)
    requires 1 <= turns && ThreadInv(t, turns)
    ensures ThreadInv(NextThread(t, e, turns), turns) && ThreadStep(t, NextThread(t, e, turns))
  {
    if ApplyContext(t, e, turns).Ok? {
      match e
      case Append(more) => AppendKeeps(t, more, turns);
      case Refresh(input) => RefreshKeeps(t, input, turns);
      case Pin(items) =>
        var u := NextThread(t, e, turns);
        forall id | id in u.work ensures WorkOk(u, u.work[id], turns) {
          assert WorkOk(t, t.work[id], turns);
        }
      case Begin(_, _, _) => BeginKeeps(t, e, turns);
      case Activate(_, _) => ActivateKeeps(t, e, turns);
    }
  }

  function PlayContext(t: Thread, events: seq<ContextEvent>, turns: nat): Thread
    requires 1 <= turns
    decreases |events|
  {
    if events == [] then t else PlayContext(NextThread(t, events[0], turns), events[1..], turns)
  }

  lemma {:induction false} PlayContextKeeps(t: Thread, events: seq<ContextEvent>, turns: nat)
    requires 1 <= turns && ThreadInv(t, turns)
    ensures ThreadInv(PlayContext(t, events, turns), turns) && ThreadStep(t, PlayContext(t, events, turns))
    decreases |events|
  {
    hide ThreadInv, NextThread;
    if events != [] {
      var mid := NextThread(t, events[0], turns);
      ContextKeeps(t, events[0], turns);
      PlayContextKeeps(mid, events[1..], turns);
    }
  }

  const EMPTY_THREAD := Thread([], 0, None, Pins(0, {}), map[], map[])

  /** Over any interleaving of new messages, pins, refreshes and compactions, what the active summary covers and
      what its view shows account for every message, and both are histories of complete exchanges. */
  lemma CompactionLosesNothing(events: seq<ContextEvent>, turns: nat)
    requires 1 <= turns
    ensures var t := PlayContext(EMPTY_THREAD, events, turns);
            var view, p := Working(t.history, CoveredBy(t)), |CoveredBy(t)|;
            && Belongs(t.history, CoveredBy(t)) && Cut(t.history, CoveredBy(t), turns)
            && (forall m :: m in t.history ==> m.id in CoveredBy(t) || m in view)
            && view == Images(t.history[..p]) + t.history[p..]
            && (Paired(t.history, {}) ==> Paired(t.history[..p], {}) && Paired(view, {}))
  {
    var t := PlayContext(EMPTY_THREAD, events, turns);
    PlayContextKeeps(EMPTY_THREAD, events, turns);
    NothingIsLost(t.history, CoveredBy(t), turns);
  }

  /** Constraints in force at an activation are in every summary activated later; the pointer's own revision is the
      stored one; the input revision never goes back. */
  lemma ConstraintsStay(before: seq<ContextEvent>, after: seq<ContextEvent>, turns: nat)
    requires 1 <= turns
    ensures var t := PlayContext(EMPTY_THREAD, before, turns);
            var u := PlayContext(t, after, turns);
            && ConstraintsOf(t) <= ConstraintsOf(u)
            && (t.pointer.Some? ==>
                  && u.pointer.Some? && t.pointer.value.revision == t.stored && u.pointer.value.revision == u.stored
                  && t.pointer.value.revision <= u.pointer.value.revision
                  && t.pointer.value.inputRevision <= u.pointer.value.inputRevision
                  && (t.pointer.value.revision == u.pointer.value.revision ==> t.pointer == u.pointer))
  {
    var t := PlayContext(EMPTY_THREAD, before, turns);
    PlayContextKeeps(EMPTY_THREAD, before, turns);
    PlayContextKeeps(t, after, turns);
  }

  /** A compaction begins on a history of complete exchanges, for no older input than the pointer's.  It notes what it
      read: the pointer's revision and the pins', the refs that it covers, and every constraint in force. */
  lemma BeginDoes(t: Thread, id: SummaryId, input: nat, hard: set<Constraint>, turns: nat)
    requires 1 <= turns && ThreadInv(t, turns)
    ensures ApplyContext(t, Begin(id, input, hard), turns).Ok? <==>
              && id !in t.work && id !in t.summaries && Paired(t.history, {})
              && (t.pointer.Some? ==> t.pointer.value.inputRevision <= input)
    ensures ApplyContext(t, Begin(id, input, hard), turns).Ok? ==>
              var u := ApplyContext(t, Begin(id, input, hard), turns).value;
              && u.history == t.history && u.pins == t.pins && u.summaries == t.summaries && Active(u) == Active(t)
              && u.pointer.Some? && u.pointer.value.inputRevision == input
              && id in u.work && u.work == t.work[id := u.work[id]]
              && u.work[id] == Work(input, u.pointer.value.revision, t.pins.revision,
                                    NextCovered(t.history, CoveredBy(t), turns),
                                    ConstraintsOf(t) + hard + t.pins.items)
  {
    hide NextCovered, Paired, Cut;
    if RefreshPointer(t, input).Ok? {
      RefreshKeeps(t, input, turns);
    }
  }

  /** A compaction is activated exactly if its summary holds every constraint that it noted, and neither the pointer nor
      the pins have changed since; then its summary is the active one, with the refs that it covers. */
  lemma ActivateDoes(t: Thread, id: SummaryId, constraints: set<Constraint>, turns: nat)
    requires 1 <= turns && ThreadInv(t, turns)
    ensures ApplyContext(t, Activate(id, constraints), turns).Ok? <==>
              && id in t.work && t.work[id].constraints <= constraints
              && t.pins.revision == t.work[id].pins && t.stored == t.work[id].context
    ensures ApplyContext(t, Activate(id, constraints), turns).Ok? ==>
              var u := ApplyContext(t, Activate(id, constraints), turns).value;
              && Active(u) == Some(id) && CoveredBy(u) == t.work[id].covered && ConstraintsOf(u) == constraints
              && u.history == t.history && u.pins == t.pins && u.stored == t.stored + 1 && id !in u.work
              && (forall x :: x in t.work && x != id ==> x in u.work && u.work[x] == t.work[x])
  {
    hide Cut;
  }

  /** A summary is activated only on the pointer and the pins it was made from, and it holds every constraint that
      was in force: those of the summary before it, the caller's, and the pins. */
  lemma ActivationIsFresh(before: seq<ContextEvent>, during: seq<ContextEvent>, turns: nat, id: SummaryId, input: nat,
                          hard: set<Constraint>, constraints: set<Constraint>)
    requires 1 <= turns && forall e :: e in during ==> !(e.Activate? && e.id == id)
    requires var t := PlayContext(EMPTY_THREAD, before, turns); ApplyContext(t, Begin(id, input, hard), turns).Ok?
    ensures var t := NextThread(PlayContext(EMPTY_THREAD, before, turns), Begin(id, input, hard), turns);
            var u := PlayContext(t, during, turns);
            ApplyContext(u, Activate(id, constraints), turns).Ok? ==>
              && u.pointer == t.pointer && u.pins.revision == t.pins.revision
              && ConstraintsOf(t) + hard + t.pins.items <= constraints
  {
    var s := PlayContext(EMPTY_THREAD, before, turns);
    PlayContextKeeps(EMPTY_THREAD, before, turns);
    ContextKeeps(s, Begin(id, input, hard), turns);
    var t := NextThread(s, Begin(id, input, hard), turns);
    PlayContextKeeps(t, during, turns);
    WorkWaits(t, during, turns, id);
    RefreshKeeps(s, input, turns);
  }

  lemma {:induction false} WorkWaits(t: Thread, events: seq<ContextEvent>, turns: nat, id: SummaryId)
    requires 1 <= turns && id in t.work && forall e :: e in events ==> !(e.Activate? && e.id == id)
    ensures var u := PlayContext(t, events, turns); id in u.work && u.work[id] == t.work[id]
    decreases |events|
  {
    hide NextCovered, Paired;
    if events != [] {
      WorkWaits(NextThread(t, events[0], turns), events[1..], turns, id);
    }
  }
}
