/** When the references of an outcome that waits are accepted. */
module References {
  import opened Domain
  import opened RunMachine
  import opened Tables
  import opened RunInvariant
  import opened Settling
  import opened World
  import opened WorldInvariant
  import opened Effects
  import opened Executors
  import opened Fences

  /** The row that the reference names is there; a form belongs to the run that settles, and to the inputs that it has
      seen. */
  predicate RowThere(m: map<RunId, Cell>, self: RunId, inputRevision: nat, r: Ref) {
    && r.run in m
    && match r
       case UserRef(_, _, k) =>
         r.run == self && k in m[self].interactions && m[self].interactions[k].inputRevision == inputRevision
       case ChildrenRef(_, _, k) => k in m[r.run].waits
       case ReviewRef(_, _, op) => op.Some? ==> op.value in m[r.run].ops
  }

  /** The reference at `i` opens its form: it is the first to name it, and the form waits for its interrupt. */
  predicate Opens(m: map<RequestKey, Interaction>, refs: seq<Ref>, i: int) {
    && 0 <= i < |refs| && refs[i].UserRef? && refs[i].key in m && m[refs[i].key].status.PendingBinding?
    && forall j :: 0 <= j < i ==> !(refs[j].UserRef? && refs[j].key == refs[i].key)
  }

  /** The interrupt that the reference at `i` gives its form is that of another form of the same inputs already. */
  predicate Clashes(m: map<RequestKey, Interaction>, inputRevision: nat, refs: seq<Ref>, i: int) {
    && Opens(m, refs, i)
    && (|| (exists k :: k in m && m[k].interrupt == Some(refs[i].interrupt) && m[k].inputRevision == inputRevision)
        || (exists j :: 0 <= j < i && Opens(m, refs, j) && refs[j].interrupt == refs[i].interrupt))
  }

  predicate AllThere(m: map<RunId, Cell>, self: RunId, inputRevision: nat, refs: seq<Ref>) {
    forall i :: 0 <= i < |refs| ==> RowThere(m, self, inputRevision, refs[i])
  }

  predicate NoneClashes(m: map<RequestKey, Interaction>, inputRevision: nat, refs: seq<Ref>) {
    forall i :: 0 <= i < |refs| ==> !Clashes(m, inputRevision, refs, i)
  }

  /** A form that waits for its interrupt has none yet. */
  predicate Unnamed(m: map<RequestKey, Interaction>) {
    forall k :: k in m && m[k].status.PendingBinding? ==> m[k].interrupt.None?
  }

  lemma ThereAfter(m: map<RunId, Cell>, self: RunId, inputRevision: nat, r: Ref, x: Ref)
    requires r.run in m && BindRef(m[r.run], inputRevision, r).Ok?
    ensures RowThere(m[r.run := BindRef(m[r.run], inputRevision, r).value], self, inputRevision, x)
       <==> RowThere(m, self, inputRevision, x)
  {
    hide InterruptTaken;
  }

  lemma AllThereAfter(m: map<RunId, Cell>, self: RunId, inputRevision: nat, refs: seq<Ref>)
    requires refs != [] && refs[0].run in m && BindRef(m[refs[0].run], inputRevision, refs[0]).Ok?
    requires RowThere(m, self, inputRevision, refs[0])
    ensures var n := m[refs[0].run := BindRef(m[refs[0].run], inputRevision, refs[0]).value];
            AllThere(n, self, inputRevision, refs[1..]) <==> AllThere(m, self, inputRevision, refs)
  {
    hide RowThere, BindRef;
    var n := m[refs[0].run := BindRef(m[refs[0].run], inputRevision, refs[0]).value];
    forall i | 0 < i < |refs|
      ensures refs[1..][i - 1] == refs[i]
      ensures RowThere(n, self, inputRevision, refs[i]) <==> RowThere(m, self, inputRevision, refs[i])
    {
      ThereAfter(m, self, inputRevision, refs[0], refs[i]);
    }
    if AllThere(n, self, inputRevision, refs[1..]) {
      forall i | 0 <= i < |refs| ensures RowThere(m, self, inputRevision, refs[i]) {
        if i > 0 {
          assert RowThere(n, self, inputRevision, refs[1..][i - 1]);
        }
      }
    }
  }

  /** The forms after the first reference. */
  function Opened(m: map<RequestKey, Interaction>, r: Ref): map<RequestKey, Interaction> {
    if r.UserRef? && r.key in m && m[r.key].status.PendingBinding?
    then m[r.key := m[r.key].(status := InteractionStatus.Open, interrupt := Some(r.interrupt),
                              revision := m[r.key].revision + 1)]
    else m
  }

  lemma OpensAfter(m: map<RequestKey, Interaction>, refs: seq<Ref>, i: int)
    requires 0 < i < |refs|
    ensures Opens(Opened(m, refs[0]), refs[1..], i - 1) <==> Opens(m, refs, i)
  {
    var rest := refs[1..];
    assert rest[i - 1] == refs[i] && forall j :: 0 < j < |refs| ==> rest[j - 1] == refs[j];
    if Opens(Opened(m, refs[0]), rest, i - 1) {
      forall j | 0 <= j < i ensures !(refs[j].UserRef? && refs[j].key == refs[i].key) {
        if j > 0 {
          assert rest[j - 1] == refs[j];
        }
      }
    }
  }

  lemma ClashesAfter(m: map<RequestKey, Interaction>, inputRevision: nat, refs: seq<Ref>, i: int)
    requires 0 < i < |refs| && !Clashes(m, inputRevision, refs, 0) && Unnamed(m)
    requires refs[0].UserRef? && refs[0].key in m ==> m[refs[0].key].inputRevision == inputRevision
    ensures Clashes(Opened(m, refs[0]), inputRevision, refs[1..], i - 1) <==> Clashes(m, inputRevision, refs, i)
  {
    hide Opens, Opened, Unnamed;
    var n, rest := Opened(m, refs[0]), refs[1..];
    OpensAfter(m, refs, i);
    assert rest[i - 1] == refs[i];
    forall j | 0 < j < |refs| ensures rest[j - 1] == refs[j] && (Opens(n, rest, j - 1) <==> Opens(m, refs, j)) {
      OpensAfter(m, refs, j);
    }
    TakenAfter(m, inputRevision, refs, refs[i].interrupt);
    if j :| 0 <= j < i && Opens(m, refs, j) && refs[j].interrupt == refs[i].interrupt && j > 0 {
      assert Opens(n, rest, j - 1) && rest[j - 1].interrupt == rest[i - 1].interrupt;
    }
    if j :| 0 <= j < i - 1 && Opens(n, rest, j) && rest[j].interrupt == rest[i - 1].interrupt {
      assert Opens(m, refs, j + 1) && refs[j + 1].interrupt == refs[i].interrupt;
    }
  }

  lemma TakenAfter(m: map<RequestKey, Interaction>, inputRevision: nat, refs: seq<Ref>, interrupt: Interrupt)
    requires refs != [] && Unnamed(m)
    requires refs[0].UserRef? && refs[0].key in m ==> m[refs[0].key].inputRevision == inputRevision
    ensures Unnamed(Opened(m, refs[0]))
    ensures InterruptTaken(Opened(m, refs[0]), interrupt, inputRevision) && !InterruptTaken(m, interrupt, inputRevision)
            ==> Opens(m, refs, 0) && refs[0].interrupt == interrupt
    ensures Opens(m, refs, 0) && refs[0].interrupt == interrupt ==>
              InterruptTaken(Opened(m, refs[0]), interrupt, inputRevision)
    ensures InterruptTaken(m, interrupt, inputRevision) ==>
              InterruptTaken(Opened(m, refs[0]), interrupt, inputRevision)
  {
    if InterruptTaken(m, interrupt, inputRevision) {
      var k :| k in m && m[k].interrupt == Some(interrupt) && m[k].inputRevision == inputRevision;
      assert k in Opened(m, refs[0]);
    }
    if Opens(m, refs, 0) && refs[0].interrupt == interrupt {
      assert refs[0].key in Opened(m, refs[0]);
    }
  }

  lemma FirstIff(m: map<RunId, Cell>, self: RunId, inputRevision: nat, refs: seq<Ref>)
    requires refs != [] && self in m
    ensures refs[0].run in m && !(refs[0].UserRef? && refs[0].run != self)
            && BindRef(m[refs[0].run], inputRevision, refs[0]).Ok?
       <==> RowThere(m, self, inputRevision, refs[0]) && !Clashes(m[self].interactions, inputRevision, refs, 0)
  {}

  lemma FormsAfter(m: map<RunId, Cell>, self: RunId, inputRevision: nat, r: Ref)
    requires self in m && r.run in m && (r.UserRef? ==> r.run == self) && BindRef(m[r.run], inputRevision, r).Ok?
    ensures var n := m[r.run := BindRef(m[r.run], inputRevision, r).value];
            n[self].interactions == Opened(m[self].interactions, r)
  {
    hide InterruptTaken;
  }

  lemma NoneClashesAfter(m: map<RequestKey, Interaction>, inputRevision: nat, refs: seq<Ref>)
    requires refs != [] && !Clashes(m, inputRevision, refs, 0) && Unnamed(m)
    requires refs[0].UserRef? && refs[0].key in m ==> m[refs[0].key].inputRevision == inputRevision
    ensures NoneClashes(Opened(m, refs[0]), inputRevision, refs[1..]) <==> NoneClashes(m, inputRevision, refs)
    ensures Unnamed(Opened(m, refs[0]))
  {
    hide Clashes, Opened, Unnamed;
    TakenAfter(m, inputRevision, refs, 0);
    var n, rest := Opened(m, refs[0]), refs[1..];
    forall i | 0 <= i < |rest| ensures Clashes(n, inputRevision, rest, i) <==> Clashes(m, inputRevision, refs, i + 1) {
      ClashesAfter(m, inputRevision, refs, i + 1);
    }
    if NoneClashes(n, inputRevision, rest) {
      forall i | 0 <= i < |refs| ensures !Clashes(m, inputRevision, refs, i) {
        if i > 0 {
          assert !Clashes(n, inputRevision, rest, i - 1);
        }
      }
    }
  }

  /** References are accepted exactly if every row that they name is there and no two forms of the same inputs would get
      one interrupt. */
  lemma {:induction false} BindsIff(m: map<RunId, Cell>, self: RunId, inputRevision: nat, refs: seq<Ref>)
    requires self in m && Unnamed(m[self].interactions)
    ensures BindAll(m, self, inputRevision, refs).Ok? <==>
              AllThere(m, self, inputRevision, refs) && NoneClashes(m[self].interactions, inputRevision, refs)
    decreases |refs|
  {
    hide RowThere, BindRef, Clashes, Opened, Unnamed;
    if refs != [] {
      var r := refs[0];
      FirstIff(m, self, inputRevision, refs);
      if RowThere(m, self, inputRevision, r) && !Clashes(m[self].interactions, inputRevision, refs, 0) {
        var n := m[r.run := BindRef(m[r.run], inputRevision, r).value];
        FormsAfter(m, self, inputRevision, r);
        SameInputs(m, self, inputRevision, r);
        NoneClashesAfter(m[self].interactions, inputRevision, refs);
        AllThereAfter(m, self, inputRevision, refs);
        BindsIff(n, self, inputRevision, refs[1..]);
      }
    }
  }

  lemma SameInputs(m: map<RunId, Cell>, self: RunId, inputRevision: nat, r: Ref)
    requires self in m && RowThere(m, self, inputRevision, r)
    ensures r.UserRef? && r.key in m[self].interactions ==>
              m[self].interactions[r.key].inputRevision == inputRevision
  {}

  lemma ThereOnceSaved(m: map<RunId, Cell>, self: RunId, c: Cell, inputRevision: nat, refs: seq<Ref>)
    requires self in m && c == m[self].(run := c.run)
    ensures AllThere(m[self := c], self, inputRevision, refs) <==> AllThere(m, self, inputRevision, refs)
  {
    forall i | 0 <= i < |refs|
      ensures RowThere(m[self := c], self, inputRevision, refs[i]) <==> RowThere(m, self, inputRevision, refs[i])
    {}
  }

  lemma ParksIff(m: map<RunId, Cell>, ctx: Context, o: Outcome)
    requires ctx.run in m && m[ctx.run].run.status.Running?
    ensures SettleWaiting(m, ctx, o).Ok? <==>
              o.checkpoint.Some? && BindAll(m, ctx.run, ctx.inputRevision, o.refs).Ok?
  {
    hide RefreshCell, Wake, ReadyWaits, BindAll, RequiredOf;
    if BindAll(m, ctx.run, ctx.inputRevision, o.refs).Ok? {
      BindKeepsRuns(m, ctx.run, ctx.inputRevision, o.refs);
    }
  }

  lemma FormsUnnamed(c: Cell)
    requires CellInv(c)
    ensures Unnamed(c.interactions)
  {
    hide Leases, CancelFlag, Ledger, Closed, Delivered, Barrier;
    forall k | k in c.interactions && c.interactions[k].status.PendingBinding?
      ensures c.interactions[k].interrupt.None?
    {
      assert InteractionOk(AnswersOf(c).interactions[k]);
    }
  }

  /** An outcome that waits is accepted from a running run exactly if its worker is in charge, it comes with a
      checkpoint, and its references are acceptable. */
  lemma AwaitIff(w: World, cfg: Config, ctx: Context, o: Outcome)
    requires Reachable(w, cfg) && ctx.run in w.db.cells && w.db.cells[ctx.run].run.status.Running? && o.kind.Await?
    ensures var c := w.db.cells[ctx.run];
            Apply(w, cfg, Settle(ctx, o)).Ok? <==>
              && o.run == ctx.run && o.inputRevision == ctx.inputRevision && InCharge(c, ctx, w.now, true)
              && o.checkpoint.Some? && AllThere(w.db.cells, ctx.run, ctx.inputRevision, o.refs)
              && NoneClashes(c.interactions, ctx.inputRevision, o.refs)
  {
    hide WorldInv, Reachable, CellInv, FencePasses, InCharge, SettleWaiting, BindAll, AllThere, NoneClashes, Unnamed;
    var m, c := w.db.cells, w.db.cells[ctx.run];
    var saved := Checkpointed(c, o.checkpoint);
    var cells: map<RunId, Cell> := m[ctx.run := saved];
    CellAt(w, cfg, ctx.run);
    FormsUnnamed(c);
    FenceIff(c, ctx, w.now, true);
    ParksIff(cells, ctx, o);
    BindsIff(cells, ctx.run, ctx.inputRevision, o.refs);
    ThereOnceSaved(m, ctx.run, saved, ctx.inputRevision, o.refs);
  }
}
