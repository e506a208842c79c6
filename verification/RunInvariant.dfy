/** What every transaction keeps of the rows of one run. */
module RunInvariant {
  import opened Domain
  import opened RunMachine

  // ---------------------------------------------------------------- the invariant

  /** At most one attempt is not over, it is the current one, and only a run that is running, recovering or
      cancelling has it. */
  ghost predicate Leases(r: Run, m: map<AttemptId, Attempt>) {
    && (r.attempt.None? ==> m == map[])
    && (r.attempt.Some? ==> r.attempt.value in m && m[r.attempt.value].token == r.token)
    && (forall a :: a in m && r.attempt != Some(a) ==> m[a].ended && m[a].token < r.token)
    && (r.status.Running? || r.status.Recovering? ==> r.attempt.Some? && !m[r.attempt.value].ended)
    && (r.attempt.Some? && !m[r.attempt.value].ended ==>
          r.status.Running? || r.status.Recovering? || r.status.Cancelling?)
  }

  predicate CancelFlag(r: Run) {
    r.cancelRequested <==> r.status.Cancelling? || r.status.Cancelled?
  }

  predicate InteractionOk(i: Interaction) {
    && (Unclosed(i) <==> i.resolution.None?)
    && (i.status.Open? ==> i.interrupt.Some?)
    && (i.status.PendingBinding? ==> i.interrupt.None?)
  }

  predicate WaitOk(w: Wait) {
    && (w.bound <==> w.interrupt.Some?)
    && (w.resolution.Some? ==> w.bound)
  }

  ghost predicate Forms(s: Answers) {
    && (forall k :: k in s.interactions ==> InteractionOk(s.interactions[k]))
    && (forall k :: k in s.waits ==> WaitOk(s.waits[k]))
  }

  predicate OpOk(s: Status, op: Operation) {
    && !op.state.Authorized?
    && (TerminalOp(op.state) ==> op.result.Some?)
    && (op.meta.unresolvedAccepted ==> s.Cancelling? || s.Cancelled?)
    && (s.Completed? || s.Failed? ==> TerminalOp(op.state))
  }

  ghost predicate Ledger(s: Status, ops: map<OpKey, Operation>) {
    forall k :: k in ops ==> OpOk(s, ops[k])
  }

  ghost predicate Closed(s: Status, grants: map<GrantId, Grant>, m: map<RequestKey, Interaction>) {
    Terminal(s) ==>
      && (forall g :: g in grants ==> grants[g].revoked)
      && (forall k :: k in m ==> !Unclosed(m[k]))
  }

  ghost predicate Delivered(r: Run, inputs: map<nat, bool>) {
    r.status.Completed? ==>
      (forall n :: n in inputs ==> inputs[n]) && r.result.Some? && r.checkpoint.Some?
  }

  ghost predicate Core(c: Cell) {
    && Leases(c.run, c.attempts)
    && CancelFlag(c.run)
    && Forms(AnswersOf(c))
    && Ledger(c.run.status, c.ops)
    && Closed(c.run.status, c.grants, c.interactions)
    && Delivered(c.run, c.inputs)
  }

  /** No run is queued, running or recovering with an unanswered interrupt, and none waits with all answered. */
  ghost predicate Barrier(r: Run, s: Answers) {
    && (r.status.Queued? || r.status.Running? || r.status.Recovering? ==> BarrierMet(r.required, s))
    && (Waiting(r.status) ==> !BarrierMet(r.required, s))
  }

  ghost predicate CellInv(c: Cell) {
    Core(c) && Barrier(c.run, AnswersOf(c))
  }

  // ---------------------------------------------------------------- what no transaction undoes

  predicate SameIdentity(r: Run, q: Run) {
    && r.branch == q.branch && r.root == q.root && r.parent == q.parent && r.depth == q.depth
    && r.createdAt == q.createdAt && r.deadline == q.deadline && r.capabilities == q.capabilities
  }

  ghost predicate RunFrozen(r: Run, q: Run) {
    && SameIdentity(r, q)
    && (Terminal(r.status) ==> q.status == r.status && q.result == r.result)
    && (r.cancelRequested ==> q.cancelRequested)
    && r.inputRevision <= q.inputRevision
  }

  ghost predicate AttemptsGrow(r: Run, m: map<AttemptId, Attempt>, q: Run, n: map<AttemptId, Attempt>) {
    && (forall a :: a in m ==>
          a in n && n[a].token == m[a].token && n[a].process == m[a].process && (m[a].ended ==> n[a].ended))
    && (|| (q.attempt == r.attempt && q.token == r.token)
        || (q.attempt.Some? && q.attempt.value !in m && r.token < q.token))
  }

  /** A context without the lease never gets it: whoever holds it later held it before, and a run that is not
      running does not run again under the same lease. */
  ghost predicate FenceShrinks(r: Run, m: map<AttemptId, Attempt>, now: Time,
                               q: Run, n: map<AttemptId, Attempt>, later: Time) {
    forall ctx: Context :: ctx.attempt in m && LeaseHeld(q, n, ctx, later)
      ==> LeaseHeld(r, m, ctx, now) && (q.status.Running? ==> r.status.Running?)
  }

  ghost predicate LeaseStep(r: Run, m: map<AttemptId, Attempt>, now: Time,
                            q: Run, n: map<AttemptId, Attempt>, later: Time) {
    RunFrozen(r, q) && AttemptsGrow(r, m, q, n) && FenceShrinks(r, m, now, q, n, later)
  }

  /** Rounds go up; within a round an answer that was taken stays taken. */
  predicate ExchangeGrows(x: Operation, y: Operation) {
    x.meta.continuation.Some? ==>
      && y.meta.continuation.Some?
      && var (m, n) := (x.meta.continuation.value, y.meta.continuation.value);
      m.round < n.round
      || (m.round == n.round && m.interaction == n.interaction && (m.status.Sending? ==> n.status.Sending?))
  }

  predicate OpFrozen(x: Operation, y: Operation) {
    && y.tool == x.tool && y.argsHash == x.argsHash && ExchangeGrows(x, y)
    && (TerminalOp(x.state) ==> y.state == x.state && y.result == x.result)
  }

  ghost predicate OpsFrozen(m: map<OpKey, Operation>, n: map<OpKey, Operation>) {
    forall k :: k in m ==> k in n && OpFrozen(m[k], n[k])
  }

  predicate InteractionFrozen(x: Interaction, y: Interaction) {
    (!Unclosed(x) ==> y == x) && (x.interrupt.Some? ==> y.interrupt == x.interrupt)
  }

  ghost predicate InteractionsFrozen(m: map<RequestKey, Interaction>, n: map<RequestKey, Interaction>) {
    forall k :: k in m ==> k in n && InteractionFrozen(m[k], n[k])
  }

  ghost predicate TreeGrows(r: Run, x: seq<Dependency>, y: seq<Dependency>) {
    x <= y && (r.cancelRequested || Terminal(r.status) ==> y == x)
  }

  ghost predicate CellStep(c: Cell, now: Time, d: Cell, later: Time) {
    && LeaseStep(c.run, c.attempts, now, d.run, d.attempts, later)
    && OpsFrozen(c.ops, d.ops)
    && InteractionsFrozen(c.interactions, d.interactions)
    && TreeGrows(c.run, c.deps, d.deps)
  }

  lemma LeaseStepTransitive(c: Cell, t: Time, d: Cell, u: Time, e: Cell, v: Time)
    requires LeaseStep(c.run, c.attempts, t, d.run, d.attempts, u)
    requires LeaseStep(d.run, d.attempts, u, e.run, e.attempts, v)
    ensures LeaseStep(c.run, c.attempts, t, e.run, e.attempts, v)
  {
    forall ctx: Context | ctx.attempt in c.attempts && LeaseHeld(e.run, e.attempts, ctx, v)
      ensures LeaseHeld(c.run, c.attempts, ctx, t) && (e.run.status.Running? ==> c.run.status.Running?)
    {
      assert LeaseHeld(d.run, d.attempts, ctx, u);
    }
  }

  lemma CellStepTransitive(c: Cell, t: Time, d: Cell, u: Time, e: Cell, v: Time)
    requires CellStep(c, t, d, u) && CellStep(d, u, e, v)
    ensures CellStep(c, t, e, v)
  {
    LeaseStepTransitive(c, t, d, u, e, v);
    forall k | k in c.ops ensures k in e.ops && OpFrozen(c.ops[k], e.ops[k]) {
      assert OpFrozen(c.ops[k], d.ops[k]) && OpFrozen(d.ops[k], e.ops[k]);
    }
    forall k | k in c.interactions
      ensures k in e.interactions && InteractionFrozen(c.interactions[k], e.interactions[k])
    {
      assert InteractionFrozen(c.interactions[k], d.interactions[k]);
      assert InteractionFrozen(d.interactions[k], e.interactions[k]);
    }
  }

  lemma RowsReflexive(c: Cell)
    ensures OpsFrozen(c.ops, c.ops) && InteractionsFrozen(c.interactions, c.interactions)
    ensures TreeGrows(c.run, c.deps, c.deps)
  {}

  lemma LeaseReflexive(c: Cell, now: Time, later: Time)
    requires now <= later
    ensures LeaseStep(c.run, c.attempts, now, c.run, c.attempts, later)
  {}

  lemma CellStepTick(c: Cell, now: Time, later: Time)
    requires now <= later
    ensures CellStep(c, now, c, later)
  {
    RowsReflexive(c);
    LeaseReflexive(c, now, later);
  }

  // ---------------------------------------------------------------- answers stay

  ghost predicate AnswersKept(s: Answers, t: Answers) {
    && (forall k :: k in s.interactions && s.interactions[k].resolution.Some? ==>
          k in t.interactions && t.interactions[k].resolution.Some?
          && t.interactions[k].interrupt == s.interactions[k].interrupt)
    && (forall k :: k in s.waits && s.waits[k].resolution.Some? ==>
          k in t.waits && t.waits[k].resolution.Some? && t.waits[k].interrupt == s.waits[k].interrupt)
    && s.reviewed <= t.reviewed
  }

  lemma AnswersStay(s: Answers, t: Answers, required: set<Interrupt>)
    requires AnswersKept(s, t)
    ensures BarrierMet(required, s) ==> BarrierMet(required, t)
  {
    forall i: Interrupt | HasAnswer(s, i) ensures HasAnswer(t, i) {
      if k :| k in s.interactions && s.interactions[k].interrupt == Some(i) && s.interactions[k].resolution.Some? {
        assert t.interactions[k].interrupt == Some(i);
      } else if k :| k in s.waits && s.waits[k].interrupt == Some(i) && s.waits[k].resolution.Some? {
        assert t.waits[k].interrupt == Some(i);
      }
    }
  }
}
