/** At-most-once effects, and the bound on the exchanges of one operation, over every run of the system. */
module Effects {
  import opened Domain
  import opened RunMachine
  import opened RunInvariant
  import opened Tables
  import opened TablesInvariant
  import opened RowEvents
  import opened Transactions
  import opened Gateway
  import opened World
  import opened WorldInvariant
  import opened WorldSteps

  // ---------------------------------------------------------------- runs of the system

  predicate AllOwn(events: seq<Event>) {
    forall i :: 0 <= i < |events| ==> Own(events[i])
  }

  ghost predicate Reaches(w: World, cfg: Config, v: World) {
    exists events :: AllOwn(events) && v == Play(w, cfg, events)
  }

  ghost predicate Reachable(w: World, cfg: Config) {
    exists now, alive, branches :: Reaches(Boot(now, alive, branches), cfg, w)
  }

  lemma ReachesKeeps(w: World, cfg: Config, v: World)
    requires WorldInv(w, cfg) && Reaches(w, cfg, v)
    ensures WorldInv(v, cfg) && w.now <= v.now && DbStep(w.db.cells, w.now, v.db.cells, v.now)
  {
    hide WorldInv, DbStep, Play;
    var events :| AllOwn(events) && v == Play(w, cfg, events);
    PlayKeeps(w, cfg, events);
  }

  lemma ReachableKeeps(w: World, cfg: Config)
    requires Reachable(w, cfg)
    ensures WorldInv(w, cfg)
  {
    hide WorldInv, DbStep, Boot, Reaches;
    var now, alive, branches :| Reaches(Boot(now, alive, branches), cfg, w);
    BootInv(now, alive, branches, cfg);
    ReachesKeeps(Boot(now, alive, branches), cfg, w);
  }

  // ---------------------------------------------------------------- at most once

  /** Over every interleaving of claims, calls, crashes, lapsed leases, recovery, resumes and reconciliation, the
      executor of an operation with an effect is entered at most once, unless it was confirmed not to have run. */
  lemma AtMostOnce(w: World, cfg: Config, s: Slot)
    requires Reachable(w, cfg) && s !in w.resets
    ensures Known(w.db.cells, s) && !w.db.cells[s.run].ops[s.op].tool.effect.Read? ==> Times(w.starts, s) <= 1
    ensures !Known(w.db.cells, s) ==> Times(w.starts, s) == 0
  {
    hide DbInv, LocksOk, SentOnce;
    ReachableKeeps(w, cfg);
    assert History(w.db.cells, s, Times(w.starts, s), Times(w.sends, s), w.locks, cfg.maxRounds);
  }

  /** An operation is confirmed not to have run only by a reconciliation of an unknown one whose executor left
      evidence. */
  lemma ResetNeedsEvidence(w: World, cfg: Config, e: Event, s: Slot)
    requires s in Next(w, cfg, e).resets && s !in w.resets
    ensures e.Row? && e.run == s.run && e.row.Reconcile? && e.row.op == s.op && e.row.decision.ConfirmNotExecuted?
    ensures Known(w.db.cells, s)
    ensures var op := w.db.cells[s.run].ops[s.op]; op.state.Unknown? && op.meta.provenNotStarted
  {
    hide SubmitIn, DelegateIn, ClaimIn, WorkerSettleIn, ExpireIn, RefreshIn, CancelIn, FinishAll, RecoverIn, GateCell;
    hide LookupPhase, BarrierMet, AnyUnaccepted, RevokeExcept;
  }

  ghost predicate Unproven(m: map<RunId, Cell>) {
    forall s :: Known(m, s) ==> !m[s.run].ops[s.op].meta.provenNotStarted
  }

  /** No executor of this run of the system ever records that it did not start. */
  predicate Unattested(e: Event) {
    e.Gate? && e.gate.Note? ==> !e.gate.provenNotStarted
  }

  lemma QuietUnproven(m: map<RunId, Cell>, n: map<RunId, Cell>, resets: set<Slot>)
    requires Unproven(m) && DbQuiet(m, n, resets)
    ensures Unproven(n)
  {
    forall s | Known(n, s) ensures !n[s.run].ops[s.op].meta.provenNotStarted {
      if s.run in m {
        assert Quiet(m[s.run], n[s.run], s.run, resets) && Known(m, s);
        assert QuietOp(m[s.run].ops[s.op], n[s.run].ops[s.op], s in resets);
      }
    }
  }

  lemma GateUnproven(w: World, cfg: Config, lock: LockKey, g: GateEvent)
    requires Unproven(w.db.cells) && ApplyGate(w, cfg, lock, g).Ok? && (g.Note? ==> !g.provenNotStarted)
    ensures Unproven(ApplyGate(w, cfg, lock, g).value.db.cells)
  {
    var r, k := lock.slot.run, lock.slot.op;
    var c := w.db.cells[r];
    var d := GateCell(c, w.now, k, w.locks[lock], g, cfg.maxRounds).value;
    GateFrames(c, w.now, k, w.locks[lock], g, cfg.maxRounds);
    GateEvidence(c, w.now, k, w.locks[lock], g, cfg.maxRounds);
    hide GateCell, Enabled, NextPhase;
    forall s | Known(ApplyGate(w, cfg, lock, g).value.db.cells, s)
      ensures !ApplyGate(w, cfg, lock, g).value.db.cells[s.run].ops[s.op].meta.provenNotStarted
    {
      if s.run == r && s.op == k {
        assert k in c.ops ==> Known(w.db.cells, s);
      } else {
        assert Known(w.db.cells, s);
      }
    }
  }

  lemma GateEvidence(c: Cell, now: Time, k: OpKey, call: Call, g: GateEvent, maxRounds: nat)
    requires Enabled(call.phase, g) && GateCell(c, now, k, call, g, maxRounds).Ok?
    requires (g.Note? ==> !g.provenNotStarted) && (k in c.ops ==> !c.ops[k].meta.provenNotStarted)
    ensures var d := GateCell(c, now, k, call, g, maxRounds).value; k in d.ops ==> !d.ops[k].meta.provenNotStarted
  {
    hide FencePasses, GrantStands, Registered;
  }

  lemma UnprovenStep(w: World, cfg: Config, e: Event)
    requires WorldInv(w, cfg) && Own(e) && Unattested(e) && Unproven(w.db.cells)
    ensures Unproven(Next(w, cfg, e).db.cells) && Next(w, cfg, e).resets <= w.resets
  {
    hide DbInv, Unproven, LocksOk, Histories, DbStep, DbQuiet, ApplyLookup, ApplyGate, ApplyEnter, ApplySend, RowIn;
    forall s | s in Next(w, cfg, e).resets ensures s in w.resets {
      if s !in w.resets {
        ResetNeedsEvidence(w, cfg, e, s);
        NotProven(w.db.cells, s);
      }
    }
    if Apply(w, cfg, e).Ok? {
      if Scheduling(e) {
        SchedulingDb(w, cfg, e);
        QuietUnproven(w.db.cells, Apply(w, cfg, e).value.db.cells, {});
      } else if e.Row? {
        RowInKeeps(w.db, w.now, cfg, e.run, e.row);
        QuietUnproven(w.db.cells, Apply(w, cfg, e).value.db.cells, ResetBy(e.run, e.row));
      } else if e.Gate? {
        GateUnproven(w, cfg, e.lock, e.gate);
      } else if e.Lookup? {
        LookupDb(w, e.process, e.slot, e.ctx, e.tool, e.argsHash);
      } else if e.Enter? || e.Send? {
        OutsideDb(w, e.lock);
      }
    }
  }

  lemma NotProven(m: map<RunId, Cell>, s: Slot)
    requires Unproven(m) && Known(m, s)
    ensures !m[s.run].ops[s.op].meta.provenNotStarted
  {}

  lemma {:induction false} UnprovenPlay(w: World, cfg: Config, events: seq<Event>)
    requires WorldInv(w, cfg) && AllOwn(events) && (forall e :: e in events ==> Unattested(e)) && Unproven(w.db.cells)
    ensures Play(w, cfg, events).resets <= w.resets
    decreases |events|
  {
    hide WorldInv, Unproven, Next, DbStep;
    if events != [] {
      StepKeeps(w, cfg, events[0]);
      UnprovenStep(w, cfg, events[0]);
      UnprovenPlay(Next(w, cfg, events[0]), cfg, events[1..]);
    }
  }

  /** Where executors never attest that they did not start, as in this repository, the bound has no exception. */
  lemma AtMostOnceUnattested(now: Time, alive: set<ProcessId>, branches: set<BranchId>, cfg: Config, events: seq<Event>,
                             s: Slot)
    requires AllOwn(events) && forall e :: e in events ==> Unattested(e)
    ensures var w := Play(Boot(now, alive, branches), cfg, events);
            Known(w.db.cells, s) && !w.db.cells[s.run].ops[s.op].tool.effect.Read? ==> Times(w.starts, s) <= 1
  {
    hide WorldInv, Play;
    var b := Boot(now, alive, branches);
    BootInv(now, alive, branches, cfg);
    UnprovenPlay(b, cfg, events);
    assert Reaches(b, cfg, Play(b, cfg, events));
    AtMostOnce(Play(b, cfg, events), cfg, s);
  }

  // ---------------------------------------------------------------- what is finished stays finished

  /** The state and the result of a succeeded, failed or cancelled operation never change. */
  lemma FinishedForever(w: World, cfg: Config, v: World, s: Slot)
    requires Reachable(w, cfg) && Reaches(w, cfg, v)
    requires Known(w.db.cells, s) && TerminalOp(w.db.cells[s.run].ops[s.op].state)
    ensures Known(v.db.cells, s)
    ensures var x, y := w.db.cells[s.run].ops[s.op], v.db.cells[s.run].ops[s.op];
            y.state == x.state && y.result == x.result && x.result.Some?
  {
    hide WorldInv, LeaseStep, InteractionsFrozen, TreeGrows, ExchangeGrows;
    ReachableKeeps(w, cfg);
    ReachesKeeps(w, cfg, v);
    OperationOk(w, cfg, s);
    assert CellStep(w.db.cells[s.run], w.now, v.db.cells[s.run], v.now);
  }

  lemma OperationOk(w: World, cfg: Config, s: Slot)
    requires WorldInv(w, cfg) && Known(w.db.cells, s)
    ensures OpOk(w.db.cells[s.run].run.status, w.db.cells[s.run].ops[s.op])
  {
    hide LocksOk, Histories, Ordered, Forest, Owned, Capacity, WaitScopes, ParentsLast, Charged;
    assert CellInv(w.db.cells[s.run]);
  }

  // ---------------------------------------------------------------- saved exchanges

  /** No round is answered twice on the wire, and rounds are limited: with the first call, an operation's remote
      side hears at most maxRounds + 1 requests. */
  lemma ExchangeBound(w: World, cfg: Config, s: Slot)
    requires Reachable(w, cfg) && s !in w.resets && Known(w.db.cells, s)
    ensures var op := w.db.cells[s.run].ops[s.op];
            && Times(w.sends, s) <= RoundOf(op) <= cfg.maxRounds
            && (Awaits(op) ==> Times(w.sends, s) < RoundOf(op))
            && (!op.tool.effect.Read? ==> Times(w.starts, s) + Times(w.sends, s) <= cfg.maxRounds + 1)
  {
    hide DbInv, LocksOk;
    ReachableKeeps(w, cfg);
    assert History(w.db.cells, s, Times(w.starts, s), Times(w.sends, s), w.locks, cfg.maxRounds);
  }

  /** Once the answer of a round was taken for sending, that round never awaits one again. */
  lemma AnswerTakenOnce(w: World, cfg: Config, v: World, s: Slot)
    requires Reachable(w, cfg) && Reaches(w, cfg, v) && Known(w.db.cells, s) && Sends(w.db.cells[s.run].ops[s.op])
    ensures Known(v.db.cells, s)
    ensures var x, y := w.db.cells[s.run].ops[s.op], v.db.cells[s.run].ops[s.op];
            RoundOf(x) <= RoundOf(y) && (Awaits(y) ==> RoundOf(x) < RoundOf(y))
  {
    hide WorldInv, LeaseStep, InteractionsFrozen, TreeGrows;
    ReachableKeeps(w, cfg);
    ReachesKeeps(w, cfg, v);
    assert CellStep(w.db.cells[s.run], w.now, v.db.cells[s.run], v.now);
    assert OpFrozen(w.db.cells[s.run].ops[s.op], v.db.cells[s.run].ops[s.op]);
  }

  /** A process lost while it was sending leaves its operation unknown; recovery never makes it await again. */
  lemma LostWhileSending(c: Cell, k: OpKey, written: set<OpKey>)
    requires k in c.ops && c.ops[k].state.Running? && Sends(c.ops[k])
    ensures RecoverOps(c, written)[k].state.Unknown? && Sends(RecoverOps(c, written)[k])
  {}
}
