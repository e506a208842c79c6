/** The tool gateway of one process: its operation locks, and the transactions of `execute` over the store. */
module ToolGateway {
  import opened Domain
  import opened RunMachine
  import opened Gateway
  import opened World
  import opened Store

  class ToolGateway {
    const store: Store
    const process: ProcessId
    const maxRounds: nat
    var locks: map<Slot, Call>

    constructor (store: Store, process: ProcessId, maxRounds: nat)
      ensures this.store == store && this.process == process && this.maxRounds == maxRounds && locks == map[]
    {
      this.store, this.process, this.maxRounds, locks := store, process, maxRounds, map[];
    }

    /** The call stands where the transaction `g` comes next. */
    predicate MayDo(s: Slot, g: GateEvent)
      reads this, store
    {
      s.run in store.cells && s in locks && Enabled(locks[s].phase, g)
    }

    /** What the transaction `g` makes of the run's rows. */
    function Specified(s: Slot, g: GateEvent, now: Time): Result<Cell>
      requires MayDo(s, g)
      reads this, store
    {
      GateCell(store.cells[s.run], now, s.op, locks[s], g, maxRounds)
    }

    /** The call moves on to its next phase, or gives its lock back. */
    method Progress(s: Slot, phase: Option<Phase>)
      requires s in locks
      modifies this`locks
      ensures locks == if phase.None? then old(locks) - {s} else old(locks)[s := old(locks)[s].(phase := phase.value)]
    {
      locks := if phase.None? then locks - {s} else locks[s := locks[s].(phase := phase.value)];
    }

    /** The lookup under the lock.  Some tells whether the call holds the lock and goes on. */
    method Lookup(s: Slot, ctx: Context, tool: Tool, argsHash: nat) returns (res: Result<bool>)
      requires s.run in store.cells
      modifies this`locks
      ensures s in old(locks) ==> res == Err(Busy)
      ensures s !in old(locks) ==>
        var found := LookupPhase(store.cells[s.run].ops, s.op, tool, argsHash);
        && res.Ok? == found.Ok? && (res.Ok? ==> res.value == found.value.Some?)
        && locks == if found.Ok? && found.value.Some? then old(locks)[s := Call(ctx, found.value.value)] else old(locks)
      ensures s in old(locks) ==> locks == old(locks)
    {
      if s in locks {
        return Err(Busy);
      }
      var ops := store.cells[s.run].ops;
      if s.op in ops {
        var existing := ops[s.op];
        if existing.argsHash != argsHash || existing.tool.id != tool.id || existing.tool.revision != tool.revision {
          return Err(OperationConflict);
        } else if existing.result.Some? && TerminalOp(existing.state) {
          return Ok(false);
        } else if existing.state.Running? && Awaits(existing) && tool.kind.Durable? {
          locks := locks[s := Call(ctx, Resuming(existing.revision))];
          return Ok(true);
        } else if existing.state.Running? || existing.state.Unknown? {
          return Ok(false);
        }
      }
      locks := locks[s := Call(ctx, Looked)];
      return Ok(true);
    }

    /** `prepare_operation`: the operation that is there, or a new one. */
    method Prepare(s: Slot, tool: Tool, argsHash: nat, fingerprint: nat, now: Time) returns (res: Result<()>)
      requires MayDo(s, GateEvent.Prepare(tool, argsHash, fingerprint))
      modifies this`locks, store`cells
      ensures var next := old(Specified(s, GateEvent.Prepare(tool, argsHash, fingerprint), now));
              && res.Ok? == next.Ok? && (res.Err? ==> res.error == next.error && locks == old(locks))
              && store.cells == (if next.Ok? then old(store.cells)[s.run := next.value] else old(store.cells))
              && (res.Ok? ==>
                    && s.op in next.value.ops
                    && locks == old(locks)[s := old(locks)[s].(phase := Ready(next.value.ops[s.op].revision))])
    {
      var c, ctx := store.cells[s.run], locks[s].ctx;
      if !FencePasses(c.run, c.attempts, ctx, now, false) {
        return Err(FenceError(c, ctx, now));
      }
      if s.op in c.ops {
        if c.ops[s.op].argsHash != argsHash || c.ops[s.op].tool != tool {
          return Err(OperationConflict);
        }
        assert store.cells == store.cells[s.run := c];
      } else {
        store.AddOperation(s.run, s.op,
                           Operation(tool, argsHash, fingerprint, OpState.Prepared, 1, ctx.attempt, ctx.token,
                                                  None, None, Metadata(None, false, false, None)));
      }
      Progress(s, Some(Ready(store.cells[s.run].ops[s.op].revision)));
      return Ok(());
    }

    /** The authorizing transaction: a fresh grant, the operation authorized at the revision it was prepared at, and
        the grant consumed. */
    method Authorize(s: Slot, g: GrantId, binding: Binding, policy: nat, now: Time) returns (res: Result<()>)
      requires MayDo(s, GateEvent.Authorize(g, binding, policy))
      modifies this`locks, store`cells
      ensures var next := old(Specified(s, GateEvent.Authorize(g, binding, policy), now));
              && res.Ok? == next.Ok? && (res.Err? ==> res.error == next.error && locks == old(locks))
              && store.cells == (if next.Ok? then old(store.cells)[s.run := next.value] else old(store.cells))
              && (res.Ok? ==>
                    && s.op in next.value.ops
                    && locks == old(locks)[s := old(locks)[s].(phase := Granted(next.value.ops[s.op].revision))])
    {
      var c, ctx, k := store.cells[s.run], locks[s].ctx, s.op;
      var cells := store.cells;
      if g in c.grants {
        return Err(Integrity);
      }
      store.PutGrant(s.run, g, Grant(k, binding, 1, false, false));
      if !FencePasses(c.run, c.attempts, ctx, now, true) {
        store.RestoreCells(cells);
        return Err(FenceError(c, ctx, now));
      }
      var authorized := false;
      if k in c.ops {
        authorized := store.UpdateOperation(s.run, k, locks[s].phase.revision, c.ops[k].(state := Authorized));
      }
      if !authorized {
        store.RestoreCells(cells);
        return Err(RevisionConflict);
      }
      if !FencePasses(c.run, c.attempts, ctx, now, false) {
        store.RestoreCells(cells);
        return Err(FenceError(c, ctx, now));
      }
      if binding.expires <= now || binding.policy != policy {
        store.RestoreCells(cells);
        return Err(GrantStale);
      }
      store.PutGrant(s.run, g, Grant(k, binding, 0, false, true));
      var op := store.cells[s.run].ops[k];
      var running := store.UpdateOperation(s.run, k, op.revision,
        op.(state := OpState.Running, grant := Some(g), attempt := ctx.attempt, token := ctx.token));
      assert running;
      assert store.cells[s.run].ops == c.ops[k := store.cells[s.run].ops[k]];
      assert store.cells[s.run].grants == c.grants[g := Grant(k, binding, 0, false, true)];
      assert store.cells == cells[s.run := store.cells[s.run]];
      Progress(s, Some(Granted(store.cells[s.run].ops[k].revision)));
      return Ok(());
    }

    /** `_finish`: whatever the state, under the loose fence and the revision just read. */
    method Finish(s: Slot, result: ToolResult, now: Time) returns (res: Result<()>)
      requires MayDo(s, GateEvent.Finish(result))
      modifies this`locks, store`cells
      ensures var next := old(Specified(s, GateEvent.Finish(result), now));
              && res.Ok? == next.Ok? && (res.Err? ==> res.error == next.error && locks == old(locks))
              && store.cells == (if next.Ok? then old(store.cells)[s.run := next.value] else old(store.cells))
              && (res.Ok? ==> locks == old(locks) - {s})
    {
      var c, ctx := store.cells[s.run], locks[s].ctx;
      if s.op !in c.ops {
        return Err(NotFound);
      } else if !FencePasses(c.run, c.attempts, ctx, now, true) {
        return Err(FenceError(c, ctx, now));
      }
      var op := c.ops[s.op];
      var ok := store.UpdateOperation(s.run, s.op, op.revision, op.(state := result.status, result := Some(result)));
      assert ok;
      Progress(s, None);
      return Ok(());
    }

    /** `suspend`: the form and the saved exchange, or neither. */
    method Suspend(s: Slot, request: nat, schemaHash: nat, config: nat, intact: bool, expires: Time, now: Time)
      returns (res: Result<()>)
      requires MayDo(s, GateEvent.Suspend(request, schemaHash, config, intact, expires))
      modifies this`locks, store`cells
      ensures var next := old(Specified(s, GateEvent.Suspend(request, schemaHash, config, intact, expires), now));
              && res.Ok? == next.Ok? && (res.Err? ==> res.error == next.error && locks == old(locks))
              && store.cells == (if next.Ok? then old(store.cells)[s.run := next.value] else old(store.cells))
              && (res.Ok? ==> locks == old(locks)[s := old(locks)[s].(phase := Suspended)])
    {
      var c, ctx, k := store.cells[s.run], locks[s].ctx, s.op;
      if k !in c.ops {
        return Err(NotFound);
      }
      var op, round := c.ops[k], RoundOf(c.ops[k]) + 1;
      if round > maxRounds {
        return Err(InputLimit);
      } else if op.revision != locks[s].phase.revision {
        return Err(RevisionConflict);
      } else if !FencePasses(c.run, c.attempts, ctx, now, false) {
        return Err(FenceError(c, ctx, now));
      }
      var key := Elicitation(k, round, request);
      store.AddInteraction(s.run, key, NewInteraction(Some(k), ctx.inputRevision, Some(expires)));
      var saved := Continuation(AwaitingInput, round, key, schemaHash, config, intact);
      var ok := store.UpdateOperation(s.run, k, op.revision, op.(meta := op.meta.(continuation := Some(saved))));
      assert ok;
      Progress(s, Some(Suspended));
      return Ok(());
    }

    /** `responses`: a saved answer is taken once, at the revision the resuming call looked up. */
    method TakeAnswer(s: Slot, schemaHash: nat, config: nat, now: Time) returns (res: Result<()>)
      requires MayDo(s, GateEvent.TakeAnswer(schemaHash, config))
      modifies this`locks, store`cells
      ensures var next := old(Specified(s, GateEvent.TakeAnswer(schemaHash, config), now));
              && res.Ok? == next.Ok? && (res.Err? ==> res.error == next.error && locks == old(locks))
              && store.cells == (if next.Ok? then old(store.cells)[s.run := next.value] else old(store.cells))
              && (res.Ok? ==>
                    && s.op in next.value.ops
                    && locks == old(locks)[s := old(locks)[s].(phase := Answering(next.value.ops[s.op].revision))])
    {
      var c, ctx, k := store.cells[s.run], locks[s].ctx, s.op;
      if k !in c.ops {
        return Err(NotFound);
      }
      var op := c.ops[k];
      if op.meta.continuation.None? {
        return Err(ContinuationStale);
      }
      var saved := op.meta.continuation.value;
      if saved.status != AwaitingInput || saved.schemaHash != schemaHash || saved.config != config {
        return Err(ContinuationStale);
      } else if saved.interaction !in c.interactions {
        return Err(NotFound);
      } else if c.interactions[saved.interaction].operation != Some(k) {
        return Err(ContinuationStale);
      } else if Unclosed(c.interactions[saved.interaction]) {
        return Err(InputPending);
      } else if op.revision != locks[s].phase.revision {
        return Err(RevisionConflict);
      } else if !FencePasses(c.run, c.attempts, ctx, now, true) {
        return Err(FenceError(c, ctx, now));
      }
      var ok := store.UpdateOperation(s.run, k, op.revision,
        op.(meta := op.meta.(continuation := Some(saved.(status := Sending)))));
      assert ok;
      Progress(s, Some(Answering(op.revision + 1)));
      return Ok(());
    }
  }
}
