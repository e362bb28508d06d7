/** The gateway's own code: one dispatch, statement by statement on the fence, proved to be a run of
    the protocol by one client. What the gateway asks of others comes in as a plan of their answers. */
module Gateway {
  import opened Wrappers
  import opened EffectFence
  import opened EffectProtocol

  /** What the callback does. A value that cannot be digested counts as completed but raising. */
  datatype Callback =
    | Returns(value: Value, written: set<(string, nat)>)
    | Fails(completed: bool, written: set<(string, nat)>)

  /** The answers of the lifecycle, the authority verifier and the audit, in the order they are asked. */
  datatype Plan = Plan(permitValid: bool, authorityVerified: bool, auditVerified: bool, auditReserved: bool,
                       permitStillValid: bool, auditExecuting: bool, callback: Callback, auditSettled: bool)

  function ResultOf(callback: Callback): Option<Digest> {
    if callback.Returns? then Some(callback.value.digest) else None
  }

  /** With a result the row is committed with it; without one the barrier stays up. */
  predicate SettledAs(s: State, job: Job, result: Option<Digest>) {
    && job.effect in s.world.rows && s.world.rows[job.effect].result == result
    && if result.Some? then s.world.rows[job.effect].state.Committed? else s.world.rows[job.effect].state.AttemptedUnknown?
  }

  /** Everyone asked before the call agrees. */
  predicate Permits(plan: Plan) {
    && plan.permitValid && plan.authorityVerified && plan.auditVerified && plan.auditReserved
    && plan.permitStillValid && plan.auditExecuting
  }

  /** The command is new or bound to exactly this invocation. */
  predicate Bindable(bindings: map<string, Binding>, job: Job)
    requires job.command.Some?
  {
    job.command.value.id in bindings ==> bindings[job.command.value.id] == Binding(job.effect, job.command.value)
  }

  /** No result is recorded yet, or exactly this one. */
  predicate Recordable(results: map<string, JournalResult>, id: string, value: Value)
    requires value.receipt.Some?
  {
    id in results ==> results[id] == JournalResult(value.digest, value.receipt.value)
  }

  predicate ReservedIn(s: State, job: Job) {
    job.effect in s.world.rows && s.world.rows[job.effect].cut == job.cut
  }

  predicate ExecutingIn(s: State, job: Job) {
    ReservedIn(s, job) && s.world.rows[job.effect].state.Executing?
  }

  predicate By(a: Action, c: Client) {
    !a.Cancel? && !a.Reconcile? && a.client == c
  }

  /** The actions are one client's own and lead from one state to the other. */
  ghost predicate Ran(c: Client, before: State, actions: seq<Action>, after: State) {
    after == ExecFrom(before, actions) && forall a :: a in actions ==> By(a, c)
  }

  lemma RanNothing(c: Client, s: State)
    ensures Ran(c, s, [], s)
  {
  }

  lemma RanThen(c: Client, before: State, actions: seq<Action>, after: State, a: Action)
    requires Ran(c, before, actions, after) && By(a, c)
    ensures Ran(c, before, actions + [a], Step(after, a))
  {
    assert (actions + [a])[..|actions|] == actions;
  }

  lemma RanOn(c: Client, before: State, actions: seq<Action>, between: State, more: seq<Action>, after: State)
    requires Ran(c, before, actions, between) && Ran(c, between, more, after)
    ensures Ran(c, before, actions + more, after)
  {
    ExecSplits(before, actions, more);
  }

  lemma NoneReserved(rows: Rows)
    requires Unresolved(rows) == {}
    ensures forall e :: e in rows ==> !rows[e].state.Reserved?
  {
    assert forall e :: e in rows && IsUnresolved(rows[e].state) ==> e in Unresolved(rows);
  }

  class Gateway {
    const fence: EffectFence
    /** The command journal. */
    var bindings: map<string, Binding>
    var results: map<string, JournalResult>
    /** The protocol state that the calls so far amount to. */
    ghost var s: State

    constructor (fence: EffectFence)
      requires fence.rows == map[]
      ensures this.fence == fence && s == INITIAL && Synced()
    {
      this.fence, bindings, results, s := fence, map[], map[], INITIAL;
    }

    ghost predicate Synced()
      reads this, fence
    {
      fence.rows == s.world.rows && bindings == s.world.bindings && results == s.world.results
    }

    method Clear(c: Client) returns (ok: bool)
      requires Synced() && PhaseOf(s, c).Locked?
      modifies this`s
      ensures Synced() && s == Step(old(s), CheckBarrier(c))
      ensures ok <==> PhaseOf(s, c).Cleared?
      ensures ok <==> Unresolved(old(s).world.rows) == {}
    {
      var clear := fence.AssertClear();
      ok := clear.Ok?;
      if ok {
        assert Unresolved(fence.rows) == {};
      } else {
        ghost var e :| e in fence.rows && IsUnresolved(fence.rows[e].state);
        assert e in Unresolved(fence.rows);
      }
      s := Step(s, CheckBarrier(c));
    }

    method ReserveEffect(c: Client, job: Job) returns (ok: bool)
      requires Synced() && PhaseOf(s, c) == Cleared(job)
      modifies this`s, fence
      ensures Synced() && s == Step(old(s), Action.Reserve(c))
      ensures if ok then PhaseOf(s, c) == Holding(job) else PhaseOf(s, c).Idle?
      ensures ok <==> (job.effect in old(s).world.rows ==> old(s).world.rows[job.effect].cut == job.cut)
      ensures ok ==> ReservedIn(s, job) && (s.world.rows[job.effect].state.Reserved? <==>
                       (job.effect in old(s).world.rows ==> old(s).world.rows[job.effect].state.Reserved?))
    {
      var reserved := fence.Reserve(job.effect, job.cut);
      ok := reserved.Ok?;
      s := Step(s, Action.Reserve(c));
    }

    /** The claim repeats the reservation and then moves the row, in two transactions. */
    method ClaimEffect(c: Client, job: Job) returns (ok: bool, ghost actions: seq<Action>)
      requires Synced() && PhaseOf(s, c) == Holding(job)
      modifies this`s, fence
      ensures Synced() && Ran(c, old(s), actions, s)
      ensures s.world.starts == old(s).world.starts
      ensures if ok then PhaseOf(s, c) == Claimed(job) else PhaseOf(s, c).Idle?
      ensures ReservedIn(old(s), job) ==> (ok <==> old(s).world.rows[job.effect].state.Reserved?)
      ensures ok ==> ExecutingIn(s, job)
    {
      var claimed := fence.ClaimDispatch(job.effect, job.cut);
      ok := claimed.Ok?;
      RanNothing(c, s);
      RanThen(c, s, [], s, Recheck(c));
      actions := [] + [Recheck(c)];
      ghost var between := Step(s, Recheck(c));
      if PhaseOf(between, c).Rechecked? {
        RanThen(c, s, actions, between, Action.Claim(c));
        actions := actions + [Action.Claim(c)];
        s := Step(between, Action.Claim(c));
      } else {
        s := between;
      }
    }

    /** The call itself, which is where the effect starts. */
    method Execute(c: Client, job: Job, callback: Callback) returns (ghost actions: seq<Action>)
      requires Synced() && PhaseOf(s, c) == Claimed(job)
      modifies this`s
      ensures Synced() && Ran(c, old(s), actions, s)
      ensures s.world.starts == old(s).world.starts + multiset{job.effect}
      ensures PhaseOf(s, c) == if callback.Returns? then Returned(job, callback.value) else Raised(job)
      ensures s.world.rows == old(s).world.rows
    {
      ghost var end := if callback.Returns? then Return(c, callback.value, callback.written)
                       else Raise(c, callback.completed, callback.written);
      RanNothing(c, s);
      RanThen(c, s, [], s, Start(c));
      RanThen(c, s, [] + [Start(c)], Step(s, Start(c)), end);
      actions := [] + [Start(c)] + [end];
      s := Step(Step(s, Start(c)), end);
    }

    method SettleEffect(c: Client, job: Job, result: Option<Digest>) returns (ok: bool)
      requires Synced()
      requires match PhaseOf(s, c)
               case Returned(j, value) => j == job && result == Some(value.digest)
               case Raised(j) => j == job && result.None?
               case _ => false
      modifies this`s, fence
      ensures Synced() && s == Step(old(s), Action.Settle(c))
      ensures ok && result.Some? ==> PhaseOf(s, c).Settled? && PhaseOf(s, c).job == job && PhaseOf(s, c).value == PhaseOf(old(s), c).value
      ensures ok && result.Some? ==> job.effect in s.world.rows && s.world.rows[job.effect].state.Committed?
                                     && s.world.rows[job.effect].result == result
      ensures !(ok && result.Some?) ==> PhaseOf(s, c).Idle?
      ensures ExecutingIn(old(s), job) ==> ok && SettledAs(s, job, result)
    {
      var settled := fence.Settle(job.effect, result, result.Some?);
      ok := settled.Ok?;
      s := Step(s, Action.Settle(c));
    }

    /** Leaving on an error that is not the fence's: the locks are given up and nothing else changes. */
    ghost method GiveUp(c: Client, start: State, before: seq<Action>) returns (actions: seq<Action>)
      requires Ran(c, start, before, s)
      modifies this`s
      ensures Ran(c, start, actions, s)
      ensures s.world == old(s).world && PhaseOf(s, c).Idle?
    {
      RanThen(c, start, before, s, Abort(c));
      actions := before + [Abort(c)];
      s := Step(s, Abort(c));
    }

    /** Lock, barrier, permit, authority and reservation. */
    method PrepareEffect(c: Client, job: Job, plan: Plan) returns (ok: bool, ghost actions: seq<Action>)
      requires Synced() && PhaseOf(s, c) == Bound(job) && s.holder.None?
      modifies this`s, fence
      ensures Synced() && Ran(c, old(s), actions, s)
      ensures s.world.starts == old(s).world.starts
      ensures if ok then PhaseOf(s, c) == Holding(job) else PhaseOf(s, c).Idle?
      ensures ok <==> plan.permitValid && plan.authorityVerified && plan.auditVerified && Unresolved(old(s).world.rows) == {}
                      && (job.effect in old(s).world.rows ==> old(s).world.rows[job.effect].cut == job.cut)
      ensures ok ==> ReservedIn(s, job) && (s.world.rows[job.effect].state.Reserved? <==> job.effect !in old(s).world.rows)
    {
      ghost var start := s;
      RanNothing(c, s);
      RanThen(c, s, [], s, Acquire(c));
      s := Step(s, Acquire(c));
      RanThen(c, start, [] + [Acquire(c)], s, CheckBarrier(c));
      actions := [] + [Acquire(c)] + [CheckBarrier(c)];
      ok := Clear(c);
      if !ok { return; }
      NoneReserved(fence.rows);
      if !plan.permitValid || !plan.authorityVerified || !plan.auditVerified {
        actions := GiveUp(c, start, actions);
        return false, actions;
      }
      RanThen(c, start, actions, s, Action.Reserve(c));
      actions := actions + [Action.Reserve(c)];
      ok := ReserveEffect(c, job);
    }

    /** Everything after the dispatch claim. An audit entry that fails before the call leaves the row
        executing without a start. */
    method Perform(c: Client, job: Job, plan: Plan) returns (value: Option<Value>, called: bool, ghost actions: seq<Action>)
      requires Synced() && PhaseOf(s, c) == Claimed(job)
      modifies this`s, fence
      ensures Synced() && Ran(c, old(s), actions, s)
      ensures called <==> plan.auditExecuting
      ensures ExecutingIn(old(s), job) ==> (value.Some? <==> called && plan.callback.Returns? && plan.auditSettled)
      ensures ExecutingIn(old(s), job) && called ==> SettledAs(s, job, ResultOf(plan.callback))
      ensures s.world.starts == old(s).world.starts + if called then multiset{job.effect} else multiset{}
      ensures value.Some? ==> called && plan.callback.Returns? && plan.callback.value == value.value
                              && PhaseOf(s, c) == Settled(job, value.value) && CommittedAs(s, job, value.value)
      ensures value.None? ==> PhaseOf(s, c).Idle?
    {
      ghost var start := s;
      if !plan.auditExecuting {
        RanNothing(c, s);
        actions := GiveUp(c, start, []);
        return None, false, actions;
      }
      actions := Execute(c, job, plan.callback);
      RanThen(c, start, actions, s, Action.Settle(c));
      actions := actions + [Action.Settle(c)];
      var ok := SettleEffect(c, job, ResultOf(plan.callback));
      if !ok || plan.callback.Fails? {
        return None, true, actions;
      }
      if !plan.auditSettled {
        actions := GiveUp(c, start, actions);
        return None, true, actions;
      }
      return Some(plan.callback.value), true, actions;
    }

    /** The second look at the permit, the claim and the call. */
    method ClaimAndPerform(c: Client, job: Job, plan: Plan) returns (value: Option<Value>, called: bool, ghost actions: seq<Action>)
      requires Synced() && PhaseOf(s, c) == Holding(job) && ReservedIn(s, job)
      modifies this`s, fence
      ensures Synced() && Ran(c, old(s), actions, s)
      ensures called <==> plan.auditReserved && plan.permitStillValid && plan.auditExecuting && old(s).world.rows[job.effect].state.Reserved?
      ensures value.Some? <==> called && plan.callback.Returns? && plan.auditSettled
      ensures called ==> SettledAs(s, job, ResultOf(plan.callback))
      ensures s.world.starts == old(s).world.starts + if called then multiset{job.effect} else multiset{}
      ensures value.Some? ==> called && plan.callback.Returns? && plan.callback.value == value.value
                              && PhaseOf(s, c) == Settled(job, value.value) && CommittedAs(s, job, value.value)
      ensures value.None? ==> PhaseOf(s, c).Idle?
    {
      ghost var start := s;
      if !plan.auditReserved || !plan.permitStillValid {
        RanNothing(c, s);
        actions := GiveUp(c, start, []);
        return None, false, actions;
      }
      var ok;
      ok, actions := ClaimEffect(c, job);
      if !ok { return None, false, actions; }
      ghost var between, more := s, [];
      value, called, more := Perform(c, job, plan);
      RanOn(c, start, actions, between, more, s);
      actions := actions + more;
    }

    ghost method Finish(c: Client, job: Job, value: Value, start: State, before: seq<Action>) returns (actions: seq<Action>)
      requires Ran(c, start, before, s) && PhaseOf(s, c) == Settled(job, value)
      modifies this`s
      ensures Ran(c, start, actions, s) && s.world == old(s).world
      ensures PhaseOf(s, c) == if job.command.Some? && value.receipt.Some? then Journaling(job, value) else Idle
    {
      RanThen(c, start, before, s, Release(c));
      actions := before + [Release(c)];
      s := Step(s, Release(c));
    }

    /** One dispatch, from waiting for the lock to giving it up: a run of this client's own steps. The
        callback is called, once, exactly when everyone agrees, the barrier is clear and the effect has
        never been reserved; a value comes back exactly when the call returned and was accounted for. */
    method DispatchVerified(c: Client, job: Job, plan: Plan) returns (value: Option<Value>, called: bool, ghost actions: seq<Action>)
      requires Synced() && PhaseOf(s, c) == Bound(job) && s.holder.None?
      modifies this`s, fence
      ensures Synced() && Ran(c, old(s), actions, s)
      ensures s.world.starts == old(s).world.starts + if called then multiset{job.effect} else multiset{}
      ensures called <==> Permits(plan) && Unresolved(old(s).world.rows) == {} && job.effect !in old(s).world.rows
      ensures value.Some? <==> called && plan.callback.Returns? && plan.auditSettled
      ensures value.Some? ==> plan.callback.value == value.value && CommittedAs(s, job, value.value)
      ensures called && plan.callback.Returns? ==>
                job.effect in fence.rows && fence.rows[job.effect].state.Committed?
                && fence.rows[job.effect].result == Some(plan.callback.value.digest)
      ensures called && plan.callback.Fails? ==>
                job.effect in fence.rows && fence.rows[job.effect].state.AttemptedUnknown? && fence.rows[job.effect].result == None
                && job.effect in Unresolved(fence.rows)
      ensures PhaseOf(s, c) == if value.Some? && job.command.Some? && value.value.receipt.Some? then Journaling(job, value.value) else Idle
    {
      ghost var start := s;
      var ok;
      ok, actions := PrepareEffect(c, job, plan);
      if !ok { return None, false, actions; }
      ghost var between, more := s, [];
      value, called, more := ClaimAndPerform(c, job, plan);
      RanOn(c, start, actions, between, more, s);
      actions := actions + more;
      if value.Some? {
        actions := Finish(c, job, value.value, start, actions);
      }
    }

    /** Binding a command identity again is accepted for exactly the same invocation. */
    method Bind(c: Client, job: Job) returns (ok: bool)
      requires Synced() && PhaseOf(s, c).Idle? && WellFormed(job) && job.command.Some?
      modifies this
      ensures Synced() && s == Step(old(s), Submit(c, job)) && s.world.starts == old(s).world.starts && s.holder == old(s).holder
      ensures s.world.rows == old(s).world.rows
      ensures if ok then PhaseOf(s, c) == Bound(job) && job.command.value.id in bindings
                         && bindings[job.command.value.id] == Binding(job.effect, job.command.value)
              else PhaseOf(s, c).Idle? && bindings == old(bindings)
      ensures ok <==> Bindable(old(bindings), job)
    {
      var command, binding := job.command.value, Binding(job.effect, job.command.value);
      s := Step(s, Submit(c, job));
      if command.id in bindings {
        ok := bindings[command.id] == binding;
      } else {
        bindings := bindings[command.id := binding];
        ok := true;
      }
    }

    /** The first recorded result stays; repeating it is harmless and another one is refused. */
    method RecordResult(c: Client, job: Job, value: Value) returns (ok: bool)
      requires Synced() && PhaseOf(s, c) == Journaling(job, value) && job.command.Some? && value.receipt.Some?
      modifies this
      ensures Synced() && s == Step(old(s), Record(c)) && s.world.starts == old(s).world.starts && PhaseOf(s, c).Idle?
      ensures s.world.rows == old(s).world.rows
      ensures ok <==> Recordable(old(results), job.command.value.id, value)
      ensures ok ==> RecordedAs(s, job, value)
    {
      var id, result := job.command.value.id, JournalResult(value.digest, value.receipt.value);
      s := Step(s, Record(c));
      if id in results {
        ok := results[id] == result;
      } else {
        results := results[id := result];
        ok := true;
      }
    }

    /** A write command: bind, dispatch, journal the receipted result. A value is handed back only when
        the effect is committed with it and the journal says so. */
    method Invoke(c: Client, job: Job, plan: Plan) returns (value: Option<Value>, called: bool, ghost actions: seq<Action>)
      requires Synced() && PhaseOf(s, c).Idle? && s.holder.None? && WellFormed(job) && job.command.Some?
      modifies this, fence
      ensures Synced() && Ran(c, old(s), actions, s) && PhaseOf(s, c).Idle?
      ensures s.world.starts == old(s).world.starts + if called then multiset{job.effect} else multiset{}
      ensures called <==> Permits(plan) && Unresolved(old(s).world.rows) == {} && job.effect !in old(s).world.rows
                          && Bindable(old(bindings), job)
      ensures value.Some? <==> called && plan.callback.Returns? && plan.auditSettled && plan.callback.value.receipt.Some?
                               && Recordable(old(results), job.command.value.id, plan.callback.value)
      ensures value.Some? ==> value.value == plan.callback.value && CommittedAs(s, job, value.value) && RecordedAs(s, job, value.value)
    {
      ghost var start := s;
      RanNothing(c, s);
      RanThen(c, s, [], s, Submit(c, job));
      actions := [] + [Submit(c, job)];
      var ok := Bind(c, job);
      if !ok { return None, false, actions; }
      ghost var between, more := s, [];
      value, called, more := DispatchVerified(c, job, plan);
      RanOn(c, start, actions, between, more, s);
      actions := actions + more;
      if value.None? || value.value.receipt.None? { return None, called, actions; }
      RanThen(c, start, actions, s, Record(c));
      actions := actions + [Record(c)];
      ok := RecordResult(c, job, value.value);
      if !ok { value := None; }
    }
  }

  ghost predicate RecordedAs(s: State, job: Job, value: Value) {
    && job.command.Some? && value.receipt.Some? && job.command.value.id in s.world.results
    && s.world.results[job.command.value.id] == JournalResult(value.digest, value.receipt.value)
  }

  /** The effect's row says that it was committed with this value. */
  ghost predicate CommittedAs(s: State, job: Job, value: Value) {
    && job.effect in s.world.rows && s.world.rows[job.effect].state.Committed?
    && s.world.rows[job.effect].result == Some(value.digest)
  }
}
