/** What every step of the effect protocol keeps. */
module EffectInvariant {
  import opened Wrappers
  import opened EffectFence
  import opened EffectProtocol

  /** While the callback may still run, only a coordination effect can have been reconciled under it. */
  predicate InFlight(state: EffectState, job: Job) {
    state.Executing? || (!TrustGuarded(job) && (state.ReconciledCommitted? || state.ReconciledNoEffect?))
  }

  ghost predicate OnlyUnresolved(rows: Rows, e: EffectId) {
    forall x :: x in rows && IsUnresolved(rows[x].state) ==> x == e
  }

  ghost predicate CommittedWith(w: World, e: EffectId, value: Value) {
    && e in w.rows
    && w.rows[e].state.Committed?
    && w.rows[e].result == Some(value.digest)
    && e in w.returned
    && w.returned[e] == value
  }

  ghost predicate JobOk(w: World, job: Job) {
    && WellFormed(job)
    && (job.command.Some? ==>
          && job.command.value.id in w.bindings
          && w.bindings[job.command.value.id] == Binding(job.effect, job.command.value))
  }

  /** The client's row is the only unresolved one. */
  ghost predicate Owns(w: World, job: Job) {
    job.effect in w.rows && w.rows[job.effect].cut == job.cut && OnlyUnresolved(w.rows, job.effect)
  }

  /** What a client knows at each point of its dispatch. */
  ghost predicate PhaseOk(w: World, phase: Phase) {
    !phase.Idle? ==>
      var e := phase.job.effect;
      && JobOk(w, phase.job)
      && match phase
         case Bound(_) => true
         case Locked(_) => true
         case Cleared(_) => Unresolved(w.rows) == {}
         case Holding(job) => Owns(w, job)
         case Rechecked(job) => Owns(w, job)
         case Claimed(job) => Owns(w, job) && InFlight(w.rows[e].state, job) && w.starts[e] == 0
         case Running(job) =>
           Owns(w, job) && InFlight(w.rows[e].state, job) && w.starts[e] == 1 && w.completions[e] == 0
         case Returned(job, value) =>
           && Owns(w, job) && InFlight(w.rows[e].state, job) && w.starts[e] == 1
           && w.completions[e] == 1 && e in w.returned && w.returned[e] == value
         case Raised(job) => Owns(w, job) && InFlight(w.rows[e].state, job) && w.starts[e] == 1
         case Settled(_, value) => CommittedWith(w, e, value)
         case Journaling(_, value) => CommittedWith(w, e, value)
  }

  /** One effect: its callback starts at most once, and only after its row was claimed; a committed
      row carries the digest of the one value the callback returned. */
  ghost predicate EffectOk(w: World, e: EffectId) {
    && w.completions[e] <= w.starts[e] <= 1
    && (w.starts[e] == 1 ==> e in w.rows && IsDispatched(w.rows[e].state))
    && (e in w.rows && w.rows[e].state.Committed? ==>
          w.completions[e] == 1 && e in w.returned && w.rows[e].result == Some(w.returned[e].digest))
  }

  ghost predicate HistoryOk(w: World) {
    forall e :: EffectOk(w, e)
  }

  /** At most one effect is unresolved. */
  ghost predicate BarrierOk(rows: Rows) {
    forall x :: x in rows && IsUnresolved(rows[x].state) ==> OnlyUnresolved(rows, x)
  }

  ghost predicate BindingsOk(w: World) {
    forall id :: id in w.bindings ==> w.bindings[id].command.id == id && w.bindings[id].effect == Coordination(id)
  }

  /** A coordination row belongs to a bound command and carries that command's request and permit. */
  ghost predicate RowsBound(w: World) {
    forall e :: e in w.rows && e.Coordination? ==>
      && e.command in w.bindings
      && w.rows[e].cut.request == w.bindings[e.command].command.request
      && w.rows[e].cut.currentness == w.bindings[e.command].command.permit
  }

  ghost predicate ResultsOk(w: World) {
    forall id :: id in w.results ==>
      && id in w.bindings
      && CommittedWith(w, Coordination(id), Value(w.results[id].digest, Some(w.results[id].receipt)))
  }

  ghost predicate WorldOk(w: World) {
    HistoryOk(w) && BarrierOk(w.rows) && BindingsOk(w) && RowsBound(w) && ResultsOk(w)
  }

  ghost predicate LockOk(s: State) {
    forall c: Client :: InLock(PhaseOf(s, c)) <==> s.holder == Some(c)
  }

  ghost predicate Inv(s: State) {
    && WorldOk(s.world)
    && LockOk(s)
    && forall c: Client :: PhaseOk(s.world, PhaseOf(s, c))
  }

  /** What a client outside the lock relies on. */
  ghost predicate Extends(w: World, w': World) {
    && (forall id :: id in w.bindings ==> id in w'.bindings && w'.bindings[id] == w.bindings[id])
    && (forall e, value :: CommittedWith(w, e, value) ==> CommittedWith(w', e, value))
  }

  lemma OutsideKeeps(w: World, w': World, phase: Phase)
    requires PhaseOk(w, phase) && !InLock(phase) && Extends(w, w')
    ensures PhaseOk(w', phase)
  {
  }

  /** A step of one client: the others keep what they know. */
  lemma ClientStep(s: State, s': State, c: Client, phase: Phase)
    requires Inv(s) && WorldOk(s'.world) && Extends(s.world, s'.world)
    requires s.holder == Some(c) || (forall d: Client :: PhaseOk(s'.world, PhaseOf(s, d)))
    requires s'.phases == s.phases[c := phase] && PhaseOk(s'.world, phase)
    requires s'.holder == if InLock(phase) then Some(c) else if s.holder == Some(c) then None else s.holder
    requires InLock(phase) ==> s.holder == Some(c) || s.holder == None
    ensures Inv(s')
  {
    forall d: Client
      ensures PhaseOk(s'.world, PhaseOf(s', d))
      ensures InLock(PhaseOf(s', d)) <==> s'.holder == Some(d)
    {
      assert InLock(PhaseOf(s, d)) <==> s.holder == Some(d);
      assert PhaseOk(s.world, PhaseOf(s, d));
      if d != c {
        assert PhaseOf(s', d) == PhaseOf(s, d);
        if s.holder == Some(c) {
          OutsideKeeps(s.world, s'.world, PhaseOf(s, d));
        }
      }
    }
  }

  /** A new binding touches no row and no other command. */
  lemma BindingKeepsWorld(w: World, id: string, binding: Binding)
    requires WorldOk(w) && id !in w.bindings
    requires binding.command.id == id && binding.effect == Coordination(id)
    ensures WorldOk(w.(bindings := w.bindings[id := binding])) && Extends(w, w.(bindings := w.bindings[id := binding]))
  {
    var w' := w.(bindings := w.bindings[id := binding]);
    forall x ensures EffectOk(w', x) {
      assert EffectOk(w, x);
    }
  }

  lemma BindingKeepsPhase(w: World, id: string, binding: Binding, phase: Phase)
    requires PhaseOk(w, phase) && id !in w.bindings
    ensures PhaseOk(w.(bindings := w.bindings[id := binding]), phase)
  {
  }

  lemma SubmitKeepsInv(s: State, c: Client, job: Job)
    requires Inv(s)
    ensures Inv(SubmitStep(s, c, job))
  {
    var s' := SubmitStep(s, c, job);
    assert InLock(PhaseOf(s, c)) <==> s.holder == Some(c);
    if s' != s {
      if s'.world != s.world {
        var id := job.command.value.id;
        var binding := Binding(job.effect, job.command.value);
        BindingKeepsWorld(s.world, id, binding);
        forall d: Client
          ensures PhaseOk(s'.world, PhaseOf(s, d))
        {
          BindingKeepsPhase(s.world, id, binding, PhaseOf(s, d));
        }
      }
      ClientStep(s, s', c, Bound(job));
    }
  }

  lemma AcquireKeepsInv(s: State, c: Client)
    requires Inv(s)
    ensures Inv(AcquireStep(s, c))
  {
    var s' := AcquireStep(s, c);
    assert PhaseOk(s.world, PhaseOf(s, c));
    if s' != s {
      ClientStep(s, s', c, Locked(PhaseOf(s, c).job));
    }
  }

  lemma LeaveKeepsInv(s: State, c: Client)
    requires Inv(s)
    ensures Inv(Leave(s, c))
  {
    ClientStep(s, Leave(s, c), c, Idle);
  }

  lemma BarrierKeepsInv(s: State, c: Client)
    requires Inv(s)
    ensures Inv(BarrierStep(s, c))
  {
    var phase := PhaseOf(s, c);
    assert PhaseOk(s.world, phase) && (InLock(phase) <==> s.holder == Some(c));
    LeaveKeepsInv(s, c);
    if phase.Locked? && Unresolved(s.world.rows) == {} {
      ClientStep(s, BarrierStep(s, c), c, Cleared(phase.job));
    }
  }

  lemma RowWriteKeepsHistory(w: World, e: EffectId, row: Row)
    requires HistoryOk(w)
    requires w.starts[e] == 1 ==> IsDispatched(row.state)
    requires row.state.Committed? ==> w.completions[e] == 1 && e in w.returned && row.result == Some(w.returned[e].digest)
    ensures HistoryOk(w.(rows := w.rows[e := row]))
  {
    var w' := w.(rows := w.rows[e := row]);
    forall x ensures EffectOk(w', x) {
      assert EffectOk(w, x);
    }
  }

  /** Writing one row that is not committed, along its life or fresh, keeps the tables consistent. */
  lemma RowWriteKeepsWorld(w: World, e: EffectId, row: Row)
    requires WorldOk(w)
    requires e in w.rows ==> !w.rows[e].state.Committed? && row.cut == w.rows[e].cut
    requires e !in w.rows && e.Coordination? ==>
      && e.command in w.bindings
      && row.cut.request == w.bindings[e.command].command.request
      && row.cut.currentness == w.bindings[e.command].command.permit
    requires IsUnresolved(row.state) ==> OnlyUnresolved(w.rows, e)
    requires w.starts[e] == 1 ==> IsDispatched(row.state)
    requires row.state.Committed? ==> w.completions[e] == 1 && e in w.returned && row.result == Some(w.returned[e].digest)
    ensures WorldOk(w.(rows := w.rows[e := row])) && Extends(w, w.(rows := w.rows[e := row]))
  {
    var w' := w.(rows := w.rows[e := row]);
    RowWriteKeepsHistory(w, e, row);
    assert Extends(w, w') && ResultsOk(w');
  }

  /** A reservation for a bound job. */
  lemma ReservationKeepsWorld(w: World, job: Job, rows: Rows)
    requires WorldOk(w) && JobOk(w, job) && OnlyUnresolved(w.rows, job.effect)
    requires ReserveRow(w.rows, job.effect, job.cut) == Ok(rows)
    ensures WorldOk(w.(rows := rows)) && Extends(w, w.(rows := rows)) && Owns(w.(rows := rows), job)
  {
    if job.effect in w.rows {
      assert w.(rows := rows) == w;
    } else {
      assert EffectOk(w, job.effect);
      RowWriteKeepsWorld(w, job.effect, Row(job.cut, Reserved, None, None));
    }
  }

  lemma ReserveKeepsInv(s: State, c: Client)
    requires Inv(s)
    ensures Inv(ReserveStep(s, c))
  {
    var phase := PhaseOf(s, c);
    assert PhaseOk(s.world, phase) && (InLock(phase) <==> s.holder == Some(c));
    LeaveKeepsInv(s, c);
    if phase.Cleared? && ReserveRow(s.world.rows, phase.job.effect, phase.job.cut).Ok? {
      assert forall x :: x in s.world.rows && IsUnresolved(s.world.rows[x].state) ==> x in Unresolved(s.world.rows);
      ReservationKeepsWorld(s.world, phase.job, ReserveRow(s.world.rows, phase.job.effect, phase.job.cut).value);
      ClientStep(s, ReserveStep(s, c), c, Holding(phase.job));
    }
  }

  lemma RecheckKeepsInv(s: State, c: Client)
    requires Inv(s)
    ensures Inv(RecheckStep(s, c))
  {
    var phase := PhaseOf(s, c);
    assert PhaseOk(s.world, phase) && (InLock(phase) <==> s.holder == Some(c));
    LeaveKeepsInv(s, c);
    if phase.Holding? && ReserveRow(s.world.rows, phase.job.effect, phase.job.cut).Ok? {
      ReservationKeepsWorld(s.world, phase.job, ReserveRow(s.world.rows, phase.job.effect, phase.job.cut).value);
      ClientStep(s, RecheckStep(s, c), c, Rechecked(phase.job));
    }
  }

  lemma ClaimKeepsInv(s: State, c: Client)
    requires Inv(s)
    ensures Inv(ClaimStep(s, c))
  {
    var phase := PhaseOf(s, c);
    assert PhaseOk(s.world, phase) && (InLock(phase) <==> s.holder == Some(c));
    LeaveKeepsInv(s, c);
    if phase.Rechecked? && ClaimRow(s.world.rows, phase.job.effect).Ok? {
      assert EffectOk(s.world, phase.job.effect);
      RowWriteKeepsWorld(s.world, phase.job.effect, s.world.rows[phase.job.effect].(state := Executing));
      ClientStep(s, ClaimStep(s, c), c, Claimed(phase.job));
    }
  }

  lemma StartKeepsInv(s: State, c: Client)
    requires Inv(s)
    ensures Inv(StartStep(s, c))
  {
    var phase := PhaseOf(s, c);
    assert PhaseOk(s.world, phase) && (InLock(phase) <==> s.holder == Some(c));
    if phase.Claimed? {
      assert EffectOk(s.world, phase.job.effect);
      HistoryWrite(s.world, StartStep(s, c).world, phase.job.effect);
      ClientStep(s, StartStep(s, c), c, Running(phase.job));
    }
  }

  lemma ReturnKeepsInv(s: State, c: Client, value: Value, written: set<(string, nat)>)
    requires Inv(s)
    ensures Inv(ReturnStep(s, c, value, written))
  {
    var phase := PhaseOf(s, c);
    assert PhaseOk(s.world, phase) && (InLock(phase) <==> s.holder == Some(c));
    if phase.Running? {
      assert EffectOk(s.world, phase.job.effect);
      HistoryWrite(s.world, ReturnStep(s, c, value, written).world, phase.job.effect);
      ClientStep(s, ReturnStep(s, c, value, written), c, Returned(phase.job, value));
    }
  }

  lemma RaiseKeepsInv(s: State, c: Client, completed: bool, written: set<(string, nat)>)
    requires Inv(s)
    ensures Inv(RaiseStep(s, c, completed, written))
  {
    var phase := PhaseOf(s, c);
    assert PhaseOk(s.world, phase) && (InLock(phase) <==> s.holder == Some(c));
    if phase.Running? {
      assert EffectOk(s.world, phase.job.effect);
      HistoryWrite(s.world, RaiseStep(s, c, completed, written).world, phase.job.effect);
      ClientStep(s, RaiseStep(s, c, completed, written), c, Raised(phase.job));
    }
  }

  lemma SettleKeepsInv(s: State, c: Client)
    requires Inv(s)
    ensures Inv(SettleStep(s, c))
  {
    var phase := PhaseOf(s, c);
    assert PhaseOk(s.world, phase) && (InLock(phase) <==> s.holder == Some(c));
    LeaveKeepsInv(s, c);
    if phase.Returned? && SettleRow(s.world.rows, phase.job.effect, Some(phase.value.digest), true).Ok? {
      var row := s.world.rows[phase.job.effect];
      assert EffectOk(s.world, phase.job.effect);
      RowWriteKeepsWorld(s.world, phase.job.effect, row.(state := Committed, result := Some(phase.value.digest)));
      ClientStep(s, SettleStep(s, c), c, Settled(phase.job, phase.value));
    } else if phase.Raised? && SettleRow(s.world.rows, phase.job.effect, None, false).Ok? {
      var row := s.world.rows[phase.job.effect];
      assert EffectOk(s.world, phase.job.effect);
      RowWriteKeepsWorld(s.world, phase.job.effect, row.(state := AttemptedUnknown, result := None));
      ClientStep(s, SettleStep(s, c), c, Idle);
    }
  }

  lemma ReleaseKeepsInv(s: State, c: Client)
    requires Inv(s)
    ensures Inv(ReleaseStep(s, c))
  {
    var phase := PhaseOf(s, c);
    assert PhaseOk(s.world, phase) && (InLock(phase) <==> s.holder == Some(c));
    LeaveKeepsInv(s, c);
    if phase.Settled? && phase.job.command.Some? && phase.value.receipt.Some? {
      ClientStep(s, ReleaseStep(s, c), c, Journaling(phase.job, phase.value));
    }
  }

  /** A history that differs in one effect only. */
  lemma HistoryWrite(w: World, w': World, e: EffectId)
    requires HistoryOk(w) && EffectOk(w', e) && w'.rows == w.rows
    requires forall x :: x != e ==> w'.starts[x] == w.starts[x] && w'.completions[x] == w.completions[x]
    requires forall x :: x != e && x in w.returned ==> x in w'.returned && w'.returned[x] == w.returned[x]
    ensures HistoryOk(w')
  {
    forall x ensures EffectOk(w', x) {
      assert EffectOk(w, x);
    }
  }

  lemma ResultKeepsWorld(w: World, id: string, value: Value)
    requires WorldOk(w) && value.receipt.Some? && id in w.bindings
    requires CommittedWith(w, Coordination(id), value)
    ensures var w' := w.(results := w.results[id := JournalResult(value.digest, value.receipt.value)]);
            WorldOk(w') && Extends(w, w')
  {
    var w' := w.(results := w.results[id := JournalResult(value.digest, value.receipt.value)]);
    forall x ensures EffectOk(w', x) {
      assert EffectOk(w, x);
    }
  }

  lemma RecordKeepsInv(s: State, c: Client)
    requires Inv(s)
    ensures Inv(RecordStep(s, c))
  {
    var phase := PhaseOf(s, c);
    var s' := RecordStep(s, c);
    assert PhaseOk(s.world, phase) && (InLock(phase) <==> s.holder == Some(c));
    if s' == s {
    } else if s'.world == s.world {
      LeaveKeepsInv(s, c);
    } else {
      ResultKeepsWorld(s.world, phase.job.command.value.id, phase.value);
      forall d: Client
        ensures PhaseOk(s'.world, PhaseOf(s, d))
      {
        assert PhaseOk(s.world, PhaseOf(s, d));
      }
      ClientStep(s, s', c, Idle);
    }
  }

  /** A table change made by an operator: every client must keep what it knows. */
  lemma OperatorStep(s: State, s': State)
    requires Inv(s) && WorldOk(s'.world)
    requires s'.phases == s.phases && s'.holder == s.holder
    requires forall d: Client :: PhaseOk(s'.world, PhaseOf(s, d))
    ensures Inv(s')
  {
    forall d: Client
      ensures PhaseOf(s', d) == PhaseOf(s, d)
      ensures InLock(PhaseOf(s', d)) <==> s'.holder == Some(d)
    {
      assert InLock(PhaseOf(s, d)) <==> s.holder == Some(d);
    }
  }

  lemma CancelKeepsInv(s: State, e: EffectId)
    requires Inv(s)
    ensures Inv(CancelStep(s, e))
  {
    var s' := CancelStep(s, e);
    if s' != s {
      assert EffectOk(s.world, e);
      RowWriteKeepsWorld(s.world, e, s'.world.rows[e]);
      forall d: Client
        ensures PhaseOk(s'.world, PhaseOf(s, d))
      {
        assert PhaseOk(s.world, PhaseOf(s, d));
      }
      OperatorStep(s, s');
    }
  }

  lemma ReconcileKeepsInv(s: State, e: EffectId, occurred: bool, result: Option<Digest>, evidence: Digest)
    requires Inv(s)
    ensures Inv(ReconcileStep(s, e, occurred, result, evidence))
  {
    var s' := ReconcileStep(s, e, occurred, result, evidence);
    if s' != s {
      assert EffectOk(s.world, e);
      RowWriteKeepsWorld(s.world, e, s'.world.rows[e]);
      forall d: Client
        ensures PhaseOk(s'.world, PhaseOf(s, d))
      {
        assert PhaseOk(s.world, PhaseOf(s, d)) && (InLock(PhaseOf(s, d)) <==> s.holder == Some(d));
      }
      OperatorStep(s, s');
    }
  }

  lemma StepKeepsInv(s: State, a: Action)
    requires Inv(s)
    ensures Inv(Step(s, a))
  {
    match a
    case Submit(c, job) => SubmitKeepsInv(s, c, job);
    case Acquire(c) => AcquireKeepsInv(s, c);
    case CheckBarrier(c) => BarrierKeepsInv(s, c);
    case Reserve(c) => ReserveKeepsInv(s, c);
    case Recheck(c) => RecheckKeepsInv(s, c);
    case Claim(c) => ClaimKeepsInv(s, c);
    case Start(c) => StartKeepsInv(s, c);
    case Return(c, value, written) => ReturnKeepsInv(s, c, value, written);
    case Raise(c, completed, written) => RaiseKeepsInv(s, c, completed, written);
    case Settle(c) => SettleKeepsInv(s, c);
    case Release(c) => ReleaseKeepsInv(s, c);
    case Record(c) => RecordKeepsInv(s, c);
    case Abort(c) => LeaveKeepsInv(s, c);
    case Cancel(e) => CancelKeepsInv(s, e);
    case Reconcile(e, occurred, result, evidence) => ReconcileKeepsInv(s, e, occurred, result, evidence);
  }

  /** Every reachable state satisfies the invariant, whatever clients, crashes and operators do. */
  lemma {:induction false} RunsKeepInv(actions: seq<Action>)
    ensures Inv(Exec(actions))
  {
    if actions == [] {
    } else {
      RunsKeepInv(actions[..|actions| - 1]);
      StepKeepsInv(Exec(actions[..|actions| - 1]), actions[|actions| - 1]);
    }
  }
}
