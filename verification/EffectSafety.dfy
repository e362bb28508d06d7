/** Safety of outbound effects over whole runs: at most one start, the barrier, and reconciliation. */
module EffectSafety {
  import opened Wrappers
  import opened EffectFence
  import opened EffectProtocol
  import opened EffectInvariant

  /** In every run the callback of an effect starts at most once, completes at most as often as it
      starts, and never starts for an effect that is reserved or cancelled. */
  lemma StartsAtMostOnce(actions: seq<Action>, e: EffectId)
    ensures var w := Exec(actions).world;
            && w.completions[e] <= w.starts[e] <= 1
            && (w.starts[e] == 1 ==> e in w.rows && IsDispatched(w.rows[e].state))
  {
    RunsKeepInv(actions);
    assert EffectOk(Exec(actions).world, e);
  }

  /** A row in a final state keeps that state and its result. */
  predicate IsFinal(state: EffectState) {
    !IsUnresolved(state)
  }

  ghost predicate RowKept(s: State, s': State, e: EffectId) {
    e in s.world.rows ==> e in s'.world.rows && s'.world.rows[e] == s.world.rows[e]
  }

  lemma ReserveKeepsRow(s: State, c: Client, e: EffectId)
    ensures RowKept(s, ReserveStep(s, c), e) && RowKept(s, RecheckStep(s, c), e)
  {
  }

  predicate Claims(s: State, a: Action, e: EffectId) {
    && a.Claim? && PhaseOf(s, a.client).Rechecked? && PhaseOf(s, a.client).job.effect == e
    && e in s.world.rows && s.world.rows[e].state.Reserved?
  }

  lemma ClaimMovesRow(s: State, c: Client, e: EffectId)
    ensures RowKept(s, ClaimStep(s, c), e) || Claims(s, Claim(c), e)
    ensures Claims(s, Claim(c), e) ==> e in Unresolved(ClaimStep(s, c).world.rows)
  {
  }

  predicate Settles(s: State, a: Action, e: EffectId) {
    && a.Settle?
    && (PhaseOf(s, a.client).Returned? || PhaseOf(s, a.client).Raised?)
    && PhaseOf(s, a.client).job.effect == e
  }

  lemma SettleMovesRow(s: State, c: Client, e: EffectId)
    ensures RowKept(s, SettleStep(s, c), e)
         || (Settles(s, Settle(c), e) && e in s.world.rows && s.world.rows[e].state.Executing? && e in SettleStep(s, c).world.rows)
  {
  }

  lemma CancelMovesRow(s: State, x: EffectId, e: EffectId)
    ensures RowKept(s, CancelStep(s, x), e)
         || (x == e && e in s.world.rows && s.world.rows[e].state.Reserved? && e in CancelStep(s, x).world.rows)
  {
  }

  lemma ReconcileMovesRow(s: State, x: EffectId, occurred: bool, result: Option<Digest>, evidence: Digest, e: EffectId)
    ensures var s' := ReconcileStep(s, x, occurred, result, evidence);
            RowKept(s, s', e) || (x == e && e in s.world.rows && IsUnresolved(s.world.rows[e].state) && e in s'.world.rows)
  {
  }

  lemma OthersKeepRows(s: State, a: Action)
    requires a.Submit? || a.Acquire? || a.CheckBarrier? || a.Start? || a.Return? || a.Raise? || a.Release? || a.Record? || a.Abort?
    ensures Step(s, a).world.rows == s.world.rows
  {
  }

  /** What an action may do to a row: only the claim, the settlement, the cancellation and the
      reconciliation of that effect move it, and only while it is unresolved. */
  ghost predicate Moves(s: State, a: Action, e: EffectId) {
    Claims(s, a, e) || Settles(s, a, e) || a == Cancel(e) || (a.Reconcile? && a.effect == e)
  }

  lemma RowStep(s: State, a: Action, e: EffectId)
    ensures RowKept(s, Step(s, a), e) || (Moves(s, a, e) && IsUnresolved(s.world.rows[e].state))
    ensures Claims(s, a, e) ==> e in Unresolved(Step(s, a).world.rows)
  {
    match a
    case Reserve(c) => ReserveKeepsRow(s, c, e);
    case Recheck(c) => ReserveKeepsRow(s, c, e);
    case Claim(c) => ClaimMovesRow(s, c, e);
    case Settle(c) => SettleMovesRow(s, c, e);
    case Cancel(x) => CancelMovesRow(s, x, e);
    case Reconcile(x, occurred, result, evidence) => ReconcileMovesRow(s, x, occurred, result, evidence, e);
    case _ => OthersKeepRows(s, a);
  }

  lemma RowStays(s: State, a: Action, e: EffectId)
    requires e in s.world.rows
    ensures e in Step(s, a).world.rows
  {
    match a
    case Reserve(c) => ReserveKeepsRow(s, c, e);
    case Recheck(c) => ReserveKeepsRow(s, c, e);
    case Claim(c) => ClaimMovesRow(s, c, e);
    case Settle(c) => SettleMovesRow(s, c, e);
    case Cancel(x) => CancelMovesRow(s, x, e);
    case Reconcile(x, occurred, result, evidence) => ReconcileMovesRow(s, x, occurred, result, evidence, e);
    case _ => OthersKeepRows(s, a);
  }

  lemma FinalRowStep(s: State, a: Action, e: EffectId)
    requires e in s.world.rows && IsFinal(s.world.rows[e].state)
    ensures e in Step(s, a).world.rows && Step(s, a).world.rows[e] == s.world.rows[e]
  {
    RowStep(s, a, e);
  }

  lemma {:induction false} FinalRowsStay(s: State, actions: seq<Action>, e: EffectId)
    requires e in s.world.rows && IsFinal(s.world.rows[e].state)
    ensures e in ExecFrom(s, actions).world.rows && ExecFrom(s, actions).world.rows[e] == s.world.rows[e]
  {
    if actions != [] {
      var n := |actions| - 1;
      FinalRowsStay(s, actions[..n], e);
      FinalRowStep(ExecFrom(s, actions[..n]), actions[n], e);
    }
  }

  predicate WritesRows(a: Action) {
    a.Reserve? || a.Recheck? || a.Claim? || a.Settle? || a.Cancel? || a.Reconcile?
  }

  lemma OnlyRowsReserved(s: State, c: Client)
    ensures ReserveStep(s, c).world == s.world.(rows := ReserveStep(s, c).world.rows)
    ensures RecheckStep(s, c).world == s.world.(rows := RecheckStep(s, c).world.rows)
  {
  }

  lemma OnlyRowsClaimed(s: State, c: Client)
    ensures ClaimStep(s, c).world == s.world.(rows := ClaimStep(s, c).world.rows)
  {
  }

  lemma OnlyRowsSettled(s: State, c: Client)
    ensures SettleStep(s, c).world == s.world.(rows := SettleStep(s, c).world.rows)
  {
  }

  /** Fence transactions write rows and nothing else. */
  lemma OnlyRowsWritten(s: State, a: Action)
    requires WritesRows(a)
    ensures Step(s, a).world == s.world.(rows := Step(s, a).world.rows)
  {
    match a
    case Reserve(c) => OnlyRowsReserved(s, c);
    case Recheck(c) => OnlyRowsReserved(s, c);
    case Claim(c) => OnlyRowsClaimed(s, c);
    case Settle(c) => OnlyRowsSettled(s, c);
    case Cancel(e) =>
    case Reconcile(e, o, r, v) =>
  }

  lemma JournalStartsNothing(s: State, c: Client, job: Job)
    ensures SubmitStep(s, c, job).world.starts == s.world.starts && RecordStep(s, c).world.starts == s.world.starts
  {
  }

  /** A callback starts only from a claimed dispatch. */
  lemma StartsOnlyFromClaim(s: State, a: Action, e: EffectId)
    ensures Step(s, a).world.starts[e] > s.world.starts[e]
            ==> a.Start? && PhaseOf(s, a.client).Claimed? && PhaseOf(s, a.client).job.effect == e
    ensures Step(s, a).world.starts[e] >= s.world.starts[e]
  {
    if WritesRows(a) {
      OnlyRowsWritten(s, a);
    } else if a.Submit? {
      JournalStartsNothing(s, a.client, a.job);
    }
  }

  lemma ClaimEntersClaimed(s: State, c: Client, d: Client)
    requires PhaseOf(ClaimStep(s, c), d).Claimed?
    ensures var job := PhaseOf(ClaimStep(s, c), d).job;
            PhaseOf(s, d) == Claimed(job) || (job.effect in s.world.rows && s.world.rows[job.effect].state.Reserved?)
  {
  }

  lemma OthersClaimNothing(s: State, a: Action, c: Client)
    requires !a.Claim? && PhaseOf(Step(s, a), c).Claimed?
    ensures PhaseOf(s, c) == PhaseOf(Step(s, a), c)
  {
    match a
    case Reserve(d) => assert PhaseOf(ReserveStep(s, d), c).Claimed?;
    case Recheck(d) => assert PhaseOf(RecheckStep(s, d), c).Claimed?;
    case Settle(d) => assert PhaseOf(SettleStep(s, d), c).Claimed?;
    case Cancel(e) => assert PhaseOf(CancelStep(s, e), c).Claimed?;
    case Reconcile(e, o, r, v) => assert PhaseOf(ReconcileStep(s, e, o, r, v), c).Claimed?;
    case Submit(d, job) => assert PhaseOf(SubmitStep(s, d, job), c).Claimed?;
    case Record(d) => assert PhaseOf(RecordStep(s, d), c).Claimed?;
    case _ =>
  }

  /** A dispatch is claimed only on a reserved row. */
  lemma ClaimsOnlyReserved(s: State, a: Action, c: Client)
    requires PhaseOf(Step(s, a), c).Claimed?
    ensures var job := PhaseOf(Step(s, a), c).job;
            PhaseOf(s, c) == Claimed(job) || (job.effect in s.world.rows && s.world.rows[job.effect].state.Reserved?)
  {
    if a.Claim? {
      ClaimEntersClaimed(s, a.client, c);
    } else {
      OthersClaimNothing(s, a, c);
    }
  }

  /** Once cancelled, an effect stays cancelled and its callback never starts, whatever follows. */
  lemma CancelledNeverStarts(actions: seq<Action>, later: seq<Action>, e: EffectId)
    requires e in Exec(actions).world.rows && Exec(actions).world.rows[e].state.CancelledPreDispatch?
    ensures var w := Exec(actions + later).world;
            e in w.rows && w.rows[e].state.CancelledPreDispatch? && w.starts[e] == 0
  {
    ExecSplits(INITIAL, actions, later);
    FinalRowsStay(Exec(actions), later, e);
    StartsAtMostOnce(actions + later, e);
  }

  /** The barrier: never two unresolved effects, in any reachable state. */
  lemma AtMostOneUnresolved(actions: seq<Action>, x: EffectId, y: EffectId)
    requires x in Unresolved(Exec(actions).world.rows) && y in Unresolved(Exec(actions).world.rows)
    ensures x == y
  {
    RunsKeepInv(actions);
    assert OnlyUnresolved(Exec(actions).world.rows, x);
  }

  /** While one effect is unresolved no other callback starts, and no two callbacks ever overlap. */
  lemma BarrierBlocksOthers(actions: seq<Action>, a: Action, x: EffectId, e: EffectId)
    requires x in Unresolved(Exec(actions).world.rows)
    requires Exec(actions + [a]).world.starts[e] > Exec(actions).world.starts[e]
    ensures e == x
    ensures forall c: Client :: !PhaseOf(Exec(actions), c).Running?
  {
    var s := Exec(actions);
    RunsKeepInv(actions);
    ExecThen(actions, a);
    StartsOnlyFromClaim(s, a, e);
    assert PhaseOk(s.world, PhaseOf(s, a.client));
    forall c: Client ensures !PhaseOf(s, c).Running? {
      assert InLock(PhaseOf(s, c)) <==> s.holder == Some(c);
      assert InLock(PhaseOf(s, a.client)) <==> s.holder == Some(a.client);
    }
  }

  /** Only settlement, cancellation or reconciliation of the effect itself lifts its barrier. */
  lemma OnlyTheseLift(s: State, a: Action, e: EffectId)
    requires e in Unresolved(s.world.rows) && e !in Unresolved(Step(s, a).world.rows)
    ensures Settles(s, a, e) || a == Cancel(e) || (a.Reconcile? && a.effect == e)
  {
    RowStep(s, a, e);
  }

  /** Resolved, and with no client between its dispatch claim and its callback, an effect never starts again. */
  ghost predicate Quiet(s: State, e: EffectId) {
    && e in s.world.rows
    && IsFinal(s.world.rows[e].state)
    && forall c: Client :: PhaseOf(s, c).Claimed? ==> PhaseOf(s, c).job.effect != e
  }

  lemma QuietStep(s: State, a: Action, e: EffectId)
    requires Quiet(s, e)
    ensures Quiet(Step(s, a), e) && Step(s, a).world.starts[e] == s.world.starts[e]
  {
    FinalRowStep(s, a, e);
    StartsOnlyFromClaim(s, a, e);
    var s' := Step(s, a);
    forall c: Client | PhaseOf(s', c).Claimed?
      ensures PhaseOf(s', c).job.effect != e
    {
      ClaimsOnlyReserved(s, a, c);
    }
  }

  lemma {:induction false} QuietRun(s: State, actions: seq<Action>, e: EffectId)
    requires Quiet(s, e)
    ensures Quiet(ExecFrom(s, actions), e) && ExecFrom(s, actions).world.starts[e] == s.world.starts[e]
  {
    if actions != [] {
      var n := |actions| - 1;
      QuietRun(s, actions[..n], e);
      QuietStep(ExecFrom(s, actions[..n]), actions[n], e);
    }
  }

  /** A resolved effect can still start exactly when some client has claimed it and not yet called back. */
  lemma StartsAfterResolution(actions: seq<Action>, e: EffectId)
    requires e in Exec(actions).world.rows && IsFinal(Exec(actions).world.rows[e].state)
    ensures (exists later :: Exec(actions + later).world.starts[e] > Exec(actions).world.starts[e])
            <==> (exists c: Client :: PhaseOf(Exec(actions), c).Claimed? && PhaseOf(Exec(actions), c).job.effect == e)
  {
    var s := Exec(actions);
    if c: Client :| PhaseOf(s, c).Claimed? && PhaseOf(s, c).job.effect == e {
      ExecThen(actions, Start(c));
      assert Exec(actions + [Start(c)]).world.starts[e] == s.world.starts[e] + 1;
    } else {
      forall later
        ensures Exec(actions + later).world.starts[e] == s.world.starts[e]
      {
        ExecSplits(INITIAL, actions, later);
        QuietRun(s, later, e);
      }
    }
  }

  /** PC and provider effects never start after they are resolved, since reconciliation waits for
      the trust lock that their dispatch holds. */
  lemma TrustGuardedNeverStartsLate(actions: seq<Action>, later: seq<Action>, e: EffectId)
    requires !e.Coordination?
    requires e in Exec(actions).world.rows && IsFinal(Exec(actions).world.rows[e].state)
    ensures Exec(actions + later).world.starts[e] == Exec(actions).world.starts[e]
  {
    var s := Exec(actions);
    RunsKeepInv(actions);
    forall c: Client | PhaseOf(s, c).Claimed?
      ensures PhaseOf(s, c).job.effect != e
    {
      assert PhaseOk(s.world, PhaseOf(s, c));
    }
    ExecSplits(INITIAL, actions, later);
    QuietRun(s, later, e);
  }

  /** One client, one coordination job, nothing else: the states of the run below. */
  function Solo(job: Job, rows: Rows, phase: Phase, holder: Option<Client>): State
    requires job.command.Some?
  {
    State(World(rows, map[job.command.value.id := Binding(job.effect, job.command.value)],
                map[], {}, multiset{}, multiset{}, map[]),
          map[0 := phase], holder)
  }

  lemma SoloSteps(job: Job)
    requires job.command.Some? && WellFormed(job)
    ensures var reserved := map[job.effect := Row(job.cut, Reserved, None, None)];
            var executing := map[job.effect := Row(job.cut, Executing, None, None)];
            && Step(INITIAL, Submit(0, job)) == Solo(job, map[], Bound(job), None)
            && Step(Solo(job, map[], Bound(job), None), Acquire(0)) == Solo(job, map[], Locked(job), Some(0))
            && Step(Solo(job, map[], Locked(job), Some(0)), CheckBarrier(0)) == Solo(job, map[], Cleared(job), Some(0))
            && Step(Solo(job, map[], Cleared(job), Some(0)), Reserve(0)) == Solo(job, reserved, Holding(job), Some(0))
            && Step(Solo(job, reserved, Holding(job), Some(0)), Recheck(0)) == Solo(job, reserved, Rechecked(job), Some(0))
            && Step(Solo(job, reserved, Rechecked(job), Some(0)), Claim(0)) == Solo(job, executing, Claimed(job), Some(0))
  {
  }

  lemma SoloClaims(job: Job)
    requires job.command.Some? && WellFormed(job)
    ensures Exec([Submit(0, job), Acquire(0), CheckBarrier(0), Reserve(0), Recheck(0), Claim(0)])
            == Solo(job, map[job.effect := Row(job.cut, Executing, None, None)], Claimed(job), Some(0))
  {
    SoloSteps(job);
    var claim := [Submit(0, job), Acquire(0), CheckBarrier(0), Reserve(0), Recheck(0), Claim(0)];
    forall k | 0 <= k < 6
      ensures Exec(claim[..k + 1]) == Step(Exec(claim[..k]), claim[k])
    {
      assert claim[..k + 1] == claim[..k] + [claim[k]];
      ExecThen(claim[..k], claim[k]);
    }
    assert Exec(claim[..0]) == INITIAL;
    assert Exec(claim[..2]) == Solo(job, map[], Locked(job), Some(0));
    assert Exec(claim[..4]) == Solo(job, map[job.effect := Row(job.cut, Reserved, None, None)], Holding(job), Some(0));
    assert claim[..6] == claim;
  }

  /** For a coordination effect the same statement is false: the recovery operator does not take the
      action lock, so a callback can start after its effect was reconciled as not having happened. */
  lemma CoordinationMayStartLate(job: Job, evidence: Digest)
    requires job.command.Some? && WellFormed(job)
    ensures var actions := [Submit(0, job), Acquire(0), CheckBarrier(0), Reserve(0), Recheck(0), Claim(0)]
                           + [Reconcile(job.effect, false, None, evidence)];
            && job.effect in Exec(actions).world.rows
            && Exec(actions).world.rows[job.effect].state.ReconciledNoEffect?
            && Exec(actions).world.starts[job.effect] == 0
            && Exec(actions + [Start(0)]).world.starts[job.effect] == 1
  {
    var claim := [Submit(0, job), Acquire(0), CheckBarrier(0), Reserve(0), Recheck(0), Claim(0)];
    var actions := claim + [Reconcile(job.effect, false, None, evidence)];
    SoloClaims(job);
    ExecThen(claim, Reconcile(job.effect, false, None, evidence));
    ExecThen(actions, Start(0));
  }
}
