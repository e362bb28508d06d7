/** Why a row is in the state it is in: the one kind of step that put it there. */
module EffectOrigins {
  import opened Wrappers
  import opened EffectFence
  import opened EffectProtocol
  import opened EffectSafety

  /** The client's callback for `e` has returned `value` and it settles now. */
  predicate Completes(s: State, a: Action, e: EffectId, digest: Digest) {
    && a.Settle? && PhaseOf(s, a.client).Returned?
    && PhaseOf(s, a.client).job.effect == e && PhaseOf(s, a.client).value.digest == digest
  }

  predicate GivesUp(s: State, a: Action, e: EffectId) {
    a.Settle? && PhaseOf(s, a.client).Raised? && PhaseOf(s, a.client).job.effect == e
  }

  /** The action that may bring a row into the state, result and evidence it has now. */
  ghost predicate BroughtBy(s: State, a: Action, e: EffectId, row: Row) {
    match row.state
    case Reserved => (a.Reserve? || a.Recheck?) && e !in s.world.rows
    case Executing => a.Claim? && e in s.world.rows && s.world.rows[e].state == Reserved
    case Committed => row.result.Some? && Completes(s, a, e, row.result.value)
    case AttemptedUnknown => row.result.None? && GivesUp(s, a, e)
    case CancelledPreDispatch => a == Cancel(e) && e in s.world.rows && s.world.rows[e].state == Reserved
    case ReconciledCommitted => a.Reconcile? && a.effect == e && a.occurred && a.result.Some? && Reconciled(s, a, e, row)
    case ReconciledNoEffect => a.Reconcile? && a.effect == e && !a.occurred && a.result.None? && Reconciled(s, a, e, row)
  }

  ghost predicate Reconciled(s: State, a: Action, e: EffectId, row: Row)
    requires a.Reconcile?
  {
    && row.result == a.result && row.reconciliation == Some(a.evidence)
    && e in s.world.rows && s.world.rows[e].state in {Executing, AttemptedUnknown}
  }

  /** The row is as before, or the action brought it where it is. */
  ghost predicate Explained(s: State, a: Action, s': State, e: EffectId) {
    e in s'.world.rows ==>
      (e in s.world.rows && s'.world.rows[e] == s.world.rows[e]) || BroughtBy(s, a, e, s'.world.rows[e])
  }

  lemma ReserveExplained(s: State, c: Client, e: EffectId)
    ensures Explained(s, Reserve(c), ReserveStep(s, c), e) && Explained(s, Recheck(c), RecheckStep(s, c), e)
  {
  }

  lemma ClaimExplained(s: State, c: Client, e: EffectId)
    ensures Explained(s, Claim(c), ClaimStep(s, c), e)
  {
  }

  lemma SettleExplained(s: State, c: Client, e: EffectId)
    ensures Explained(s, Settle(c), SettleStep(s, c), e)
  {
  }

  lemma CancelExplained(s: State, x: EffectId, e: EffectId)
    ensures Explained(s, Cancel(x), CancelStep(s, x), e)
  {
  }

  lemma ReconcileExplained(s: State, x: EffectId, occurred: bool, result: Option<Digest>, evidence: Digest, e: EffectId)
    ensures Explained(s, Reconcile(x, occurred, result, evidence), ReconcileStep(s, x, occurred, result, evidence), e)
  {
  }

  lemma StepExplained(s: State, a: Action, e: EffectId)
    ensures Explained(s, a, Step(s, a), e)
  {
    match a
    case Reserve(c) => ReserveExplained(s, c, e);
    case Recheck(c) => ReserveExplained(s, c, e);
    case Claim(c) => ClaimExplained(s, c, e);
    case Settle(c) => SettleExplained(s, c, e);
    case Cancel(x) => CancelExplained(s, x, e);
    case Reconcile(x, occurred, result, evidence) => ReconcileExplained(s, x, occurred, result, evidence, e);
    case _ => OthersKeepRows(s, a);
  }

  /** Every row of every run was brought into its present state by one step of that run: committed by a
      settlement of the value that the callback returned, unknown by a settlement after it raised,
      cancelled from its reservation, reconciled by a reconciliation with that very verdict, result and
      evidence. */
  lemma {:induction false} RowOrigin(actions: seq<Action>, e: EffectId)
    requires e in Exec(actions).world.rows
    ensures exists i :: 0 <= i < |actions| && BroughtBy(Exec(actions[..i]), actions[i], e, Exec(actions).world.rows[e])
  {
    if actions != [] {
      var n := |actions| - 1;
      var before, row := Exec(actions[..n]), Exec(actions).world.rows[e];
      StepExplained(before, actions[n], e);
      if e in before.world.rows && before.world.rows[e] == row {
        RowOrigin(actions[..n], e);
        var i :| 0 <= i < n && BroughtBy(Exec(actions[..n][..i]), actions[..n][i], e, row);
        assert actions[..n][..i] == actions[..i];
      }
    }
  }

  /** The barrier of an effect is lifted in three ways only, and never by a callback that raised. */
  lemma LiftedOnlyBy(s: State, a: Action, e: EffectId)
    requires e in s.world.rows && s.world.rows[e].state in {Reserved, Executing, AttemptedUnknown}
    ensures e in Step(s, a).world.rows
    ensures var row := Step(s, a).world.rows[e];
            || row.state in {Reserved, Executing, AttemptedUnknown}
            || (row.state == Committed && row.result.Some? && Completes(s, a, e, row.result.value))
            || (row.state == CancelledPreDispatch && a == Cancel(e) && s.world.rows[e].state == Reserved)
            || (row.state == ReconciledCommitted && a.Reconcile? && a.effect == e && a.occurred)
            || (row.state == ReconciledNoEffect && a.Reconcile? && a.effect == e && !a.occurred)
  {
    RowStays(s, a, e);
    StepExplained(s, a, e);
  }

  /** A reconciled row bears the verdict, the result and the evidence of a reconciliation in the run. */
  lemma ReconciledByOperator(actions: seq<Action>, e: EffectId)
    requires e in Exec(actions).world.rows && Exec(actions).world.rows[e].state in {ReconciledCommitted, ReconciledNoEffect}
    ensures var row := Exec(actions).world.rows[e];
            exists i :: 0 <= i < |actions| && actions[i].Reconcile? && actions[i].effect == e
              && actions[i].occurred == (row.state == ReconciledCommitted)
              && row.result == actions[i].result && row.reconciliation == Some(actions[i].evidence)
  {
    RowOrigin(actions, e);
  }

  /** A reconciliation that meets no trusted dispatch resolves an ambiguous effect exactly when it brings
      a result for what happened and none for what did not. */
  lemma ReconciliationResolves(s: State, e: EffectId, occurred: bool, result: Option<Digest>, evidence: Digest)
    requires !TrustLockHeld(s) && e in s.world.rows && s.world.rows[e].state in {Executing, AttemptedUnknown}
    ensures e in Step(s, Reconcile(e, occurred, result, evidence)).world.rows
    ensures var row := Step(s, Reconcile(e, occurred, result, evidence)).world.rows[e];
            if occurred == result.Some?
            then row == s.world.rows[e].(state := if occurred then ReconciledCommitted else ReconciledNoEffect,
                                         result := result, reconciliation := Some(evidence))
            else row == s.world.rows[e]
  {
  }
}
