/** Classifying a coordination command after a restart, and why the classification can be trusted. */
module CommandRecovery {
  import opened Wrappers
  import opened EffectFence
  import opened EffectProtocol
  import opened EffectInvariant
  import opened EffectSafety

  datatype Assessment = Assessment(
    resultRecorded: bool,
    fenceState: Option<EffectState>,
    permitCurrent: Option<bool>,
    retryCandidateAllowed: bool,
    preDispatchCancelAllowed: bool,
    recoveryRequired: bool,
    terminal: bool)

  /** A permit is only minted while no effect is unresolved. */
  function AcceptedPermit(w: World, lifecycle: Option<Digest>): Option<Digest> {
    if Unresolved(w.rows) != {} then None else lifecycle
  }

  predicate RepositoryConsistent(w: World, receipt: Receipt) {
    if receipt.writeConfirmed then
      receipt.event.Some? && receipt.sequence.Some? && (receipt.event.value, receipt.sequence.value) in w.repository
    else receipt.event.None? && receipt.sequence.None?
  }

  /** The verdict on one command; an unbound command is a lookup error. The journal, the fence and the
      repository are read one after another, so each may be found in a later state than the one before. */
  function AssessReads(journal: World, fence: World, repository: World, id: string, accepted: Option<Digest>): Option<Assessment> {
    if id !in journal.bindings then None
    else
      var binding := journal.bindings[id];
      var current := if accepted.None? then None else Some(accepted.value == binding.command.permit);
      var state := if binding.effect in fence.rows then Some(fence.rows[binding.effect].state) else None;
      if id in journal.results then
        var matches :=
          && state.Some?
          && (state.value.Committed? || state.value.ReconciledCommitted?)
          && fence.rows[binding.effect].result == Some(journal.results[id].digest)
          && RepositoryConsistent(repository, journal.results[id].receipt);
        Some(Assessment(true, state, current, false, false, !matches, matches))
      else if state.None? then
        Some(Assessment(false, None, current, current == Some(true), false, false, false))
      else match state.value
        case Reserved => Some(Assessment(false, state, current, false, true, false, false))
        case CancelledPreDispatch => Some(Assessment(false, state, current, false, false, false, true))
        case ReconciledNoEffect => Some(Assessment(false, state, current, false, false, false, true))
        case _ => Some(Assessment(false, state, current, false, false, true, false))
  }

  function Assess(w: World, id: string, accepted: Option<Digest>): Option<Assessment> {
    AssessReads(w, w, w, id, accepted)
  }

  /** What the reads of one assessment find while other clients go on: journal, fence, permit and
      repository, with any actions in between. */
  datatype Reads = Reads(journal: World, fence: World, permit: World, repository: World)

  function ReadsOf(first: seq<Action>, second: seq<Action>, third: seq<Action>, fourth: seq<Action>): Reads {
    Reads(Exec(first).world, Exec(first + second).world, Exec(first + second + third).world, Exec(first + second + third + fourth).world)
  }

  function Verdict(r: Reads, id: string, lifecycle: Option<Digest>): Option<Assessment> {
    AssessReads(r.journal, r.fence, r.repository, id, AcceptedPermit(r.permit, lifecycle))
  }

  lemma ReadsOk(first: seq<Action>, second: seq<Action>, third: seq<Action>, fourth: seq<Action>)
    ensures var r := ReadsOf(first, second, third, fourth);
            WorldOk(r.journal) && WorldOk(r.fence) && WorldOk(r.permit) && WorldOk(r.repository)
  {
    RunsKeepInv(first);
    RunsKeepInv(first + second);
    RunsKeepInv(first + second + third);
    RunsKeepInv(first + second + third + fourth);
  }

  /** Retry and cancellation are offered only if the callback had not started when the fence was read;
      retry moreover only if nothing was unresolved, and the permit was right, when the permit was read. */
  lemma OffersAreSafe(first: seq<Action>, second: seq<Action>, third: seq<Action>, fourth: seq<Action>,
                                    id: string, lifecycle: Option<Digest>)
    requires id in Exec(first).world.bindings
    ensures var r, e := ReadsOf(first, second, third, fourth), Coordination(id);
            var a := Verdict(r, id, lifecycle).value;
            && (a.retryCandidateAllowed ==>
                  && id !in r.journal.results && e !in r.fence.rows && r.fence.starts[e] == 0
                  && Unresolved(r.permit.rows) == {} && lifecycle == Some(r.journal.bindings[id].command.permit))
            && (a.preDispatchCancelAllowed ==>
                  e in r.fence.rows && r.fence.rows[e].state.Reserved? && r.fence.starts[e] == 0)
  {
    ReadsOk(first, second, third, fourth);
    var r := ReadsOf(first, second, third, fourth);
    assert r.journal.bindings[id].effect == Coordination(id);
    assert EffectOk(r.fence, Coordination(id));
  }

  /** When each verdict is given, in terms of what the four reads found. */
  lemma VerdictExactly(first: seq<Action>, second: seq<Action>, third: seq<Action>, fourth: seq<Action>,
                       id: string, lifecycle: Option<Digest>)
    requires id in Exec(first).world.bindings
    ensures var r, e := ReadsOf(first, second, third, fourth), Coordination(id);
            var a := Verdict(r, id, lifecycle).value;
            && (a.resultRecorded <==> id in r.journal.results)
            && (a.retryCandidateAllowed <==>
                  && id !in r.journal.results && e !in r.fence.rows
                  && (forall x :: x in r.permit.rows ==> r.permit.rows[x].state !in {Reserved, Executing, AttemptedUnknown})
                  && lifecycle == Some(r.journal.bindings[id].command.permit))
            && (a.preDispatchCancelAllowed <==>
                  id !in r.journal.results && e in r.fence.rows && r.fence.rows[e].state == Reserved)
            && (a.terminal && !a.resultRecorded <==>
                  id !in r.journal.results && e in r.fence.rows && r.fence.rows[e].state in {CancelledPreDispatch, ReconciledNoEffect})
            && (a.recoveryRequired && !a.resultRecorded <==>
                  id !in r.journal.results && e in r.fence.rows
                  && r.fence.rows[e].state in {Executing, AttemptedUnknown, Committed, ReconciledCommitted})
  {
    ReadsOk(first, second, third, fourth);
    var r := ReadsOf(first, second, third, fourth);
    assert r.journal.bindings[id].effect == Coordination(id);
    assert Unresolved(r.permit.rows) == {} <==>
           forall x :: x in r.permit.rows ==> r.permit.rows[x].state !in {Reserved, Executing, AttemptedUnknown} by {
      assert forall x :: x in r.permit.rows && IsUnresolved(r.permit.rows[x].state) ==> x in Unresolved(r.permit.rows);
    }
  }

  /** The assessment also says whether the bound permit is the accepted one, unless no permit can be had. */
  lemma PermitIsCompared(first: seq<Action>, second: seq<Action>, third: seq<Action>, fourth: seq<Action>,
                         id: string, lifecycle: Option<Digest>)
    requires id in Exec(first).world.bindings
    ensures var r, e := ReadsOf(first, second, third, fourth), Coordination(id);
            var a := Verdict(r, id, lifecycle).value;
            && a.fenceState == (if e in r.fence.rows then Some(r.fence.rows[e].state) else None)
            && (a.permitCurrent == Some(true) ==> lifecycle == Some(r.journal.bindings[id].command.permit))
            && (a.permitCurrent == None <==> lifecycle == None || Unresolved(r.permit.rows) != {})
  {
    ReadsOk(first, second, third, fourth);
    assert ReadsOf(first, second, third, fourth).journal.bindings[id].effect == Coordination(id);
  }

  /** A command that had started when the fence was read, and whose result the journal did not have, is
      handed to recovery unless it was reconciled as having had no effect. */
  lemma StartedNeedsRecovery(first: seq<Action>, second: seq<Action>, third: seq<Action>, fourth: seq<Action>,
                                    id: string, lifecycle: Option<Digest>)
    requires id in Exec(first).world.bindings
    ensures var r, e := ReadsOf(first, second, third, fourth), Coordination(id);
            var a := Verdict(r, id, lifecycle).value;
            r.fence.starts[e] == 1 && id !in r.journal.results ==>
              a.recoveryRequired || (e in r.fence.rows && r.fence.rows[e].state.ReconciledNoEffect?)
  {
    ReadsOk(first, second, third, fourth);
    var r := ReadsOf(first, second, third, fourth);
    assert r.journal.bindings[id].effect == Coordination(id);
    assert EffectOk(r.fence, Coordination(id));
  }

  /** Once a result is recorded the fence agrees with it at every later moment, and the callback has
      completed exactly once with that result. Only the repository can keep the verdict from being
      terminal. */
  lemma RecordedResultIsTerminalIff(first: seq<Action>, second: seq<Action>, third: seq<Action>, fourth: seq<Action>,
                                    id: string, lifecycle: Option<Digest>)
    requires id in Exec(first).world.results
    ensures id in Exec(first).world.bindings
    ensures var r, e := ReadsOf(first, second, third, fourth), Coordination(id);
            var a := Verdict(r, id, lifecycle).value;
            var receipt := r.journal.results[id].receipt;
            && (a.terminal <==>
                  || (receipt.writeConfirmed && receipt.event.Some? && receipt.sequence.Some?
                      && (receipt.event.value, receipt.sequence.value) in r.repository.repository)
                  || (!receipt.writeConfirmed && receipt.event == None && receipt.sequence == None))
            && a.recoveryRequired == !a.terminal && a.fenceState == Some(Committed)
            && r.repository.starts[e] == 1 && r.repository.completions[e] == 1
            && e in r.journal.returned && r.journal.returned[e] == Value(r.journal.results[id].digest, Some(r.journal.results[id].receipt))
  {
    var r := ReadsOf(first, second, third, fourth);
    RecordedStays(first, second, id);
    RecordedStays(first, second + third + fourth, id);
    assert first + (second + third + fourth) == first + second + third + fourth;
  }

  /** A recorded result, its row and its callback stay as they are. */
  lemma RecordedStays(actions: seq<Action>, later: seq<Action>, id: string)
    requires id in Exec(actions).world.results
    ensures var w, w', e := Exec(actions).world, Exec(actions + later).world, Coordination(id);
            && id in w.bindings && w.bindings[id].effect == e
            && e in w.returned && w.returned[e] == Value(w.results[id].digest, Some(w.results[id].receipt))
            && e in w'.rows && w'.rows[e].state.Committed? && w'.rows[e].result == Some(w.results[id].digest)
            && w'.starts[e] == 1 && w'.completions[e] == 1
  {
    var w, w', e := Exec(actions).world, Exec(actions + later).world, Coordination(id);
    RunsKeepInv(actions);
    RunsKeepInv(actions + later);
    assert CommittedWith(w, e, Value(w.results[id].digest, Some(w.results[id].receipt)));
    ExecSplits(INITIAL, actions, later);
    FinalRowsStay(Exec(actions), later, e);
    assert EffectOk(w', e);
  }

  /** In every reachable state, and however the reads of an assessment are interleaved with the steps of
      other clients: retry and cancellation are offered only if the callback had not started when the
      fence was read, a started command without a recorded result is handed to recovery unless it was
      reconciled as having had no effect, and a terminal verdict backed by a result means that the
      callback has completed exactly once and returned that very result. */
  lemma AssessmentIsSound(first: seq<Action>, second: seq<Action>, third: seq<Action>, fourth: seq<Action>,
                                    id: string, lifecycle: Option<Digest>)
    requires id in Exec(first).world.bindings
    ensures var r, e := ReadsOf(first, second, third, fourth), Coordination(id);
            var a := Verdict(r, id, lifecycle).value;
            && (a.retryCandidateAllowed ==> e !in r.fence.rows && r.fence.starts[e] == 0 && Unresolved(r.permit.rows) == {})
            && (a.preDispatchCancelAllowed ==> e in r.fence.rows && r.fence.rows[e].state.Reserved? && r.fence.starts[e] == 0)
            && (r.fence.starts[e] == 1 && id !in r.journal.results ==>
                  a.recoveryRequired || (e in r.fence.rows && r.fence.rows[e].state.ReconciledNoEffect?))
            && (a.terminal && a.resultRecorded ==>
                  && id in r.journal.results && r.repository.starts[e] == 1 && r.repository.completions[e] == 1
                  && e in r.journal.returned
                  && r.journal.returned[e] == Value(r.journal.results[id].digest, Some(r.journal.results[id].receipt)))
  {
    OffersAreSafe(first, second, third, fourth, id, lifecycle);
    StartedNeedsRecovery(first, second, third, fourth, id, lifecycle);
    if id in Exec(first).world.results {
      RecordedResultIsTerminalIff(first, second, third, fourth, id, lifecycle);
    }
  }

  /** The verdicts exclude one another; none holds only for an unstarted command whose permit is stale. */
  lemma VerdictsExclude(w: World, id: string, accepted: Option<Digest>)
    requires id in w.bindings
    ensures var a := Assess(w, id, accepted).value;
            var flags := [a.retryCandidateAllowed, a.preDispatchCancelAllowed, a.recoveryRequired, a.terminal];
            && (forall i, j :: 0 <= i < j < 4 ==> !(flags[i] && flags[j]))
            && ((forall i :: 0 <= i < 4 ==> !flags[i]) <==>
                  id !in w.results && w.bindings[id].effect !in w.rows && accepted != Some(w.bindings[id].command.permit))
  {
    var a := Assess(w, id, accepted).value;
    var flags := [a.retryCandidateAllowed, a.preDispatchCancelAllowed, a.recoveryRequired, a.terminal];
    assert (forall i :: 0 <= i < 4 ==> !flags[i]) <==> !flags[0] && !flags[1] && !flags[2] && !flags[3];
  }

  ghost predicate Grows(w: World, w': World) {
    && w.repository <= w'.repository
    && (forall id :: id in w.bindings ==> id in w'.bindings && w'.bindings[id] == w.bindings[id])
    && (forall id :: id in w.results ==> id in w'.results && w'.results[id] == w.results[id])
  }

  lemma StepGrows(s: State, a: Action)
    ensures Grows(s.world, Step(s, a).world)
  {
    if WritesRows(a) {
      OnlyRowsWritten(s, a);
    } else if a.Submit? {
      SubmitGrows(s, a.client, a.job);
    } else if a.Record? {
      RecordGrows(s, a.client);
    }
  }

  lemma SubmitGrows(s: State, c: Client, job: Job)
    ensures Grows(s.world, SubmitStep(s, c, job).world)
  {
  }

  lemma RecordGrows(s: State, c: Client)
    ensures Grows(s.world, RecordStep(s, c).world)
  {
  }

  lemma {:induction false} RunGrows(s: State, actions: seq<Action>)
    ensures Grows(s.world, ExecFrom(s, actions).world)
  {
    if actions != [] {
      var n := |actions| - 1;
      RunGrows(s, actions[..n]);
      StepGrows(ExecFrom(s, actions[..n]), actions[n]);
    }
  }

  lemma {:induction false} RunStarts(s: State, actions: seq<Action>, e: EffectId)
    ensures ExecFrom(s, actions).world.starts[e] >= s.world.starts[e]
  {
    if actions != [] {
      var n := |actions| - 1;
      RunStarts(s, actions[..n], e);
      StartsOnlyFromClaim(ExecFrom(s, actions[..n]), actions[n], e);
    }
  }

  /** A terminal verdict is final: after any further steps, by anyone, the command is still terminal,
      and unless it was reconciled as no effect its callback has not started again. */
  lemma TerminalForever(actions: seq<Action>, later: seq<Action>, id: string, accepted: Option<Digest>)
    requires id in Exec(actions).world.bindings
    requires Assess(Exec(actions).world, id, accepted).value.terminal
    ensures id in Exec(actions + later).world.bindings
    ensures var before, after := Assess(Exec(actions).world, id, accepted).value, Assess(Exec(actions + later).world, id, accepted).value;
            after.terminal && after.resultRecorded == before.resultRecorded && after.fenceState == before.fenceState
    ensures Assess(Exec(actions).world, id, accepted).value.fenceState != Some(ReconciledNoEffect) ==>
              Exec(actions + later).world.starts[Coordination(id)] == Exec(actions).world.starts[Coordination(id)]
  {
    var w := Exec(actions).world;
    var w' := Exec(actions + later).world;
    RunsKeepInv(actions);
    RunsKeepInv(actions + later);
    ExecSplits(INITIAL, actions, later);
    RunGrows(Exec(actions), later);
    assert w.bindings[id].effect == Coordination(id);
    FinalRowsStay(Exec(actions), later, Coordination(id));
    assert id in w'.results ==>
        CommittedWith(w', Coordination(id), Value(w'.results[id].digest, Some(w'.results[id].receipt)));
    RunStarts(Exec(actions), later, Coordination(id));
    assert EffectOk(w, Coordination(id)) && EffectOk(w', Coordination(id));
  }

  /** What cancelling the command now does: it succeeds exactly when the row is still reserved, and then
      the command is terminal and its callback never starts; otherwise it changes nothing. */
  ghost predicate CancelDecides(before: seq<Action>, later: seq<Action>, id: string, accepted: Option<Digest>) {
    var w, cancelled := Exec(before).world, before + [Cancel(Coordination(id))];
    var w' := Exec(cancelled).world;
    && Coordination(id) in w.rows && id in w'.bindings && Coordination(id) in w'.rows
    && if w.rows[Coordination(id)].state.Reserved?
       then && w'.rows[Coordination(id)].state.CancelledPreDispatch?
            && Assess(w', id, accepted).value.terminal
            && Exec(cancelled + later).world.starts[Coordination(id)] == 0
       else Exec(cancelled) == Exec(before)
  }

  lemma CancelNow(before: seq<Action>, later: seq<Action>, id: string, accepted: Option<Digest>)
    requires id in Exec(before).world.bindings && Coordination(id) in Exec(before).world.rows
    ensures CancelDecides(before, later, id, accepted)
  {
    var e := Coordination(id);
    var cancelled := before + [Cancel(e)];
    ExecThen(before, Cancel(e));
    StepGrows(Exec(before), Cancel(e));
    if Exec(before).world.rows[e].state.Reserved? {
      CancelledNeverStarts(cancelled, later, e);
      CancelledIsTerminal(cancelled, id, accepted);
    }
  }

  lemma OfferMeansRow(first: seq<Action>, fence: World, repository: World, id: string, accepted: Option<Digest>)
    requires id in Exec(first).world.bindings
    requires AssessReads(Exec(first).world, fence, repository, id, accepted).value.preDispatchCancelAllowed
    ensures Coordination(id) in fence.rows
  {
    RunsKeepInv(first);
    assert Exec(first).world.bindings[id].effect == Coordination(id);
  }

  lemma BindingsStay(actions: seq<Action>, later: seq<Action>, id: string)
    requires id in Exec(actions).world.bindings
    ensures id in Exec(actions + later).world.bindings
  {
    ExecSplits(INITIAL, actions, later);
    RunGrows(Exec(actions), later);
  }

  /** Cancelling a command some time after its row was read as reserved, whatever happened in between. */
  lemma CancelReservedCommand(first: seq<Action>, second: seq<Action>, repository: World, accepted: Option<Digest>,
                              between: seq<Action>, later: seq<Action>, id: string)
    requires id in Exec(first).world.bindings
    requires AssessReads(Exec(first).world, Exec(first + second).world, repository, id, accepted).value.preDispatchCancelAllowed
    ensures CancelDecides(first + second + between, later, id, accepted)
  {
    OfferMeansRow(first, Exec(first + second).world, repository, id, accepted);
    ExecSplits(INITIAL, first + second, between);
    RowsStay(Exec(first + second), between, Coordination(id));
    BindingsStay(first, second, id);
    BindingsStay(first + second, between, id);
    CancelNow(first + second + between, later, id, accepted);
  }

  lemma CancelledIsTerminal(actions: seq<Action>, id: string, accepted: Option<Digest>)
    requires var w := Exec(actions).world;
             id in w.bindings && Coordination(id) in w.rows && w.rows[Coordination(id)].state.CancelledPreDispatch?
    ensures Assess(Exec(actions).world, id, accepted).value.terminal
  {
    RunsKeepInv(actions);
    var w := Exec(actions).world;
    assert w.bindings[id].effect == Coordination(id);
    assert id in w.results ==> CommittedWith(w, Coordination(id), Value(w.results[id].digest, Some(w.results[id].receipt)));
  }

  /** No row is ever removed. */
  lemma {:induction false} RowsStay(s: State, actions: seq<Action>, e: EffectId)
    requires e in s.world.rows
    ensures e in ExecFrom(s, actions).world.rows
  {
    if actions != [] {
      var n := |actions| - 1;
      RowsStay(s, actions[..n], e);
      RowStays(ExecFrom(s, actions[..n]), actions[n], e);
    }
  }

  /** Recovery is also demanded when the callback never ran: a crash after the dispatch claim. */
  lemma RecoveryWithoutStart(job: Job, accepted: Option<Digest>)
    requires job.command.Some? && WellFormed(job)
    ensures var w := Exec([Submit(0, job), Acquire(0), CheckBarrier(0), Reserve(0), Recheck(0), Claim(0)] + [Abort(0)]).world;
            && job.command.value.id in w.bindings
            && Assess(w, job.command.value.id, accepted).value.recoveryRequired
            && w.starts[job.effect] == 0
  {
    SoloClaims(job);
    ExecThen([Submit(0, job), Acquire(0), CheckBarrier(0), Reserve(0), Recheck(0), Claim(0)], Abort(0));
  }
}
