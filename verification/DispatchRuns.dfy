/** The two ordinary runs of a coordination command, to the end: the callback returns, or it raises. */
module DispatchRuns {
  import opened Wrappers
  import opened EffectFence
  import opened EffectProtocol
  import opened EffectSafety
  import opened CommandRecovery

  function Claiming(job: Job): seq<Action> {
    [Submit(0, job), Acquire(0), CheckBarrier(0), Reserve(0), Recheck(0), Claim(0)]
  }

  /** The world after the callback has started, on a row in the given state. */
  function Started(job: Job, state: EffectState, result: Option<Digest>, repository: set<(string, nat)>,
                   completions: multiset<EffectId>, returned: map<EffectId, Value>): World
    requires job.command.Some?
  {
    World(map[job.effect := Row(job.cut, state, result, None)],
          map[job.command.value.id := Binding(job.effect, job.command.value)], map[],
          repository, multiset{job.effect}, completions, returned)
  }

  function Alone(w: World, phase: Phase, holder: Option<Client>): State {
    State(w, map[0 := phase], holder)
  }

  lemma CallbackStarts(job: Job)
    requires job.command.Some? && WellFormed(job)
    ensures Exec(Claiming(job) + [Start(0)]) == Alone(Started(job, Executing, None, {}, multiset{}, map[]), Running(job), Some(0))
  {
    SoloClaims(job);
    ExecThen(Claiming(job), Start(0));
  }

  lemma CallbackReturns(job: Job, value: Value, written: set<(string, nat)>)
    requires job.command.Some? && WellFormed(job)
    ensures Exec(Claiming(job) + [Start(0)] + [Return(0, value, written)]) ==
            Alone(Started(job, Executing, None, written, multiset{job.effect}, map[job.effect := value]), Returned(job, value), Some(0))
  {
    CallbackStarts(job);
    ExecThen(Claiming(job) + [Start(0)], Return(0, value, written));
    assert {} + written == written;
  }

  lemma ReturnSettles(job: Job, value: Value, written: set<(string, nat)>)
    requires job.command.Some? && WellFormed(job)
    ensures Exec(Claiming(job) + [Start(0)] + [Return(0, value, written)] + [Settle(0)]) ==
            Alone(Started(job, Committed, Some(value.digest), written, multiset{job.effect}, map[job.effect := value]), Settled(job, value), Some(0))
  {
    CallbackReturns(job, value, written);
    ExecThen(Claiming(job) + [Start(0)] + [Return(0, value, written)], Settle(0));
  }

  function Settling(job: Job, value: Value, written: set<(string, nat)>): seq<Action> {
    Claiming(job) + [Start(0)] + [Return(0, value, written)] + [Settle(0)]
  }

  function Returning(job: Job, value: Value, written: set<(string, nat)>): seq<Action> {
    Settling(job, value, written) + [Release(0)] + [Record(0)]
  }

  lemma SettledReleases(job: Job, w: World, value: Value)
    requires job.command.Some? && value.receipt.Some?
    ensures Step(Alone(w, Settled(job, value), Some(0)), Release(0)) == Alone(w, Journaling(job, value), None)
  {
  }

  lemma ReleasedRecords(job: Job, w: World, value: Value)
    requires job.command.Some? && value.receipt.Some? && w.results == map[]
    ensures Step(Alone(w, Journaling(job, value), None), Record(0)) ==
            Alone(w.(results := map[job.command.value.id := JournalResult(value.digest, value.receipt.value)]), Idle, None)
  {
  }

  lemma ResultRecorded(job: Job, value: Value, written: set<(string, nat)>)
    requires job.command.Some? && WellFormed(job) && value.receipt.Some?
    ensures var w := Started(job, Committed, Some(value.digest), written, multiset{job.effect}, map[job.effect := value]);
            Exec(Returning(job, value, written)) ==
            Alone(w.(results := map[job.command.value.id := JournalResult(value.digest, value.receipt.value)]), Idle, None)
  {
    var w := Started(job, Committed, Some(value.digest), written, multiset{job.effect}, map[job.effect := value]);
    ReturnSettles(job, value, written);
    ExecThen(Settling(job, value, written), Release(0));
    SettledReleases(job, w, value);
    ExecThen(Settling(job, value, written) + [Release(0)], Record(0));
    ReleasedRecords(job, w, value);
  }

  /** The callback returns a receipt: in the end the command is terminal with its result exactly when the
      receipt is confirmed and names an event that was written, or is unconfirmed and names none. */
  lemma ReturningRunIsTerminal(job: Job, digest: Digest, receipt: Receipt, written: set<(string, nat)>, accepted: Option<Digest>)
    requires job.command.Some? && WellFormed(job)
    ensures var w := Exec(Returning(job, Value(digest, Some(receipt)), written)).world;
            && job.command.value.id in w.bindings
            && var a := Assess(w, job.command.value.id, accepted).value;
               && a.resultRecorded && a.fenceState == Some(Committed) && a.recoveryRequired == !a.terminal
               && (a.terminal <==>
                     if receipt.writeConfirmed
                     then receipt.event.Some? && receipt.sequence.Some? && (receipt.event.value, receipt.sequence.value) in written
                     else receipt.event.None? && receipt.sequence.None?)
  {
    ResultRecorded(job, Value(digest, Some(receipt)), written);
  }

  /** So the ordinary success, a confirmed write of the event named in the receipt, ends terminal. */
  lemma SuccessIsTerminal(job: Job, accepted: Option<Digest>)
    requires job.command.Some? && WellFormed(job)
    ensures var receipt := Receipt("COMPLETE", true, Some("e"), Some(1));
            var w := Exec(Returning(job, Value("d", Some(receipt)), {("e", 1)})).world;
            && job.command.value.id in w.bindings
            && Assess(w, job.command.value.id, accepted).value.terminal
            && Assess(w, job.command.value.id, accepted).value.resultRecorded
            && !Assess(w, job.command.value.id, accepted).value.recoveryRequired
  {
    ReturningRunIsTerminal(job, "d", Receipt("COMPLETE", true, Some("e"), Some(1)), {("e", 1)}, accepted);
  }

  function Raising(job: Job, completed: bool, written: set<(string, nat)>): seq<Action> {
    Claiming(job) + [Start(0)] + [Raise(0, completed, written)] + [Settle(0)]
  }

  lemma RaisedSettles(job: Job, repository: set<(string, nat)>, completions: multiset<EffectId>)
    requires job.command.Some?
    ensures Step(Alone(Started(job, Executing, None, repository, completions, map[]), Raised(job), Some(0)), Settle(0)) ==
            Alone(Started(job, AttemptedUnknown, None, repository, completions, map[]), Idle, None)
  {
  }

  lemma RunningRaises(job: Job, completed: bool, written: set<(string, nat)>)
    requires job.command.Some?
    ensures Step(Alone(Started(job, Executing, None, {}, multiset{}, map[]), Running(job), Some(0)), Raise(0, completed, written)) ==
            Alone(Started(job, Executing, None, written, if completed then multiset{job.effect} else multiset{}, map[]), Raised(job), Some(0))
  {
    assert {} + written == written;
  }

  /** The callback raises: its effect is unknown, keeps the barrier up and must be recovered. */
  lemma RaisingRunNeedsRecovery(job: Job, completed: bool, written: set<(string, nat)>, accepted: Option<Digest>)
    requires job.command.Some? && WellFormed(job)
    ensures var w := Exec(Raising(job, completed, written)).world;
            && w.rows == map[job.effect := Row(job.cut, AttemptedUnknown, None, None)] && Unresolved(w.rows) == {job.effect}
            && w.starts == multiset{job.effect} && w.completions[job.effect] == (if completed then 1 else 0) && w.repository == written
            && job.command.value.id in w.bindings
            && Assess(w, job.command.value.id, accepted).value.recoveryRequired
  {
    var started := Claiming(job) + [Start(0)];
    CallbackStarts(job);
    ExecThen(started, Raise(0, completed, written));
    RunningRaises(job, completed, written);
    ExecThen(started + [Raise(0, completed, written)], Settle(0));
    RaisedSettles(job, written, if completed then multiset{job.effect} else multiset{});
  }
}
