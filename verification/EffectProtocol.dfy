/** Any number of clients dispatching effects through the gateway, as a state machine.

    A step is one durable transaction, one lock operation or one callback boundary, so a crash
    (Abort) can fall between any two of them. Durable state: fence rows, command bindings and
    results, the coordination repository. Volatile state: what each client is doing and who holds
    the lifecycle action lock. History: how often each callback started and completed. */
module EffectProtocol {
  import opened Wrappers
  import opened EffectFence

  /** A coordination command as the journal binds it. */
  datatype Command = Command(id: string, permit: Digest, invocation: Digest, request: Digest)

  datatype Binding = Binding(effect: EffectId, command: Command)

  datatype Receipt = Receipt(resultClass: string, writeConfirmed: bool, event: Option<string>, sequence: Option<nat>)

  /** What a callback returns: the digest of its value, and the coordination receipt when it has one. */
  datatype Value = Value(digest: Digest, receipt: Option<Receipt>)

  datatype JournalResult = JournalResult(digest: Digest, receipt: Receipt)

  /** One request to the gateway. Coordination commands are journalled; PC and provider effects are not. */
  datatype Job = Job(effect: EffectId, cut: Cut, command: Option<Command>)

  predicate WellFormed(job: Job) {
    match job.command
    case None => !job.effect.Coordination?
    case Some(command) =>
      && job.effect == Coordination(command.id)
      && job.cut.request == command.request
      && job.cut.currentness == command.permit
  }

  /** PC and provider gateways also hold the outbound trust lock while they dispatch; the
      coordination gateway is built without a trust registry. */
  predicate TrustGuarded(job: Job) {
    job.command.None?
  }

  datatype Phase =
    | Idle
    | Bound(job: Job)
    | Locked(job: Job)
    | Cleared(job: Job)
    | Holding(job: Job)
    | Rechecked(job: Job)
    | Claimed(job: Job)
    | Running(job: Job)
    | Returned(job: Job, value: Value)
    | Raised(job: Job)
    | Settled(job: Job, value: Value)
    | Journaling(job: Job, value: Value)

  predicate InLock(phase: Phase) {
    !phase.Idle? && !phase.Bound? && !phase.Journaling?
  }

  type Client = nat

  /** Everything that survives a crash, with the callback history. */
  datatype World = World(
    rows: Rows,
    bindings: map<string, Binding>,
    results: map<string, JournalResult>,
    repository: set<(string, nat)>,
    starts: multiset<EffectId>,
    completions: multiset<EffectId>,
    returned: map<EffectId, Value>)

  datatype State = State(world: World, phases: map<Client, Phase>, holder: Option<Client>)

  function PhaseOf(s: State, c: Client): Phase {
    if c in s.phases then s.phases[c] else Idle
  }

  const INITIAL := State(World(map[], map[], map[], {}, multiset{}, multiset{}, map[]), map[], None)

  datatype Action =
    | Submit(client: Client, job: Job)
    | Acquire(client: Client)
    | CheckBarrier(client: Client)
    | Reserve(client: Client)
    | Recheck(client: Client)
    | Claim(client: Client)
    | Start(client: Client)
    | Return(client: Client, value: Value, written: set<(string, nat)>)
    | Raise(client: Client, completed: bool, written: set<(string, nat)>)
    | Settle(client: Client)
    | Release(client: Client)
    | Record(client: Client)
    | Abort(client: Client)
    | Cancel(effect: EffectId)
    | Reconcile(effect: EffectId, occurred: bool, result: Option<Digest>, evidence: Digest)

  function Move(s: State, w: World, c: Client, phase: Phase): State {
    State(w, s.phases[c := phase], s.holder)
  }

  /** The client gives up the lock if it has it. */
  function Exit(s: State, w: World, c: Client, phase: Phase): State {
    State(w, s.phases[c := phase], if s.holder == Some(c) then None else s.holder)
  }

  /** A crash, or an exception that leaves the gateway: durable state stays, the lock is freed. */
  function Leave(s: State, c: Client): State {
    Exit(s, s.world, c, Idle)
  }

  /** Binding a command id again is accepted only for exactly the same invocation. */
  function SubmitStep(s: State, c: Client, job: Job): State {
    if !PhaseOf(s, c).Idle? || !WellFormed(job) then s
    else match job.command
      case None => Move(s, s.world, c, Bound(job))
      case Some(command) =>
        var binding := Binding(job.effect, command);
        if command.id in s.world.bindings then
          if s.world.bindings[command.id] == binding then Move(s, s.world, c, Bound(job)) else s
        else Move(s, s.world.(bindings := s.world.bindings[command.id := binding]), c, Bound(job))
  }

  function AcquireStep(s: State, c: Client): State {
    var phase := PhaseOf(s, c);
    if phase.Bound? && s.holder.None? then
      State(s.world, s.phases[c := Locked(phase.job)], Some(c))
    else s
  }

  function BarrierStep(s: State, c: Client): State {
    var phase := PhaseOf(s, c);
    if !phase.Locked? then s
    else if Unresolved(s.world.rows) == {} then Move(s, s.world, c, Cleared(phase.job))
    else Leave(s, c)
  }

  function ReserveStep(s: State, c: Client): State {
    var phase := PhaseOf(s, c);
    if !phase.Cleared? then s
    else match ReserveRow(s.world.rows, phase.job.effect, phase.job.cut)
      case Ok(rows) => Move(s, s.world.(rows := rows), c, Holding(phase.job))
      case Err(_) => Leave(s, c)
  }

  function RecheckStep(s: State, c: Client): State {
    var phase := PhaseOf(s, c);
    if !phase.Holding? then s
    else match ReserveRow(s.world.rows, phase.job.effect, phase.job.cut)
      case Ok(rows) => Move(s, s.world.(rows := rows), c, Rechecked(phase.job))
      case Err(_) => Leave(s, c)
  }

  function ClaimStep(s: State, c: Client): State {
    var phase := PhaseOf(s, c);
    if !phase.Rechecked? then s
    else match ClaimRow(s.world.rows, phase.job.effect)
      case Ok(rows) => Move(s, s.world.(rows := rows), c, Claimed(phase.job))
      case Err(_) => Leave(s, c)
  }

  function StartStep(s: State, c: Client): State {
    var phase := PhaseOf(s, c);
    if !phase.Claimed? then s
    else Move(s, s.world.(starts := s.world.starts + multiset{phase.job.effect}), c, Running(phase.job))
  }

  function ReturnStep(s: State, c: Client, value: Value, written: set<(string, nat)>): State {
    var phase := PhaseOf(s, c);
    if !phase.Running? then s
    else
      var world := s.world.(
        completions := s.world.completions + multiset{phase.job.effect},
        returned := s.world.returned[phase.job.effect := value],
        repository := s.world.repository + written);
      Move(s, world, c, Returned(phase.job, value))
  }

  /** The callback raises, or it completes and its value cannot be digested. */
  function RaiseStep(s: State, c: Client, completed: bool, written: set<(string, nat)>): State {
    var phase := PhaseOf(s, c);
    if !phase.Running? then s
    else
      var done := if completed then multiset{phase.job.effect} else multiset{};
      var world := s.world.(
        completions := s.world.completions + done,
        repository := s.world.repository + written);
      Move(s, world, c, Raised(phase.job))
  }

  function SettleStep(s: State, c: Client): State {
    var phase := PhaseOf(s, c);
    if phase.Returned? then
      match SettleRow(s.world.rows, phase.job.effect, Some(phase.value.digest), true)
      case Ok(rows) => Move(s, s.world.(rows := rows), c, Settled(phase.job, phase.value))
      case Err(_) => Leave(s, c)
    else if phase.Raised? then
      match SettleRow(s.world.rows, phase.job.effect, None, false)
      case Ok(rows) => Exit(s, s.world.(rows := rows), c, Idle)
      case Err(_) => Leave(s, c)
    else s
  }

  /** The gateway returns; a journalled command without a receipt stops here with an error. */
  function ReleaseStep(s: State, c: Client): State {
    var phase := PhaseOf(s, c);
    if !phase.Settled? then s
    else if phase.job.command.Some? && phase.value.receipt.Some? then
      Exit(s, s.world, c, Journaling(phase.job, phase.value))
    else Leave(s, c)
  }

  /** A second result for the same command is refused unless it is the same, so it never changes anything. */
  function RecordStep(s: State, c: Client): State {
    var phase := PhaseOf(s, c);
    if !phase.Journaling? || phase.job.command.None? || phase.value.receipt.None? then s
    else
      var id := phase.job.command.value.id;
      var result := JournalResult(phase.value.digest, phase.value.receipt.value);
      if id in s.world.results then Leave(s, c)
      else Exit(s, s.world.(results := s.world.results[id := result]), c, Idle)
  }

  /** Only an effect whose dispatcher also holds the trust lock is shielded from reconciliation. */
  predicate TrustLockHeld(s: State) {
    && s.holder.Some?
    && InLock(PhaseOf(s, s.holder.value))
    && TrustGuarded(PhaseOf(s, s.holder.value).job)
  }

  function ReconcileStep(s: State, e: EffectId, occurred: bool, result: Option<Digest>, evidence: Digest): State {
    if TrustLockHeld(s) then s
    else match ReconcileRow(s.world.rows, e, occurred, result, evidence)
      case Ok(rows) => s.(world := s.world.(rows := rows))
      case Err(_) => s
  }

  /** Cancellation is allowed at any moment here, which is more than the operator's own lock permits. */
  function CancelStep(s: State, e: EffectId): State {
    match CancelRow(s.world.rows, e)
    case Ok(rows) => s.(world := s.world.(rows := rows))
    case Err(_) => s
  }

  /** One step; an action that is not enabled changes nothing. */
  function Step(s: State, a: Action): State {
    match a
    case Submit(c, job) => SubmitStep(s, c, job)
    case Acquire(c) => AcquireStep(s, c)
    case CheckBarrier(c) => BarrierStep(s, c)
    case Reserve(c) => ReserveStep(s, c)
    case Recheck(c) => RecheckStep(s, c)
    case Claim(c) => ClaimStep(s, c)
    case Start(c) => StartStep(s, c)
    case Return(c, value, written) => ReturnStep(s, c, value, written)
    case Raise(c, completed, written) => RaiseStep(s, c, completed, written)
    case Settle(c) => SettleStep(s, c)
    case Release(c) => ReleaseStep(s, c)
    case Record(c) => RecordStep(s, c)
    case Abort(c) => Leave(s, c)
    case Cancel(e) => CancelStep(s, e)
    case Reconcile(e, occurred, result, evidence) => ReconcileStep(s, e, occurred, result, evidence)
  }

  /** The state after a whole run of actions. */
  function ExecFrom(s: State, actions: seq<Action>): State {
    if actions == [] then s else Step(ExecFrom(s, actions[..|actions| - 1]), actions[|actions| - 1])
  }

  function Exec(actions: seq<Action>): State {
    ExecFrom(INITIAL, actions)
  }

  lemma {:induction false} ExecSplits(s: State, first: seq<Action>, then_: seq<Action>)
    ensures ExecFrom(s, first + then_) == ExecFrom(ExecFrom(s, first), then_)
    decreases |then_|
  {
    if then_ == [] {
      assert first + then_ == first;
    } else {
      var n := |then_| - 1;
      assert (first + then_)[..|first + then_| - 1] == first + then_[..n];
      ExecSplits(s, first, then_[..n]);
    }
  }

  lemma ExecThen(actions: seq<Action>, a: Action)
    ensures Exec(actions + [a]) == Step(Exec(actions), a)
  {
    assert (actions + [a])[..|actions|] == actions;
  }
}
