/** One run over an episode: schedule a node, show it a view, run it under a checkpoint, admit its output.

    An executor is any function from what it is shown to a sequence of episode operations followed by
    a result or an exception. */
module Runner {
  import opened Wrappers
  import opened Collections
  import opened Traces
  import opened EpisodeStore
  import opened EpisodeHistory
  import opened Visibility
  import opened Scheduler
  import opened Admission
  import opened Receipts
  import E = Episode

  datatype Independence = Independence(
    executorId: Option<string>, modelId: Option<string>, providerId: Option<string>,
    promptLineage: Option<string>, contextLineage: Option<string>, sawOtherAnswer: Option<bool>,
    commonEvidence: seq<string>, consumedEvidence: seq<string>, basis: seq<string>)

  predicate GovernedBasis(ref: string) {
    "policy:" <= ref || "receipt:" <= ref || "review:" <= ref || "runtime:" <= ref
  }

  predicate Named(x: Option<string>) {
    x.Some? && x.value != ""
  }

  /** The claim of independence is complete enough to be verified. */
  predicate Demonstrable(m: Independence) {
    && Named(m.executorId) && Named(m.modelId) && Named(m.providerId) && Named(m.promptLineage) && Named(m.contextLineage)
    && m.sawOtherAnswer == Some(false)
    && m.commonEvidence == [] && AllText(m.consumedEvidence)
    && m.basis != [] && forall ref :: ref in m.basis ==> GovernedBasis(ref)
  }

  predicate IndependentFrom(a: Independence, b: Independence) {
    && Demonstrable(a) && Demonstrable(b)
    && a.executorId != b.executorId && a.modelId != b.modelId && a.providerId != b.providerId
    && a.promptLineage != b.promptLineage && a.contextLineage != b.contextLineage
    && Elements(a.commonEvidence) !! Elements(b.commonEvidence)
    && Elements(a.consumedEvidence) !! Elements(b.consumedEvidence)
  }

  datatype RunnerNode = RunnerNode(
    descriptor: Descriptor, hasExecutor: bool, visibility: Policy, independence: Independence, policyVerifies: bool)

  datatype Envelope = Envelope(
    taskId: string, digest: string, specification: string, contextRefs: seq<string>, resourceBudget: Option<nat>)

  datatype Returned = Raises | Garbage | Returns(result: ExecutionResult)

  datatype Behaviour = Behaviour(changes: seq<Change>, returned: Returned)

  type Executor = (string, string, View, Option<string>) -> Behaviour

  datatype Config = Config(
    taskId: string, nodes: seq<RunnerNode>, limit: nat, envelope: Option<Envelope>, digests: Digests,
    names: (nat, string, bool) -> string)

  /** No two snapshots share a digest, digests and execution names are non-empty, and names differ
      from one execution to the next (the counter for scheduled ones, a fresh uuid for independent ones). */
  ghost predicate Collisionless(c: Config) {
    && (forall a, b :: c.digests.snapshot(a) == c.digests.snapshot(b) ==> a == b)
    && (forall p, r :: c.digests.output(p, r) != "")
    && (forall n, s, t, o :: c.digests.producer(n, s, t, o) != "")
    && (forall i, n, b :: c.names(i, n, b) != "")
    && (forall i, n, b, j, m, d {:trigger c.names(i, n, b), c.names(j, m, d)} :: i != j ==> c.names(i, n, b) != c.names(j, m, d))
  }

  function DigestOf(envelope: Option<Envelope>): Option<string> {
    if envelope.Some? then Some(envelope.value.digest) else None
  }

  function EnvelopeDigest(c: Config): Option<string> {
    DigestOf(c.envelope)
  }

  function TaskDigest(c: Config): Option<string> {
    if c.envelope.Some? then Some(c.envelope.value.specification) else None
  }

  function Limit(c: Config): nat {
    if c.envelope.Some? && c.envelope.value.resourceBudget.Some? && c.envelope.value.resourceBudget.value < c.limit
    then c.envelope.value.resourceBudget.value else c.limit
  }

  function Descriptors(nodes: seq<RunnerNode>): seq<Descriptor> {
    seq(|nodes|, i requires 0 <= i < |nodes| => nodes[i].descriptor)
  }

  datatype RunState = RunState(
    completed: seq<string>, failures: seq<Failure>, unresolved: seq<Unresolved>, records: seq<Record>,
    independents: seq<(Independence, set<string>)>, sourceVersions: seq<string>, used: nat, calls: nat)

  function Producers(records: seq<Record>): set<string> {
    set r | r in records && r.producer.Some? :: r.producer.value
  }

  ghost predicate RecordOk(c: Config, r: Record, i: nat) {
    && (r.executionId == c.names(i + 1, r.nodeId, true) || r.executionId == c.names(i + 1, r.nodeId, false))
    && r.envelope == EnvelopeDigest(c)
    && ProducerRecomputes(c.digests, r)
    && r.output != Some("") && r.producer != Some("")
  }

  ghost predicate PairwiseIndependent(items: seq<(Independence, set<string>)>) {
    forall i, j :: 0 <= i < j < |items| ==> IndependentFrom(items[j].0, items[i].0) && items[j].1 !! items[i].1
  }

  /** What holds between two iterations of a run. */
  ghost predicate RunOk(c: Config, rs: RunState) {
    && (forall i :: 0 <= i < |rs.records| ==> RecordOk(c, rs.records[i], i))
    && (forall i, f :: 0 <= i < |rs.records| && f in rs.records[i].failures ==> f in rs.failures)
    && rs.sourceVersions == CollectVersions(rs.records)
    && PairwiseIndependent(rs.independents)
    && rs.calls <= rs.used <= Limit(c)
  }

  function AddFailure(failures: seq<Failure>, f: Failure): seq<Failure> {
    if f in failures then failures else failures + [f]
  }

  function Noted(rs: RunState, f: Failure, reason: Reason, subject: string): RunState {
    rs.(failures := AddFailure(rs.failures, f), unresolved := rs.unresolved + [Unresolved(reason, subject)])
  }

  /** Close an iteration with its record. */
  function Recorded(rs: RunState, r: Record): RunState {
    rs.(records := rs.records + [r], failures := AddNew(rs.failures, r.failures),
        sourceVersions := AddNew(rs.sourceVersions, r.sourceVersions))
  }

  lemma RecordedOk(c: Config, rs: RunState, r: Record)
    requires RunOk(c, rs) && RecordOk(c, r, |rs.records|)
    ensures RunOk(c, Recorded(rs, r))
  {
    var rs' := Recorded(rs, r);
    assert rs'.records[..|rs.records|] == rs.records;
    AddNewMembers(rs.failures, r.failures);
  }

  lemma NotedOk(c: Config, rs: RunState, f: Failure, reason: Reason, subject: string)
    requires RunOk(c, rs)
    ensures RunOk(c, Noted(rs, f, reason, subject))
  {
  }

  function GovernedBy(view: View): Governed {
    var refs := (set p, r | p in view.propositions && r in p.sourceRefs :: r)
                + (set x, r | x in view.relations && r in x.sourceRefs :: r);
    var versions := set v | v in ViewVersions(view);
    var bindings := (set p, b | p in view.propositions && SourceBindings(p.sourceRefs, p.sourceVersions).Some?
                                && b in SourceBindings(p.sourceRefs, p.sourceVersions).value :: b)
                    + (set x, b | x in view.relations && SourceBindings(x.sourceRefs, x.sourceVersions).Some?
                                  && b in SourceBindings(x.sourceRefs, x.sourceVersions).value :: b);
    Governed(VisibleRefs(view) + refs, versions, bindings)
  }

  function VisibleRefs(view: View): set<string> {
    PropositionIds(view.propositions) + RelationIds(view.relations)
  }

  function PropositionVersions(items: seq<Proposition>): seq<string> {
    if items == [] then [] else PropositionVersions(items[..|items| - 1]) + items[|items| - 1].sourceVersions
  }

  function RelationVersions(items: seq<Relation>): seq<string> {
    if items == [] then [] else RelationVersions(items[..|items| - 1]) + items[|items| - 1].sourceVersions
  }

  function ViewVersions(view: View): seq<string> {
    AddNew([], PropositionVersions(view.propositions) + RelationVersions(view.relations))
  }

  function EvidenceRefs(view: View): set<string> {
    (set p | p in view.propositions && p.kind.Evidence? :: p.id)
    + (set p, r | p in view.propositions && p.kind.Evidence? && r in p.sourceRefs :: r)
  }

  function EvidenceVersions(view: View): set<string> {
    set p, v | p in view.propositions && p.kind.Evidence? && v in p.sourceVersions :: v
  }

  /** An independent worker sees no prior worker's output and nothing its descriptor protects. */
  predicate ViewIsBlind(view: View, d: Descriptor) {
    && (forall p :: p in view.propositions ==> p.producer.None? && p.kind !in d.blindKinds && p.id !in d.blindIds)
    && (forall r :: r in view.relations ==> r.producer.None?)
  }

  predicate IndependenceHolds(node: RunnerNode, view: View, prior: seq<(Independence, set<string>)>) {
    && node.policyVerifies
    && Distinct(node.independence.consumedEvidence) && Elements(node.independence.consumedEvidence) == EvidenceRefs(view)
    && (forall x :: x in prior ==> IndependentFrom(node.independence, x.0) && EvidenceVersions(view) !! x.1)
    && ViewIsBlind(view, node.descriptor)
  }

  predicate PropositionExact(p: Proposition) {
    && WellFormedProposition(p) && Distinct(p.sourceVersions)
    && (p.confidence.Some? ==> p.confidence.value <= 1000000)
  }

  predicate RelationExact(r: Relation) {
    WellFormedRelation(r) && r.participants != [] && Distinct(r.sourceVersions)
  }

  predicate ResultExact(result: ExecutionResult) {
    && result.executionId != "" && result.nodeId != ""
    && (forall p :: p in result.propositions ==> PropositionExact(p))
    && (forall r :: r in result.relations ==> RelationExact(r))
    && AllText(result.sourceVersions) && AllText(result.verificationTargets)
    && (result.verification.Some? ==> result.verificationTargets != [])
  }

  datatype Attempt = Crashed | Invalid | Mutated | Done(result: ExecutionResult)

  /** A state that these operations may lead to; refused ones change nothing. */
  ghost predicate Leads(s: Store, changes: seq<Change>, t: Store) {
    if changes == [] then t == s
    else
      var n := |changes| - 1;
      exists u :: Leads(s, changes[..n], u) && ActiveStored(u) && StoreNext(u, changes[n], t)
  }

  lemma LeadsOn(s: Store, changes: seq<Change>, i: nat, u: Store, t: Store)
    requires i < |changes| && Leads(s, changes[..i], u) && ActiveStored(u) && StoreNext(u, changes[i], t)
    ensures Leads(s, changes[..i + 1], t)
  {
    assert changes[..i + 1][..i] == changes[..i];
  }

  /** What the run makes of an execution that left the episode in the given state. */
  function Judge(before: Store, returned: Returned, after: Store): Attempt {
    match returned
    case Raises => Crashed
    case Garbage => Invalid
    case Returns(result) => if !ResultExact(result) then Invalid else if after != before then Mutated else Done(result)
  }

  /** Run an executor under a checkpoint. Whatever it does, the episode comes back as it was, and only
      an exact result that left it alone is used. */
  method AttemptExecution(c: Config, episode: E.Episode, behaviour: Behaviour) returns (attempt: Attempt, ghost after: Store)
    requires Inv(episode.Value()) && Collisionless(c)
    modifies episode
    ensures episode.Value() == old(episode.Value())
    ensures Leads(old(episode.Value()), behaviour.changes, after)
    ensures attempt == Judge(old(episode.Value()), behaviour.returned, after)
  {
    var checkpoint := episode.Value();
    var i := 0;
    while i < |behaviour.changes|
      invariant 0 <= i <= |behaviour.changes|
      invariant Inv(episode.Value()) && Leads(checkpoint, behaviour.changes[..i], episode.Value())
    {
      ghost var u := episode.Value();
      Perform(episode, behaviour.changes[i]);
      LeadsOn(checkpoint, behaviour.changes, i, u, episode.Value());
      i := i + 1;
    }
    assert behaviour.changes[..i] == behaviour.changes;
    after := episode.Value();
    match behaviour.returned
    case Raises =>
      attempt := Crashed;
      episode.Restore(checkpoint);
    case Garbage =>
      attempt := Invalid;
      episode.Restore(checkpoint);
    case Returns(result) =>
      if !ResultExact(result) {
        attempt := Invalid;
        episode.Restore(checkpoint);
      } else if c.digests.snapshot(TakeSnapshot(episode.Value())) != c.digests.snapshot(TakeSnapshot(checkpoint)) {
        attempt := Mutated;
        episode.Restore(checkpoint);
      } else {
        SnapshotInjective(episode.Value(), checkpoint);
        attempt := Done(result);
      }
  }

  /** One operation of an executor on the shared episode; errors are its own business. */
  method Perform(episode: E.Episode, change: Change)
    requires Inv(episode.Value())
    modifies episode
    ensures Inv(episode.Value()) && StoreNext(old(episode.Value()), change, episode.Value())
  {
    ghost var s := episode.Value();
    match change {
      case Add(p) => var _ := episode.Add(p);
      case Relate(r) => var _ := episode.Relate(r);
      case Retract(root, reason) => var _ := episode.RetractProposition(root, reason);
      case _ =>
    }
    StoreStepKeepsInv(s, change, episode.Value());
  }

  /** Why a scheduled node is stopped before its executor is called. */
  datatype Refusal = Refusal(reason: Reason, subject: string, recorded: bool, counted: bool)

  function Preflight(c: Config, node: RunnerNode, view: View, target: Option<string>,
                     prior: seq<(Independence, set<string>)>): Option<Refusal>
  {
    var d := node.descriptor;
    if target.Some? && target.value !in VisibleRefs(view) then Some(Refusal(ScheduledTarget, target.value, true, true))
    else if d.acceptedKinds != {} && exists p :: p in view.propositions && p.kind !in d.acceptedKinds then
      Some(Refusal(InputContract, d.nodeId, true, true))
    else if !d.independenceRequired then None
    else if c.envelope.Some? && c.envelope.value.contextRefs != [] then
      Some(Refusal(IndependenceContext, d.nodeId, true, false))
    else if !Demonstrable(node.independence) then Some(Refusal(NotIndependent, d.nodeId, false, false))
    else if !IndependenceHolds(node, view, prior) then Some(Refusal(NotIndependent, d.nodeId, true, false))
    else None
  }

  function BaseRecord(c: Config, node: RunnerNode, execution: string, snapshot: string): Record {
    Record(execution, node.descriptor.nodeId, [], false, EnvelopeDigest(c), TaskDigest(c), None, snapshot, None, [], [])
  }

  function Completed(rs: RunState, nodeId: string): RunState {
    rs.(completed := rs.completed + [nodeId], used := rs.used + 1)
  }

  function Refused(c: Config, rs: RunState, node: RunnerNode, execution: string, snapshot: string, refusal: Refusal): RunState {
    var noted := Noted(rs, ContractViolation, refusal.reason, refusal.subject);
    var recorded := if refusal.recorded
                    then Recorded(noted, BaseRecord(c, node, execution, snapshot).(failures := [ContractViolation]))
                    else noted;
    if refusal.counted then Completed(recorded, node.descriptor.nodeId) else recorded
  }

  lemma RefusedOk(c: Config, rs: RunState, node: RunnerNode, execution: string, snapshot: string, refusal: Refusal)
    requires RunOk(c, rs) && rs.used < Limit(c)
    requires execution == c.names(|rs.records| + 1, node.descriptor.nodeId, node.descriptor.independenceRequired)
    ensures RunOk(c, Refused(c, rs, node, execution, snapshot, refusal))
  {
    NotedOk(c, rs, ContractViolation, refusal.reason, refusal.subject);
    var noted := Noted(rs, ContractViolation, refusal.reason, refusal.subject);
    RecordedOk(c, noted, BaseRecord(c, node, execution, snapshot).(failures := [ContractViolation]));
  }

  /** An attempt that gave no usable result. */
  function Unsuccessful(rs: RunState, record: Record, attempt: Attempt): RunState {
    var f := if attempt.Crashed? then AttemptedUnknown else ContractViolation;
    var reason := if attempt.Crashed? then ExecutionRaised else if attempt.Invalid? then InvalidResult else EpisodeMutation;
    Completed(Recorded(Noted(rs, f, reason, record.executionId), record.(failures := [f])), record.nodeId)
  }

  lemma FailedOk(c: Config, rs: RunState, record: Record, attempt: Attempt)
    requires RunOk(c, rs) && rs.calls <= rs.used < Limit(c) && RecordOk(c, record, |rs.records|)
    ensures RunOk(c, Unsuccessful(rs, record, attempt))
  {
    var f := if attempt.Crashed? then AttemptedUnknown else ContractViolation;
    var reason := if attempt.Crashed? then ExecutionRaised else if attempt.Invalid? then InvalidResult else EpisodeMutation;
    NotedOk(c, rs, f, reason, record.executionId);
    RecordedOk(c, Noted(rs, f, reason, record.executionId), record.(failures := [f]));
  }

  /** Mandatory verification must pass, name its targets, see them, and emit a result resting on them. */
  function VerificationFailure(d: Descriptor, result: ExecutionResult, visible: set<string>): Option<Failure> {
    if !d.mandatoryVerification || result.failures != [] then None
    else if result.verification != Some(Passed) then Some(InsufficientEvidence)
    else if result.verificationTargets != d.verificationTargets then Some(ContractViolation)
    else if exists t :: t in d.verificationTargets && t !in visible then Some(ContractViolation)
    else if forall p :: p in result.propositions ==>
              !(p.kind.TestResult? && Elements(d.verificationTargets) <= Elements(p.sourceRefs)) then Some(ContractViolation)
    else None
  }

  function ExecutionFailures(result: ExecutionResult, unverified: Option<Failure>, refused: bool): seq<Failure> {
    var verified := if unverified.Some? then AddFailure(result.failures, unverified.value) else result.failures;
    if refused then AddFailure(verified, ContractViolation) else verified
  }

  function ResultNotes(d: Descriptor, execution: string, result: ExecutionResult, unverified: Option<Failure>, refused: bool): seq<Unresolved> {
    (if result.failures != [] then [Unresolved(ExecutionFailed, execution)] else [])
    + (if refused then [Unresolved(NotAdmitted, execution)] else [])
    + (if d.mandatoryVerification && (result.failures != [] || unverified.Some? || refused)
       then [Unresolved(Unverified, execution)] else [])
  }

  /** The record of an execution that returned a usable result. */
  function ConcludedRecord(c: Config, record: Record, result: ExecutionResult, failures: seq<Failure>,
                           receipt: Option<AdmissionReceipt>): Record
  {
    record.(emitted :=
              if receipt.Some? then seq(|result.propositions|, i requires 0 <= i < |result.propositions| => result.propositions[i].id) else [],
            producer := if receipt.Some? then receipt.value.producer else None,
            output := OutputDigest(c.digests, result),
            failures := failures)
  }

  lemma ExtendedMore(s: Store, t: Store, a: set<string>, b: set<string>)
    requires ExtendedBy(s, t, a) && a <= b
    ensures ExtendedBy(s, t, b)
  {
  }

  function ProducerOf(receipt: Option<AdmissionReceipt>): set<string> {
    if receipt.Some? && receipt.value.producer.Some? then {receipt.value.producer.value} else {}
  }

  function AdmittedTo(c: Config, s: Store, d: Descriptor, record: Record, result: ExecutionResult, view: View): Option<Store> {
    Admit(c.digests, s, d, result, record.executionId, record.snapshot, TaskDigest(c), GovernedBy(view))
  }

  lemma ConcludedRecordOk(c: Config, s: Store, record: Record, i: nat, result: ExecutionResult, failures: seq<Failure>,
                          receipt: Option<AdmissionReceipt>)
    requires Collisionless(c) && RecordOk(c, record, i)
    requires record.task == TaskDigest(c) && record.snapshot == c.digests.snapshot(TakeSnapshot(s))
    requires receipt.Some? ==> receipt.value == Receipt(c.digests, s, result, TaskDigest(c)) && result.nodeId == record.nodeId
    ensures RecordOk(c, ConcludedRecord(c, record, result, failures, receipt), i)
  {
  }

  function Concluded(rs: RunState, node: RunnerNode, record: Record, notes: seq<Unresolved>, view: View, admitted: bool): RunState {
    var noted := rs.(unresolved := rs.unresolved + notes);
    var done := Completed(Recorded(noted, record), record.nodeId);
    if admitted && node.descriptor.independenceRequired
    then done.(independents := done.independents + [(node.independence, EvidenceVersions(view))])
    else done
  }

  lemma ConcludedOk(c: Config, rs: RunState, node: RunnerNode, record: Record, notes: seq<Unresolved>, view: View, admitted: bool)
    requires RunOk(c, rs) && rs.calls <= rs.used + 1 <= Limit(c) && RecordOk(c, record, |rs.records|)
    requires node.descriptor.independenceRequired ==> IndependenceHolds(node, view, rs.independents)
    ensures RunOk(c, Concluded(rs, node, record, notes, view, admitted))
  {
    RecordedOk(c, rs.(unresolved := rs.unresolved + notes), record);
  }

  function Unproven(node: RunnerNode, result: ExecutionResult, view: View): Option<Failure> {
    VerificationFailure(node.descriptor, result, VisibleRefs(view))
  }

  /** Admitted exactly when the result reports no failure, passes its mandatory verification and the
      admission itself succeeds. */
  function AdmissionOf(c: Config, s: Store, node: RunnerNode, record: Record, result: ExecutionResult, view: View): Option<Store> {
    if result.failures == [] && Unproven(node, result, view).None?
    then AdmittedTo(c, s, node.descriptor, record, result, view) else None
  }

  function ReceiptOf(c: Config, s: Store, node: RunnerNode, record: Record, result: ExecutionResult, view: View): Option<AdmissionReceipt> {
    if AdmissionOf(c, s, node, record, result, view).Some? then Some(Receipt(c.digests, s, result, TaskDigest(c))) else None
  }

  predicate RefusedBy(c: Config, s: Store, node: RunnerNode, record: Record, result: ExecutionResult, view: View) {
    result.failures == [] && Unproven(node, result, view).None? && AdmissionOf(c, s, node, record, result, view).None?
  }

  function RecordOf(c: Config, s: Store, node: RunnerNode, record: Record, result: ExecutionResult, view: View): Record {
    var failures := ExecutionFailures(result, Unproven(node, result, view), RefusedBy(c, s, node, record, result, view));
    ConcludedRecord(c, record, result, failures, ReceiptOf(c, s, node, record, result, view))
  }

  function NotesOf(c: Config, s: Store, node: RunnerNode, record: Record, result: ExecutionResult, view: View): seq<Unresolved> {
    ResultNotes(node.descriptor, record.executionId, result, Unproven(node, result, view), RefusedBy(c, s, node, record, result, view))
  }

  /** The episode and the run after a returned result. */
  function ConclusionOf(c: Config, s: Store, node: RunnerNode, rs: RunState, record: Record, result: ExecutionResult, view: View)
    : (Store, RunState)
  {
    var admitted := AdmissionOf(c, s, node, record, result, view);
    (if admitted.Some? then admitted.value else s,
     Concluded(rs, node, RecordOf(c, s, node, record, result, view), NotesOf(c, s, node, record, result, view), view, admitted.Some?))
  }

  lemma AdmissionOfExtends(c: Config, s: Store, node: RunnerNode, record: Record, result: ExecutionResult, view: View)
    requires Inv(s)
    ensures var admitted := AdmissionOf(c, s, node, record, result, view);
            var t := if admitted.Some? then admitted.value else s;
            Inv(t) && ExtendedBy(s, t, ProducerOf(ReceiptOf(c, s, node, record, result, view)))
    ensures AdmissionOf(c, s, node, record, result, view).Some? ==> result.nodeId == node.descriptor.nodeId
  {
    if AdmissionOf(c, s, node, record, result, view).Some? {
      AdmissionExtends(c.digests, s, node.descriptor, result, record.executionId, record.snapshot, TaskDigest(c), GovernedBy(view));
    } else {
      ExtendedSelf(s, {});
    }
  }

  lemma RecordOfOk(c: Config, s: Store, node: RunnerNode, record: Record, i: nat, result: ExecutionResult, view: View)
    requires Inv(s) && Collisionless(c) && RecordOk(c, record, i)
    requires record.nodeId == node.descriptor.nodeId && record.task == TaskDigest(c)
    requires record.snapshot == c.digests.snapshot(TakeSnapshot(s))
    ensures RecordOk(c, RecordOf(c, s, node, record, result, view), i)
  {
    AdmissionOfExtends(c, s, node, record, result, view);
    ConcludedRecordOk(c, s, record, i, result,
                      ExecutionFailures(result, Unproven(node, result, view), RefusedBy(c, s, node, record, result, view)),
                      ReceiptOf(c, s, node, record, result, view));
  }

  lemma ProducerRecorded(receipt: Option<AdmissionReceipt>, records: seq<Record>, last: Record)
    requires receipt.Some? ==> last.producer == receipt.value.producer
    ensures ProducerOf(receipt) <= Producers(records + [last])
  {
    assert last in records + [last];
  }

  /** Whatever was returned, the run stays sound and the episode is only extended. */
  lemma ConclusionSound(c: Config, s: Store, node: RunnerNode, rs: RunState, record: Record, result: ExecutionResult, view: View)
    requires Inv(s) && Collisionless(c)
    requires RunOk(c, rs) && rs.used < Limit(c) && RecordOk(c, record, |rs.records|)
    requires record.nodeId == node.descriptor.nodeId && record.task == TaskDigest(c)
    requires record.snapshot == c.digests.snapshot(TakeSnapshot(s))
    requires node.descriptor.independenceRequired ==> IndependenceHolds(node, view, rs.independents)
    ensures var (t, rs') := ConclusionOf(c, s, node, rs, record, result, view);
            && Inv(t) && RunOk(c, rs') && ExtendedBy(s, t, Producers(rs'.records))
            && rs'.completed == rs.completed + [node.descriptor.nodeId] && rs'.used == rs.used + 1 && rs.records <= rs'.records
  {
    var (t, rs') := ConclusionOf(c, s, node, rs, record, result, view);
    var last, receipt := RecordOf(c, s, node, record, result, view), ReceiptOf(c, s, node, record, result, view);
    AdmissionOfExtends(c, s, node, record, result, view);
    RecordOfOk(c, s, node, record, |rs.records|, result, view);
    ConcludedOk(c, rs, node, last, NotesOf(c, s, node, record, result, view), view, AdmissionOf(c, s, node, record, result, view).Some?);
    ProducerRecorded(receipt, rs.records, last);
    assert rs'.records == rs.records + [last];
    ExtendedMore(s, t, ProducerOf(receipt), Producers(rs'.records));
  }

  /** Verify, admit and record a returned result. */
  method Conclude(c: Config, episode: E.Episode, node: RunnerNode, rs: RunState, record: Record, result: ExecutionResult, view: View)
    returns (rs': RunState)
    modifies episode
    ensures (episode.Value(), rs') == ConclusionOf(c, old(episode.Value()), node, rs, record, result, view)
  {
    var d := node.descriptor;
    var unverified := VerificationFailure(d, result, VisibleRefs(view));
    var receipt: Option<AdmissionReceipt> := None;
    var tried := result.failures == [] && unverified.None?;
    if tried {
      receipt := AdmitExecutionResult(episode, c.digests, d, result, record.executionId, record.snapshot, TaskDigest(c), GovernedBy(view));
    }
    var refused := tried && receipt.None?;
    var concluded := ConcludedRecord(c, record, result, ExecutionFailures(result, unverified, refused), receipt);
    var notes := ResultNotes(d, record.executionId, result, unverified, refused);
    rs' := Concluded(rs, node, concluded, notes, view, receipt.Some?);
  }

  function Hidden(view: View): View {
    view.(blindedPropositions := [], blindedRelations := [])
  }

  lemma ExtendedSelf(s: Store, producers: set<string>)
    ensures ExtendedBy(s, s, producers)
  {
  }

  /** The episode, the run and whether it goes on, after an attempt. */
  function AttemptedTo(c: Config, s: Store, rs: RunState, node: RunnerNode, record: Record, view: View, attempt: Attempt)
    : (Store, RunState, bool)
  {
    if attempt.Done? then
      var (t, done) := ConclusionOf(c, s, node, rs, record, attempt.result, view);
      (t, done.(calls := rs.calls + 1), true)
    else (s, Unsuccessful(rs, record, attempt).(calls := rs.calls + 1), !node.descriptor.mandatoryVerification)
  }

  /** Some run of the executor's operations leads to this. */
  ghost predicate Executes(c: Config, s: Store, behaviour: Behaviour, rs: RunState, node: RunnerNode, record: Record, view: View,
                           s': Store, rs': RunState, go: bool)
  {
    exists after :: Leads(s, behaviour.changes, after)
      && (s', rs', go) == AttemptedTo(c, s, rs, node, record, view, Judge(s, behaviour.returned, after))
  }

  method FollowUp(c: Config, episode: E.Episode, rs: RunState, node: RunnerNode, record: Record, view: View, attempt: Attempt)
    returns (rs': RunState, go: bool)
    modifies episode
    ensures (episode.Value(), rs', go) == AttemptedTo(c, old(episode.Value()), rs, node, record, view, attempt)
  {
    if attempt.Done? {
      rs' := Conclude(c, episode, node, rs, record, attempt.result, view);
      rs', go := rs'.(calls := rs.calls + 1), true;
    } else {
      rs', go := Unsuccessful(rs, record, attempt).(calls := rs.calls + 1), !node.descriptor.mandatoryVerification;
    }
  }

  /** Call the executor of a node that passed its preflight, and deal with what comes back. */
  method ExecuteNode(c: Config, episode: E.Episode, behaviour: Behaviour, rs: RunState, node: RunnerNode, record: Record, view: View)
    returns (rs': RunState, go: bool)
    requires Inv(episode.Value()) && Collisionless(c) && RunOk(c, rs) && rs.used < Limit(c)
    requires RecordOk(c, record, |rs.records|) && record.nodeId == node.descriptor.nodeId && record.task == TaskDigest(c)
    requires record.snapshot == c.digests.snapshot(TakeSnapshot(episode.Value()))
    requires node.descriptor.independenceRequired ==> IndependenceHolds(node, view, rs.independents)
    modifies episode
    ensures Inv(episode.Value()) && RunOk(c, rs') && rs.records <= rs'.records
    ensures ExtendedBy(old(episode.Value()), episode.Value(), Producers(rs'.records))
    ensures go ==> rs'.completed == rs.completed + [node.descriptor.nodeId]
    ensures Executes(c, old(episode.Value()), behaviour, rs, node, record, view, episode.Value(), rs', go)
  {
    ghost var s := episode.Value();
    ghost var after;
    var attempt;
    attempt, after := AttemptExecution(c, episode, behaviour);
    AttemptSound(c, s, rs, node, record, view, attempt);
    rs', go := FollowUp(c, episode, rs, node, record, view, attempt);
    ExecutesBy(c, s, behaviour, rs, node, record, view, after);
  }

  lemma ExecutesBy(c: Config, s: Store, behaviour: Behaviour, rs: RunState, node: RunnerNode, record: Record, view: View, after: Store)
    requires Leads(s, behaviour.changes, after)
    ensures var (s', rs', go) := AttemptedTo(c, s, rs, node, record, view, Judge(s, behaviour.returned, after));
            Executes(c, s, behaviour, rs, node, record, view, s', rs', go)
  {
  }

  lemma AttemptSound(c: Config, s: Store, rs: RunState, node: RunnerNode, record: Record, view: View, attempt: Attempt)
    requires Inv(s) && Collisionless(c) && RunOk(c, rs) && rs.used < Limit(c)
    requires RecordOk(c, record, |rs.records|) && record.nodeId == node.descriptor.nodeId && record.task == TaskDigest(c)
    requires record.snapshot == c.digests.snapshot(TakeSnapshot(s))
    requires node.descriptor.independenceRequired ==> IndependenceHolds(node, view, rs.independents)
    ensures var (t, rs', go) := AttemptedTo(c, s, rs, node, record, view, attempt);
            && Inv(t) && RunOk(c, rs') && rs.records <= rs'.records && ExtendedBy(s, t, Producers(rs'.records))
            && rs'.completed == rs.completed + [node.descriptor.nodeId]
  {
    if attempt.Done? {
      ConclusionSound(c, s, node, rs, record, attempt.result, view);
    } else {
      FailedOk(c, rs, record, attempt);
      ExtendedSelf(s, Producers(Unsuccessful(rs, record, attempt).records));
    }
  }

  /** The outcomes that need no executor: missing authority, missing executor, failed preflight. */
  function Stopped(c: Config, rs: RunState, node: RunnerNode, execution: string, digest: string, view: View, target: Option<string>)
    : Option<(RunState, bool)>
  {
    var d := node.descriptor;
    if d.requiredAuthority != [] then Some((Noted(rs, ContractViolation, Authority, d.nodeId), false))
    else if !node.hasExecutor then
      var reason := if d.mandatoryVerification then MissingMandatory else MissingNode;
      Some((Noted(rs, Unavailable, reason, d.nodeId).(completed := rs.completed + [d.nodeId]), !d.mandatoryVerification))
    else
      var refusal := Preflight(c, node, view, target, rs.independents);
      if refusal.Some? then Some((Refused(c, rs, node, execution, digest, refusal.value), false)) else None
  }

  lemma PreflightShields(c: Config, node: RunnerNode, view: View, target: Option<string>, prior: seq<(Independence, set<string>)>)
    requires Preflight(c, node, view, target, prior).None? && node.descriptor.independenceRequired
    ensures IndependenceHolds(node, view, prior)
  {
  }

  lemma StoppedOk(c: Config, rs: RunState, node: RunnerNode, execution: string, digest: string, view: View, target: Option<string>)
    requires RunOk(c, rs) && rs.used < Limit(c)
    requires execution == c.names(|rs.records| + 1, node.descriptor.nodeId, node.descriptor.independenceRequired)
    requires Stopped(c, rs, node, execution, digest, view, target).Some?
    ensures var (rs', go) := Stopped(c, rs, node, execution, digest, view, target).value;
            RunOk(c, rs') && rs.records <= rs'.records && (go ==> rs'.completed == rs.completed + [node.descriptor.nodeId])
  {
    var d := node.descriptor;
    if d.requiredAuthority != [] {
      NotedOk(c, rs, ContractViolation, Authority, d.nodeId);
    } else if !node.hasExecutor {
      NotedOk(c, rs, Unavailable, if d.mandatoryVerification then MissingMandatory else MissingNode, d.nodeId);
    } else {
      var refusal := Preflight(c, node, view, target, rs.independents).value;
      RefusedOk(c, rs, node, execution, digest, refusal);
      assert Refused(c, rs, node, execution, digest, refusal).records[..|rs.records|] == rs.records;
    }
  }

  /** The record of a node that is about to be executed. */
  function StartedRecord(c: Config, node: RunnerNode, execution: string, digest: string, view: View): Record {
    BaseRecord(c, node, execution, digest).(
      independenceDemonstrated := node.descriptor.independenceRequired, sourceVersions := ViewVersions(view))
  }

  /** One scheduled node, as a relation: stopped before its executor, or executed on the hidden view. */
  ghost predicate NodeSteps(c: Config, executor: Executor, s: Store, rs: RunState, index: nat, target: Option<string>,
                            s': Store, rs': RunState, go: bool)
    requires index < |c.nodes|
  {
    var node := c.nodes[index];
    var d := node.descriptor;
    var execution := c.names(|rs.records| + 1, d.nodeId, d.independenceRequired);
    var digest := c.digests.snapshot(TakeSnapshot(s));
    var view := ViewOf(TakeSnapshot(s), node.visibility);
    var stopped := Stopped(c, rs, node, execution, digest, view, target);
    if stopped.Some? then s' == s && (rs', go) == stopped.value
    else Executes(c, s, executor(d.nodeId, execution, Hidden(view), target), rs, node,
                  StartedRecord(c, node, execution, digest, view), view, s', rs', go)
  }

  /** One scheduled node. `go` says whether the run continues; then exactly this node was completed. */
  method RunNode(c: Config, episode: E.Episode, executor: Executor, rs: RunState, index: nat, target: Option<string>)
    returns (rs': RunState, go: bool)
    requires Inv(episode.Value()) && Collisionless(c) && RunOk(c, rs) && index < |c.nodes| && rs.used < Limit(c)
    modifies episode
    ensures Inv(episode.Value()) && RunOk(c, rs') && rs.records <= rs'.records
    ensures ExtendedBy(old(episode.Value()), episode.Value(), Producers(rs'.records))
    ensures go ==> rs'.completed == rs.completed + [c.nodes[index].descriptor.nodeId]
    ensures NodeSteps(c, executor, old(episode.Value()), rs, index, target, episode.Value(), rs', go)
  {
    var node := c.nodes[index];
    var d := node.descriptor;
    var execution := c.names(|rs.records| + 1, d.nodeId, d.independenceRequired);
    var snapshot := TakeSnapshot(episode.Value());
    var digest := c.digests.snapshot(snapshot);
    var view := BuildExecutionView(snapshot, node.visibility);
    var stopped := Stopped(c, rs, node, execution, digest, view, target);
    if stopped.Some? {
      StoppedOk(c, rs, node, execution, digest, view, target);
      ExtendedSelf(episode.Value(), Producers(stopped.value.0.records));
      return stopped.value.0, stopped.value.1;
    }
    var record := StartedRecord(c, node, execution, digest, view);
    if d.independenceRequired {
      PreflightShields(c, node, view, target, rs.independents);
    }
    rs', go := ExecuteNode(c, episode, executor(d.nodeId, execution, Hidden(view), target), rs, node, record, view);
  }

  function ClaimNotes(propositions: seq<Proposition>): seq<Unresolved> {
    if propositions == [] then []
    else
      var last := propositions[|propositions| - 1];
      ClaimNotes(propositions[..|propositions| - 1]) + (if last.kind.Claim? then [Unresolved(ClaimDisposition, last.id)] else [])
  }

  function FinalReceipt(c: Config, snapshot: Snapshot, rs: RunState): ResultReceipt {
    ResultReceipt(
      c.taskId, snapshot.episode, snapshot.version, [], [], false, true,
      AddNew([], rs.unresolved + ClaimNotes(snapshot.currentPropositions)), rs.failures, rs.sourceVersions,
      ExecutionIds(rs.records), Pairs(rs.records, OUTPUT), Pairs(rs.records, PRODUCER), EnvelopeDigest(c))
  }

  /** The receipt built from what a run kept can be constructed and passes the export checks. */
  lemma FinalReceiptSound(c: Config, snapshot: Snapshot, rs: RunState)
    requires Collisionless(c) && RunOk(c, rs) && c.taskId != ""
    ensures Constructible(FinalReceipt(c, snapshot, rs))
    ensures ExportAccepts(c.digests, FinalReceipt(c, snapshot, rs), rs.records)
  {
    PairsAreBound(rs.records, OUTPUT);
    PairsAreBound(rs.records, PRODUCER);
  }

  lemma {:induction false} DistinctFits(items: seq<string>, pool: set<string>)
    requires Distinct(items) && Elements(items) <= pool
    ensures |items| <= |pool|
  {
    if items != [] {
      var n := |items| - 1;
      assert items[n] in Elements(items);
      forall x | x in Elements(items[..n]) ensures x in pool - {items[n]} {
        assert x in Elements(items);
      }
      DistinctFits(items[..n], pool - {items[n]});
    }
  }

  lemma {:induction false} NodeNames(nodes: seq<RunnerNode>)
    ensures |set i | 0 <= i < |nodes| :: nodes[i].descriptor.nodeId| <= |nodes|
  {
    if nodes != [] {
      var n := |nodes| - 1;
      NodeNames(nodes[..n]);
      var all := set i | 0 <= i < |nodes| :: nodes[i].descriptor.nodeId;
      var rest := set i | 0 <= i < n :: nodes[..n][i].descriptor.nodeId;
      assert all == rest + {nodes[n].descriptor.nodeId};
    }
  }

  ghost function NodePool(c: Config): set<string> {
    set i | 0 <= i < |c.nodes| :: c.nodes[i].descriptor.nodeId
  }

  /** Every iteration completes another node, so their number is bounded. */
  lemma CompletedFits(c: Config, completed: seq<string>)
    requires Distinct(completed) && Elements(completed) <= NodePool(c)
    ensures |completed| <= |c.nodes|
  {
    NodeNames(c.nodes);
    DistinctFits(completed, NodePool(c));
  }

  lemma AnotherCompleted(c: Config, completed: seq<string>, index: nat)
    requires Distinct(completed) && Elements(completed) <= NodePool(c)
    requires index < |c.nodes| && c.nodes[index].descriptor.nodeId !in completed
    ensures var next := completed + [c.nodes[index].descriptor.nodeId];
            Distinct(next) && Elements(next) <= NodePool(c)
  {
  }

  lemma ProducersGrow(a: seq<Record>, b: seq<Record>)
    requires a <= b
    ensures Producers(a) + Producers(b) == Producers(b)
  {
    assert forall r :: r in a ==> r in b;
  }

  function Ended(rs: RunState, decision: Decision): RunState
    requires decision.Terminate?
  {
    rs.(failures := if decision.failure.Some? then AddFailure(rs.failures, decision.failure.value) else rs.failures,
        unresolved := rs.unresolved + if decision.duplicateNode then [Unresolved(DuplicateNode, "")] else [])
  }

  datatype Stage = Stage(store: Store, rs: RunState)

  /** One turn of the loop, as a relation: the scheduler's decision and what follows from it. */
  ghost predicate Turns(c: Config, executor: Executor, a: Stage, b: Stage, go: bool) {
    var decision := NextDecision(TakeSnapshot(a.store), Descriptors(c.nodes), a.rs.completed, Limit(c), a.rs.used);
    if decision.Terminate? then b == Stage(a.store, Ended(a.rs, decision)) && !go
    else NodeSteps(c, executor, a.store, a.rs, decision.index, decision.target, b.store, b.rs, go)
  }

  ghost function TurnOf(c: Config, executor: Executor): (Stage, Stage, bool) -> bool {
    (a, b, go) => Turns(c, executor, a, b, go)
  }

  const START := RunState([], [], [], [], [], [], 0, 0)

  /** A complete run of the loop from the given episode. */
  ghost predicate Runs(c: Config, executor: Executor, s: Store, turns: nat, t: Store, rs: RunState) {
    Completes(TurnOf(c, executor), Stage(s, START), turns, Stage(t, rs))
  }

  /** What a turn needs and what it leaves. */
  ghost predicate TurnReady(c: Config, s: Store, rs: RunState) {
    Inv(s) && RunOk(c, rs) && Distinct(rs.completed) && Elements(rs.completed) <= NodePool(c)
  }

  ghost predicate TurnSound(c: Config, s: Store, rs: RunState, s': Store, rs': RunState, go: bool) {
    && Inv(s') && RunOk(c, rs') && rs.records <= rs'.records && ExtendedBy(s, s', Producers(rs'.records))
    && (go ==> CompletedOk(c, rs', |rs.completed| + 1))
  }

  /** The relation holds of every turn. */
  ghost predicate Covers(c: Config, executor: Executor, turn: (Stage, Stage, bool) -> bool) {
    forall a, b, go {:trigger Turns(c, executor, a, b, go)} :: Turns(c, executor, a, b, go) ==> turn(a, b, go)
  }

  method Turn(c: Config, episode: E.Episode, executor: Executor, rs: RunState, ghost turn: (Stage, Stage, bool) -> bool)
    returns (rs': RunState, go: bool)
    requires Collisionless(c) && TurnReady(c, episode.Value(), rs) && Covers(c, executor, turn)
    modifies episode
    ensures TurnSound(c, old(episode.Value()), rs, episode.Value(), rs', go)
    ensures turn(Stage(old(episode.Value()), rs), Stage(episode.Value(), rs'), go)
  {
    var decision := NextDecision(TakeSnapshot(episode.Value()), Descriptors(c.nodes), rs.completed, Limit(c), rs.used);
    ghost var s := episode.Value();
    if decision.Terminate? {
      rs', go := Ended(rs, decision), false;
      ExtendedSelf(episode.Value(), Producers(rs'.records));
    } else {
      AnotherCompleted(c, rs.completed, decision.index);
      rs', go := RunNode(c, episode, executor, rs, decision.index, decision.target);
    }
    assert Turns(c, executor, Stage(s, rs), Stage(episode.Value(), rs'), go);
  }

  ghost predicate CompletedOk(c: Config, rs: RunState, turns: nat) {
    turns == |rs.completed| && Distinct(rs.completed) && Elements(rs.completed) <= NodePool(c)
  }

  ghost predicate Extending(c: Config, start: Store, s: Store, rs: RunState) {
    Inv(s) && RunOk(c, rs) && ExtendedBy(start, s, Producers(rs.records))
  }

  lemma ExtendingOn(c: Config, start: Store, s: Store, rs: RunState, s': Store, rs': RunState, go: bool)
    requires Extending(c, start, s, rs) && TurnSound(c, s, rs, s', rs', go)
    ensures Extending(c, start, s', rs')
  {
    ProducersGrow(rs.records, rs'.records);
    ExtensionsCompose(start, s, s', Producers(rs.records), Producers(rs'.records));
  }

  /** The stages so far, the last of which is where the loop stands. */
  ghost predicate OnTrace(turn: (Stage, Stage, bool) -> bool, start: Stage, trace: seq<Stage>, s: Store, rs: RunState) {
    IsTrace(turn, start, trace) && trace[|trace| - 1] == Stage(s, rs)
  }

  /** Where the loop stands: still going on after so many turns, or completed with so many. */
  ghost predicate LoopOk(c: Config, turn: (Stage, Stage, bool) -> bool, start: Store, trace: seq<Stage>,
                         s: Store, rs: RunState, turns: nat, go: bool)
  {
    && Extending(c, start, s, rs) && turns <= |c.nodes| + 1
    && if go then CompletedOk(c, rs, turns) && |trace| == turns + 1 && OnTrace(turn, Stage(start, START), trace, s, rs)
       else Completes(turn, Stage(start, START), turns, Stage(s, rs))
  }

  lemma TraceStep(turn: (Stage, Stage, bool) -> bool, start: Stage, trace: seq<Stage>, s: Store, rs: RunState, next: Stage, go: bool)
    requires OnTrace(turn, start, trace, s, rs) && turn(Stage(s, rs), next, go)
    ensures if go then OnTrace(turn, start, trace + [next], next.store, next.rs) else Completes(turn, start, |trace|, next)
  {
    if go { TraceOn(turn, start, trace, next); } else { TraceEnds(turn, start, trace, next); }
  }

  lemma LoopAdvances(c: Config, turn: (Stage, Stage, bool) -> bool, start: Store, trace: seq<Stage>, s: Store, rs: RunState, turns: nat,
                     s': Store, rs': RunState, go: bool)
    requires LoopOk(c, turn, start, trace, s, rs, turns, true)
    requires TurnSound(c, s, rs, s', rs', go) && turn(Stage(s, rs), Stage(s', rs'), go)
    ensures LoopOk(c, turn, start, trace + [Stage(s', rs')], s', rs', turns + 1, go) && turns <= |c.nodes|
  {
    CompletedFits(c, rs.completed);
    ExtendingOn(c, start, s, rs, s', rs', go);
    TraceStep(turn, Stage(start, START), trace, s, rs, Stage(s', rs'), go);
  }

  lemma LoopStarts(c: Config, turn: (Stage, Stage, bool) -> bool, s: Store)
    requires Inv(s)
    ensures LoopOk(c, turn, s, [Stage(s, START)], s, START, 0, true)
  {
    ExtendedSelf(s, Producers([]));
  }

  /** The main loop: until the scheduler terminates the run or a node stops it. */
  method RunLoop(c: Config, episode: E.Episode, executor: Executor, ghost turn: (Stage, Stage, bool) -> bool)
    returns (rs: RunState, turns: nat)
    requires Inv(episode.Value()) && Collisionless(c) && Covers(c, executor, turn)
    modifies episode
    ensures LoopOk(c, turn, old(episode.Value()), [], episode.Value(), rs, turns, false)
  {
    rs, turns := START, 0;
    ghost var trace := [Stage(episode.Value(), START)];
    LoopStarts(c, turn, episode.Value());
    var go := true;
    while go
      invariant LoopOk(c, turn, old(episode.Value()), trace, episode.Value(), rs, turns, go)
      decreases |c.nodes| + 1 - turns, go
    {
      ghost var between, before := episode.Value(), rs;
      rs, go := Turn(c, episode, executor, rs, turn);
      LoopAdvances(c, turn, old(episode.Value()), trace, between, before, turns, episode.Value(), rs, go);
      trace, turns := trace + [Stage(episode.Value(), rs)], turns + 1;
    }
  }

  datatype Outcome = Outcome(receipt: ResultReceipt, records: seq<Record>, independents: seq<(Independence, set<string>)>)

  function Rejected(taskId: string, s: Store, reason: Reason, envelope: Option<string>): Outcome {
    Outcome(ResultReceipt(if taskId == "" then "runner:invalid_task_id" else taskId, s.id, |s.events|, [], [], false, true,
                          [Unresolved(reason, "")], [ContractViolation], [], [], [], [], envelope), [], [])
  }

  function Objection(nodes: seq<RunnerNode>, budgetLimit: int, taskId: string, envelope: Option<Envelope>): Option<Reason> {
    if taskId == "" then Some(InvalidTaskId)
    else if envelope.Some? && envelope.value.taskId != taskId then Some(InvalidEnvelope)
    else if exists i :: 0 <= i < |nodes| && !DescriptorExact(nodes[i].descriptor) then Some(InvalidNodes)
    else if budgetLimit < 0 then Some(InvalidBudget)
    else None
  }

  function OutcomeOf(c: Config, t: Store, rs: RunState): Outcome {
    Outcome(FinalReceipt(c, TakeSnapshot(t), rs), rs.records, rs.independents)
  }

  /** The loop ran to its end and this is what it left. */
  ghost predicate EndsWith(c: Config, executor: Executor, s: Store, turns: nat, t: Store, outcome: Outcome, calls: nat) {
    exists rs :: Runs(c, executor, s, turns, t, rs) && outcome == OutcomeOf(c, t, rs) && calls == rs.calls
  }

  method RunGoverned(c: Config, episode: E.Episode, executor: Executor) returns (outcome: Outcome, turns: nat, calls: nat)
    requires Inv(episode.Value()) && Collisionless(c) && c.taskId != ""
    modifies episode
    ensures EndsWith(c, executor, old(episode.Value()), turns, episode.Value(), outcome, calls)
    ensures Constructible(outcome.receipt) && ExportAccepts(c.digests, outcome.receipt, outcome.records)
    ensures Inv(episode.Value()) && ExtendedBy(old(episode.Value()), episode.Value(), Producers(outcome.records))
    ensures turns <= |c.nodes| + 1 && calls <= Limit(c) && PairwiseIndependent(outcome.independents)
  {
    var rs;
    rs, turns := RunLoop(c, episode, executor, TurnOf(c, executor));
    FinalReceiptSound(c, TakeSnapshot(episode.Value()), rs);
    outcome, calls := OutcomeOf(c, episode.Value(), rs), rs.calls;
  }

  /** A whole run: an objection before it starts, or the loop to its end. Whatever the executors return,
      raise or do to the episode, the receipt can be constructed and exported, the episode is only
      extended by objects that carry the producer of a trace record, the loop turns at most once per
      node plus the final decision, and executors are called at most as often as both budgets allow. */
  method Run(episode: E.Episode, nodes: seq<RunnerNode>, budgetLimit: int, taskId: string, envelope: Option<Envelope>,
             digests: Digests, names: (nat, string, bool) -> string, executor: Executor)
    returns (outcome: Outcome, turns: nat, calls: nat)
    requires Inv(episode.Value())
    requires Collisionless(Config(taskId, nodes, 0, envelope, digests, names))
    modifies episode
    ensures match Objection(nodes, budgetLimit, taskId, envelope)
            case Some(reason) =>
              && outcome == Rejected(taskId, old(episode.Value()), reason, if taskId == "" then None else DigestOf(envelope))
              && episode.Value() == old(episode.Value()) && calls == 0
            case None =>
              EndsWith(Config(taskId, nodes, budgetLimit, envelope, digests, names), executor,
                       old(episode.Value()), turns, episode.Value(), outcome, calls)
    ensures Constructible(outcome.receipt) && ExportAccepts(digests, outcome.receipt, outcome.records)
    ensures Inv(episode.Value()) && ExtendedBy(old(episode.Value()), episode.Value(), Producers(outcome.records))
    ensures turns <= |nodes| + 1 && PairwiseIndependent(outcome.independents)
    ensures calls == 0 || calls <= budgetLimit
    ensures envelope.Some? && envelope.value.resourceBudget.Some? ==> calls <= envelope.value.resourceBudget.value
  {
    var objection := Objection(nodes, budgetLimit, taskId, envelope);
    if objection.Some? {
      ExtendedSelf(episode.Value(), Producers([]));
      outcome := Rejected(taskId, episode.Value(), objection.value, if taskId == "" then None else DigestOf(envelope));
      return outcome, 0, 0;
    }
    outcome, turns, calls := RunGoverned(Config(taskId, nodes, budgetLimit, envelope, digests, names), episode, executor);
  }
}
