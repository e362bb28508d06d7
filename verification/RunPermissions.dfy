/** What the nodes of a run may do: when their executors are called, what they may cite, and what they may
    leave in the episode. */
module RunPermissions {
  import opened Wrappers
  import opened Collections
  import opened Traces
  import opened EpisodeStore
  import opened EpisodeHistory
  import opened Visibility
  import opened Scheduler
  import opened Admission
  import opened AdmissionLaws
  import opened Receipts
  import opened Runner
  import opened RunLaws

  /** A complete claim of independence: who and what worked, that it saw no other answer, and on what basis. */
  predicate ClaimsIndependence(m: Independence) {
    && (m.executorId.Some? && m.executorId.value != "") && (m.modelId.Some? && m.modelId.value != "")
    && (m.providerId.Some? && m.providerId.value != "") && (m.promptLineage.Some? && m.promptLineage.value != "")
    && (m.contextLineage.Some? && m.contextLineage.value != "")
    && m.sawOtherAnswer == Some(false) && m.commonEvidence == []
    && "" !in m.consumedEvidence && m.basis != [] && forall ref :: ref in m.basis ==> GovernedBasis(ref)
  }

  /** Nothing in common: executor, model, provider, prompt, context and evidence all differ. */
  predicate Apart(a: Independence, b: Independence) {
    && a.executorId != b.executorId && a.modelId != b.modelId && a.providerId != b.providerId
    && a.promptLineage != b.promptLineage && a.contextLineage != b.contextLineage
    && forall ref :: ref in a.consumedEvidence ==> ref !in b.consumedEvidence
  }

  lemma ClaimsIff(m: Independence)
    ensures Demonstrable(m) <==> ClaimsIndependence(m)
  {
  }

  lemma IndependentIff(a: Independence, b: Independence)
    ensures IndependentFrom(a, b) <==> ClaimsIndependence(a) && ClaimsIndependence(b) && Apart(a, b)
  {
    assert forall ref :: ref in a.consumedEvidence <==> ref in Elements(a.consumedEvidence);
    assert forall ref :: ref in b.consumedEvidence <==> ref in Elements(b.consumedEvidence);
  }

  /** Recorded independent workers have nothing in common, two by two. */
  lemma RecordedAreApart(items: seq<(Independence, set<string>)>, i: nat, j: nat)
    requires PairwiseIndependent(items) && i < j < |items|
    ensures ClaimsIndependence(items[i].0) && ClaimsIndependence(items[j].0) && Apart(items[j].0, items[i].0)
    ensures forall v :: v in items[i].1 ==> v !in items[j].1
  {
    IndependentIff(items[j].0, items[i].0);
  }

  lemma BasisPrefixes()
    ensures GovernedBasis("policy:x") && GovernedBasis("receipt:x") && GovernedBasis("review:x") && GovernedBasis("runtime:x")
    ensures !GovernedBasis("model:x") && !GovernedBasis("policy")
  {
    assert "model:x"[0] != "policy:"[0] && "model:x"[0] != "receipt:"[0];
  }

  /** The executor of a node may be called: no authority is asked for that nobody could verify, there is an
      executor, the scheduled target is in view, everything in view is of a kind it accepts, and where it
      must be independent it is. */
  ghost predicate MayCall(c: Config, node: RunnerNode, view: View, target: Option<string>, prior: seq<(Independence, set<string>)>) {
    var d := node.descriptor;
    && d.requiredAuthority == [] && node.hasExecutor
    && (target.Some? ==> InView(view, target.value))
    && (d.acceptedKinds != {} ==> forall p :: p in view.propositions ==> p.kind in d.acceptedKinds)
    && (d.independenceRequired ==>
          && (c.envelope.Some? ==> c.envelope.value.contextRefs == [])
          && StandsAlone(node, view, prior))
  }

  /** The node's claim is complete, verified by its policy and exact about the evidence in view; it has
      nothing in common with any earlier independent worker; and its view shows no other worker's output
      and nothing that the node must not see. */
  ghost predicate StandsAlone(node: RunnerNode, view: View, prior: seq<(Independence, set<string>)>) {
    var m, d := node.independence, node.descriptor;
    && ClaimsIndependence(m) && node.policyVerifies && Distinct(m.consumedEvidence)
    && (forall ref :: ref in m.consumedEvidence <==>
          exists p :: p in view.propositions && p.kind == Evidence && (p.id == ref || ref in p.sourceRefs))
    && (forall x :: x in prior ==>
          ClaimsIndependence(x.0) && Apart(m, x.0) && EvidenceApart(view, x.1))
    && (forall p :: p in view.propositions ==> p.producer == None && p.kind !in d.blindKinds && p.id !in d.blindIds)
    && (forall r :: r in view.relations ==> r.producer == None)
  }

  /** No version of the evidence in view is among these. */
  ghost predicate EvidenceApart(view: View, versions: set<string>) {
    forall p, v :: p in view.propositions && p.kind == Evidence && v in p.sourceVersions ==> v !in versions
  }

  lemma EvidenceIff(m: Independence, view: View)
    ensures Elements(m.consumedEvidence) == EvidenceRefs(view) <==>
            forall ref :: ref in m.consumedEvidence <==>
              exists p :: p in view.propositions && p.kind == Evidence && (p.id == ref || ref in p.sourceRefs)
  {
    forall ref ensures ref in EvidenceRefs(view) <==>
        exists p :: p in view.propositions && p.kind == Evidence && (p.id == ref || ref in p.sourceRefs) {}
    assert forall ref :: ref in m.consumedEvidence <==> ref in Elements(m.consumedEvidence);
  }

  lemma VersionsIff(view: View, versions: set<string>)
    ensures EvidenceVersions(view) !! versions <==> EvidenceApart(view, versions)
  {
    if EvidenceVersions(view) !! versions {
      forall p, v | p in view.propositions && p.kind == Evidence && v in p.sourceVersions ensures v !in versions {
        assert v in EvidenceVersions(view);
      }
    }
  }

  lemma StandsAloneIff(node: RunnerNode, view: View, prior: seq<(Independence, set<string>)>)
    ensures Demonstrable(node.independence) && IndependenceHolds(node, view, prior) <==> StandsAlone(node, view, prior)
  {
    ClaimsIff(node.independence);
    EvidenceIff(node.independence, view);
    forall x ensures IndependentFrom(node.independence, x) <==>
                     ClaimsIndependence(node.independence) && ClaimsIndependence(x) && Apart(node.independence, x) {
      IndependentIff(node.independence, x);
    }
    forall versions ensures EvidenceVersions(view) !! versions <==> EvidenceApart(view, versions) {
      VersionsIff(view, versions);
    }
  }

  lemma StoppedIff(c: Config, rs: RunState, node: RunnerNode, execution: string, digest: string, view: View, target: Option<string>)
    ensures Stopped(c, rs, node, execution, digest, view, target).None? <==> MayCall(c, node, view, target, rs.independents)
  {
    StandsAloneIff(node, view, rs.independents);
    assert forall x :: InView(view, x) <==> x in VisibleRefs(view);
  }

  /** One scheduled node calls its executor exactly when it may, once; otherwise the episode stays as it is
      and the run has a failure. */
  lemma CalledIff(c: Config, executor: Executor, s: Store, rs: RunState, n: nat, target: Option<string>, t: Store, rs': RunState, go: bool)
    requires n < |c.nodes| && NodeSteps(c, executor, s, rs, n, target, t, rs', go)
    ensures var view := ViewOf(TakeSnapshot(s), c.nodes[n].visibility);
            if MayCall(c, c.nodes[n], view, target, rs.independents) then rs'.calls == rs.calls + 1
            else rs'.calls == rs.calls && t == s && rs'.failures != []
  {
    var node := c.nodes[n];
    var execution := c.names(|rs.records| + 1, node.descriptor.nodeId, node.descriptor.independenceRequired);
    StoppedIff(c, rs, node, execution, c.digests.snapshot(TakeSnapshot(s)), ViewOf(TakeSnapshot(s), node.visibility), target);
  }

  lemma {:induction false} PropositionVersionsIff(items: seq<Proposition>)
    ensures forall v :: v in PropositionVersions(items) <==> exists p :: p in items && v in p.sourceVersions
  {
    if items != [] {
      PropositionVersionsIff(items[..|items| - 1]);
      LastSplits(items);
    }
  }

  lemma {:induction false} RelationVersionsIff(items: seq<Relation>)
    ensures forall v :: v in RelationVersions(items) <==> exists r :: r in items && v in r.sourceVersions
  {
    if items != [] {
      RelationVersionsIff(items[..|items| - 1]);
      LastSplits(items);
    }
  }

  /** What an output may cite: what is in view, and the sources and versions of what is in view. */
  lemma GovernedIff(view: View)
    ensures forall ref :: ref in GovernedBy(view).refs <==>
              || InView(view, ref)
              || (exists p :: p in view.propositions && ref in p.sourceRefs) || (exists r :: r in view.relations && ref in r.sourceRefs)
    ensures forall v :: v in GovernedBy(view).versions <==>
              (exists p :: p in view.propositions && v in p.sourceVersions) || (exists r :: r in view.relations && v in r.sourceVersions)
  {
    VersionsInView(view);
    assert forall x :: InView(view, x) <==> x in VisibleRefs(view);
  }

  /** The record is one of a node that was permitted to make a proposition of this kind. */
  ghost predicate Grants(c: Config, r: Record, p: Proposition, n: nat) {
    && n < |c.nodes| && c.nodes[n].descriptor.nodeId == r.nodeId
    && p.producer.Some? && r.producer == p.producer
    && p.kind in c.nodes[n].descriptor.permittedKinds && p.kind != Evidence
  }

  ghost predicate GrantsRelation(c: Config, r: Record, x: Relation, n: nat) {
    && n < |c.nodes| && c.nodes[n].descriptor.nodeId == r.nodeId
    && x.producer.Some? && r.producer == x.producer
    && exists t :: t in c.nodes[n].descriptor.permittedRelationTypes && Lower(t) == Lower(x.relationType)
  }

  ghost predicate Granted(c: Config, records: seq<Record>, p: Proposition) {
    exists r, n: nat :: r in records && Grants(c, r, p, n)
  }

  ghost predicate GrantedRelation(c: Config, records: seq<Record>, x: Relation) {
    exists r, n: nat :: r in records && GrantsRelation(c, r, x, n)
  }

  /** What is new in the episode was made by permitted nodes; what was there is as it was. */
  ghost predicate OnlyGranted(c: Config, start: Store, t: Store, records: seq<Record>) {
    && (forall id :: id in start.propositions ==> id in t.propositions && t.propositions[id] == start.propositions[id])
    && (forall id :: id in start.relations ==> id in t.relations && t.relations[id] == start.relations[id])
    && (forall id :: id in t.propositions && id !in start.propositions ==> Granted(c, records, t.propositions[id]))
    && (forall id :: id in t.relations && id !in start.relations ==> GrantedRelation(c, records, t.relations[id]))
  }

  lemma GrantsStay(c: Config, start: Store, t: Store, records: seq<Record>, more: seq<Record>)
    requires OnlyGranted(c, start, t, records) && records <= more
    ensures OnlyGranted(c, start, t, more)
  {
    assert forall r :: r in records ==> r in more;
  }

  lemma GrantsChain(c: Config, start: Store, s: Store, t: Store, records: seq<Record>)
    requires OnlyGranted(c, start, s, records) && OnlyGranted(c, s, t, records)
    ensures OnlyGranted(c, start, t, records)
  {
  }

  /** A returned result adds only what its node is permitted to make. */
  lemma ConclusionGrants(c: Config, s: Store, n: nat, record: Record, result: ExecutionResult, view: View, t: Store)
    requires Inv(s) && n < |c.nodes| && record.nodeId == c.nodes[n].descriptor.nodeId
    requires AdmissionOf(c, s, c.nodes[n], record, result, view) == Some(t)
    ensures OnlyGranted(c, s, t, [RecordOf(c, s, c.nodes[n], record, result, view)])
  {
    var node, last := c.nodes[n], RecordOf(c, s, c.nodes[n], record, result, view);
    var d, governed := node.descriptor, GovernedBy(view);
    AdmissionOfExtends(c, s, node, record, result, view);
    AdmittedIff(c.digests, s, d, result, record.executionId, record.snapshot, TaskDigest(c), governed);
    AdmittedExactly(c.digests, s, d, result, record.executionId, record.snapshot, TaskDigest(c), governed);
    forall id | id in t.propositions && id !in s.propositions ensures Granted(c, [last], t.propositions[id]) {
      var p :| p in result.propositions && p.id == id;
      assert MayEmit(d, governed, s.id, record.executionId, p);
      assert Grants(c, last, t.propositions[id], n);
    }
    forall id | id in t.relations && id !in s.relations ensures GrantedRelation(c, [last], t.relations[id]) {
      var x :| x in result.relations && x.id == id;
      assert MayRelate(d, governed, s.id, record.executionId, result.propositions, x);
      assert GrantsRelation(c, last, t.relations[id], n);
    }
  }

  /** A step that keeps the invariant and the records, and adds only what was granted. */
  ghost predicate AddsGranted(c: Config, s: Store, rs: RunState, t: Store, rs': RunState) {
    Inv(t) && rs.records <= rs'.records && OnlyGranted(c, s, t, rs'.records)
  }

  lemma AttemptGrants(c: Config, s: Store, rs: RunState, n: nat, record: Record, view: View, attempt: Attempt)
    requires Inv(s) && n < |c.nodes| && record.nodeId == c.nodes[n].descriptor.nodeId
    ensures var (t, rs', go) := AttemptedTo(c, s, rs, c.nodes[n], record, view, attempt); AddsGranted(c, s, rs, t, rs')
  {
    var node := c.nodes[n];
    var (t, rs', go) := AttemptedTo(c, s, rs, node, record, view, attempt);
    if attempt.Done? && AdmissionOf(c, s, node, record, attempt.result, view).Some? {
      var last := RecordOf(c, s, node, record, attempt.result, view);
      ConclusionGrants(c, s, n, record, attempt.result, view, t);
      AdmissionOfExtends(c, s, node, record, attempt.result, view);
      assert rs'.records == rs.records + [last] && last in rs'.records;
      GrantsInto(c, s, t, last, rs'.records);
    }
  }

  lemma GrantsInto(c: Config, s: Store, t: Store, last: Record, records: seq<Record>)
    requires OnlyGranted(c, s, t, [last]) && last in records
    ensures OnlyGranted(c, s, t, records)
  {
    forall id | id in t.propositions && id !in s.propositions ensures Granted(c, records, t.propositions[id]) {
      var r, n: nat :| r in [last] && Grants(c, r, t.propositions[id], n);
    }
    forall id | id in t.relations && id !in s.relations ensures GrantedRelation(c, records, t.relations[id]) {
      var r, n: nat :| r in [last] && GrantsRelation(c, r, t.relations[id], n);
    }
  }

  lemma StoppedGrants(c: Config, s: Store, rs: RunState, node: RunnerNode, execution: string, digest: string, view: View, target: Option<string>)
    requires Inv(s) && Stopped(c, rs, node, execution, digest, view, target).Some?
    ensures AddsGranted(c, s, rs, s, Stopped(c, rs, node, execution, digest, view, target).value.0)
  {
  }

  lemma TurnGrants(c: Config, executor: Executor, a: Stage, b: Stage, go: bool)
    requires Inv(a.store) && Turns(c, executor, a, b, go)
    ensures AddsGranted(c, a.store, a.rs, b.store, b.rs)
  {
    var decision := NextDecision(TakeSnapshot(a.store), Descriptors(c.nodes), a.rs.completed, Limit(c), a.rs.used);
    if decision.Execute? {
      NodeGrants(c, executor, a.store, a.rs, decision.index, decision.target, b.store, b.rs, go);
    }
  }

  lemma NodeGrants(c: Config, executor: Executor, s: Store, rs: RunState, n: nat, target: Option<string>, t: Store, rs': RunState, go: bool)
    requires Inv(s) && n < |c.nodes| && NodeSteps(c, executor, s, rs, n, target, t, rs', go)
    ensures AddsGranted(c, s, rs, t, rs')
  {
    var node := c.nodes[n];
    var d := node.descriptor;
    var execution := c.names(|rs.records| + 1, d.nodeId, d.independenceRequired);
    var digest := c.digests.snapshot(TakeSnapshot(s));
    var view := ViewOf(TakeSnapshot(s), node.visibility);
    if Stopped(c, rs, node, execution, digest, view, target).Some? {
      StoppedGrants(c, s, rs, node, execution, digest, view, target);
    } else {
      var behaviour := executor(d.nodeId, execution, Hidden(view), target);
      var record := StartedRecord(c, node, execution, digest, view);
      var after :| Leads(s, behaviour.changes, after)
        && (t, rs', go) == AttemptedTo(c, s, rs, node, record, view, Judge(s, behaviour.returned, after));
      AttemptGrants(c, s, rs, n, record, view, Judge(s, behaviour.returned, after));
    }
  }

  ghost function Granting(c: Config, start: Store): Stage -> bool {
    (x: Stage) => Inv(x.store) && OnlyGranted(c, start, x.store, x.rs.records)
  }

  lemma TurnsKeepGranting(c: Config, executor: Executor, start: Store)
    ensures forall a, b, go :: Granting(c, start)(a) && TurnOf(c, executor)(a, b, go) ==> Granting(c, start)(b)
  {
    forall a, b, go | Granting(c, start)(a) && TurnOf(c, executor)(a, b, go) ensures Granting(c, start)(b) {
      TurnGrants(c, executor, a, b, go);
      GrantsStay(c, start, a.store, a.rs.records, b.rs.records);
      GrantsChain(c, start, a.store, b.store, b.rs.records);
    }
  }

  /** A whole run leaves in the episode only what its nodes were permitted to make: every new proposition
      carries the producer of a record of a node that may make its kind, and every new relation that of a
      node that may make its type. */
  lemma RunAddsOnlyGranted(c: Config, executor: Executor, s: Store, turns: nat, t: Store, rs: RunState)
    requires Inv(s) && Runs(c, executor, s, turns, t, rs)
    ensures OnlyGranted(c, s, t, rs.records)
  {
    var kept := Granting(c, s);
    TurnsKeepGranting(c, executor, s);
    assert kept(Stage(s, START));
    var last := CompletionKeeps(TurnOf(c, executor), Stage(s, START), turns, Stage(t, rs), kept);
  }

  /** An execution that gives no usable result changes nothing, is recorded with its failure and completes
      the node; the run goes on unless the node was mandatory. */
  lemma UnusableIsReported(c: Config, s: Store, rs: RunState, node: RunnerNode, record: Record, view: View, attempt: Attempt)
    requires !attempt.Done?
    ensures var (t, rs', go) := AttemptedTo(c, s, rs, node, record, view, attempt);
            var f := if attempt == Crashed then AttemptedUnknown else ContractViolation;
            && t == s && f in rs'.failures && rs'.records == rs.records + [record.(failures := [f])]
            && rs'.completed == rs.completed + [record.nodeId] && rs'.calls == rs.calls + 1 && go == !node.descriptor.mandatoryVerification
            && Unresolved(if attempt == Crashed then ExecutionRaised else if attempt == Invalid then InvalidResult else EpisodeMutation,
                          record.executionId) in rs'.unresolved
  {
    AddNewMembers(rs.failures, [if attempt == Crashed then AttemptedUnknown else ContractViolation]);
  }

  /** The receipt passes on every failure and every open point of the run, and leaves every current claim
      undisposed. */
  lemma ReceiptTells(c: Config, t: Store, rs: RunState)
    ensures var r := FinalReceipt(c, TakeSnapshot(t), rs);
            && r.taskId == c.taskId && r.episode == t.id && r.version == |t.events| && r.failures == rs.failures
            && r.acceptedClaims == [] && r.rejectedClaims == [] && !r.dispositionComplete && r.planOnly
            && (forall u :: u in rs.unresolved ==> u in r.unresolved)
            && (forall p :: p in TakeSnapshot(t).currentPropositions && p.kind == Claim ==> Unresolved(ClaimDisposition, p.id) in r.unresolved)
  {
    var current := TakeSnapshot(t).currentPropositions;
    ClaimsNoted(current);
    AddNewMembers([], rs.unresolved + ClaimNotes(current));
  }

  lemma {:induction false} ClaimsNoted(items: seq<Proposition>)
    ensures forall p :: p in items && p.kind == Claim ==> Unresolved(ClaimDisposition, p.id) in ClaimNotes(items)
  {
    if items != [] {
      ClaimsNoted(items[..|items| - 1]);
      LastSplits(items);
    }
  }

  /** The budget is the smaller of the two. */
  lemma BudgetIsTheSmaller(c: Config)
    ensures Limit(c) <= c.limit && (c.envelope.Some? && c.envelope.value.resourceBudget.Some? ==> Limit(c) <= c.envelope.value.resourceBudget.value)
    ensures Limit(c) == c.limit || (c.envelope.Some? && c.envelope.value.resourceBudget == Some(Limit(c)))
  {
  }

  /** The record of a returned result names the execution, the node, the snapshot and the versions it was
      shown, what was admitted, and the output whether it was admitted or not. */
  lemma RecordTells(c: Config, s: Store, node: RunnerNode, execution: string, result: ExecutionResult)
    ensures var digest := c.digests.snapshot(TakeSnapshot(s));
            var view := ViewOf(TakeSnapshot(s), node.visibility);
            var r := RecordOf(c, s, node, StartedRecord(c, node, execution, digest, view), result, view);
            var admitted := AdmissionOf(c, s, node, StartedRecord(c, node, execution, digest, view), result, view).Some?;
            && r.executionId == execution && r.nodeId == node.descriptor.nodeId && r.snapshot == digest
            && r.independenceDemonstrated == node.descriptor.independenceRequired
            && r.envelope == (if c.envelope == None then None else Some(c.envelope.value.digest))
            && r.task == (if c.envelope == None then None else Some(c.envelope.value.specification))
            && (forall v :: v in r.sourceVersions <==>
                  (exists p :: p in view.propositions && v in p.sourceVersions) || (exists x :: x in view.relations && v in x.sourceVersions))
            && r.output == OutputDigest(c.digests, result)
            && r.emitted == (if admitted then EmittedIds(result) else []) && (!admitted ==> r.producer == None)
  {
    var view := ViewOf(TakeSnapshot(s), node.visibility);
    var record := StartedRecord(c, node, execution, c.digests.snapshot(TakeSnapshot(s)), view);
    var r := RecordOf(c, s, node, record, result, view);
    VersionsInView(view);
    if AdmissionOf(c, s, node, record, result, view).Some? {
      assert r.emitted == EmittedIds(result);
    }
  }

  lemma VersionsInView(view: View)
    ensures forall v :: v in ViewVersions(view) <==>
              (exists p :: p in view.propositions && v in p.sourceVersions) || (exists r :: r in view.relations && v in r.sourceVersions)
  {
    PropositionVersionsIff(view.propositions);
    RelationVersionsIff(view.relations);
    AddNewMembers([], PropositionVersions(view.propositions) + RelationVersions(view.relations));
  }

  /** An executor sees what the view shows and no trace of what it hides. */
  lemma ExecutorSeesNoHidden(view: View)
    ensures Hidden(view).propositions == view.propositions && Hidden(view).relations == view.relations
    ensures Hidden(view).blindedPropositions == [] && Hidden(view).blindedRelations == []
  {
  }

  /** A result that counts is complete: named, with well-formed items, and with targets where it verifies. */
  lemma ExactMeans(result: ExecutionResult)
    ensures ResultExact(result) <==>
            && result.executionId != "" && result.nodeId != "" && "" !in result.sourceVersions && "" !in result.verificationTargets
            && (result.verification == None || |result.verificationTargets| > 0)
            && (forall p :: p in result.propositions ==>
                  && p.id != "" && p.episode != "" && p.content != "" && p.producer != Some("")
                  && "" !in p.sourceRefs && "" !in p.sourceVersions && |Elements(p.sourceVersions)| == |p.sourceVersions|
                  && (p.confidence == None || p.confidence.value <= 1000000))
            && (forall r :: r in result.relations ==>
                  && r.id != "" && r.episode != "" && r.relationType != "" && r.producer != Some("") && |r.participants| > 0
                  && (forall q :: q in r.participants ==> q.refId != "" && q.role != "")
                  && "" !in r.sourceRefs && "" !in r.sourceVersions && |Elements(r.sourceVersions)| == |r.sourceVersions|)
  {
    forall p | p in result.propositions ensures |Elements(p.sourceVersions)| == |p.sourceVersions| <==> Distinct(p.sourceVersions) {
      DistinctIff(p.sourceVersions);
    }
    forall r | r in result.relations ensures |Elements(r.sourceVersions)| == |r.sourceVersions| <==> Distinct(r.sourceVersions) {
      DistinctIff(r.sourceVersions);
    }
  }

  /** A run begins unless its task has no name, its envelope is another task's, a node is ill described, or
      its budget is negative. */
  lemma BeginsIff(nodes: seq<RunnerNode>, budgetLimit: int, taskId: string, envelope: Option<Envelope>)
    ensures Objection(nodes, budgetLimit, taskId, envelope) == None <==>
            && taskId != "" && (envelope != None ==> envelope.value.taskId == taskId) && budgetLimit >= 0
            && forall i :: 0 <= i < |nodes| ==> Described(nodes[i].descriptor)
  {
  }

  predicate Described(d: Descriptor) {
    && d.nodeId != "" && "" !in d.requiredAuthority && "" !in d.permittedRelationTypes && "" !in d.verificationTargets
    && "" !in d.blindIds && (d.mandatoryVerification ==> |d.verificationTargets| > 0)
  }

  /** What a node that may not be called leaves behind. A missing executor completes the node and ends the
      run only if the node was mandatory; everything else ends it. A target out of view or an unaccepted kind
      counts as an execution and is recorded; shared context or a failed independence check is recorded but
      does not complete the node; an incomplete claim of independence is not even recorded. */
  lemma StoppingTells(c: Config, rs: RunState, node: RunnerNode, execution: string, digest: string, view: View, target: Option<string>)
    requires !MayCall(c, node, view, target, rs.independents)
    ensures Stopped(c, rs, node, execution, digest, view, target).Some?
    ensures var d := node.descriptor;
            var (rs', go) := Stopped(c, rs, node, execution, digest, view, target).value;
            var record := BaseRecord(c, node, execution, digest).(failures := [ContractViolation]);
            && (go <==> d.requiredAuthority == [] && !node.hasExecutor && !d.mandatoryVerification)
            && (if d.requiredAuthority == [] && !node.hasExecutor then Unavailable in rs'.failures else ContractViolation in rs'.failures)
            && (d.requiredAuthority != [] || !node.hasExecutor ==> rs'.records == rs.records && rs'.used == rs.used)
            && (d.requiredAuthority == [] && node.hasExecutor ==>
                  if (target != None && !InView(view, target.value)) || !KindsAccepted(d, view)
                  then rs'.records == rs.records + [record] && rs'.used == rs.used + 1 && rs'.completed == rs.completed + [d.nodeId]
                  else rs'.used == rs.used && rs'.completed == rs.completed
                       && rs'.records == rs.records + if SharesContext(c) || ClaimsIndependence(node.independence) then [record] else [])
  {
    StoppedIff(c, rs, node, execution, digest, view, target);
    ClaimsIff(node.independence);
    AddNewMembers(rs.failures, [ContractViolation]);
    assert forall x :: InView(view, x) <==> x in VisibleRefs(view);
  }

  predicate SharesContext(c: Config) {
    c.envelope != None && |c.envelope.value.contextRefs| > 0
  }

  predicate KindsAccepted(d: Descriptor, view: View) {
    d.acceptedKinds == {} || forall p :: p in view.propositions ==> p.kind in d.acceptedKinds
  }

  /** Every returned result completes its node and counts as one execution; an independent worker is
      remembered, with the evidence it was shown, exactly when its output was admitted. */
  lemma ConclusionCounts(c: Config, s: Store, node: RunnerNode, rs: RunState, record: Record, result: ExecutionResult, view: View)
    ensures var (t, rs') := ConclusionOf(c, s, node, rs, record, result, view);
            var admitted := AdmissionOf(c, s, node, record, result, view).Some?;
            && rs'.completed == rs.completed + [record.nodeId] && rs'.used == rs.used + 1 && |rs'.records| == |rs.records| + 1
            && rs'.independents == rs.independents
                 + (if admitted && node.descriptor.independenceRequired then [(node.independence, EvidenceVersions(view))] else [])
            && (!admitted ==> t == s)
  {
  }

  /** The open points of a returned result: the failures it reports, an output that was refused, and a
      verification that is owed and was not had. */
  lemma ConclusionNotes(c: Config, s: Store, node: RunnerNode, record: Record, result: ExecutionResult, view: View)
    ensures var notes, last := NotesOf(c, s, node, record, result, view), RecordOf(c, s, node, record, result, view);
            var owed := node.descriptor.mandatoryVerification;
            var proven := owed ==> VerificationPassed(node.descriptor, result, view);
            var refused := result.failures == [] && proven && AdmittedTo(c, s, node.descriptor, record, result, view).None?;
            && (Unresolved(ExecutionFailed, record.executionId) in notes <==> result.failures != [])
            && (Unresolved(NotAdmitted, record.executionId) in notes <==> refused)
            && (Unresolved(Unverified, record.executionId) in notes <==> owed && (!proven || refused))
            && (refused ==> ContractViolation in last.failures)
            && (forall f :: f in result.failures ==> f in last.failures)
  {
    if node.descriptor.mandatoryVerification { PassedIff(node.descriptor, result, view); }
  }

  /** A run that is refused says so, and bears no execution. */
  lemma RejectionTells(taskId: string, s: Store, reason: Reason, envelope: Option<string>)
    ensures var outcome := Rejected(taskId, s, reason, envelope);
            && outcome.receipt.failures == [ContractViolation] && outcome.receipt.unresolved == [Unresolved(reason, "")]
            && outcome.receipt.taskId != "" && (taskId != "" ==> outcome.receipt.taskId == taskId)
            && outcome.receipt.executionIds == [] && outcome.records == [] && outcome.receipt.envelope == envelope
  {
  }

  /** A result is used exactly when the executor returned it, it is complete, and whatever the executor did
      to the episode had left it as it was. */
  lemma UsedIff(before: Store, returned: Returned, after: Store, result: ExecutionResult)
    ensures Judge(before, returned, after) == Done(result) <==> returned == Returns(result) && ResultExact(result) && after == before
    ensures returned == Raises ==> Judge(before, returned, after) == Crashed
    ensures returned != Raises && !Judge(before, returned, after).Done? ==> Judge(before, returned, after) in {Invalid, Mutated}
  {
  }
}
