/** What a finished run guarantees about its nodes: which of them were verified, what they were allowed to
    add, and when their executors were called. */
module RunLaws {
  import opened Wrappers
  import opened Collections
  import opened Traces
  import opened EpisodeStore
  import opened EpisodeHistory
  import opened Visibility
  import opened Scheduler
  import opened SchedulerRules
  import opened Admission
  import opened AdmissionLaws
  import opened Receipts
  import opened Runner

  predicate InView(view: View, id: string) {
    (exists p :: p in view.propositions && p.id == id) || (exists r :: r in view.relations && r.id == id)
  }

  /** The verification that a mandatory node owes: it passed, on the targets that were asked for, all of
      them in view, with a test result that rests on every one of them. */
  predicate VerificationPassed(d: Descriptor, result: ExecutionResult, view: View) {
    && result.failures == [] && result.verification == Some(Passed) && result.verificationTargets == d.verificationTargets
    && (forall x :: x in d.verificationTargets ==> InView(view, x))
    && exists p :: p in result.propositions && p.kind == TestResult && forall x :: x in d.verificationTargets ==> x in p.sourceRefs
  }

  lemma ElementsWithin(a: seq<string>, b: seq<string>)
    ensures Elements(a) <= Elements(b) <==> forall x :: x in a ==> x in b
  {
    assert forall x :: x in a ==> x in Elements(a);
  }

  lemma PassedIff(d: Descriptor, result: ExecutionResult, view: View)
    requires d.mandatoryVerification
    ensures VerificationPassed(d, result, view) <==> result.failures == [] && VerificationFailure(d, result, VisibleRefs(view)).None?
  {
    assert forall x :: InView(view, x) <==> x in VisibleRefs(view);
    forall p: Proposition
      ensures Elements(d.verificationTargets) <= Elements(p.sourceRefs) <==> forall x :: x in d.verificationTargets ==> x in p.sourceRefs
    {
      ElementsWithin(d.verificationTargets, p.sourceRefs);
    }
  }

  /** Without the verification it owes, a node leaves the episode alone, emits nothing, and reports it. */
  lemma UnverifiedChangesNothing(c: Config, s: Store, node: RunnerNode, rs: RunState, record: Record, result: ExecutionResult, view: View)
    requires node.descriptor.mandatoryVerification && !VerificationPassed(node.descriptor, result, view)
    ensures var (t, rs') := ConclusionOf(c, s, node, rs, record, result, view);
            var last := rs'.records[|rs.records|];
            && t == s && last.emitted == [] && last.producer == None && last.failures != []
            && Unresolved(Unverified, record.executionId) in rs'.unresolved
            && (forall f :: f in last.failures ==> f in rs'.failures)
  {
    PassedIff(node.descriptor, result, view);
    AddNewMembers(rs.failures, RecordOf(c, s, node, record, result, view).failures);
  }

  /** In particular a status other than passed is recorded as insufficient evidence. */
  lemma NotPassedIsInsufficient(c: Config, s: Store, node: RunnerNode, rs: RunState, record: Record, result: ExecutionResult, view: View)
    requires node.descriptor.mandatoryVerification && result.failures == [] && result.verification != Some(Passed)
    ensures var (t, rs') := ConclusionOf(c, s, node, rs, record, result, view);
            && t == s && InsufficientEvidence in rs'.records[|rs.records|].failures && InsufficientEvidence in rs'.failures
            && Unresolved(Unverified, record.executionId) in rs'.unresolved
  {
    AddNewMembers(rs.failures, RecordOf(c, s, node, record, result, view).failures);
  }

  /** A record of a returned result reports no failure exactly when the result reports none, the node has
      the verification it owes, and the output was admitted. */
  lemma CleanRecordIff(c: Config, s: Store, node: RunnerNode, record: Record, result: ExecutionResult, view: View)
    ensures RecordOf(c, s, node, record, result, view).failures == [] <==>
            && result.failures == [] && (node.descriptor.mandatoryVerification ==> VerificationPassed(node.descriptor, result, view))
            && AdmittedTo(c, s, node.descriptor, record, result, view).Some?
  {
    if node.descriptor.mandatoryVerification { PassedIff(node.descriptor, result, view); }
  }

  function EmittedIds(result: ExecutionResult): seq<string> {
    seq(|result.propositions|, i requires 0 <= i < |result.propositions| => result.propositions[i].id)
  }

  /** The record stands for this result, which the node's executor returned for the view of this episode,
      and the result has the verification that the node owes. */
  ghost predicate VerifiedBy(c: Config, executor: Executor, node: RunnerNode, r: Record, s: Store, target: Option<string>, result: ExecutionResult) {
    var view := ViewOf(TakeSnapshot(s), node.visibility);
    && r.snapshot == c.digests.snapshot(TakeSnapshot(s))
    && executor(node.descriptor.nodeId, r.executionId, Hidden(view), target).returned == Returns(result)
    && VerificationPassed(node.descriptor, result, view)
    && r.output == OutputDigest(c.digests, result) && r.emitted == EmittedIds(result)
  }

  ghost predicate Verified(c: Config, executor: Executor, node: RunnerNode, r: Record) {
    exists s, target, result :: VerifiedBy(c, executor, node, r, s, target, result)
  }

  /** The record is one of node `n`, and without a failure it stands for a verified result if one is owed. */
  ghost predicate RecordFor(c: Config, executor: Executor, r: Record, n: nat) {
    && n < |c.nodes| && c.nodes[n].descriptor.nodeId == r.nodeId
    && (c.nodes[n].descriptor.mandatoryVerification && r.failures == [] ==> Verified(c, executor, c.nodes[n], r))
  }

  ghost predicate Justified(c: Config, executor: Executor, r: Record) {
    exists n: nat :: RecordFor(c, executor, r, n)
  }

  ghost predicate Recorded1(rs: RunState, id: string) {
    exists i :: 0 <= i < |rs.records| && rs.records[i].nodeId == id
  }

  ghost predicate FailureKept(rs: RunState, i: nat)
    requires i < |rs.records|
  {
    forall f :: f in rs.records[i].failures ==> f in rs.failures
  }

  lemma KeptFailures(rs: RunState, i: nat)
    requires i < |rs.records| && FailureKept(rs, i)
    ensures rs.records[i].failures != [] ==> rs.failures != []
  {
    assert rs.records[i].failures != [] ==> rs.records[i].failures[0] in rs.failures;
  }

  /** Every record is justified, its failures are the run's, and every completed node has a record unless
      some node was unavailable. */
  ghost predicate RecordsTell(c: Config, executor: Executor, rs: RunState) {
    && (forall i :: 0 <= i < |rs.records| ==> Justified(c, executor, rs.records[i]) && FailureKept(rs, i))
    && (forall id :: id in rs.completed ==> Unavailable in rs.failures || Recorded1(rs, id))
  }

  lemma RecordAdded(c: Config, executor: Executor, rs: RunState, r: Record, rs': RunState)
    requires RecordsTell(c, executor, rs) && Justified(c, executor, r) && rs'.records == rs.records + [r]
    requires forall f :: f in rs.failures || f in r.failures ==> f in rs'.failures
    requires forall id :: id in rs'.completed ==> id in rs.completed || id == r.nodeId
    ensures RecordsTell(c, executor, rs')
  {
    forall i | 0 <= i < |rs'.records| ensures Justified(c, executor, rs'.records[i]) && FailureKept(rs', i) {
      assert i < |rs.records| ==> FailureKept(rs, i);
    }
    forall id | id in rs'.completed && Unavailable !in rs'.failures ensures Recorded1(rs', id) {
      if id in rs.completed {
        assert Recorded1(rs, id);
        var i :| 0 <= i < |rs.records| && rs.records[i].nodeId == id;
        assert rs'.records[i].nodeId == id;
      } else {
        assert rs'.records[|rs.records|].nodeId == id;
      }
    }
  }

  lemma NoRecordAdded(c: Config, executor: Executor, rs: RunState, rs': RunState)
    requires RecordsTell(c, executor, rs) && rs'.records == rs.records
    requires forall f :: f in rs.failures ==> f in rs'.failures
    requires forall id :: id in rs'.completed ==> id in rs.completed || Unavailable in rs'.failures
    ensures RecordsTell(c, executor, rs')
  {
    forall i | 0 <= i < |rs'.records| ensures FailureKept(rs', i) {
      assert FailureKept(rs, i);
    }
    forall id | id in rs'.completed && Unavailable !in rs'.failures ensures Recorded1(rs', id) {
      assert Recorded1(rs, id);
    }
  }

  lemma RefusedTells(c: Config, executor: Executor, rs: RunState, n: nat, execution: string, digest: string, refusal: Refusal)
    requires RecordsTell(c, executor, rs) && n < |c.nodes| && (refusal.counted ==> refusal.recorded)
    ensures var rs' := Refused(c, rs, c.nodes[n], execution, digest, refusal);
            RecordsTell(c, executor, rs') && ContractViolation in rs'.failures
  {
    var node := c.nodes[n];
    var rs' := Refused(c, rs, node, execution, digest, refusal);
    var r := BaseRecord(c, node, execution, digest).(failures := [ContractViolation]);
    var noted := Noted(rs, ContractViolation, refusal.reason, refusal.subject);
    AddNewMembers(noted.failures, r.failures);
    if refusal.recorded {
      assert RecordFor(c, executor, r, n);
      RecordAdded(c, executor, rs, r, rs');
    } else {
      NoRecordAdded(c, executor, rs, rs');
    }
  }

  lemma StoppedTells(c: Config, executor: Executor, rs: RunState, n: nat, execution: string, digest: string, view: View, target: Option<string>)
    requires RecordsTell(c, executor, rs) && n < |c.nodes|
    requires Stopped(c, rs, c.nodes[n], execution, digest, view, target).Some?
    ensures var (rs', go) := Stopped(c, rs, c.nodes[n], execution, digest, view, target).value;
            RecordsTell(c, executor, rs') && rs'.failures != []
  {
    var node := c.nodes[n];
    var (rs', go) := Stopped(c, rs, node, execution, digest, view, target).value;
    if node.descriptor.requiredAuthority == [] && node.hasExecutor {
      RefusedTells(c, executor, rs, n, execution, digest, Preflight(c, node, view, target, rs.independents).value);
    } else {
      NoRecordAdded(c, executor, rs, rs');
    }
  }

  lemma FailedTells(c: Config, executor: Executor, rs: RunState, n: nat, record: Record, attempt: Attempt)
    requires RecordsTell(c, executor, rs) && n < |c.nodes| && record.nodeId == c.nodes[n].descriptor.nodeId
    ensures RecordsTell(c, executor, Unsuccessful(rs, record, attempt)) && Unsuccessful(rs, record, attempt).failures != []
  {
    var f := if attempt.Crashed? then AttemptedUnknown else ContractViolation;
    var r := record.(failures := [f]);
    assert RecordFor(c, executor, r, n);
    var reason := if attempt.Crashed? then ExecutionRaised else if attempt.Invalid? then InvalidResult else EpisodeMutation;
    AddNewMembers(Noted(rs, f, reason, record.executionId).failures, r.failures);
    RecordAdded(c, executor, rs, r, Unsuccessful(rs, record, attempt));
  }

  lemma ConcludedJustified(c: Config, executor: Executor, s: Store, n: nat, execution: string, target: Option<string>, result: ExecutionResult)
    requires n < |c.nodes|
    requires executor(c.nodes[n].descriptor.nodeId, execution, Hidden(ViewOf(TakeSnapshot(s), c.nodes[n].visibility)), target).returned
             == Returns(result)
    ensures var node := c.nodes[n];
            var view := ViewOf(TakeSnapshot(s), node.visibility);
            var record := StartedRecord(c, node, execution, c.digests.snapshot(TakeSnapshot(s)), view);
            RecordFor(c, executor, RecordOf(c, s, node, record, result, view), n)
  {
    var node := c.nodes[n];
    var view := ViewOf(TakeSnapshot(s), node.visibility);
    var record := StartedRecord(c, node, execution, c.digests.snapshot(TakeSnapshot(s)), view);
    var last := RecordOf(c, s, node, record, result, view);
    CleanRecordIff(c, s, node, record, result, view);
    if node.descriptor.mandatoryVerification && last.failures == [] {
      assert VerifiedBy(c, executor, node, last, s, target, result);
    }
  }

  lemma ConclusionTells(c: Config, executor: Executor, s: Store, rs: RunState, n: nat, record: Record, result: ExecutionResult, view: View)
    requires RecordsTell(c, executor, rs) && n < |c.nodes| && record.nodeId == c.nodes[n].descriptor.nodeId
    requires RecordFor(c, executor, RecordOf(c, s, c.nodes[n], record, result, view), n)
    ensures RecordsTell(c, executor, ConclusionOf(c, s, c.nodes[n], rs, record, result, view).1)
  {
    var last := RecordOf(c, s, c.nodes[n], record, result, view);
    AddNewMembers(rs.failures, last.failures);
    RecordAdded(c, executor, rs, last, ConclusionOf(c, s, c.nodes[n], rs, record, result, view).1);
  }

  lemma SameTells(c: Config, executor: Executor, rs: RunState, calls: nat)
    requires RecordsTell(c, executor, rs)
    ensures RecordsTell(c, executor, rs.(calls := calls))
  {
    NoRecordAdded(c, executor, rs, rs.(calls := calls));
  }

  /** Whatever the execution of a node comes to, the records tell; and a run that stops there has a failure. */
  lemma ExecutedTells(c: Config, executor: Executor, s: Store, rs: RunState, n: nat, execution: string, target: Option<string>, after: Store)
    requires RecordsTell(c, executor, rs) && n < |c.nodes|
    ensures var node := c.nodes[n];
            var view := ViewOf(TakeSnapshot(s), node.visibility);
            var record := StartedRecord(c, node, execution, c.digests.snapshot(TakeSnapshot(s)), view);
            var returned := executor(node.descriptor.nodeId, execution, Hidden(view), target).returned;
            var (t, rs', go) := AttemptedTo(c, s, rs, node, record, view, Judge(s, returned, after));
            RecordsTell(c, executor, rs') && (go || rs'.failures != [])
  {
    var node := c.nodes[n];
    var view := ViewOf(TakeSnapshot(s), node.visibility);
    var record := StartedRecord(c, node, execution, c.digests.snapshot(TakeSnapshot(s)), view);
    var attempt := Judge(s, executor(node.descriptor.nodeId, execution, Hidden(view), target).returned, after);
    if attempt.Done? {
      ConcludedJustified(c, executor, s, n, execution, target, attempt.result);
      ConclusionTells(c, executor, s, rs, n, record, attempt.result, view);
      SameTells(c, executor, ConclusionOf(c, s, node, rs, record, attempt.result, view).1, rs.calls + 1);
    } else {
      FailedTells(c, executor, rs, n, record, attempt);
      SameTells(c, executor, Unsuccessful(rs, record, attempt), rs.calls + 1);
    }
  }

  lemma NodeTells(c: Config, executor: Executor, s: Store, rs: RunState, n: nat, target: Option<string>, t: Store, rs': RunState, go: bool)
    requires RecordsTell(c, executor, rs) && n < |c.nodes| && NodeSteps(c, executor, s, rs, n, target, t, rs', go)
    ensures RecordsTell(c, executor, rs') && (go || rs'.failures != [])
  {
    var node := c.nodes[n];
    var d := node.descriptor;
    var execution := c.names(|rs.records| + 1, d.nodeId, d.independenceRequired);
    var digest := c.digests.snapshot(TakeSnapshot(s));
    var view := ViewOf(TakeSnapshot(s), node.visibility);
    if Stopped(c, rs, node, execution, digest, view, target).Some? {
      StoppedTells(c, executor, rs, n, execution, digest, view, target);
    } else {
      var behaviour := executor(d.nodeId, execution, Hidden(view), target);
      var record := StartedRecord(c, node, execution, digest, view);
      var after :| Leads(s, behaviour.changes, after)
        && (t, rs', go) == AttemptedTo(c, s, rs, node, record, view, Judge(s, behaviour.returned, after));
      ExecutedTells(c, executor, s, rs, n, execution, target, after);
    }
  }

  /** A turn that is the last leaves a failure, or nothing mandatory undone. */
  lemma TurnTells(c: Config, executor: Executor, a: Stage, b: Stage, go: bool)
    requires RecordsTell(c, executor, a.rs) && Turns(c, executor, a, b, go)
    ensures RecordsTell(c, executor, b.rs)
    ensures !go && b.rs.failures == [] ==> DistinctNodes(Descriptors(c.nodes)) && MandatoryDone(Descriptors(c.nodes), b.rs.completed)
  {
    var decision := NextDecision(TakeSnapshot(a.store), Descriptors(c.nodes), a.rs.completed, Limit(c), a.rs.used);
    if decision.Terminate? {
      NoRecordAdded(c, executor, a.rs, b.rs);
      NothingDueIff(TakeSnapshot(a.store), Descriptors(c.nodes), a.rs.completed, Limit(c), a.rs.used);
    } else {
      NodeTells(c, executor, a.store, a.rs, decision.index, decision.target, b.store, b.rs, go);
    }
  }

  ghost function Telling(c: Config, executor: Executor): Stage -> bool {
    (x: Stage) => RecordsTell(c, executor, x.rs)
  }

  lemma TurnsKeepTelling(c: Config, executor: Executor)
    ensures forall a, b, go :: Telling(c, executor)(a) && TurnOf(c, executor)(a, b, go) ==> Telling(c, executor)(b)
  {
    forall a, b, go | Telling(c, executor)(a) && TurnOf(c, executor)(a, b, go) ensures Telling(c, executor)(b) {
      TurnTells(c, executor, a, b, go);
    }
  }

  lemma LastTurn(c: Config, executor: Executor, a: Stage, b: Stage)
    requires Telling(c, executor)(a) && TurnOf(c, executor)(a, b, false) && b.rs.failures == []
    ensures DistinctNodes(Descriptors(c.nodes)) && MandatoryDone(Descriptors(c.nodes), b.rs.completed)
  {
    TurnTells(c, executor, a, b, false);
  }

  lemma RunTells(c: Config, executor: Executor, s: Store, turns: nat, t: Store, rs: RunState)
    requires Runs(c, executor, s, turns, t, rs)
    ensures RecordsTell(c, executor, rs)
    ensures rs.failures == [] ==> DistinctNodes(Descriptors(c.nodes)) && MandatoryDone(Descriptors(c.nodes), rs.completed)
  {
    var kept := Telling(c, executor);
    TurnsKeepTelling(c, executor);
    assert kept(Stage(s, START));
    var last := CompletionKeeps(TurnOf(c, executor), Stage(s, START), turns, Stage(t, rs), kept);
    if rs.failures == [] { LastTurn(c, executor, last, Stage(t, rs)); }
  }

  /** A run that reports no failure has verified every mandatory node: there is a record of it, without a
      failure, that stands for a result which its executor returned and which passed. */
  lemma NoFailureMeansVerified(c: Config, executor: Executor, s: Store, turns: nat, t: Store, rs: RunState, n: nat)
    requires Runs(c, executor, s, turns, t, rs) && rs.failures == []
    requires n < |c.nodes| && c.nodes[n].descriptor.mandatoryVerification
    ensures exists i :: 0 <= i < |rs.records| && rs.records[i].nodeId == c.nodes[n].descriptor.nodeId
              && rs.records[i].failures == [] && Verified(c, executor, c.nodes[n], rs.records[i])
  {
    RunTells(c, executor, s, turns, t, rs);
    assert Descriptors(c.nodes)[n].nodeId in rs.completed;
    RecordIsVerified(c, executor, rs, n);
  }

  lemma RecordIsVerified(c: Config, executor: Executor, rs: RunState, n: nat)
    requires RecordsTell(c, executor, rs) && rs.failures == [] && DistinctNodes(Descriptors(c.nodes))
    requires n < |c.nodes| && c.nodes[n].descriptor.mandatoryVerification && c.nodes[n].descriptor.nodeId in rs.completed
    ensures exists i :: 0 <= i < |rs.records| && rs.records[i].nodeId == c.nodes[n].descriptor.nodeId
              && rs.records[i].failures == [] && Verified(c, executor, c.nodes[n], rs.records[i])
  {
    var id := c.nodes[n].descriptor.nodeId;
    assert Recorded1(rs, id);
    var i :| 0 <= i < |rs.records| && rs.records[i].nodeId == id;
    assert FailureKept(rs, i);
    KeptFailures(rs, i);
    RecordIsOfNode(c, executor, rs.records[i], n);
  }

  /** With distinct nodes a record is of one node only, so a record without a failure is a verified one. */
  lemma RecordIsOfNode(c: Config, executor: Executor, r: Record, n: nat)
    requires Justified(c, executor, r) && DistinctNodes(Descriptors(c.nodes)) && r.failures == []
    requires n < |c.nodes| && c.nodes[n].descriptor.nodeId == r.nodeId && c.nodes[n].descriptor.mandatoryVerification
    ensures Verified(c, executor, c.nodes[n], r)
  {
    var m: nat :| RecordFor(c, executor, r, m);
    assert Descriptors(c.nodes)[m].nodeId == Descriptors(c.nodes)[n].nodeId;
  }

  /** In any run, with failures elsewhere or not: a mandatory node's record without a failure means that
      its verification passed. */
  lemma CleanRecordMeansVerified(c: Config, executor: Executor, s: Store, turns: nat, t: Store, rs: RunState, i: nat, n: nat)
    requires Runs(c, executor, s, turns, t, rs) && DistinctNodes(Descriptors(c.nodes))
    requires i < |rs.records| && n < |c.nodes| && rs.records[i].nodeId == c.nodes[n].descriptor.nodeId
    requires c.nodes[n].descriptor.mandatoryVerification && rs.records[i].failures == []
    ensures Verified(c, executor, c.nodes[n], rs.records[i])
  {
    RunTells(c, executor, s, turns, t, rs);
    RecordIsOfNode(c, executor, rs.records[i], n);
  }

  /** The same of the receipt and the trace that a run hands out. */
  lemma ReceiptWithoutFailures(c: Config, executor: Executor, s: Store, turns: nat, t: Store, outcome: Outcome, calls: nat, n: nat)
    requires EndsWith(c, executor, s, turns, t, outcome, calls) && outcome.receipt.failures == []
    requires n < |c.nodes| && c.nodes[n].descriptor.mandatoryVerification
    ensures exists i :: 0 <= i < |outcome.records| && outcome.records[i].nodeId == c.nodes[n].descriptor.nodeId
              && outcome.records[i].failures == [] && Verified(c, executor, c.nodes[n], outcome.records[i])
  {
    var rs :| Runs(c, executor, s, turns, t, rs) && outcome == OutcomeOf(c, t, rs) && calls == rs.calls;
    NoFailureMeansVerified(c, executor, s, turns, t, rs, n);
  }
}
