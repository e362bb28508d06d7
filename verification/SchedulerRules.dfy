/** Which node the scheduler chooses, and when it has nothing left to choose, in terms of the nodes and
    the snapshot alone. */
module SchedulerRules {
  import opened Wrappers
  import opened EpisodeStore
  import opened Visibility
  import opened Scheduler

  /** Node `i` is the first mandatory verification that is still to be done. */
  ghost predicate FirstMandatory(nodes: seq<Descriptor>, completed: seq<string>, i: nat) {
    && i < |nodes| && nodes[i].mandatoryVerification && nodes[i].nodeId !in completed
    && forall k :: 0 <= k < i && nodes[k].mandatoryVerification ==> nodes[k].nodeId in completed
  }

  ghost predicate MandatoryDone(nodes: seq<Descriptor>, completed: seq<string>) {
    forall k :: 0 <= k < |nodes| && nodes[k].mandatoryVerification ==> nodes[k].nodeId in completed
  }

  /** Node `i` has the given name and is still to be done. */
  ghost predicate Waiting(nodes: seq<Descriptor>, completed: seq<string>, i: nat, name: string) {
    i < |nodes| && nodes[i].nodeId == name && name !in completed
  }

  ghost predicate Contradicts(r: Relation) {
    Lower(r.relationType) == "contradicts"
  }

  ghost predicate FirstContradicting(relations: seq<Relation>, j: nat) {
    j < |relations| && Contradicts(relations[j]) && forall k :: 0 <= k < j ==> !Contradicts(relations[k])
  }

  ghost predicate HighConfidence(p: Proposition) {
    p.kind == Hypothesis && p.confidence.Some? && p.confidence.value >= 800000
  }

  ghost predicate FirstHighConfidence(propositions: seq<Proposition>, j: nat) {
    j < |propositions| && HighConfidence(propositions[j]) && forall k :: 0 <= k < j ==> !HighConfidence(propositions[k])
  }

  /** A contradiction is there and the scanner has not looked at it. */
  ghost predicate ScanDue(snapshot: Snapshot, nodes: seq<Descriptor>, completed: seq<string>) {
    && (exists i :: Waiting(nodes, completed, i, "contradiction_scanner"))
    && exists r :: r in snapshot.currentRelations && Contradicts(r)
  }

  /** Hypotheses are wanted: there is none, or the generator has to work independently of those there are. */
  ghost predicate GenerationDue(snapshot: Snapshot, nodes: seq<Descriptor>, completed: seq<string>) {
    exists i: nat :: Waiting(nodes, completed, i, "echo_hypothesis")
      && (nodes[i].independenceRequired || forall p :: p in snapshot.currentPropositions ==> p.kind != Hypothesis)
  }

  ghost predicate FalsificationDue(snapshot: Snapshot, nodes: seq<Descriptor>, completed: seq<string>) {
    && (exists i :: Waiting(nodes, completed, i, "falsifier"))
    && exists p :: p in snapshot.currentPropositions && HighConfidence(p)
  }

  /** The node is executed if the budget allows it. */
  function Chosen(limit: nat, used: nat, i: nat, target: Option<string>): Decision {
    if used < limit then Execute(i, target) else Terminate(Some(ResourceLimit), false)
  }

  function Named(nodes: seq<Descriptor>, name: string): Option<nat> {
    FirstNode(nodes, 0, (d: Descriptor) => d.nodeId == name)
  }

  lemma NamedIs(nodes: seq<Descriptor>, completed: seq<string>, i: nat, name: string)
    requires DistinctNodes(nodes) && Waiting(nodes, completed, i, name)
    ensures Named(nodes, name) == Some(i)
  {
  }

  lemma {:induction false} ContradictionIsFirst(relations: seq<Relation>, j: nat)
    requires FirstContradicting(relations, j)
    ensures FirstContradiction(relations) == Some(relations[j].id)
  {
    if j > 0 {
      assert !Contradicts(relations[0]);
      ContradictionIsFirst(relations[1..], j - 1);
    }
  }

  lemma {:induction false} ConfidentIsFirst(propositions: seq<Proposition>, j: nat)
    requires FirstHighConfidence(propositions, j)
    ensures FirstConfident(propositions) == Some(propositions[j].id)
  {
    if j > 0 {
      assert !HighConfidence(propositions[0]);
      ConfidentIsFirst(propositions[1..], j - 1);
    }
  }

  /** Mandatory verification comes before everything else, in the order of the nodes. */
  lemma MandatoryGoesFirst(snapshot: Snapshot, nodes: seq<Descriptor>, completed: seq<string>, limit: nat, used: nat, i: nat)
    requires DistinctNodes(nodes) && FirstMandatory(nodes, completed, i)
    ensures NextDecision(snapshot, nodes, completed, limit, used) == Chosen(limit, used, i, None)
  {
  }

  lemma ScanGoesNext(snapshot: Snapshot, nodes: seq<Descriptor>, completed: seq<string>, limit: nat, used: nat, i: nat, j: nat)
    requires DistinctNodes(nodes) && MandatoryDone(nodes, completed)
    requires Waiting(nodes, completed, i, "contradiction_scanner") && FirstContradicting(snapshot.currentRelations, j)
    ensures NextDecision(snapshot, nodes, completed, limit, used) == Chosen(limit, used, i, Some(snapshot.currentRelations[j].id))
  {
    NamedIs(nodes, completed, i, "contradiction_scanner");
    ContradictionIsFirst(snapshot.currentRelations, j);
  }

  lemma GenerationGoesNext(snapshot: Snapshot, nodes: seq<Descriptor>, completed: seq<string>, limit: nat, used: nat, i: nat)
    requires DistinctNodes(nodes) && MandatoryDone(nodes, completed) && !ScanDue(snapshot, nodes, completed)
    requires Waiting(nodes, completed, i, "echo_hypothesis")
    requires nodes[i].independenceRequired || forall p :: p in snapshot.currentPropositions ==> p.kind != Hypothesis
    ensures NextDecision(snapshot, nodes, completed, limit, used) == Chosen(limit, used, i, None)
  {
    NamedIs(nodes, completed, i, "echo_hypothesis");
    NoScan(snapshot, nodes, completed);
  }

  lemma FalsificationGoesLast(snapshot: Snapshot, nodes: seq<Descriptor>, completed: seq<string>, limit: nat, used: nat, i: nat, j: nat)
    requires DistinctNodes(nodes) && MandatoryDone(nodes, completed)
    requires !ScanDue(snapshot, nodes, completed) && !GenerationDue(snapshot, nodes, completed)
    requires Waiting(nodes, completed, i, "falsifier") && FirstHighConfidence(snapshot.currentPropositions, j)
    ensures NextDecision(snapshot, nodes, completed, limit, used) == Chosen(limit, used, i, Some(snapshot.currentPropositions[j].id))
  {
    NamedIs(nodes, completed, i, "falsifier");
    ConfidentIsFirst(snapshot.currentPropositions, j);
    NoScan(snapshot, nodes, completed);
    NoGeneration(snapshot, nodes, completed);
  }

  lemma NoScan(snapshot: Snapshot, nodes: seq<Descriptor>, completed: seq<string>)
    requires DistinctNodes(nodes) && !ScanDue(snapshot, nodes, completed)
    ensures var scanner := Named(nodes, "contradiction_scanner");
            scanner.None? || nodes[scanner.value].nodeId in completed || FirstContradiction(snapshot.currentRelations).None?
  {
    var scanner := Named(nodes, "contradiction_scanner");
    if scanner.Some? && nodes[scanner.value].nodeId !in completed {
      assert Waiting(nodes, completed, scanner.value, "contradiction_scanner");
      assert forall r :: r in snapshot.currentRelations ==> !Contradicts(r);
    }
  }

  lemma NoGeneration(snapshot: Snapshot, nodes: seq<Descriptor>, completed: seq<string>)
    requires DistinctNodes(nodes) && !GenerationDue(snapshot, nodes, completed)
    ensures var generator := Named(nodes, "echo_hypothesis");
            || generator.None? || nodes[generator.value].nodeId in completed
            || (!nodes[generator.value].independenceRequired && HasHypothesis(snapshot.currentPropositions))
  {
    var generator := Named(nodes, "echo_hypothesis");
    if generator.Some? && nodes[generator.value].nodeId !in completed {
      assert Waiting(nodes, completed, generator.value, "echo_hypothesis");
    }
  }

  lemma NoFalsification(snapshot: Snapshot, nodes: seq<Descriptor>, completed: seq<string>)
    requires DistinctNodes(nodes) && !FalsificationDue(snapshot, nodes, completed)
    ensures var falsifier := Named(nodes, "falsifier");
            falsifier.None? || nodes[falsifier.value].nodeId in completed || FirstConfident(snapshot.currentPropositions).None?
  {
    var falsifier := Named(nodes, "falsifier");
    if falsifier.Some? && nodes[falsifier.value].nodeId !in completed {
      assert Waiting(nodes, completed, falsifier.value, "falsifier");
      assert forall p :: p in snapshot.currentPropositions ==> !HighConfidence(p);
    }
  }

  lemma NothingApplies(snapshot: Snapshot, nodes: seq<Descriptor>, completed: seq<string>)
    requires DistinctNodes(nodes) && MandatoryDone(nodes, completed) && !ScanDue(snapshot, nodes, completed)
    requires !GenerationDue(snapshot, nodes, completed) && !FalsificationDue(snapshot, nodes, completed)
    ensures Applicable(snapshot, nodes, completed).None?
  {
    NoScan(snapshot, nodes, completed);
    NoGeneration(snapshot, nodes, completed);
    NoFalsification(snapshot, nodes, completed);
  }

  lemma ScanApplies(snapshot: Snapshot, nodes: seq<Descriptor>, completed: seq<string>)
    requires DistinctNodes(nodes) && ScanDue(snapshot, nodes, completed)
    ensures Applicable(snapshot, nodes, completed).Some?
  {
    var i: nat :| Waiting(nodes, completed, i, "contradiction_scanner");
    NamedIs(nodes, completed, i, "contradiction_scanner");
    var r :| r in snapshot.currentRelations && Contradicts(r);
    assert FirstContradiction(snapshot.currentRelations).Some?;
  }

  lemma GenerationApplies(snapshot: Snapshot, nodes: seq<Descriptor>, completed: seq<string>)
    requires DistinctNodes(nodes) && GenerationDue(snapshot, nodes, completed)
    ensures Applicable(snapshot, nodes, completed).Some?
  {
    var i: nat :| Waiting(nodes, completed, i, "echo_hypothesis")
      && (nodes[i].independenceRequired || forall p :: p in snapshot.currentPropositions ==> p.kind != Hypothesis);
    NamedIs(nodes, completed, i, "echo_hypothesis");
  }

  lemma FalsificationApplies(snapshot: Snapshot, nodes: seq<Descriptor>, completed: seq<string>)
    requires DistinctNodes(nodes) && FalsificationDue(snapshot, nodes, completed)
    ensures Applicable(snapshot, nodes, completed).Some?
  {
    var i: nat :| Waiting(nodes, completed, i, "falsifier");
    NamedIs(nodes, completed, i, "falsifier");
    var p :| p in snapshot.currentPropositions && HighConfidence(p);
    assert Confident(p);
  }

  /** There is nothing left to do exactly when all mandatory verification is done and nothing else is due. */
  lemma NothingDueIff(snapshot: Snapshot, nodes: seq<Descriptor>, completed: seq<string>, limit: nat, used: nat)
    ensures NextDecision(snapshot, nodes, completed, limit, used) == Terminate(None, false) <==>
            && DistinctNodes(nodes) && MandatoryDone(nodes, completed) && !ScanDue(snapshot, nodes, completed)
            && !GenerationDue(snapshot, nodes, completed) && !FalsificationDue(snapshot, nodes, completed)
  {
    if DistinctNodes(nodes) {
      if ScanDue(snapshot, nodes, completed) { ScanApplies(snapshot, nodes, completed); }
      else if GenerationDue(snapshot, nodes, completed) { GenerationApplies(snapshot, nodes, completed); }
      else if FalsificationDue(snapshot, nodes, completed) { FalsificationApplies(snapshot, nodes, completed); }
      else if MandatoryDone(nodes, completed) { NothingApplies(snapshot, nodes, completed); }
      else { MandatoryApplies(snapshot, nodes, completed); }
    }
  }

  lemma MandatoryApplies(snapshot: Snapshot, nodes: seq<Descriptor>, completed: seq<string>)
    requires !MandatoryDone(nodes, completed)
    ensures Applicable(snapshot, nodes, completed).Some?
  {
  }

  /** Relation types are compared without regard to case. */
  lemma CaseDoesNotMatter()
    ensures Lower("CONTRADICTS") == "contradicts" && Lower("Contradicts") == "contradicts" && Lower("contradict") != "contradicts"
  {
    assert |Lower("contradict")| != |"contradicts"|;
  }
}
