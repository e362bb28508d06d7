/** The node descriptors of a run and the deterministic choice of the next node. */
module Scheduler {
  import opened Wrappers
  import opened EpisodeStore
  import opened Visibility

  datatype Failure =
    | Unavailable | Conflict | InvalidSubject | InsufficientEvidence
    | ResourceLimit | AttemptedUnknown | ContractViolation

  datatype Descriptor = Descriptor(
    nodeId: string,
    permittedKinds: set<Kind>,
    acceptedKinds: set<Kind>,
    mandatoryVerification: bool,
    independenceRequired: bool,
    requiredAuthority: seq<string>,
    permittedRelationTypes: seq<string>,
    verificationTargets: seq<string>,
    blindKinds: set<Kind>,
    blindIds: set<string>)

  /** The part of the descriptor contract that is about values. */
  predicate DescriptorExact(d: Descriptor) {
    && d.nodeId != "" && AllText(d.requiredAuthority) && AllText(d.permittedRelationTypes)
    && AllText(d.verificationTargets) && "" !in d.blindIds
    && (d.mandatoryVerification ==> d.verificationTargets != [])
  }

  datatype Decision =
    | Execute(index: nat, target: Option<string>)
    | Terminate(failure: Option<Failure>, duplicateNode: bool)

  function LowerChar(c: char): char {
    if 'A' <= c <= 'Z' then c - 'A' + 'a' else c
  }

  function Lower(text: string): string {
    seq(|text|, i requires 0 <= i < |text| => LowerChar(text[i]))
  }

  /** The position of the first node with the given property from `i` on. */
  function FirstNode(nodes: seq<Descriptor>, i: nat, wanted: Descriptor -> bool): (r: Option<nat>)
    requires i <= |nodes|
    ensures r.Some? ==> i <= r.value < |nodes| && wanted(nodes[r.value]) && forall k :: i <= k < r.value ==> !wanted(nodes[k])
    ensures r.None? ==> forall k :: i <= k < |nodes| ==> !wanted(nodes[k])
    decreases |nodes| - i
  {
    if i == |nodes| then None else if wanted(nodes[i]) then Some(i) else FirstNode(nodes, i + 1, wanted)
  }

  function FirstContradiction(relations: seq<Relation>): (r: Option<string>)
    ensures r.Some? ==> r.value in RelationIds(relations)
    ensures r.None? <==> forall x :: x in relations ==> Lower(x.relationType) != "contradicts"
  {
    if relations == [] then None
    else if Lower(relations[0].relationType) == "contradicts" then Some(relations[0].id)
    else FirstContradiction(relations[1..])
  }

  predicate Confident(p: Proposition) {
    p.kind.Hypothesis? && p.confidence.Some? && p.confidence.value >= 800000
  }

  function FirstConfident(propositions: seq<Proposition>): (r: Option<string>)
    ensures r.Some? ==> exists p :: p in propositions && Confident(p) && p.id == r.value
    ensures r.None? <==> forall p :: p in propositions ==> !Confident(p)
  {
    if propositions == [] then None
    else if Confident(propositions[0])
    then Some(propositions[0].id)
    else FirstConfident(propositions[1..])
  }

  predicate DistinctNodes(nodes: seq<Descriptor>) {
    forall i, j :: 0 <= i < j < |nodes| ==> nodes[i].nodeId != nodes[j].nodeId
  }

  predicate HasHypothesis(propositions: seq<Proposition>) {
    exists p :: p in propositions && p.kind.Hypothesis?
  }

  /** The rules after mandatory verification, in their order: a contradiction to scan, a hypothesis to
      generate, a confident hypothesis to falsify. */
  function Applicable(snapshot: Snapshot, nodes: seq<Descriptor>, completed: seq<string>): (r: Option<(nat, Option<string>)>)
    ensures r.Some? ==> r.value.0 < |nodes| && nodes[r.value.0].nodeId !in completed
    ensures r.Some? && r.value.1.Some? ==>
              r.value.1.value in RelationIds(snapshot.currentRelations) + PropositionIds(snapshot.currentPropositions)
  {
    var mandatory := FirstNode(nodes, 0, (d: Descriptor) => d.mandatoryVerification && d.nodeId !in completed);
    var scanner := FirstNode(nodes, 0, (d: Descriptor) => d.nodeId == "contradiction_scanner");
    var contradiction := FirstContradiction(snapshot.currentRelations);
    var generator := FirstNode(nodes, 0, (d: Descriptor) => d.nodeId == "echo_hypothesis");
    var falsifier := FirstNode(nodes, 0, (d: Descriptor) => d.nodeId == "falsifier");
    var confident := FirstConfident(snapshot.currentPropositions);
    if mandatory.Some? then Some((mandatory.value, None))
    else if scanner.Some? && nodes[scanner.value].nodeId !in completed && contradiction.Some? then
      Some((scanner.value, contradiction))
    else if generator.Some? && nodes[generator.value].nodeId !in completed
            && (nodes[generator.value].independenceRequired || !HasHypothesis(snapshot.currentPropositions)) then
      Some((generator.value, None))
    else if falsifier.Some? && nodes[falsifier.value].nodeId !in completed && confident.Some? then
      Some((falsifier.value, confident))
    else None
  }

  /** The next decision; it never names a completed node and never exceeds the budget. */
  function NextDecision(snapshot: Snapshot, nodes: seq<Descriptor>, completed: seq<string>, limit: nat, used: nat): (r: Decision)
    ensures r.Execute? ==>
              r.index < |nodes| && nodes[r.index].nodeId !in completed && used < limit && DistinctNodes(nodes)
    ensures r == Terminate(None, false) <==> DistinctNodes(nodes) && Applicable(snapshot, nodes, completed).None?
  {
    if !DistinctNodes(nodes) then Terminate(Some(ContractViolation), true)
    else
      var rule := Applicable(snapshot, nodes, completed);
      if rule.None? then Terminate(None, false)
      else if used >= limit then Terminate(Some(ResourceLimit), false)
      else Execute(rule.value.0, rule.value.1)
  }
}
