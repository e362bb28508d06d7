/** Admitting the output of an execution into the episode: a snapshot compare-and-swap. */
module Admission {
  import opened Wrappers
  import opened EpisodeStore
  import opened Visibility
  import opened EpisodeHistory
  import opened Scheduler
  import opened Prevalidation
  import E = Episode

  datatype Status = Passed | Failed | Inconclusive

  datatype ExecutionResult = ExecutionResult(
    executionId: string, nodeId: string, propositions: seq<Proposition>, relations: seq<Relation>,
    failures: seq<Failure>, sourceVersions: seq<string>,
    verification: Option<Status>, verificationTargets: seq<string>)

  /** The digests of a run as functions of what they digest. */
  datatype Digests = Digests(
    snapshot: Snapshot -> string,
    output: (seq<Proposition>, seq<Relation>) -> string,
    producer: (string, string, Option<string>, string) -> string)

  function StripPropositions(items: seq<Proposition>): seq<Proposition> {
    seq(|items|, i requires 0 <= i < |items| => items[i].(producer := None))
  }

  function StripRelations(items: seq<Relation>): seq<Relation> {
    seq(|items|, i requires 0 <= i < |items| => items[i].(producer := None))
  }

  function StampPropositions(items: seq<Proposition>, producer: Option<string>): seq<Proposition> {
    seq(|items|, i requires 0 <= i < |items| => items[i].(producer := producer))
  }

  function StampRelations(items: seq<Relation>, producer: Option<string>): seq<Relation> {
    seq(|items|, i requires 0 <= i < |items| => items[i].(producer := producer))
  }

  function OutputDigest(h: Digests, result: ExecutionResult): Option<string> {
    if result.propositions == [] && result.relations == [] then None
    else Some(h.output(StripPropositions(result.propositions), StripRelations(result.relations)))
  }

  /** Which source references and versions belong together, when that can be told. */
  function SourceBindings(refs: seq<string>, versions: seq<string>): Option<set<(string, string)>> {
    if versions == [] then Some({})
    else if |refs| == |versions| then Some(set i | 0 <= i < |refs| :: (refs[i], versions[i]))
    else if forall v :: v in versions ==> v in refs then Some(set v | v in versions :: (v, v))
    else None
  }

  /** What the governed view allows an output to cite. */
  datatype Governed = Governed(refs: set<string>, versions: set<string>, bindings: set<(string, string)>)

  predicate SourcesGoverned(refs: seq<string>, versions: seq<string>, governed: Governed) {
    && (forall r :: r in refs ==> r in governed.refs)
    && (forall v :: v in versions ==> v in governed.versions)
    && (versions != [] ==>
          SourceBindings(refs, versions).Some? && SourceBindings(refs, versions).value <= governed.bindings)
  }

  predicate PropositionAdmissible(p: Proposition, d: Descriptor, episode: string, execution: string, governed: Governed) {
    && p.kind in d.permittedKinds && !p.kind.Evidence?
    && p.producer == Some(execution) && p.episode == episode
    && SourcesGoverned(p.sourceRefs, p.sourceVersions, governed)
  }

  predicate RelationAdmissible(r: Relation, d: Descriptor, episode: string, execution: string, governed: Governed, staged: set<string>) {
    && (exists t :: t in d.permittedRelationTypes && Lower(t) == Lower(r.relationType))
    && r.producer == Some(execution) && r.episode == episode
    && SourcesGoverned(r.sourceRefs, r.sourceVersions, governed)
    && ParticipantRefs(r) <= governed.refs + staged
  }

  datatype AdmissionReceipt = AdmissionReceipt(output: Option<string>, producer: Option<string>)

  function Receipt(h: Digests, s: Store, result: ExecutionResult, task: Option<string>): AdmissionReceipt {
    var output := OutputDigest(h, result);
    var producer :=
      if output.None? then None else Some(h.producer(result.nodeId, h.snapshot(TakeSnapshot(s)), task, output.value));
    AdmissionReceipt(output, producer)
  }

  predicate Admissible(h: Digests, s: Store, d: Descriptor, result: ExecutionResult, execution: string, expected: string, governed: Governed) {
    && result.nodeId == d.nodeId && result.executionId == execution && result.failures == []
    && h.snapshot(TakeSnapshot(s)) == expected
    && (forall p :: p in result.propositions ==> PropositionAdmissible(p, d, s.id, execution, governed))
    && (forall r :: r in result.relations ==>
          RelationAdmissible(r, d, s.id, execution, governed, PropositionIds(result.propositions)))
  }

  /** The new episode, or nothing when any check or any addition fails. */
  function Admit(h: Digests, s: Store, d: Descriptor, result: ExecutionResult, execution: string, expected: string,
                 task: Option<string>, governed: Governed): Option<Store>
  {
    if !Admissible(h, s, d, result, execution, expected, governed) then None
    else
      var producer := Receipt(h, s, result, task).producer;
      match AddOutput(s, StampPropositions(result.propositions, producer), StampRelations(result.relations, producer))
      case Ok(t) => Some(t)
      case Err(_) => None
  }

  /** What a run may do to an episode: add objects produced by the given executions, none of them
      evidence, and leave everything that was there as it was. */
  ghost predicate ExtendedBy(s: Store, t: Store, producers: set<string>) {
    && t.id == s.id
    && s.events <= t.events
    && s.propositionOrder <= t.propositionOrder && s.relationOrder <= t.relationOrder
    && (forall p :: p in s.propositions ==> p in t.propositions && t.propositions[p] == s.propositions[p])
    && (forall r :: r in s.relations ==> r in t.relations && t.relations[r] == s.relations[r])
    && (forall p :: p in s.propositions ==> (p in t.activePropositions <==> p in s.activePropositions))
    && (forall r :: r in s.relations ==> (r in t.activeRelations <==> r in s.activeRelations))
    && (forall p :: p in t.propositions && p !in s.propositions ==>
          && p in t.activePropositions && !t.propositions[p].kind.Evidence?
          && t.propositions[p].producer.Some? && t.propositions[p].producer.value in producers)
    && (forall r :: r in t.relations && r !in s.relations ==>
          && r in t.activeRelations
          && t.relations[r].producer.Some? && t.relations[r].producer.value in producers)
  }

  lemma ExtensionsCompose(s: Store, t: Store, u: Store, a: set<string>, b: set<string>)
    requires ExtendedBy(s, t, a) && ExtendedBy(t, u, b)
    ensures ExtendedBy(s, u, a + b)
  {
  }

  lemma AddedPropositionExtends(s: Store, item: Proposition, producer: string)
    requires ActiveStored(s) && AddProposition(s, item).Ok? && !item.kind.Evidence? && item.producer == Some(producer)
    ensures ExtendedBy(s, AddProposition(s, item).value, {producer})
  {
  }

  lemma {:induction false} AddPropositionsExtend(s: Store, items: seq<Proposition>, producer: string)
    requires Inv(s) && AddPropositions(s, items).Ok?
    requires forall x :: x in items ==> !x.kind.Evidence? && x.producer == Some(producer)
    ensures Inv(AddPropositions(s, items).value) && ExtendedBy(s, AddPropositions(s, items).value, {producer})
    decreases |items|
  {
    if items != [] {
      var t := AddProposition(s, items[0]).value;
      AddPropositionKeepsInv(s, items[0]);
      AddedPropositionExtends(s, items[0], producer);
      AddPropositionsExtend(t, items[1..], producer);
      ExtensionsCompose(s, t, AddPropositions(t, items[1..]).value, {producer}, {producer});
      assert {producer} + {producer} == {producer};
    }
  }

  lemma AddedRelationExtends(s: Store, item: Relation, producer: string)
    requires ActiveStored(s) && AddRelation(s, item).Ok? && item.producer == Some(producer)
    ensures ExtendedBy(s, AddRelation(s, item).value, {producer})
  {
  }

  lemma {:induction false} AddRelationsExtend(s: Store, items: seq<Relation>, producer: string)
    requires Inv(s) && AddRelations(s, items).Ok?
    requires forall x :: x in items ==> x.producer == Some(producer)
    ensures Inv(AddRelations(s, items).value) && ExtendedBy(s, AddRelations(s, items).value, {producer})
    decreases |items|
  {
    if items != [] {
      var t := AddRelation(s, items[0]).value;
      AddRelationKeepsInv(s, items[0]);
      AddedRelationExtends(s, items[0], producer);
      AddRelationsExtend(t, items[1..], producer);
      ExtensionsCompose(s, t, AddRelations(t, items[1..]).value, {producer}, {producer});
      assert {producer} + {producer} == {producer};
    }
  }

  lemma StampedPropositions(result: ExecutionResult, producer: Option<string>)
    requires forall p :: p in result.propositions ==> !p.kind.Evidence?
    ensures forall p :: p in StampPropositions(result.propositions, producer) ==> !p.kind.Evidence? && p.producer == producer
  {
    forall i | 0 <= i < |result.propositions|
      ensures !StampPropositions(result.propositions, producer)[i].kind.Evidence?
    {
      assert result.propositions[i] in result.propositions;
    }
  }

  lemma OutputExtends(s: Store, propositions: seq<Proposition>, relations: seq<Relation>, producer: string)
    requires Inv(s) && AddOutput(s, propositions, relations).Ok?
    requires forall p :: p in propositions ==> !p.kind.Evidence? && p.producer == Some(producer)
    requires forall r :: r in relations ==> r.producer == Some(producer)
    ensures Inv(AddOutput(s, propositions, relations).value)
    ensures ExtendedBy(s, AddOutput(s, propositions, relations).value, {producer})
  {
    AddPropositionsExtend(s, propositions, producer);
    var t := AddPropositions(s, propositions).value;
    AddRelationsExtend(t, relations, producer);
    ExtensionsCompose(s, t, AddRelations(t, relations).value, {producer}, {producer});
    assert {producer} + {producer} == {producer};
  }

  /** An admitted output only extends the episode, with objects that carry the derived producer. */
  lemma AdmissionExtends(h: Digests, s: Store, d: Descriptor, result: ExecutionResult, execution: string, expected: string,
                         task: Option<string>, governed: Governed)
    requires Inv(s) && Admit(h, s, d, result, execution, expected, task, governed).Some?
    ensures var t := Admit(h, s, d, result, execution, expected, task, governed).value;
            var producer := Receipt(h, s, result, task).producer;
            Inv(t) && ExtendedBy(s, t, if producer.Some? then {producer.value} else {})
  {
    var producer := Receipt(h, s, result, task).producer;
    var items, related := StampPropositions(result.propositions, producer), StampRelations(result.relations, producer);
    if producer.None? {
      assert items == [] && related == [];
    } else {
      StampedPropositions(result, producer);
      OutputExtends(s, items, related, producer.value);
    }
  }

  /** Admission on the episode object: all additions or none. */
  method AdmitExecutionResult(
    episode: E.Episode, h: Digests, d: Descriptor, result: ExecutionResult, execution: string, expected: string,
    task: Option<string>, governed: Governed) returns (receipt: Option<AdmissionReceipt>)
    modifies episode
    ensures match Admit(h, old(episode.Value()), d, result, execution, expected, task, governed)
            case Some(t) => episode.Value() == t && receipt == Some(Receipt(h, old(episode.Value()), result, task))
            case None => episode.Value() == old(episode.Value()) && receipt == None
  {
    var checkpoint := episode.Value();
    if !Admissible(h, checkpoint, d, result, execution, expected, governed) { return None; }
    var admitted := Receipt(h, checkpoint, result, task);
    var propositions := StampPropositions(result.propositions, admitted.producer);
    var relations := StampRelations(result.relations, admitted.producer);
    var ok := Prevalidate(checkpoint, propositions, relations);
    AdditionsIff(checkpoint, propositions, relations);
    if !ok { return None; }
    ok := InsertAll(episode, propositions, relations);
    if !ok {
      episode.Restore(checkpoint);
      return None;
    }
    receipt := Some(admitted);
  }

  method InsertAll(episode: E.Episode, propositions: seq<Proposition>, relations: seq<Relation>) returns (ok: bool)
    modifies episode
    ensures ok == AddOutput(old(episode.Value()), propositions, relations).Ok?
    ensures ok ==> episode.Value() == AddOutput(old(episode.Value()), propositions, relations).value
  {
    ghost var s := episode.Value();
    for i := 0 to |propositions|
      invariant AddPropositions(s, propositions[..i]) == Ok(episode.Value())
    {
      AddPropositionsThen(s, propositions, i);
      var error := episode.Add(propositions[i]);
      if error.Some? { return false; }
    }
    assert propositions[..|propositions|] == propositions;
    ghost var t := episode.Value();
    for i := 0 to |relations|
      invariant AddRelations(t, relations[..i]) == Ok(episode.Value())
    {
      AddRelationsThen(t, relations, i);
      var error := episode.Relate(relations[i]);
      if error.Some? { return false; }
    }
    assert relations[..|relations|] == relations;
    ok := true;
  }
}
