/** What an admission lets into an episode, item by item, and what it keeps out. */
module AdmissionLaws {
  import opened Wrappers
  import opened Collections
  import opened EpisodeStore
  import opened EpisodeHistory
  import opened Visibility
  import opened Scheduler
  import opened Prevalidation
  import opened Admission

  lemma {:induction false} StagedValues(s: Store, items: seq<Proposition>)
    requires StagePropositions(s, items).Some?
    ensures forall p :: p in items ==> p.id in StagePropositions(s, items).value && StagePropositions(s, items).value[p.id] == p
  {
    if items != [] {
      StagedValues(s, items[..|items| - 1]);
      LastSplits(items);
    }
  }

  lemma {:induction false} StagedRelationValues(s: Store, known: set<string>, items: seq<Relation>)
    requires StageRelations(s, known, items).Some?
    ensures forall r :: r in items ==> r.id in StageRelations(s, known, items).value && StageRelations(s, known, items).value[r.id] == r
  {
    if items != [] {
      StagedRelationValues(s, known, items[..|items| - 1]);
      LastSplits(items);
    }
  }

  /** The propositions of `t` are those of `s` and these, which are active. */
  ghost predicate GainsPropositions(s: Store, t: Store, items: seq<Proposition>) {
    && (forall p :: p in items ==> p.id in t.activePropositions && p.id in t.propositions && t.propositions[p.id] == p)
    && (forall id :: id in t.propositions && id !in s.propositions ==> exists p :: p in items && p.id == id)
  }

  ghost predicate GainsRelations(s: Store, t: Store, items: seq<Relation>) {
    && (forall r :: r in items ==> r.id in t.activeRelations && r.id in t.relations && t.relations[r.id] == r)
    && (forall id :: id in t.relations && id !in s.relations ==> exists r :: r in items && r.id == id)
  }

  lemma PropositionsGained(s: Store, items: seq<Proposition>)
    requires AddPropositions(s, items).Ok?
    ensures GainsPropositions(s, AddPropositions(s, items).value, items)
  {
    AddPropositionsIff(s, items);
    StagedIds(s, items);
    StagedValues(s, items);
  }

  lemma RelationsGained(s: Store, t: Store, items: seq<Relation>, names: set<string>)
    requires HoldsRelations(s, names, t, map[]) && AddRelations(t, items).Ok?
    ensures GainsRelations(s, AddRelations(t, items).value, items)
  {
    AddRelationsIff(s, names, t, items);
    StagedRelationIds(s, Active(s) + names, items);
    StagedRelationValues(s, Active(s) + names, items);
  }

  lemma {:induction false} RelationsKeepPropositions(t: Store, items: seq<Relation>)
    requires AddRelations(t, items).Ok?
    ensures var u := AddRelations(t, items).value;
            u.propositions == t.propositions && u.activePropositions == t.activePropositions
    decreases |items|
  {
    if items != [] { RelationsKeepPropositions(AddRelation(t, items[0]).value, items[1..]); }
  }

  /** All of an output is stored and active afterwards, and nothing else has come in. */
  lemma OutputGained(s: Store, propositions: seq<Proposition>, relations: seq<Relation>)
    requires AddOutput(s, propositions, relations).Ok?
    ensures var u := AddOutput(s, propositions, relations).value;
            GainsPropositions(s, u, propositions) && GainsRelations(s, u, relations)
  {
    var t := AddPropositions(s, propositions).value;
    PropositionsGained(s, propositions);
    AddPropositionsIff(s, propositions);
    HoldsBoth(s, t, StagePropositions(s, propositions).value);
    RelationsGained(s, t, relations, StagePropositions(s, propositions).value.Keys);
    RelationsKeepPropositions(t, relations);
  }

  /** What a node may emit: kinds it is permitted, never evidence, made by this execution, and citing only
      what its view governs. */
  ghost predicate MayEmit(d: Descriptor, governed: Governed, episode: string, execution: string, p: Proposition) {
    && p.kind in d.permittedKinds && p.kind != Evidence && p.producer == Some(execution) && p.episode == episode
    && (forall ref :: ref in p.sourceRefs ==> ref in governed.refs)
    && (forall v :: v in p.sourceVersions ==> v in governed.versions)
    && (p.sourceVersions != [] ==> VersionsBound(p.sourceRefs, p.sourceVersions, governed))
  }

  /** Every version is paired with a reference as the view pairs them: by position, or with itself. */
  ghost predicate VersionsBound(refs: seq<string>, versions: seq<string>, governed: Governed) {
    if |refs| == |versions| then forall i :: 0 <= i < |refs| ==> (refs[i], versions[i]) in governed.bindings
    else forall v :: v in versions ==> v in refs && (v, v) in governed.bindings
  }

  ghost predicate MayRelate(d: Descriptor, governed: Governed, episode: string, execution: string, emitted: seq<Proposition>, r: Relation) {
    && (exists t :: t in d.permittedRelationTypes && Lower(t) == Lower(r.relationType))
    && r.producer == Some(execution) && r.episode == episode
    && (forall ref :: ref in r.sourceRefs ==> ref in governed.refs)
    && (forall v :: v in r.sourceVersions ==> v in governed.versions)
    && (r.sourceVersions != [] ==> VersionsBound(r.sourceRefs, r.sourceVersions, governed))
    && (forall q :: q in r.participants ==> q.refId in governed.refs || exists p :: p in emitted && p.id == q.refId)
  }

  lemma BoundIff(refs: seq<string>, versions: seq<string>, governed: Governed)
    requires versions != []
    ensures SourceBindings(refs, versions).Some? && SourceBindings(refs, versions).value <= governed.bindings <==>
            VersionsBound(refs, versions, governed)
  {
    if |refs| == |versions| {
      assert forall i :: 0 <= i < |refs| ==> (refs[i], versions[i]) in SourceBindings(refs, versions).value;
    } else if forall v :: v in versions ==> v in refs {
      assert forall v :: v in versions ==> (v, v) in SourceBindings(refs, versions).value;
    }
  }

  lemma PropositionIff(p: Proposition, d: Descriptor, episode: string, execution: string, governed: Governed)
    ensures PropositionAdmissible(p, d, episode, execution, governed) <==> MayEmit(d, governed, episode, execution, p)
  {
    if p.sourceVersions != [] { BoundIff(p.sourceRefs, p.sourceVersions, governed); }
  }

  lemma RelationIff(r: Relation, d: Descriptor, episode: string, execution: string, governed: Governed, emitted: seq<Proposition>)
    ensures RelationAdmissible(r, d, episode, execution, governed, PropositionIds(emitted)) <==>
            MayRelate(d, governed, episode, execution, emitted, r)
  {
    if r.sourceVersions != [] { BoundIff(r.sourceRefs, r.sourceVersions, governed); }
    assert forall q :: q in r.participants ==> q.refId in ParticipantRefs(r);
  }

  /** An admission happens exactly when the result is this node's, of this execution and without failures,
      the episode is still the one that was seen, everything emitted may be, and all of it can be added. */
  lemma AdmittedIff(h: Digests, s: Store, d: Descriptor, result: ExecutionResult, execution: string, expected: string,
                    task: Option<string>, governed: Governed)
    ensures Admit(h, s, d, result, execution, expected, task, governed).Some? <==>
            && result.nodeId == d.nodeId && result.executionId == execution && result.failures == []
            && expected == h.snapshot(TakeSnapshot(s))
            && (forall p :: p in result.propositions ==> MayEmit(d, governed, s.id, execution, p))
            && (forall r :: r in result.relations ==> MayRelate(d, governed, s.id, execution, result.propositions, r))
            && var producer := Receipt(h, s, result, task).producer;
               AddOutput(s, StampPropositions(result.propositions, producer), StampRelations(result.relations, producer)).Ok?
  {
    forall p ensures PropositionAdmissible(p, d, s.id, execution, governed) <==> MayEmit(d, governed, s.id, execution, p) {
      PropositionIff(p, d, s.id, execution, governed);
    }
    forall r ensures RelationAdmissible(r, d, s.id, execution, governed, PropositionIds(result.propositions)) <==>
                     MayRelate(d, governed, s.id, execution, result.propositions, r) {
      RelationIff(r, d, s.id, execution, governed, result.propositions);
    }
  }

  /** The swap is refused when the episode is not the one that was compared. */
  lemma StaleIsRefused(h: Digests, seen: Store, s: Store, d: Descriptor, result: ExecutionResult, execution: string,
                       task: Option<string>, governed: Governed)
    requires forall a, b :: h.snapshot(a) == h.snapshot(b) ==> a == b
    requires Inv(seen) && Inv(s) && seen != s
    ensures Admit(h, s, d, result, execution, h.snapshot(TakeSnapshot(seen)), task, governed).None?
  {
    if TakeSnapshot(seen) == TakeSnapshot(s) { SnapshotInjective(seen, s); }
  }

  /** An emitted item goes in as it is, but for its producer; a new object is an emitted one. */
  lemma AdmittedExactly(h: Digests, s: Store, d: Descriptor, result: ExecutionResult, execution: string, expected: string,
                        task: Option<string>, governed: Governed)
    requires Admit(h, s, d, result, execution, expected, task, governed).Some?
    ensures var t := Admit(h, s, d, result, execution, expected, task, governed).value;
            var producer := Receipt(h, s, result, task).producer;
            && (forall p :: p in result.propositions ==>
                  p.id in t.activePropositions && p.id in t.propositions && t.propositions[p.id] == p.(producer := producer))
            && (forall r :: r in result.relations ==>
                  r.id in t.activeRelations && r.id in t.relations && t.relations[r.id] == r.(producer := producer))
            && (forall id :: id in t.propositions && id !in s.propositions ==> exists p :: p in result.propositions && p.id == id)
            && (forall id :: id in t.relations && id !in s.relations ==> exists r :: r in result.relations && r.id == id)
  {
    var producer := Receipt(h, s, result, task).producer;
    var items, related := StampPropositions(result.propositions, producer), StampRelations(result.relations, producer);
    OutputGained(s, items, related);
    StampedPropositionsAlike(result.propositions, producer);
    StampedRelationsAlike(result.relations, producer);
  }

  lemma StampedPropositionsAlike(items: seq<Proposition>, producer: Option<string>)
    ensures forall p :: p in items ==> p.(producer := producer) in StampPropositions(items, producer)
    ensures forall q :: q in StampPropositions(items, producer) ==> exists p :: p in items && p.id == q.id
  {
    var stamped := StampPropositions(items, producer);
    forall p | p in items ensures p.(producer := producer) in stamped {
      var i :| 0 <= i < |items| && items[i] == p;
      assert stamped[i] == p.(producer := producer);
    }
    forall q | q in stamped ensures exists p :: p in items && p.id == q.id {
      var i :| 0 <= i < |stamped| && stamped[i] == q;
      assert items[i] in items;
    }
  }

  lemma StampedRelationsAlike(items: seq<Relation>, producer: Option<string>)
    ensures forall r :: r in items ==> r.(producer := producer) in StampRelations(items, producer)
    ensures forall q :: q in StampRelations(items, producer) ==> exists r :: r in items && r.id == q.id
  {
    var stamped := StampRelations(items, producer);
    forall r | r in items ensures r.(producer := producer) in stamped {
      var i :| 0 <= i < |items| && items[i] == r;
      assert stamped[i] == r.(producer := producer);
    }
    forall q | q in stamped ensures exists r :: r in items && r.id == q.id {
      var i :| 0 <= i < |stamped| && stamped[i] == q;
      assert items[i] in items;
    }
  }

  /** The same output but for who is named as its producer. */
  ghost predicate SameOutput(a: ExecutionResult, b: ExecutionResult) {
    && |a.propositions| == |b.propositions| && |a.relations| == |b.relations|
    && (forall i :: 0 <= i < |a.propositions| ==> a.propositions[i].(producer := None) == b.propositions[i].(producer := None))
    && (forall i :: 0 <= i < |a.relations| ==> a.relations[i].(producer := None) == b.relations[i].(producer := None))
  }

  /** The output digest identifies the output and not its producer, and there is one exactly when something
      was emitted. */
  lemma DigestIdentifiesOutput(h: Digests, a: ExecutionResult, b: ExecutionResult)
    requires forall p, q, r, s :: h.output(p, r) == h.output(q, s) ==> p == q && r == s
    requires a.propositions != [] || a.relations != []
    ensures OutputDigest(h, a).Some? && (OutputDigest(h, a) == OutputDigest(h, b) <==> SameOutput(a, b))
    ensures b.propositions == [] && b.relations == [] ==> OutputDigest(h, b) == None
  {
    var p, q := StripPropositions(a.propositions), StripPropositions(b.propositions);
    var x, y := StripRelations(a.relations), StripRelations(b.relations);
    if SameOutput(a, b) {
      assert p == q && x == y;
    } else if OutputDigest(h, a) == OutputDigest(h, b) {
      assert p == q && x == y;
      forall i | 0 <= i < |p| ensures a.propositions[i].(producer := None) == b.propositions[i].(producer := None) {
        assert p[i] == q[i];
      }
      forall i | 0 <= i < |x| ensures a.relations[i].(producer := None) == b.relations[i].(producer := None) {
        assert x[i] == y[i];
      }
    }
  }
}
