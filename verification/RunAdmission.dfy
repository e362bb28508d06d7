/** Why admission inside a run never has to roll back: what the check beforehand misses cannot occur there. */
module RunAdmission {
  import opened Wrappers
  import opened EpisodeStore
  import opened EpisodeHistory
  import opened Visibility
  import opened Scheduler
  import opened Prevalidation
  import opened Admission
  import opened Runner

  lemma PropositionSourceCurrent(s: Store, p: Proposition, ref: string)
    requires Inv(s) && p.id in s.activePropositions && s.propositions[p.id] == p && ref in p.sourceRefs && ref in Known(s)
    ensures ref in Active(s)
  {
    assert ref in PropositionRefs(p);
  }

  lemma RelationSourceCurrent(s: Store, r: Relation, ref: string)
    requires Inv(s) && r.id in s.activeRelations && s.relations[r.id] == r && ref in r.sourceRefs && ref in Known(s)
    ensures ref in Active(s)
  {
    assert ref in RelationRefs(r);
  }

  lemma GovernedRef(view: View, ref: string)
    requires ref in GovernedBy(view).refs
    ensures || ref in PropositionIds(view.propositions) || ref in RelationIds(view.relations)
            || (exists p :: p in view.propositions && ref in p.sourceRefs) || (exists r :: r in view.relations && ref in r.sourceRefs)
  {
  }

  lemma GovernedRefCurrent(s: Store, policy: Policy, ref: string)
    requires Inv(s) && ref in GovernedBy(ViewOf(TakeSnapshot(s), policy)).refs && ref in Known(s)
    ensures ref in Active(s)
  {
    var view := ViewOf(TakeSnapshot(s), policy);
    VisibleIsCurrent(s, policy);
    GovernedRef(view, ref);
    if p :| p in view.propositions && ref in p.sourceRefs {
      PropositionSourceCurrent(s, p, ref);
    } else if r :| r in view.relations && ref in r.sourceRefs {
      RelationSourceCurrent(s, r, ref);
    }
  }

  /** What a view lets an output cite is current, if the episode knows it at all. */
  lemma GovernedIsCurrent(s: Store, policy: Policy, refs: seq<string>)
    requires Inv(s) && forall r :: r in refs ==> r in GovernedBy(ViewOf(TakeSnapshot(s), policy)).refs
    ensures SourcesStaged(s, {}, refs)
  {
    forall r | r in refs && r in Known(s) ensures r in Active(s) {
      GovernedRefCurrent(s, policy, r);
    }
  }

  lemma VisibleIsCurrent(s: Store, policy: Policy)
    requires Inv(s)
    ensures var view := ViewOf(TakeSnapshot(s), policy);
            && (forall p :: p in view.propositions ==> p.id in s.activePropositions && s.propositions[p.id] == p)
            && (forall r :: r in view.relations ==> r.id in s.activeRelations && s.relations[r.id] == r)
  {
    var snapshot := TakeSnapshot(s);
    VisibleMembers(snapshot.currentPropositions, policy);
    PassMembers(snapshot.currentRelations, PropositionIds(VisiblePropositions(snapshot.currentPropositions, policy)), policy);
    SelectMembers(s.propositionOrder, s.propositions, s.activePropositions);
    SelectMembers(s.relationOrder, s.relations, s.activeRelations);
  }

  lemma {:induction false} VisibleMembers(items: seq<Proposition>, policy: Policy)
    ensures forall p :: p in VisiblePropositions(items, policy) ==> p in items
  {
    if items != [] { VisibleMembers(items[..|items| - 1], policy); }
  }

  lemma StampedPropositionSound(s: Store, policy: Policy, p: Proposition, producer: string, d: Descriptor, execution: string,
                                staged: set<string>)
    requires Inv(s) && PropositionExact(p) && producer != ""
    requires PropositionAdmissible(p, d, s.id, execution, GovernedBy(ViewOf(TakeSnapshot(s), policy)))
    ensures PropositionSound(s, staged, p.(producer := Some(producer)))
  {
    GovernedIsCurrent(s, policy, p.sourceRefs);
  }

  lemma StampedRelationSound(s: Store, policy: Policy, r: Relation, producer: string, d: Descriptor, execution: string,
                             names: set<string>, staged: set<string>)
    requires Inv(s) && RelationExact(r) && producer != ""
    requires RelationAdmissible(r, d, s.id, execution, GovernedBy(ViewOf(TakeSnapshot(s), policy)), names)
    ensures RelationSound(s, staged, r.(producer := Some(producer)))
  {
    GovernedIsCurrent(s, policy, r.sourceRefs);
  }

  /** An exact result that a run finds admissible can be added if and only if it passes the check made
      beforehand, so the rollback behind it is never taken. */
  lemma CheckSufficesInRuns(c: Config, s: Store, policy: Policy, d: Descriptor, result: ExecutionResult, execution: string, expected: string)
    requires Inv(s) && Collisionless(c) && ResultExact(result)
    requires Admissible(c.digests, s, d, result, execution, expected, GovernedBy(ViewOf(TakeSnapshot(s), policy)))
    ensures var producer := Receipt(c.digests, s, result, TaskDigest(c)).producer;
            var propositions, relations := StampPropositions(result.propositions, producer), StampRelations(result.relations, producer);
            AddOutput(s, propositions, relations).Ok? <==> Prevalidated(s, propositions, relations)
  {
    var producer := Receipt(c.digests, s, result, TaskDigest(c)).producer;
    var propositions, relations := StampPropositions(result.propositions, producer), StampRelations(result.relations, producer);
    forall k | 0 <= k < |propositions| ensures PropositionSoundAt(s, propositions, k) {
      assert result.propositions[k] in result.propositions;
      StampedPropositionSound(s, policy, result.propositions[k], producer.value, d, execution, PropositionIds(propositions[..k]));
    }
    forall k | 0 <= k < |relations| ensures RelationSoundAt(s, PropositionIds(propositions), relations, k) {
      assert result.relations[k] in result.relations;
      StampedRelationSound(s, policy, result.relations[k], producer.value, d, execution, PropositionIds(result.propositions),
                           PropositionIds(propositions) + RelationIds(relations[..k]));
    }
    AdditionsIff(s, propositions, relations);
  }
}
