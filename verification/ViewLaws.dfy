/** What a snapshot holds and what a view shows, object by object. */
module ViewLaws {
  import opened Wrappers
  import opened Collections
  import opened EpisodeStore
  import opened EpisodeHistory
  import opened Visibility

  /** The current lists hold the active objects, the full lists all of them, and the version counts the events. */
  lemma SnapshotHolds(s: Store)
    requires ActiveStored(s) && Keyed(s)
    ensures var v := TakeSnapshot(s);
            && v.episode == s.id && v.version == |s.events| && v.events == s.events
            && (forall p :: p in v.currentPropositions <==> p.id in s.activePropositions && s.propositions[p.id] == p)
            && (forall r :: r in v.currentRelations <==> r.id in s.activeRelations && s.relations[r.id] == r)
            && (forall p :: p in v.allPropositions <==> p.id in s.propositions && s.propositions[p.id] == p)
            && (forall r :: r in v.allRelations <==> r.id in s.relations && s.relations[r.id] == r)
  {
    SelectMembers(s.propositionOrder, s.propositions, s.activePropositions);
    SelectMembers(s.propositionOrder, s.propositions, s.propositions.Keys);
    SelectMembers(s.relationOrder, s.relations, s.activeRelations);
    SelectMembers(s.relationOrder, s.relations, s.relations.Keys);
    assert forall k :: k in s.propositionOrder <==> k in Elements(s.propositionOrder);
    assert forall k :: k in s.relationOrder <==> k in Elements(s.relationOrder);
  }

  /** Not blinded, and allowed by name or kind where the policy lists any. */
  predicate Shown(policy: Policy, p: Proposition) {
    && p.id !in policy.blindIds && p.kind !in policy.blindKinds
    && (policy.allowIds != {} || policy.allowKinds != {} ==> p.id in policy.allowIds || p.kind in policy.allowKinds)
  }

  lemma {:induction false} ShownMembers(items: seq<Proposition>, policy: Policy)
    ensures forall p :: p in VisiblePropositions(items, policy) <==> p in items && Shown(policy, p)
    ensures forall id :: id in HiddenPropositions(items, policy) <==> exists p :: p in items && !Shown(policy, p) && p.id == id
  {
    if items != [] {
      ShownMembers(items[..|items| - 1], policy);
      LastSplits(items);
    }
  }

  /** A relation in the list of the pass is not blinded, is allowed, and connects only names that are shown. */
  predicate Connected(policy: Policy, names: set<string>, relations: seq<Relation>, r: Relation) {
    && r.id !in policy.blindIds && (policy.allowIds != {} ==> r.id in policy.allowIds)
    && forall q :: q in r.participants ==> q.refId in names || exists x :: x in relations && x.id == q.refId
  }

  lemma {:induction false} PassConnects(items: seq<Relation>, names: set<string>, policy: Policy)
    ensures var shown := VisibleRelations(items, names, policy);
            forall r :: r in shown ==> r in items && Connected(policy, names, shown, r)
  {
    if items != [] {
      var n := |items| - 1;
      PassConnects(items[..n], names, policy);
      LastSplits(items);
      var before := VisibleRelations(items[..n], names, policy);
      assert forall x :: x in before ==> x in VisibleRelations(items, names, policy);
      assert forall q :: q in items[n].participants ==> q.refId in ParticipantRefs(items[n]);
    }
  }

  /** No relation is passed over in silence: what is not shown is listed as hidden. */
  lemma {:induction false} HiddenIsListed(items: seq<Relation>, names: set<string>, policy: Policy)
    ensures forall r :: r in items ==> r in VisibleRelations(items, names, policy) || r.id in HiddenRelations(items, names, policy)
    ensures |VisibleRelations(items, names, policy)| + |HiddenRelations(items, names, policy)| == |items|
  {
    if items != [] {
      var n := |items| - 1;
      HiddenIsListed(items[..n], names, policy);
      LastSplits(items);
      var before := VisibleRelations(items[..n], names, policy);
      assert before + [items[n]] != before;
    }
  }

  /** The view shows exactly the current propositions that the policy lets through and names the others;
      its relations are current, let through, and connect only what the view shows; no current relation is
      missing without being named. */
  lemma ViewShows(snapshot: Snapshot, policy: Policy)
    ensures var view := ViewOf(snapshot, policy);
            && (forall p :: p in view.propositions <==> p in snapshot.currentPropositions && Shown(policy, p))
            && (forall id :: id in view.blindedPropositions <==> exists p :: p in snapshot.currentPropositions && !Shown(policy, p) && p.id == id)
            && (forall r :: r in view.relations ==>
                  r in snapshot.currentRelations && Connected(policy, PropositionIds(view.propositions), view.relations, r))
            && (forall r :: r in snapshot.currentRelations ==> r in view.relations || r.id in view.blindedRelations)
            && |view.relations| + |view.blindedRelations| == |snapshot.currentRelations|
  {
    var names := PropositionIds(VisiblePropositions(snapshot.currentPropositions, policy));
    ShownMembers(snapshot.currentPropositions, policy);
    PassConnects(snapshot.currentRelations, names, policy);
    HiddenIsListed(snapshot.currentRelations, names, policy);
  }
}
