/** Snapshots of an episode and the filtered view that an executor is given. */
module Visibility {
  import opened Wrappers
  import opened Collections
  import opened EpisodeStore
  import opened EpisodeHistory

  /** The chosen objects in insertion order. */
  function Select<T>(order: seq<string>, objects: map<string, T>, chosen: set<string>): seq<T> {
    if order == [] then []
    else
      var last := order[|order| - 1];
      Select(order[..|order| - 1], objects, chosen) +
      (if last in chosen && last in objects then [objects[last]] else [])
  }

  datatype Snapshot = Snapshot(
    episode: string, version: nat,
    currentPropositions: seq<Proposition>, allPropositions: seq<Proposition>,
    currentRelations: seq<Relation>, allRelations: seq<Relation>,
    events: seq<Event>)

  function TakeSnapshot(s: Store): Snapshot {
    Snapshot(
      s.id, |s.events|,
      Select(s.propositionOrder, s.propositions, s.activePropositions),
      Select(s.propositionOrder, s.propositions, s.propositions.Keys),
      Select(s.relationOrder, s.relations, s.activeRelations),
      Select(s.relationOrder, s.relations, s.relations.Keys),
      s.events)
  }

  /** Every selected object is stored and chosen, and conversely. */
  lemma {:induction false} SelectMembers<T>(order: seq<string>, objects: map<string, T>, chosen: set<string>)
    ensures forall x :: x in Select(order, objects, chosen) <==> exists k :: k in order && k in chosen && k in objects && objects[k] == x
  {
    if order != [] {
      SelectMembers(order[..|order| - 1], objects, chosen);
      assert order == order[..|order| - 1] + [order[|order| - 1]];
    }
  }

  lemma {:induction false} SelectAll<T>(order: seq<string>, objects: map<string, T>)
    requires Elements(order) <= objects.Keys
    ensures var all := Select(order, objects, objects.Keys);
            |all| == |order| && forall i :: 0 <= i < |order| ==> order[i] in objects && all[i] == objects[order[i]]
  {
    if order != [] {
      var rest := order[..|order| - 1];
      assert Elements(rest) <= Elements(order);
      assert order[|order| - 1] in Elements(order);
      SelectAll(rest, objects);
    }
  }

  /** The lists of a snapshot determine the table and the active set. */
  lemma SelectInjective<T>(order: seq<string>, objects: map<string, T>, active: set<string>,
                           order': seq<string>, objects': map<string, T>, active': set<string>, idOf: T -> string)
    requires Elements(order) == objects.Keys && Elements(order') == objects'.Keys
    requires forall k :: k in objects ==> idOf(objects[k]) == k
    requires forall k :: k in objects' ==> idOf(objects'[k]) == k
    requires active <= objects.Keys && active' <= objects'.Keys
    requires Select(order, objects, objects.Keys) == Select(order', objects', objects'.Keys)
    requires Select(order, objects, active) == Select(order', objects', active')
    ensures order == order' && objects == objects' && active == active'
  {
    SelectAll(order, objects);
    SelectAll(order', objects');
    forall i | 0 <= i < |order| ensures order[i] == order'[i] {
      assert idOf(objects[order[i]]) == order[i] && idOf(objects'[order'[i]]) == order'[i];
    }
    forall k | k in objects ensures k in objects' && objects'[k] == objects[k] {
      assert k in order;
    }
    SelectMembers(order, objects, active);
    SelectMembers(order', objects', active');
    assert forall k :: k in active ==> objects[k] in Select(order, objects, active);
    assert forall k :: k in active' ==> objects'[k] in Select(order', objects', active');
  }

  /** A snapshot loses nothing: two valid episodes with the same snapshot are the same episode. */
  lemma SnapshotInjective(s: Store, t: Store)
    requires ActiveStored(s) && Keyed(s) && ActiveStored(t) && Keyed(t)
    requires TakeSnapshot(s) == TakeSnapshot(t)
    ensures s == t
  {
    SelectInjective(s.propositionOrder, s.propositions, s.activePropositions,
                    t.propositionOrder, t.propositions, t.activePropositions, (p: Proposition) => p.id);
    SelectInjective(s.relationOrder, s.relations, s.activeRelations,
                    t.relationOrder, t.relations, t.activeRelations, (r: Relation) => r.id);
  }

  datatype Policy = Policy(allowKinds: set<Kind>, allowIds: set<string>, blindKinds: set<Kind>, blindIds: set<string>)

  predicate PropositionAllowed(p: Proposition, policy: Policy) {
    && ((policy.allowIds == {} && policy.allowKinds == {}) || p.id in policy.allowIds || p.kind in policy.allowKinds)
    && !(p.id in policy.blindIds || p.kind in policy.blindKinds)
  }

  predicate RelationAllowed(r: Relation, policy: Policy) {
    (policy.allowIds == {} || r.id in policy.allowIds) && r.id !in policy.blindIds
  }

  function VisiblePropositions(propositions: seq<Proposition>, policy: Policy): seq<Proposition> {
    if propositions == [] then []
    else
      var last := propositions[|propositions| - 1];
      VisiblePropositions(propositions[..|propositions| - 1], policy) +
      (if PropositionAllowed(last, policy) then [last] else [])
  }

  function PropositionIds(propositions: seq<Proposition>): set<string> {
    set p | p in propositions :: p.id
  }

  function RelationIds(relations: seq<Relation>): set<string> {
    set r | r in relations :: r.id
  }

  /** One pass in insertion order: a relation is visible when its participants already are. */
  function VisibleRelations(relations: seq<Relation>, visible: set<string>, policy: Policy): seq<Relation> {
    if relations == [] then []
    else
      var last := relations[|relations| - 1];
      var before := VisibleRelations(relations[..|relations| - 1], visible, policy);
      if RelationAllowed(last, policy) && ParticipantRefs(last) <= visible + RelationIds(before)
      then before + [last] else before
  }

  function HiddenPropositions(propositions: seq<Proposition>, policy: Policy): seq<string> {
    if propositions == [] then []
    else
      var last := propositions[|propositions| - 1];
      HiddenPropositions(propositions[..|propositions| - 1], policy) +
      (if PropositionAllowed(last, policy) then [] else [last.id])
  }

  function HiddenRelations(relations: seq<Relation>, visible: set<string>, policy: Policy): seq<string> {
    if relations == [] then []
    else
      var rest, last := relations[..|relations| - 1], relations[|relations| - 1];
      var shown := VisibleRelations(relations, visible, policy) != VisibleRelations(rest, visible, policy);
      HiddenRelations(rest, visible, policy) + (if shown then [] else [last.id])
  }

  datatype View = View(
    propositions: seq<Proposition>, relations: seq<Relation>,
    blindedPropositions: seq<string>, blindedRelations: seq<string>)

  function ViewOf(snapshot: Snapshot, policy: Policy): View {
    var visible := VisiblePropositions(snapshot.currentPropositions, policy);
    View(visible,
         VisibleRelations(snapshot.currentRelations, PropositionIds(visible), policy),
         HiddenPropositions(snapshot.currentPropositions, policy),
         HiddenRelations(snapshot.currentRelations, PropositionIds(visible), policy))
  }

  method FilterPropositions(current: seq<Proposition>, policy: Policy) returns (visible: seq<Proposition>, blinded: seq<string>)
    ensures visible == VisiblePropositions(current, policy) && blinded == HiddenPropositions(current, policy)
  {
    visible, blinded := [], [];
    for i := 0 to |current|
      invariant visible == VisiblePropositions(current[..i], policy)
      invariant blinded == HiddenPropositions(current[..i], policy)
    {
      assert current[..i + 1][..i] == current[..i];
      if PropositionAllowed(current[i], policy) {
        visible := visible + [current[i]];
      } else {
        blinded := blinded + [current[i].id];
      }
    }
    assert current[..|current|] == current;
  }

  method FilterRelations(current: seq<Relation>, ids: set<string>, policy: Policy) returns (visible: seq<Relation>, blinded: seq<string>)
    ensures visible == VisibleRelations(current, ids, policy) && blinded == HiddenRelations(current, ids, policy)
  {
    visible, blinded := [], [];
    for i := 0 to |current|
      invariant visible == VisibleRelations(current[..i], ids, policy)
      invariant blinded == HiddenRelations(current[..i], ids, policy)
    {
      assert current[..i + 1][..i] == current[..i];
      if ParticipantRefs(current[i]) <= ids + RelationIds(visible) && RelationAllowed(current[i], policy) {
        visible := visible + [current[i]];
      } else {
        blinded := blinded + [current[i].id];
      }
    }
    assert current[..|current|] == current;
  }

  method BuildExecutionView(snapshot: Snapshot, policy: Policy) returns (view: View)
    ensures view == ViewOf(snapshot, policy)
  {
    var visible, blinded := FilterPropositions(snapshot.currentPropositions, policy);
    var related, hidden := FilterRelations(snapshot.currentRelations, PropositionIds(visible), policy);
    view := View(visible, related, blinded, hidden);
  }

  /** The rule without any order: exactly the allowed relations whose participants are all visible. */
  ghost predicate IsFixpoint(relations: seq<Relation>, visible: set<string>, policy: Policy, chosen: set<Relation>) {
    && (forall r :: r in chosen ==> r in relations)
    && forall r :: r in relations ==>
         (r in chosen <==> RelationAllowed(r, policy) && ParticipantRefs(r) <= visible + set x | x in chosen :: x.id)
  }

  ghost predicate DistinctIds(relations: seq<Relation>) {
    forall i, j :: 0 <= i < j < |relations| ==> relations[i].id != relations[j].id
  }

  /** No relation names itself or a relation that comes after it. */
  ghost predicate ForwardFree(relations: seq<Relation>) {
    forall i, j :: 0 <= i <= j < |relations| ==> relations[j].id !in ParticipantRefs(relations[i])
  }

  /** Where a relation stands in the pass decides whether it is visible. */
  lemma {:induction false} PassDecides(relations: seq<Relation>, visible: set<string>, policy: Policy, i: nat)
    requires DistinctIds(relations) && i < |relations|
    ensures relations[i] in VisibleRelations(relations, visible, policy) <==>
            && RelationAllowed(relations[i], policy)
            && ParticipantRefs(relations[i]) <= visible + RelationIds(VisibleRelations(relations[..i], visible, policy))
  {
    var n := |relations| - 1;
    PassMembers(relations[..n], visible, policy);
    if i < n {
      PassDecides(relations[..n], visible, policy, i);
      assert relations[..n][..i] == relations[..i];
    } else {
      assert relations[n] !in relations[..n];
    }
  }

  lemma {:induction false} PassMembers(relations: seq<Relation>, visible: set<string>, policy: Policy)
    ensures forall r :: r in VisibleRelations(relations, visible, policy) ==> r in relations
  {
    if relations != [] {
      PassMembers(relations[..|relations| - 1], visible, policy);
    }
  }

  lemma {:induction false} PassGrows(relations: seq<Relation>, visible: set<string>, policy: Policy, i: nat)
    requires i <= |relations|
    ensures forall r :: r in VisibleRelations(relations[..i], visible, policy) ==> r in VisibleRelations(relations, visible, policy)
  {
    if i < |relations| {
      var n := |relations| - 1;
      PassGrows(relations[..n], visible, policy, i);
      assert relations[..n][..i] == relations[..i];
    } else {
      assert relations[..i] == relations;
    }
  }

  /** A participant that the whole pass shows was shown before the relation was looked at. */
  lemma ShownBefore(relations: seq<Relation>, visible: set<string>, policy: Policy, i: nat, x: Relation)
    requires DistinctIds(relations) && ForwardFree(relations) && i < |relations|
    requires x in VisibleRelations(relations, visible, policy) && x.id in ParticipantRefs(relations[i])
    ensures x in VisibleRelations(relations[..i], visible, policy)
  {
    PassMembers(relations, visible, policy);
    var j :| 0 <= j < |relations| && relations[j] == x;
    assert j < i;
    PassDecides(relations, visible, policy, j);
    assert relations[..i][..j] == relations[..j] && relations[..i][j] == x;
    PassDecides(relations[..i], visible, policy, j);
  }

  lemma PassDecidesWhole(relations: seq<Relation>, visible: set<string>, policy: Policy, i: nat)
    requires DistinctIds(relations) && ForwardFree(relations) && i < |relations|
    ensures var pass := VisibleRelations(relations, visible, policy);
            relations[i] in pass <==> RelationAllowed(relations[i], policy) && ParticipantRefs(relations[i]) <= visible + RelationIds(pass)
  {
    var pass, early := VisibleRelations(relations, visible, policy), VisibleRelations(relations[..i], visible, policy);
    PassDecides(relations, visible, policy, i);
    PassGrows(relations, visible, policy, i);
    forall ref | ref in ParticipantRefs(relations[i]) && ref in RelationIds(pass)
      ensures ref in RelationIds(early)
    {
      var x :| x in pass && x.id == ref;
      ShownBefore(relations, visible, policy, i, x);
    }
  }

  /** With distinct names and no forward reference the single pass finds the fixpoint... */
  lemma PassIsFixpoint(relations: seq<Relation>, visible: set<string>, policy: Policy)
    requires DistinctIds(relations) && ForwardFree(relations)
    ensures IsFixpoint(relations, visible, policy, Elements(VisibleRelations(relations, visible, policy)))
  {
    var pass := VisibleRelations(relations, visible, policy);
    PassMembers(relations, visible, policy);
    assert RelationIds(pass) == set x | x in Elements(pass) :: x.id;
    forall r | r in relations
      ensures r in pass <==> RelationAllowed(r, policy) && ParticipantRefs(r) <= visible + RelationIds(pass)
    {
      var i :| 0 <= i < |relations| && relations[i] == r;
      PassDecidesWhole(relations, visible, policy, i);
    }
  }

  /** ...and there is only one. */
  lemma FixpointUnique(relations: seq<Relation>, visible: set<string>, policy: Policy, a: set<Relation>, b: set<Relation>)
    requires ForwardFree(relations)
    requires IsFixpoint(relations, visible, policy, a) && IsFixpoint(relations, visible, policy, b)
    ensures a == b
  {
    FixpointsAgree(relations, visible, policy, a, b, |relations|);
  }

  /** A participant that is a chosen relation stands earlier, so the other fixpoint has it too. */
  lemma EarlierChosen(relations: seq<Relation>, a: set<Relation>, b: set<Relation>, n: nat, ref: string)
    requires ForwardFree(relations) && n < |relations| && ref in ParticipantRefs(relations[n])
    requires forall r :: r in a ==> r in relations
    requires forall i :: 0 <= i < n ==> (relations[i] in a <==> relations[i] in b)
    requires exists x :: x in a && x.id == ref
    ensures exists x :: x in b && x.id == ref
  {
    var x :| x in a && x.id == ref;
    var j :| 0 <= j < |relations| && relations[j] == x;
    assert j < n;
  }

  lemma {:induction false} FixpointsAgree(relations: seq<Relation>, visible: set<string>, policy: Policy,
                                          a: set<Relation>, b: set<Relation>, n: nat)
    requires ForwardFree(relations) && n <= |relations|
    requires IsFixpoint(relations, visible, policy, a) && IsFixpoint(relations, visible, policy, b)
    ensures forall i :: 0 <= i < n ==> (relations[i] in a <==> relations[i] in b)
  {
    if n > 0 {
      FixpointsAgree(relations, visible, policy, a, b, n - 1);
      var r := relations[n - 1];
      forall ref | ref in ParticipantRefs(r)
        ensures (exists x :: x in a && x.id == ref) <==> (exists x :: x in b && x.id == ref)
      {
        if exists x :: x in a && x.id == ref { EarlierChosen(relations, a, b, n - 1, ref); }
        if exists x :: x in b && x.id == ref { EarlierChosen(relations, b, a, n - 1, ref); }
      }
      assert r in relations;
    }
  }

  const OPEN := Policy({}, {}, {}, {})

  /** Every name that some relation mentions. */
  ghost function Mentioned(relations: seq<Relation>): set<string> {
    set r, ref | r in relations && ref in ParticipantRefs(r) :: ref
  }

  /** With everything visible but the name of relation `j`, all relations together support each other... */
  lemma AllSupported(relations: seq<Relation>, j: nat)
    requires j < |relations|
    ensures IsFixpoint(relations, Mentioned(relations) - {relations[j].id}, OPEN, Elements(relations))
  {
    var names := Mentioned(relations) - {relations[j].id} + set x | x in Elements(relations) :: x.id;
    forall r, ref | r in relations && ref in ParticipantRefs(r) ensures ref in names {
      assert ref in Mentioned(relations) && relations[j] in Elements(relations);
    }
  }

  /** ...but the pass does not show an earlier relation that mentions it. */
  lemma ForwardHidden(relations: seq<Relation>, i: nat, j: nat)
    requires DistinctIds(relations) && i <= j < |relations| && relations[j].id in ParticipantRefs(relations[i])
    ensures relations[i] !in VisibleRelations(relations, Mentioned(relations) - {relations[j].id}, OPEN)
  {
    var visible := Mentioned(relations) - {relations[j].id};
    PassDecides(relations, visible, OPEN, i);
    PassMembers(relations[..i], visible, OPEN);
    assert forall x :: x in relations[..i] ==> x.id != relations[j].id;
  }

  /** The single pass gives the one solution of the unordered rule for this set of visible names. */
  ghost predicate PassIsRight(relations: seq<Relation>, visible: set<string>, policy: Policy) {
    forall chosen :: IsFixpoint(relations, visible, policy, chosen) <==> chosen == Elements(VisibleRelations(relations, visible, policy))
  }

  lemma PassRightWhenForwardFree(relations: seq<Relation>, visible: set<string>, policy: Policy)
    requires DistinctIds(relations) && ForwardFree(relations)
    ensures PassIsRight(relations, visible, policy)
  {
    PassIsFixpoint(relations, visible, policy);
    forall chosen | IsFixpoint(relations, visible, policy, chosen)
      ensures chosen == Elements(VisibleRelations(relations, visible, policy))
    {
      FixpointUnique(relations, visible, policy, chosen, Elements(VisibleRelations(relations, visible, policy)));
    }
  }

  /** The pass is right for every set of visible names and every policy exactly when no relation names
      itself or a later one. */
  lemma PassIsRightIff(relations: seq<Relation>)
    requires DistinctIds(relations)
    ensures (forall visible, policy :: PassIsRight(relations, visible, policy)) <==> ForwardFree(relations)
  {
    if ForwardFree(relations) {
      forall visible, policy ensures PassIsRight(relations, visible, policy) {
        PassRightWhenForwardFree(relations, visible, policy);
      }
    } else {
      var i, j :| 0 <= i <= j < |relations| && relations[j].id in ParticipantRefs(relations[i]);
      var visible := Mentioned(relations) - {relations[j].id};
      AllSupported(relations, j);
      ForwardHidden(relations, i, j);
      assert relations[i] in Elements(relations);
      assert !PassIsRight(relations, visible, OPEN);
    }
  }

  /** A relation names one that was inserted at the same place or later only through a name that a
      proposition carries too. */
  lemma LooksBack(s: Store, i: nat, n: nat)
    requires Keyed(s) && Backward(s) && i <= n < |s.relationOrder| && s.relationOrder[i] in s.relations
    ensures s.relationOrder[n] in ParticipantRefs(s.relations[s.relationOrder[i]]) ==> s.relationOrder[n] in s.propositions
  {
    assert ParticipantRefs(s.relations[s.relationOrder[i]]) <= s.propositions.Keys + Elements(s.relationOrder[..i]);
  }

  /** The current relations are the active ones, at increasing places of the insertion order. */
  lemma {:induction false} SelectPlaces(s: Store, n: nat) returns (places: seq<nat>)
    requires Keyed(s) && ActiveStored(s) && n <= |s.relationOrder|
    ensures var current := Select(s.relationOrder[..n], s.relations, s.activeRelations);
            && |places| == |current|
            && (forall i :: 0 <= i < |places| ==> places[i] < n && s.relationOrder[places[i]] in s.relations
                                                  && current[i] == s.relations[s.relationOrder[places[i]]])
            && (forall i, j :: 0 <= i < j < |places| ==> places[i] < places[j])
  {
    if n == 0 {
      places := [];
    } else {
      places := SelectPlaces(s, n - 1);
      assert s.relationOrder[..n][..n - 1] == s.relationOrder[..n - 1];
      if s.relationOrder[n - 1] in s.activeRelations { places := places + [n - 1]; }
    }
  }

  lemma PlacedPair(s: Store, i: nat, j: nat)
    requires Keyed(s) && Backward(s) && i <= j < |s.relationOrder|
    requires s.relationOrder[i] in s.relations && s.relationOrder[j] in s.relations
    ensures var a, b := s.relations[s.relationOrder[i]], s.relations[s.relationOrder[j]];
            && (i < j ==> a.id != b.id)
            && (b.id in ParticipantRefs(a) ==> b.id in s.propositions && b.id in s.relations)
  {
    LooksBack(s, i, j);
  }

  /** In a keyed store current relations have different names, and a forward reference among them is
      through a name shared with a proposition. */
  lemma CurrentRelations(s: Store)
    requires Keyed(s) && ActiveStored(s) && Backward(s)
    ensures DistinctIds(TakeSnapshot(s).currentRelations)
    ensures s.propositions.Keys !! s.relations.Keys ==> ForwardFree(TakeSnapshot(s).currentRelations)
  {
    var current := TakeSnapshot(s).currentRelations;
    assert s.relationOrder[..|s.relationOrder|] == s.relationOrder;
    var places := SelectPlaces(s, |s.relationOrder|);
    forall i, j | 0 <= i <= j < |current|
      ensures i < j ==> current[i].id != current[j].id
      ensures current[j].id in ParticipantRefs(current[i]) ==> current[j].id in s.propositions && current[j].id in s.relations
    {
      PlacedPair(s, places[i], places[j]);
    }
  }

  /** In every reachable episode the one-pass view is the unique solution, whatever is visible and
      whatever the policy, exactly when no current relation names itself or a later one. With disjoint
      name spaces that is always so. */
  lemma ViewIsTheFixpoint(id: string, run: seq<Machine>, changes: seq<Change>)
    requires IsRun(id, run, changes)
    ensures var s := run[|run| - 1].store;
            var current := TakeSnapshot(s).currentRelations;
            && ((forall visible, policy :: PassIsRight(current, visible, policy)) <==> ForwardFree(current))
            && (s.propositions.Keys !! s.relations.Keys ==> ForwardFree(current))
  {
    RunsKeepInv(id, run, changes);
    CurrentRelations(run[|run| - 1].store);
    PassIsRightIff(TakeSnapshot(run[|run| - 1].store).currentRelations);
  }
}
