/** The episode object, and the cascade that retraction runs over it. */
module Episode {
  import opened Wrappers
  import opened Collections
  import opened EpisodeStore

  /** An active object that names the root or a reached object is reached. */
  lemma HitIsReached(s: Store, root: string, nodes: set<Node>, n: Node)
    requires ActiveStored(s) && n in ActiveNodes(s) && n != P(root)
    requires nodes <= Invalidated(s, root)
    requires Hit(s, n, {root} + Names(nodes))
    ensures n in Invalidated(s, root)
  {
    var ref :| ref in Refs(s, n) && ref in {root} + Names(nodes);
    if ref == root {
      assert [n][..0] == [];
      assert ReachedBy(s, root, n, [n]);
    } else {
      var m :| m in nodes && m.id == ref;
      assert m in Invalidated(s, root);
      var path :| ReachedBy(s, root, m, path);
      assert (path + [n])[..|path|] == path;
      assert ReachedBy(s, root, n, path + [n]);
    }
  }

  lemma {:induction false} ChainStaysInside(s: Store, root: string, nodes: set<Node>, path: seq<Node>)
    requires ActiveStored(s) && IsChain(s, root, path) && ClosedUnder(s, root, nodes)
    ensures forall k :: 0 <= k < |path| ==> path[k] in nodes
  {
    if path != [] {
      var n := |path| - 1;
      ChainStaysInside(s, root, nodes, path[..n]);
      assert Tip(root, path[..n]) in {root} + Names(nodes);
      assert Hit(s, path[n], {root} + Names(nodes));
    }
  }

  /** The invalidated objects are closed under dependency, and they are the least such set. */
  lemma InvalidatedIsLeastClosed(s: Store, root: string)
    requires ActiveStored(s)
    ensures ClosedUnder(s, root, Invalidated(s, root))
    ensures forall nodes :: ClosedUnder(s, root, nodes) ==> Invalidated(s, root) <= nodes
  {
    forall n | n in ActiveNodes(s) && n != P(root) && Hit(s, n, {root} + Names(Invalidated(s, root)))
      ensures n in Invalidated(s, root)
    {
      HitIsReached(s, root, Invalidated(s, root), n);
    }
    forall nodes, n | ClosedUnder(s, root, nodes) && n in Invalidated(s, root)
      ensures n in nodes
    {
      var path :| ReachedBy(s, root, n, path);
      ChainStaysInside(s, root, nodes, path);
    }
  }

  /** One object dropped, with its event. */
  function Drop(v: Store, n: Node, root: string): Store {
    v.(activePropositions := if n.P? then v.activePropositions - {n.id} else v.activePropositions,
       activeRelations := if n.R? then v.activeRelations - {n.id} else v.activeRelations,
       events := v.events + [InvalidationEvent(|v.events| + 1, n, root)])
  }

  /** Invalidating one more object. */
  lemma CascadeStep(s: Store, root: string, reason: string, order: seq<Node>, n: Node)
    requires n !in order
    ensures RetractedStore(s, root, reason, order + [n]) == Drop(RetractedStore(s, root, reason, order), n, root)
  {
    var t := RetractedStore(s, root, reason, order);
    var t' := RetractedStore(s, root, reason, order + [n]);
    assert Elements(order + [n]) == Elements(order) + {n};
    assert PropositionsOf(Elements(order + [n])) == PropositionsOf(Elements(order)) + (if n.P? then {n.id} else {});
    assert RelationsOf(Elements(order + [n])) == RelationsOf(Elements(order)) + (if n.R? then {n.id} else {});
    assert t'.events == t.events + [InvalidationEvent(|t.events| + 1, n, root)];
  }

  /** Which objects are still active in the middle of a cascade. */
  lemma CascadeActive(s: Store, root: string, reason: string, order: seq<Node>, n: Node)
    requires ActiveStored(s) && Elements(order) <= ActiveNodes(s)
    ensures n in ActiveNodes(RetractedStore(s, root, reason, order)) <==>
            n in ActiveNodes(s) && n != P(root) && n !in order
  {
    var t := RetractedStore(s, root, reason, order);
    if n.P? {
      assert n.id in PropositionsOf(Elements(order)) <==> n in order;
    } else {
      assert n.id in RelationsOf(Elements(order)) <==> n in order;
    }
  }

  /** The store after dropping the objects of `order` one by one. */
  ghost function Dropped(v: Store, order: seq<Node>, root: string): Store {
    if order == [] then v else Drop(Dropped(v, order[..|order| - 1], root), order[|order| - 1], root)
  }

  /** Every object is dropped while active, because it names the root or an object dropped before it. */
  ghost predicate Justified(v: Store, order: seq<Node>, root: string) {
    order == [] || (
      var n, rest := order[|order| - 1], order[..|order| - 1];
      && Justified(v, rest, root)
      && n in ActiveNodes(Dropped(v, rest, root))
      && Stored(v, n)
      && Hit(v, n, {root} + Names(Elements(rest))))
  }

  ghost predicate Cascading(v: Store, root: string, order: seq<Node>, names: set<string>, now: Store) {
    Justified(v, order, root) && now == Dropped(v, order, root) && names == {root} + Names(Elements(order))
  }

  lemma CascadeDrops(v: Store, root: string, order: seq<Node>, names: set<string>, now: Store, n: Node)
    requires Cascading(v, root, order, names, now)
    requires n in ActiveNodes(now) && Stored(v, n) && Hit(v, n, names)
    ensures Cascading(v, root, order + [n], names + {n.id}, Drop(now, n, root))
  {
    assert (order + [n])[..|order|] == order;
    assert Elements(order + [n]) == Elements(order) + {n};
  }

  /** The store right after the root itself is retracted. */
  function Rooted(s: Store, root: string, reason: string): Store {
    s.(activePropositions := s.activePropositions - {root},
       events := WithEvent(s, PropositionRetracted, root, Some(reason)))
  }

  lemma JustifiedDrop(s: Store, root: string, reason: string, rest: seq<Node>, n: Node)
    requires ActiveStored(s) && Distinct(rest) && Elements(rest) <= Invalidated(s, root)
    requires n in ActiveNodes(RetractedStore(s, root, reason, rest))
    requires Stored(s, n) && Hit(s, n, {root} + Names(Elements(rest)))
    ensures n !in rest && Distinct(rest + [n]) && Elements(rest + [n]) <= Invalidated(s, root)
  {
    CascadeActive(s, root, reason, rest, n);
    HitIsReached(s, root, Elements(rest), n);
    assert Elements(rest + [n]) == Elements(rest) + {n};
  }

  /** Justified drops remove reached objects, each once, and build the specified store. */
  lemma {:induction false} JustifiedDrops(s: Store, root: string, reason: string, order: seq<Node>)
    requires ActiveStored(s) && Justified(Rooted(s, root, reason), order, root)
    ensures Distinct(order) && Elements(order) <= Invalidated(s, root)
    ensures Dropped(Rooted(s, root, reason), order, root) == RetractedStore(s, root, reason, order)
  {
    var v := Rooted(s, root, reason);
    if order == [] {
      assert RetractedStore(s, root, reason, []) == v;
    } else {
      var n, rest := order[|order| - 1], order[..|order| - 1];
      JustifiedDrops(s, root, reason, rest);
      assert Hit(s, n, {root} + Names(Elements(rest)));
      JustifiedDrop(s, root, reason, rest, n);
      CascadeStep(s, root, reason, rest, n);
      assert order == rest + [n];
    }
  }

  /** When no remaining object names anything dropped, the cascade is complete. */
  lemma CascadeComplete(s: Store, root: string, reason: string, order: seq<Node>, names: set<string>, now: Store)
    requires ActiveStored(s) && Cascading(Rooted(s, root, reason), root, order, names, now)
    requires forall p :: p in now.activePropositions ==> p in s.propositions && PropositionRefs(s.propositions[p]) !! names
    requires forall r :: r in now.activeRelations ==> r in s.relations && RelationRefs(s.relations[r]) !! names
    ensures Retracts(s, root, reason, now)
  {
    JustifiedDrops(s, root, reason, order);
    forall n | n in ActiveNodes(s) && n != P(root) && Hit(s, n, names)
      ensures n in Elements(order)
    {
      CascadeActive(s, root, reason, order, n);
    }
    assert ClosedUnder(s, root, Elements(order));
    InvalidatedIsLeastClosed(s, root);
    assert Elements(order) == Invalidated(s, root);
  }

  class Episode {
    const id: string
    var propositions: map<string, Proposition>
    var propositionOrder: seq<string>
    var relations: map<string, Relation>
    var relationOrder: seq<string>
    var activePropositions: set<string>
    var activeRelations: set<string>
    var events: seq<Event>

    function Value(): Store
      reads this
    {
      Store(id, propositions, propositionOrder, relations, relationOrder, activePropositions, activeRelations, events)
    }

    constructor (id: string)
      ensures Value() == Empty(id)
    {
      this.id := id;
      propositions, propositionOrder := map[], [];
      relations, relationOrder := map[], [];
      activePropositions, activeRelations, events := {}, {}, [];
    }

    /** The end of an atomic block that failed: back to its checkpoint. */
    method Restore(checkpoint: Store)
      requires checkpoint.id == id
      modifies this
      ensures Value() == checkpoint
    {
      propositions, propositionOrder := checkpoint.propositions, checkpoint.propositionOrder;
      relations, relationOrder := checkpoint.relations, checkpoint.relationOrder;
      activePropositions, activeRelations := checkpoint.activePropositions, checkpoint.activeRelations;
      events := checkpoint.events;
    }

    method Record(kind: EventKind, target: string, reason: Option<string>)
      modifies this`events
      ensures events == WithEvent(old(Value()), kind, target, reason)
    {
      events := events + [Event(|events| + 1, kind, target, reason)];
    }

    method Add(p: Proposition) returns (error: Option<EpisodeError>)
      modifies this
      ensures match AddProposition(old(Value()), p)
              case Ok(after) => error == None && Value() == after
              case Err(e) => error == Some(e) && Value() == old(Value())
    {
      if !WellFormedProposition(p) { return Some(Malformed); }
      if p.episode != id { return Some(ForeignEpisode); }
      if !SourcesCurrent(Value(), p.sourceRefs) { return Some(InactiveSource); }
      if p.id in propositions {
        if propositions[p.id] != p { return Some(ConflictingContent); }
        if p.id !in activePropositions { return Some(SilentReactivation); }
        return None;
      }
      propositions := propositions[p.id := p];
      propositionOrder := propositionOrder + [p.id];
      activePropositions := activePropositions + {p.id};
      Record(PropositionAdded, p.id, None);
      return None;
    }

    method Relate(r: Relation) returns (error: Option<EpisodeError>)
      modifies this
      ensures match AddRelation(old(Value()), r)
              case Ok(after) => error == None && Value() == after
              case Err(e) => error == Some(e) && Value() == old(Value())
    {
      if !WellFormedRelation(r) { return Some(Malformed); }
      if r.episode != id { return Some(ForeignEpisode); }
      if !(ParticipantRefs(r) <= Active(Value())) { return Some(UnavailableParticipant); }
      if !SourcesCurrent(Value(), r.sourceRefs) { return Some(InactiveSource); }
      if r.id in relations {
        if relations[r.id] != r { return Some(ConflictingContent); }
        if r.id !in activeRelations { return Some(SilentReactivation); }
        return None;
      }
      relations := relations[r.id := r];
      relationOrder := relationOrder + [r.id];
      activeRelations := activeRelations + {r.id};
      Record(RelationAdded, r.id, None);
      return None;
    }

    method DropNode(n: Node, root: string)
      modifies this`activePropositions, this`activeRelations, this`events
      ensures Value() == Drop(old(Value()), n, root)
    {
      match n
      case P(p) =>
        activePropositions := activePropositions - {p};
        Record(PropositionInvalidated, p, DependencyReason(root));
      case R(r) =>
        activeRelations := activeRelations - {r};
        Record(RelationInvalidated, r, DependencyReason(root));
    }

    /** One pass over the propositions that were active when it began, in any order. */
    method InvalidatePropositions(root: string, invalidated: set<string>, ghost v: Store, ghost order: seq<Node>)
      returns (changed: bool, names: set<string>, ghost order': seq<Node>)
      requires ActiveStored(v) && propositions == v.propositions && activePropositions <= v.activePropositions
      requires Cascading(v, root, order, invalidated, Value())
      modifies this`activePropositions, this`activeRelations, this`events
      ensures Cascading(v, root, order', names, Value())
      ensures activeRelations == old(activeRelations)
      ensures if changed then activePropositions < old(activePropositions)
              else activePropositions == old(activePropositions) && names == invalidated
      ensures !changed ==> forall p :: p in activePropositions ==> PropositionRefs(propositions[p]) !! names
    {
      names, changed, order' := invalidated, false, order;
      var todo := activePropositions;
      while todo != {}
        invariant Cascading(v, root, order', names, Value())
        invariant activeRelations == old(activeRelations)
        invariant todo <= activePropositions <= v.activePropositions
        invariant if changed then activePropositions < old(activePropositions)
                  else activePropositions == old(activePropositions) && names == invalidated
        invariant !changed ==> forall p :: p in activePropositions && p !in todo ==> PropositionRefs(propositions[p]) !! names
        decreases todo
      {
        var p :| p in todo;
        if PropositionRefs(propositions[p]) !! names {
        } else {
          assert Hit(v, P(p), names);
          CascadeDrops(v, root, order', names, Value(), P(p));
          DropNode(P(p), root);
          names, order', changed := names + {p}, order' + [P(p)], true;
        }
        todo := todo - {p};
      }
    }

    /** The same pass over the relations, which also depend on their participants. */
    method InvalidateRelations(root: string, invalidated: set<string>, ghost v: Store, ghost order: seq<Node>)
      returns (changed: bool, names: set<string>, ghost order': seq<Node>)
      requires ActiveStored(v) && relations == v.relations && activeRelations <= v.activeRelations
      requires Cascading(v, root, order, invalidated, Value())
      modifies this`activePropositions, this`activeRelations, this`events
      ensures Cascading(v, root, order', names, Value())
      ensures activePropositions == old(activePropositions)
      ensures if changed then activeRelations < old(activeRelations)
              else activeRelations == old(activeRelations) && names == invalidated
      ensures !changed ==> forall r :: r in activeRelations ==> RelationRefs(relations[r]) !! names
    {
      names, changed, order' := invalidated, false, order;
      var todo := activeRelations;
      while todo != {}
        invariant Cascading(v, root, order', names, Value())
        invariant activePropositions == old(activePropositions)
        invariant todo <= activeRelations <= v.activeRelations
        invariant if changed then activeRelations < old(activeRelations)
                  else activeRelations == old(activeRelations) && names == invalidated
        invariant !changed ==> forall r :: r in activeRelations && r !in todo ==> RelationRefs(relations[r]) !! names
        decreases todo
      {
        var r :| r in todo;
        if RelationRefs(relations[r]) !! names {
        } else {
          assert Hit(v, R(r), names);
          CascadeDrops(v, root, order', names, Value(), R(r));
          DropNode(R(r), root);
          names, order', changed := names + {r}, order' + [R(r)], true;
        }
        todo := todo - {r};
      }
    }

    /** Retraction with its cascade: passes over both kinds of object until nothing changes. */
    method RetractProposition(root: string, reason: string) returns (error: Option<EpisodeError>)
      requires ActiveStored(Value())
      modifies this
      ensures error == if root == "" || reason == "" then Some(Malformed)
                       else if root !in old(propositions) then Some(UnknownProposition)
                       else if root !in old(activePropositions) then Some(AlreadyRetracted) else None
      ensures if error.Some? then Value() == old(Value()) else Retracts(old(Value()), root, reason, Value())
    {
      if root == "" || reason == "" { return Some(Malformed); }
      if root !in propositions { return Some(UnknownProposition); }
      if root !in activePropositions { return Some(AlreadyRetracted); }
      ghost var s := Value();
      activePropositions := activePropositions - {root};
      Record(PropositionRetracted, root, Some(reason));
      ghost var v := Rooted(s, root, reason);
      ghost var order: seq<Node> := [];
      var names, changed := {root}, true;
      while changed
        invariant propositions == v.propositions && activePropositions <= v.activePropositions
        invariant relations == v.relations && activeRelations <= v.activeRelations
        invariant Cascading(v, root, order, names, Value())
        invariant !changed ==> forall p :: p in activePropositions ==> PropositionRefs(propositions[p]) !! names
        invariant !changed ==> forall r :: r in activeRelations ==> RelationRefs(relations[r]) !! names
        decreases activePropositions, activeRelations, changed
      {
        var first, second;
        first, names, order := InvalidatePropositions(root, names, v, order);
        second, names, order := InvalidateRelations(root, names, v, order);
        changed := first || second;
      }
      CascadeComplete(s, root, reason, order, names, Value());
      return None;
    }
  }
}
