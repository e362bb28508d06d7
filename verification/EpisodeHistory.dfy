/** What every run of additions, retractions and rollbacks keeps: supported objects and a faithful log. */
module EpisodeHistory {
  import opened Wrappers
  import opened Collections
  import opened EpisodeStore
  import opened Episode

  /** What the event log alone says about the episode. */
  datatype Log = Log(
    knownPropositions: set<string>, activePropositions: set<string>,
    knownRelations: set<string>, activeRelations: set<string>)

  /** An event is legal when it adds a name that was never added or removes one that is active. */
  function ReplayEvent(log: Log, e: Event): Option<Log> {
    match e.kind
    case PropositionAdded =>
      if e.target in log.knownPropositions then None
      else Some(log.(knownPropositions := log.knownPropositions + {e.target},
                     activePropositions := log.activePropositions + {e.target}))
    case RelationAdded =>
      if e.target in log.knownRelations then None
      else Some(log.(knownRelations := log.knownRelations + {e.target},
                     activeRelations := log.activeRelations + {e.target}))
    case RelationInvalidated =>
      if e.target !in log.activeRelations then None
      else Some(log.(activeRelations := log.activeRelations - {e.target}))
    case _ =>
      if e.target !in log.activePropositions then None
      else Some(log.(activePropositions := log.activePropositions - {e.target}))
  }

  function Replay(events: seq<Event>): Option<Log> {
    if events == [] then Some(Log({}, {}, {}, {}))
    else
      var before := Replay(events[..|events| - 1]);
      if before.None? then None else ReplayEvent(before.value, events[|events| - 1])
  }

  lemma ReplayThen(events: seq<Event>, e: Event)
    ensures Replay(events + [e]) == (if Replay(events).None? then None else ReplayEvent(Replay(events).value, e))
  {
    assert (events + [e])[..|events|] == events;
  }

  /** The names added, in the order of the log. */
  function AddedNames(events: seq<Event>, kind: EventKind): seq<string> {
    if events == [] then []
    else
      var last := events[|events| - 1];
      AddedNames(events[..|events| - 1], kind) + (if last.kind == kind then [last.target] else [])
  }

  lemma AddedThen(events: seq<Event>, e: Event, kind: EventKind)
    ensures AddedNames(events + [e], kind) == AddedNames(events, kind) + (if e.kind == kind then [e.target] else [])
  {
    assert (events + [e])[..|events|] == events;
  }

  function LogOf(s: Store): Log {
    Log(s.propositions.Keys, s.activePropositions, s.relations.Keys, s.activeRelations)
  }

  /** The log, replayed from nothing, rebuilds the names, the active sets and the insertion orders. */
  ghost predicate LogFaithful(s: Store) {
    && Replay(s.events) == Some(LogOf(s))
    && AddedNames(s.events, PropositionAdded) == s.propositionOrder
    && AddedNames(s.events, RelationAdded) == s.relationOrder
    && forall i :: 0 <= i < |s.events| ==> s.events[i].number == i + 1
  }

  ghost predicate Keyed(s: Store) {
    && (forall p :: p in s.propositions ==> s.propositions[p].id == p)
    && (forall r :: r in s.relations ==> s.relations[r].id == r)
    && Distinct(s.propositionOrder) && Elements(s.propositionOrder) == s.propositions.Keys
    && Distinct(s.relationOrder) && Elements(s.relationOrder) == s.relations.Keys
  }

  /** Every canonical name that an active object refers to is carried by an active object. */
  ghost predicate Supported(s: Store)
    requires ActiveStored(s)
  {
    && (forall p :: p in s.activePropositions ==> PropositionRefs(s.propositions[p]) * Known(s) <= Active(s))
    && (forall r :: r in s.activeRelations ==> RelationRefs(s.relations[r]) * Known(s) <= Active(s))
    && (forall r :: r in s.activeRelations ==> ParticipantRefs(s.relations[r]) <= Active(s))
  }

  /** Relations only connect objects that were there before them. */
  ghost predicate Backward(s: Store) {
    forall i :: 0 <= i < |s.relationOrder| && s.relationOrder[i] in s.relations ==>
      ParticipantRefs(s.relations[s.relationOrder[i]]) <= s.propositions.Keys + Elements(s.relationOrder[..i])
  }

  ghost predicate Inv(s: Store) {
    ActiveStored(s) && Keyed(s) && Supported(s) && Backward(s) && LogFaithful(s)
  }

  lemma AddKeepsLog(s: Store, t: Store, e: Event)
    requires LogFaithful(s) && t.events == s.events + [e] && e.number == |s.events| + 1
    requires ReplayEvent(LogOf(s), e) == Some(LogOf(t))
    requires t.propositionOrder == s.propositionOrder + (if e.kind.PropositionAdded? then [e.target] else [])
    requires t.relationOrder == s.relationOrder + (if e.kind.RelationAdded? then [e.target] else [])
    ensures LogFaithful(t)
  {
    ReplayThen(s.events, e);
    AddedThen(s.events, e, PropositionAdded);
    AddedThen(s.events, e, RelationAdded);
  }

  /** The store with one new proposition that it may accept. */
  ghost predicate Accepts(s: Store, p: Proposition, t: Store) {
    p.id !in s.propositions && AddProposition(s, p) == Ok(t)
  }

  lemma AddedPropositionKeyed(s: Store, p: Proposition, t: Store)
    requires Keyed(s) && Accepts(s, p, t)
    ensures Keyed(t)
  {
    assert t.propositions.Keys == s.propositions.Keys + {p.id};
    assert Elements(t.propositionOrder) == Elements(s.propositionOrder) + {p.id};
  }

  lemma AddedPropositionSupported(s: Store, p: Proposition, t: Store)
    requires ActiveStored(s) && Supported(s) && Accepts(s, p, t)
    ensures ActiveStored(t) && Supported(t)
  {
    assert Known(t) == Known(s) + {p.id} && Active(t) == Active(s) + {p.id};
    assert PropositionRefs(p) * Known(s) <= Active(s);
  }

  lemma AddedPropositionBackward(s: Store, p: Proposition, t: Store)
    requires Backward(s) && Accepts(s, p, t)
    ensures Backward(t)
  {
    assert t.propositions.Keys == s.propositions.Keys + {p.id};
  }

  lemma AddedPropositionLogged(s: Store, p: Proposition, t: Store)
    requires LogFaithful(s) && Accepts(s, p, t)
    ensures LogFaithful(t)
  {
    assert t.propositions.Keys == s.propositions.Keys + {p.id};
    AddKeepsLog(s, t, Event(|s.events| + 1, PropositionAdded, p.id, None));
  }

  lemma AddPropositionKeepsInv(s: Store, p: Proposition)
    requires Inv(s) && AddProposition(s, p).Ok?
    ensures Inv(AddProposition(s, p).value)
  {
    var t := AddProposition(s, p).value;
    if p.id !in s.propositions {
      AddedPropositionKeyed(s, p, t);
      AddedPropositionSupported(s, p, t);
      AddedPropositionBackward(s, p, t);
      AddedPropositionLogged(s, p, t);
    }
  }

  ghost predicate Connects(s: Store, r: Relation, t: Store) {
    r.id !in s.relations && AddRelation(s, r) == Ok(t)
  }

  lemma AddedRelationKeyed(s: Store, r: Relation, t: Store)
    requires Keyed(s) && Connects(s, r, t)
    ensures Keyed(t)
  {
    assert t.relations.Keys == s.relations.Keys + {r.id};
    assert Elements(t.relationOrder) == Elements(s.relationOrder) + {r.id};
  }

  lemma AddedRelationSupported(s: Store, r: Relation, t: Store)
    requires ActiveStored(s) && Supported(s) && Connects(s, r, t)
    ensures ActiveStored(t) && Supported(t)
  {
    assert Known(t) == Known(s) + {r.id} && Active(t) == Active(s) + {r.id};
    assert RelationRefs(r) * Known(s) <= Active(s);
  }

  lemma AddedRelationBackward(s: Store, r: Relation, t: Store)
    requires ActiveStored(s) && Keyed(s) && Backward(s) && Connects(s, r, t)
    ensures Backward(t)
  {
    forall i | 0 <= i < |t.relationOrder| && t.relationOrder[i] in t.relations
      ensures ParticipantRefs(t.relations[t.relationOrder[i]]) <= t.propositions.Keys + Elements(t.relationOrder[..i])
    {
      if i < |s.relationOrder| {
        assert t.relationOrder[..i] == s.relationOrder[..i];
        assert s.relationOrder[i] in Elements(s.relationOrder);
      } else {
        assert t.relationOrder[..i] == s.relationOrder;
      }
    }
  }

  lemma AddedRelationLogged(s: Store, r: Relation, t: Store)
    requires LogFaithful(s) && Connects(s, r, t)
    ensures LogFaithful(t)
  {
    assert t.relations.Keys == s.relations.Keys + {r.id};
    AddKeepsLog(s, t, Event(|s.events| + 1, RelationAdded, r.id, None));
  }

  lemma AddRelationKeepsInv(s: Store, r: Relation)
    requires Inv(s) && AddRelation(s, r).Ok?
    ensures Inv(AddRelation(s, r).value)
  {
    var t := AddRelation(s, r).value;
    if r.id !in s.relations {
      AddedRelationKeyed(s, r, t);
      AddedRelationSupported(s, r, t);
      AddedRelationBackward(s, r, t);
      AddedRelationLogged(s, r, t);
    }
  }

  /** The log of a cascade is legal: each object is active when its event removes it. */
  lemma {:induction false} CascadeKeepsLog(s: Store, root: string, reason: string, order: seq<Node>)
    requires ActiveStored(s) && LogFaithful(s) && root in s.activePropositions
    requires Distinct(order) && Elements(order) <= ActiveNodes(s) - {P(root)}
    ensures LogFaithful(RetractedStore(s, root, reason, order))
  {
    if order == [] {
      var t := RetractedStore(s, root, reason, []);
      assert t == Rooted(s, root, reason);
      AddKeepsLog(s, t, t.events[|s.events|]);
    } else {
      var n, rest := order[|order| - 1], order[..|order| - 1];
      assert order == rest + [n] && n !in rest;
      assert Elements(rest) <= Elements(order);
      CascadeKeepsLog(s, root, reason, rest);
      CascadeStep(s, root, reason, rest, n);
      CascadeActive(s, root, reason, rest, n);
      var t := RetractedStore(s, root, reason, rest);
      var t' := RetractedStore(s, root, reason, order);
      assert n in Elements(order);
      AddKeepsLog(t, t', InvalidationEvent(|t.events| + 1, n, root));
    }
  }

  /** After a retraction nothing that is still active rests on what was taken down. */
  lemma RetractKeepsSupport(s: Store, root: string, reason: string, order: seq<Node>)
    requires ActiveStored(s) && Supported(s) && Elements(order) == Invalidated(s, root)
    ensures var t := RetractedStore(s, root, reason, order); ActiveStored(t) && Supported(t)
  {
    var t := RetractedStore(s, root, reason, order);
    forall n, ref | n in ActiveNodes(t) && Stored(s, n) && ref in Refs(s, n) && ref in Active(s)
      ensures ref in Active(t)
    {
      CascadeActive(s, root, reason, order, n);
      InvalidatedIsLeastClosed(s, root);
      assert !Hit(s, n, {root} + Names(Invalidated(s, root)));
      assert ref != root && ref !in Names(Invalidated(s, root));
      var m := if ref in s.activePropositions then P(ref) else R(ref);
      assert m in ActiveNodes(s);
      CascadeActive(s, root, reason, order, m);
    }
    forall p | p in t.activePropositions
      ensures PropositionRefs(t.propositions[p]) * Known(t) <= Active(t)
    {
      assert P(p) in ActiveNodes(t) && Refs(s, P(p)) == PropositionRefs(s.propositions[p]);
    }
    forall r | r in t.activeRelations
      ensures RelationRefs(t.relations[r]) * Known(t) <= Active(t)
      ensures ParticipantRefs(t.relations[r]) <= Active(t)
    {
      assert R(r) in ActiveNodes(t) && Refs(s, R(r)) == RelationRefs(s.relations[r]);
    }
  }

  lemma RetractKeepsInv(s: Store, root: string, reason: string, t: Store)
    requires Inv(s) && !RetractRefused(s, root, reason) && Retracts(s, root, reason, t)
    ensures Inv(t)
  {
    var order: seq<Node> :|
      Distinct(order) && Elements(order) == Invalidated(s, root) && t == RetractedStore(s, root, reason, order);
    forall n | n in order ensures n != P(root) {
      assert n in Elements(order);
      var path :| ReachedBy(s, root, n, path);
    }
    CascadeKeepsLog(s, root, reason, order);
    RetractKeepsSupport(s, root, reason, order);
  }

  /** An episode with the checkpoints of the atomic blocks that are open on it. */
  datatype Machine = Machine(store: Store, checkpoints: seq<Store>)

  datatype Change =
    | Add(proposition: Proposition)
    | Relate(relation: Relation)
    | Retract(root: string, reason: string)
    | Begin
    | Commit
    | Rollback

  ghost predicate StoreNext(s: Store, change: Change, t: Store)
    requires ActiveStored(s)
  {
    match change
    case Add(p) => t == (match AddProposition(s, p) case Ok(after) => after case Err(_) => s)
    case Relate(r) => t == (match AddRelation(s, r) case Ok(after) => after case Err(_) => s)
    case Retract(root, reason) =>
      if RetractRefused(s, root, reason) then t == s else Retracts(s, root, reason, t)
    case _ => t == s
  }

  ghost predicate Next(m: Machine, change: Change, m': Machine) {
    var n := |m.checkpoints|;
    match change
    case Begin => m' == m.(checkpoints := m.checkpoints + [m.store])
    case Commit => n > 0 && m' == m.(checkpoints := m.checkpoints[..n - 1])
    case Rollback => n > 0 && m' == Machine(m.checkpoints[n - 1], m.checkpoints[..n - 1])
    case _ => ActiveStored(m.store) && m'.checkpoints == m.checkpoints && StoreNext(m.store, change, m'.store)
  }

  ghost predicate IsRun(id: string, run: seq<Machine>, changes: seq<Change>) {
    && |run| == |changes| + 1
    && run[0] == Machine(Empty(id), [])
    && forall i :: 0 <= i < |changes| ==> Next(run[i], changes[i], run[i + 1])
  }

  lemma StoreStepKeepsInv(s: Store, change: Change, t: Store)
    requires Inv(s) && StoreNext(s, change, t)
    ensures Inv(t)
  {
    match change
    case Add(p) =>
      if AddProposition(s, p).Ok? { AddPropositionKeepsInv(s, p); }
    case Relate(r) =>
      if AddRelation(s, r).Ok? { AddRelationKeepsInv(s, r); }
    case Retract(root, reason) =>
      if !RetractRefused(s, root, reason) { RetractKeepsInv(s, root, reason, t); }
    case _ =>
  }

  lemma EmptyInv(id: string)
    ensures Inv(Empty(id))
  {
    assert LogOf(Empty(id)) == Log({}, {}, {}, {});
  }

  /** Every state of every run, and every checkpoint it may go back to: all support is active and the
      log rebuilds the episode. */
  lemma {:induction false} RunsKeepInv(id: string, run: seq<Machine>, changes: seq<Change>)
    requires IsRun(id, run, changes)
    ensures forall i :: 0 <= i < |run| ==> Inv(run[i].store) && forall s :: s in run[i].checkpoints ==> Inv(s)
  {
    if changes == [] {
      EmptyInv(id);
    } else {
      var n := |changes| - 1;
      RunsKeepInv(id, run[..n + 1], changes[..n]);
      assert Inv(run[..n + 1][n].store);
      assert Next(run[n], changes[n], run[n + 1]);
      if !changes[n].Begin? && !changes[n].Commit? && !changes[n].Rollback? {
        StoreStepKeepsInv(run[n].store, changes[n], run[n + 1].store);
      }
    }
  }

  /** No identifier comes back: what the log removed stays removed in every extension of the log. */
  lemma {:induction false} NoReactivation(events: seq<Event>, k: nat)
    requires k <= |events| && Replay(events).Some?
    ensures Replay(events[..k]).Some?
    ensures var early, late := Replay(events[..k]).value, Replay(events).value;
            && early.knownPropositions - early.activePropositions <= late.knownPropositions - late.activePropositions
            && early.knownRelations - early.activeRelations <= late.knownRelations - late.activeRelations
            && early.knownPropositions <= late.knownPropositions
            && early.knownRelations <= late.knownRelations
  {
    if k == |events| {
      assert events[..k] == events;
    } else {
      var rest := events[..|events| - 1];
      NoReactivation(rest, k);
      assert rest[..k] == events[..k];
    }
  }
}
