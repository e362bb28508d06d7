/** The episode: propositions and relations that stay current only while what they rest on is current.

    Objects are kept for ever in insertion order; retraction only changes which of them are active
    and appends to the event log. Propositions and relations are two name spaces that may share
    identifiers, and a reference is to a name, whichever space it lives in. Confidence is in
    millionths. */
module EpisodeStore {
  import opened Wrappers
  import opened Collections

  datatype Kind =
    | Observation | Evidence | Claim | Hypothesis | Assumption
    | Question | Prediction | Test | TestResult | Decision

  datatype Proposition = Proposition(
    id: string, episode: string, kind: Kind, content: string, sourceRefs: seq<string>,
    producer: Option<string>, confidence: Option<nat>, sourceVersions: seq<string>)

  datatype Participant = Participant(refId: string, role: string)

  datatype Relation = Relation(
    id: string, episode: string, relationType: string, participants: seq<Participant>, sourceRefs: seq<string>,
    producer: Option<string>, sourceVersions: seq<string>)

  datatype EventKind =
    | PropositionAdded | PropositionRetracted | PropositionInvalidated | RelationAdded | RelationInvalidated

  datatype Event = Event(number: nat, kind: EventKind, target: string, reason: Option<string>)

  datatype Store = Store(
    id: string,
    propositions: map<string, Proposition>,
    propositionOrder: seq<string>,
    relations: map<string, Relation>,
    relationOrder: seq<string>,
    activePropositions: set<string>,
    activeRelations: set<string>,
    events: seq<Event>)

  datatype EpisodeError =
    | Malformed
    | ForeignEpisode
    | InactiveSource
    | UnavailableParticipant
    | ConflictingContent
    | SilentReactivation
    | UnknownProposition
    | AlreadyRetracted

  function Empty(id: string): Store {
    Store(id, map[], [], map[], [], {}, {}, [])
  }

  /** Every name in the store, and every name that some active object carries. */
  function Known(s: Store): set<string> {
    s.propositions.Keys + s.relations.Keys
  }

  function Active(s: Store): set<string> {
    s.activePropositions + s.activeRelations
  }

  function PropositionRefs(p: Proposition): set<string> {
    set r | r in p.sourceRefs
  }

  function ParticipantRefs(r: Relation): set<string> {
    set p | p in r.participants :: p.refId
  }

  function RelationRefs(r: Relation): set<string> {
    ParticipantRefs(r) + set ref | ref in r.sourceRefs
  }

  predicate AllText(texts: seq<string>) {
    forall t :: t in texts ==> t != ""
  }

  predicate WellFormedProposition(p: Proposition) {
    && p.id != "" && p.episode != "" && p.content != "" && p.producer != Some("")
    && AllText(p.sourceRefs) && AllText(p.sourceVersions)
  }

  predicate WellFormedRelation(r: Relation) {
    && r.id != "" && r.episode != "" && r.relationType != "" && r.producer != Some("")
    && AllText(r.sourceRefs) && AllText(r.sourceVersions)
    && forall p :: p in r.participants ==> p.refId != "" && p.role != ""
  }

  /** A reference to a canonical object must be to a current one; other strings are provenance only. */
  predicate SourcesCurrent(s: Store, refs: seq<string>) {
    forall r :: r in refs && r in Known(s) ==> r in Active(s)
  }

  function WithEvent(s: Store, kind: EventKind, target: string, reason: Option<string>): seq<Event> {
    s.events + [Event(|s.events| + 1, kind, target, reason)]
  }

  function AddProposition(s: Store, p: Proposition): Result<Store, EpisodeError> {
    if !WellFormedProposition(p) then Err(Malformed)
    else if p.episode != s.id then Err(ForeignEpisode)
    else if !SourcesCurrent(s, p.sourceRefs) then Err(InactiveSource)
    else if p.id in s.propositions then
      if s.propositions[p.id] != p then Err(ConflictingContent)
      else if p.id !in s.activePropositions then Err(SilentReactivation)
      else Ok(s)
    else Ok(s.(propositions := s.propositions[p.id := p],
               propositionOrder := s.propositionOrder + [p.id],
               activePropositions := s.activePropositions + {p.id},
               events := WithEvent(s, PropositionAdded, p.id, None)))
  }

  function AddRelation(s: Store, r: Relation): Result<Store, EpisodeError> {
    if !WellFormedRelation(r) then Err(Malformed)
    else if r.episode != s.id then Err(ForeignEpisode)
    else if !(ParticipantRefs(r) <= Active(s)) then Err(UnavailableParticipant)
    else if !SourcesCurrent(s, r.sourceRefs) then Err(InactiveSource)
    else if r.id in s.relations then
      if s.relations[r.id] != r then Err(ConflictingContent)
      else if r.id !in s.activeRelations then Err(SilentReactivation)
      else Ok(s)
    else Ok(s.(relations := s.relations[r.id := r],
               relationOrder := s.relationOrder + [r.id],
               activeRelations := s.activeRelations + {r.id},
               events := WithEvent(s, RelationAdded, r.id, None)))
  }

  /** The two name spaces kept apart. */
  datatype Node = P(id: string) | R(id: string)

  function ActiveNodes(s: Store): set<Node> {
    (set p | p in s.activePropositions :: P(p)) + (set r | r in s.activeRelations :: R(r))
  }

  predicate Stored(s: Store, n: Node) {
    match n case P(id) => id in s.propositions case R(id) => id in s.relations
  }

  function Refs(s: Store, n: Node): set<string>
    requires Stored(s, n)
  {
    match n case P(id) => PropositionRefs(s.propositions[id]) case R(id) => RelationRefs(s.relations[id])
  }

  predicate Hit(s: Store, n: Node, names: set<string>)
    requires Stored(s, n)
  {
    exists ref :: ref in Refs(s, n) && ref in names
  }

  ghost predicate ActiveStored(s: Store) {
    s.activePropositions <= s.propositions.Keys && s.activeRelations <= s.relations.Keys
  }

  function Tip(root: string, path: seq<Node>): string {
    if path == [] then root else path[|path| - 1].id
  }

  /** A chain of active objects, each naming the one before it, the first naming the retracted one. */
  ghost predicate IsChain(s: Store, root: string, path: seq<Node>)
    requires ActiveStored(s)
  {
    path == [] || (
      var n, rest := path[|path| - 1], path[..|path| - 1];
      n in ActiveNodes(s) && n != P(root) && Tip(root, rest) in Refs(s, n) && IsChain(s, root, rest))
  }

  ghost predicate ReachedBy(s: Store, root: string, n: Node, path: seq<Node>)
    requires ActiveStored(s)
  {
    |path| > 0 && path[|path| - 1] == n && IsChain(s, root, path)
  }

  ghost predicate Reached(s: Store, root: string, n: Node)
    requires ActiveStored(s)
  {
    exists path :: ReachedBy(s, root, n, path)
  }

  /** The objects that a retraction takes down with it. */
  ghost function Invalidated(s: Store, root: string): set<Node>
    requires ActiveStored(s)
  {
    set n | n in ActiveNodes(s) && Reached(s, root, n)
  }

  function Names(nodes: set<Node>): set<string> {
    set n | n in nodes :: n.id
  }

  function PropositionsOf(nodes: set<Node>): set<string> {
    set n | n in nodes && n.P? :: n.id
  }

  function RelationsOf(nodes: set<Node>): set<string> {
    set n | n in nodes && n.R? :: n.id
  }

  function DependencyReason(root: string): Option<string> {
    Some("dependency_retracted:" + root)
  }

  function InvalidationEvent(number: nat, n: Node, root: string): Event {
    Event(number, if n.P? then PropositionInvalidated else RelationInvalidated, n.id, DependencyReason(root))
  }

  /** The store after retracting `root` while the objects of `order` are invalidated in that order. */
  function RetractedStore(s: Store, root: string, reason: string, order: seq<Node>): Store {
    var first := WithEvent(s, PropositionRetracted, root, Some(reason));
    s.(activePropositions := s.activePropositions - {root} - PropositionsOf(Elements(order)),
       activeRelations := s.activeRelations - RelationsOf(Elements(order)),
       events := first + seq(|order|, i requires 0 <= i < |order| => InvalidationEvent(|first| + i + 1, order[i], root)))
  }

  /** Retraction takes down exactly the invalidated objects, in some order. */
  ghost predicate Retracts(s: Store, root: string, reason: string, t: Store)
    requires ActiveStored(s)
  {
    exists order: seq<Node> ::
      Distinct(order) && Elements(order) == Invalidated(s, root) && t == RetractedStore(s, root, reason, order)
  }

  predicate RetractRefused(s: Store, root: string, reason: string) {
    root == "" || reason == "" || root !in s.propositions || root !in s.activePropositions
  }

  /** No active object outside the set refers to the retracted name or to a name in the set. */
  ghost predicate ClosedUnder(s: Store, root: string, nodes: set<Node>)
    requires ActiveStored(s)
  {
    forall n :: n in ActiveNodes(s) && n != P(root) && Hit(s, n, {root} + Names(nodes)) ==> n in nodes
  }
}
