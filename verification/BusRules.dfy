/** Who may put what on the bus, in terms of the actor, the draft and the events that are there. */
module BusRules {
  import opened Wrappers
  import opened CoordinationLog
  import opened CoordinationRepository
  import opened CoordinationBus

  /** The kinds of event and the progress each may report. */
  const ALLOWED_PAIRS: set<(EventType, Progress)> := {
    (Status, InDraft), (Status, ReadyForReview), (Status, InProgress), (Status, Blocked), (Status, Degraded), (Status, Cancelled),
    (Issue, ReadyForReview), (Issue, Blocked), (Issue, Degraded), (Acknowledgement, Acknowledged),
    (Review, ReadyForReview), (Review, ChangesRequested), (Review, Approved),
    (Decision, Approved), (Decision, Progress.Cancelled), (Resolution, Resolved), (Resolution, Progress.Cancelled)}

  lemma PairsAre(eventType: EventType, progress: Progress)
    ensures Pairs(eventType, progress) <==> (eventType, progress) in ALLOWED_PAIRS
  {
  }

  /** Every row of an intact table is numbered by its place, linked to the row before by digest, named by
      the digest of its draft, and says something in every field that decoding looks at. */
  lemma StoredRowsAre(h: Hash, t: Table, i: nat)
    requires Intact(h, t) && i < |t.rows|
    ensures var row, e := t.rows[i], t.rows[i].event;
            && e.sequence == i + 1 && row.predecessor == (if i == 0 then h(Genesis) else t.rows[i - 1].digest)
            && row.digest == h(Link(row.predecessor, e)) && e.id == h(Identity(i + 1, e.draft))[..32]
            && e.recordTime != "" && e.draft.thread != "" && e.draft.objective != "" && e.draft.summary != ""
            && 1 <= |e.draft.source| <= 256 && (e.draft.target != None ==> 1 <= |e.draft.target.value| <= 256)
            && (e.draft.eventType, e.draft.progress) in ALLOWED_PAIRS
    ensures forall k :: 0 <= k < i ==>
              t.rows[k].event.id != t.rows[i].event.id
              && (t.rows[i].event.draft.supersedes != None ==> t.rows[k].event.draft.supersedes != t.rows[i].event.draft.supersedes)
  {
    assert RowOk(h, t.rows, i);
    PairsAre(t.rows[i].event.draft.eventType, t.rows[i].event.draft.progress);
  }

  /** An accepted draft is the actor's own, and an answer answers an event of its own thread. */
  ghost predicate Proper(events: seq<Event>, actor: Actor, d: Draft) {
    && d.source == actor.workstream
    && (d.acknowledges.Some? ==> exists o :: o in events && d.acknowledges == Some(o.id) && o.draft.thread == d.thread)
    && (d.supersedes.Some? ==> exists o :: o in events && d.supersedes == Some(o.id) && o.draft.thread == d.thread)
    && (d.supersedes.Some? ==> d.supersedes != d.acknowledges)
  }

  /** What each kind of event takes: a permission, and for answers the right standing towards an event `o`. */
  ghost predicate Entitled(events: seq<Event>, actor: Actor, d: Draft) {
    match d.eventType
    case Decision => false
    case Acknowledgement =>
      MayAcknowledge in actor.permissions
      && exists o :: o in events && d.acknowledges == Some(o.id) && o.draft.target == Some(actor.workstream) && d.target == Some(o.draft.source)
    case Review =>
      MayReview in actor.permissions
      && exists o :: o in events && d.acknowledges == Some(o.id) && o.draft.target == Some(actor.workstream) && d.target == Some(o.draft.source)
    case Resolution =>
      MayResolve in actor.permissions
      && exists o :: o in events && d.acknowledges == Some(o.id) && Resolves(actor, o, d)
    case Issue => MayPost in actor.permissions
    case Status => MayPost in actor.permissions || MayPublish in actor.permissions || MayReview in actor.permissions
  }

  /** One of the two parties resolves, and tells the other one, if there is one. */
  predicate Resolves(actor: Actor, o: Event, d: Draft) {
    || (actor.workstream == o.draft.source && d.target == o.draft.target)
    || (Some(actor.workstream) == o.draft.target && actor.workstream != o.draft.source && d.target == Some(o.draft.source))
  }

  lemma LineageProper(events: seq<Event>, actor: Actor, d: Draft)
    requires d.source == actor.workstream && Lineage(events, d).None?
    ensures Proper(events, actor, d)
  {
    if d.acknowledges.Some? { assert AcknowledgedFault(events, d).None?; }
    if d.supersedes.Some? { assert SupersededFault(events, d).None?; }
  }

  lemma DraftedEntitled(events: seq<Event>, actor: Actor, op: Operation)
    requires Drafted(events, actor, op).Ok? && DraftValid(Drafted(events, actor, op).value)
    ensures Entitled(events, actor, Drafted(events, actor, op).value)
  {
  }

  /** Everything that any command of the bus gets through is proper, its author was entitled to it, and no
      decision ever gets through. */
  lemma AcceptedIsEntitled(events: seq<Event>, actor: Actor, op: Operation)
    requires Prepare(events, actor, op).Ok?
    ensures var d := Prepare(events, actor, op).value;
            Proper(events, actor, d) && Entitled(events, actor, d) && d.eventType != Decision
  {
    DraftedEntitled(events, actor, op);
    LineageProper(events, actor, Prepare(events, actor, op).value);
  }

  ghost predicate UniqueIds(events: seq<Event>) {
    forall a, b :: a in events && b in events && a.id == b.id ==> a == b
  }

  lemma FoundIs(events: seq<Event>, o: Event)
    requires UniqueIds(events) && o in events && o.id != ""
    ensures Find(events, o.id) == Ok(o)
  {
  }

  /** Whoever is addressed by an event and may acknowledge can do so, with any summary, as long as the
      sender's name is still in use. */
  lemma AddresseeMayAcknowledge(events: seq<Event>, actor: Actor, o: Event, summary: string, payload: string)
    requires UniqueIds(events) && o in events && o.id != "" && DraftDecodes(o.draft)
    requires o.draft.target == Some(actor.workstream) && MayAcknowledge in actor.permissions && summary != ""
    requires actor.workstream in WORKSTREAMS && o.draft.source in WORKSTREAMS
    ensures Prepare(events, actor, Acknowledge(o.id, summary, payload)) ==
            Ok(Draft(o.draft.thread, actor.workstream, Some(o.draft.source), Acknowledgement, Acknowledged, o.draft.objective,
                     summary, None, None, payload, None, Some(o.id)))
  {
    FoundIs(events, o);
  }

  /** Nobody in the thread has superseded that event yet. */
  ghost predicate NotSucceeded(events: seq<Event>, d: Draft) {
    forall e :: e in events && e.draft.thread == d.thread && d.supersedes.Some? ==> e.draft.supersedes != d.supersedes
  }

  lemma LineageIff(events: seq<Event>, actor: Actor, d: Draft)
    requires UniqueIds(events) && d.source == actor.workstream && d.acknowledges != Some("") && d.supersedes != Some("")
    ensures Lineage(events, d).None? <==> Proper(events, actor, d) && NotSucceeded(events, d)
  {
    KeepMembers(events, (e: Event) => e.draft.thread == d.thread);
    if Lineage(events, d).None? { LineageProper(events, actor, d); }
    if Proper(events, actor, d) && d.acknowledges.Some? {
      var o :| o in events && d.acknowledges == Some(o.id) && o.draft.thread == d.thread;
      FoundIs(events, o);
    }
    if Proper(events, actor, d) && d.supersedes.Some? {
      var o :| o in events && d.supersedes == Some(o.id) && o.draft.thread == d.thread;
      FoundIs(events, o);
    }
  }

  /** A status or an issue is posted exactly when its draft is valid and the actor's own, the actor may
      post, its references stay in their thread, and nobody has superseded the same event. */
  lemma PostIff(events: seq<Event>, actor: Actor, d: Draft)
    requires UniqueIds(events) && (d.eventType == Status || d.eventType == Issue)
    ensures Prepare(events, actor, Post(d)).Ok? <==>
            DraftValid(d) && MayPost in actor.permissions && Proper(events, actor, d) && NotSucceeded(events, d)
  {
    if DraftValid(d) && d.source == actor.workstream { LineageIff(events, actor, d); }
  }
}
