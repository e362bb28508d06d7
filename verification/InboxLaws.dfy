/** What the requests of a bus do to an inbox: others can only add to it, and its owner takes out exactly
    what it answers. */
module InboxLaws {
  import opened Wrappers
  import opened CoordinationLog
  import opened CoordinationRepository
  import opened CoordinationBus

  /** The request appended this draft. */
  ghost predicate Posts(h: Hash, t: Table, r: Request, t': Table, d: Draft) {
    && Prepare(Events(t.rows), r.actor, r.op) == Ok(d) && Append(h, t, d, r.time) == Ok(t')
    && Events(t'.rows) == Events(t.rows) + [Next(h, t, d, r.time).event]
  }

  lemma StepPosts(h: Hash, t: Table, r: Request) returns (d: Draft)
    requires SqliteStep(h, t, r).1.None?
    ensures Posts(h, t, r, SqliteStep(h, t, r).0, d) && d.source == r.actor.workstream
  {
    d := Prepare(Events(t.rows), r.actor, r.op).value;
    EventsThen(t.rows, Next(h, t, d, r.time));
  }

  /** A refused request changes nothing. */
  lemma RefusedChangesNothing(h: Hash, t: Table, r: Request)
    requires SqliteStep(h, t, r).1.Some?
    ensures SqliteStep(h, t, r).0 == t
  {
  }

  /** One accepted request: an event awaits the target afterwards if it did before and the request is not the
      target's own answer to it, or if it is the new event, addressed to the target. */
  lemma AwaitsAfter(h: Hash, t: Table, r: Request, d: Draft, target: string, after: nat, e: Event)
    requires Posts(h, t, r, SqliteStep(h, t, r).0, d) && d.source == r.actor.workstream && e in Events(t.rows)
    ensures Awaits(Events(SqliteStep(h, t, r).0.rows), target, after, false, e) <==>
            Awaits(Events(t.rows), target, after, false, e) && !(r.actor.workstream == target && d.acknowledges == Some(e.id))
  {
    var events, new_ := Events(t.rows), Next(h, t, d, r.time).event;
    assert forall x :: x in events + [new_] <==> x in events || x == new_;
  }

  /** What another workstream does, whatever it acknowledges, removes nothing from the target's inbox. */
  lemma OthersRemoveNothing(h: Hash, t: Table, r: Request, target: string, after: nat, e: Event)
    requires r.actor.workstream != target && Awaits(Events(t.rows), target, after, false, e)
    ensures Awaits(Events(SqliteStep(h, t, r).0.rows), target, after, false, e)
  {
    if SqliteStep(h, t, r).1.None? {
      var d := StepPosts(h, t, r);
      AwaitsAfter(h, t, r, d, target, after, e);
    }
  }

  /** The target's own acknowledgement removes the event it names and no other. */
  lemma OwnAcknowledgementRemovesOne(h: Hash, t: Table, r: Request, id: string, summary: string, payload: string, after: nat, e: Event)
    requires r.op == Acknowledge(id, summary, payload) && SqliteStep(h, t, r).1.None?
    requires Awaits(Events(t.rows), r.actor.workstream, after, false, e)
    ensures Awaits(Events(SqliteStep(h, t, r).0.rows), r.actor.workstream, after, false, e) <==> e.id != id
  {
    var d := StepPosts(h, t, r);
    AcknowledgesNamed(Events(t.rows), r.actor, id, summary, payload, d);
    AwaitsAfter(h, t, r, d, r.actor.workstream, after, e);
  }

  lemma AcknowledgesNamed(events: seq<Event>, actor: Actor, id: string, summary: string, payload: string, d: Draft)
    requires Prepare(events, actor, Acknowledge(id, summary, payload)) == Ok(d)
    ensures d.acknowledges == Some(id) && d.eventType == Acknowledgement
  {
  }
}
