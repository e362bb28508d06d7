/** The SQLite repository and the in-memory reference, with the three queries they answer. */
module CoordinationRepository {
  import opened Wrappers
  import opened CoordinationLog

  function Keep(events: seq<Event>, wanted: Event -> bool): seq<Event> {
    if events == [] then []
    else Keep(events[..|events| - 1], wanted) + (if wanted(events[|events| - 1]) then [events[|events| - 1]] else [])
  }

  function ListThread(events: seq<Event>, thread: string): seq<Event> {
    Keep(events, (e: Event) => e.draft.thread == thread)
  }

  /** The target itself has acknowledged or answered the event. */
  predicate Answered(events: seq<Event>, target: string, id: string) {
    exists r :: r in events && r.draft.source == target && r.draft.acknowledges == Some(id)
  }

  predicate InInbox(events: seq<Event>, target: string, after: nat, includeAcknowledged: bool, e: Event) {
    e.draft.target == Some(target) && e.sequence > after && (includeAcknowledged || !Answered(events, target, e.id))
  }

  function InboxTest(events: seq<Event>, target: string, after: nat, includeAcknowledged: bool): Event -> bool {
    (e: Event) => InInbox(events, target, after, includeAcknowledged, e)
  }

  function Inbox(events: seq<Event>, target: string, after: nat, includeAcknowledged: bool): seq<Event> {
    Keep(events, InboxTest(events, target, after, includeAcknowledged))
  }

  function Take<T>(items: seq<T>, limit: nat): seq<T> {
    if |items| <= limit then items else items[..limit]
  }

  function ReadInbox(events: seq<Event>, target: string, after: nat, limit: nat, includeAcknowledged: bool): seq<Event> {
    Take(Inbox(events, target, after, includeAcknowledged), limit)
  }

  lemma {:induction false} KeepMembers(events: seq<Event>, wanted: Event -> bool)
    ensures forall e :: e in Keep(events, wanted) <==> e in events && wanted(e)
  {
    if events != [] {
      KeepMembers(events[..|events| - 1], wanted);
      assert events == events[..|events| - 1] + [events[|events| - 1]];
    }
  }

  /** The reader still has to see the event: it is addressed to the reader, comes after the cursor and,
      unless everything is asked for, the reader itself has acknowledged or answered it nowhere. */
  predicate Awaits(events: seq<Event>, target: string, after: nat, includeAcknowledged: bool, e: Event) {
    && e in events && e.draft.target == Some(target) && e.sequence > after
    && (includeAcknowledged || forall r :: r in events && r.draft.source == target ==> r.draft.acknowledges != Some(e.id))
  }

  /** An inbox read: as much as fits of what the reader still has to see, and all of it when there is room. */
  ghost predicate InboxAnswer(events: seq<Event>, target: string, after: nat, limit: nat, includeAcknowledged: bool, read: seq<Event>) {
    && |read| <= limit
    && (forall e :: e in read ==> Awaits(events, target, after, includeAcknowledged, e))
    && (|read| < limit ==> forall e :: Awaits(events, target, after, includeAcknowledged, e) ==> e in read)
  }

  lemma ReadAnswers(events: seq<Event>, target: string, after: nat, limit: nat, includeAcknowledged: bool)
    ensures InboxAnswer(events, target, after, limit, includeAcknowledged, ReadInbox(events, target, after, limit, includeAcknowledged))
  {
    KeepMembers(events, InboxTest(events, target, after, includeAcknowledged));
    var inbox := Inbox(events, target, after, includeAcknowledged);
    forall i | 0 <= i < |inbox| ensures inbox[i] in inbox {}
  }

  lemma {:induction false} GetThen(events: seq<Event>, e: Event, id: string)
    ensures Get(events + [e], id) == (if Get(events, id).Some? then Get(events, id) else if e.id == id then Some(e) else None)
  {
    if events != [] {
      assert (events + [e])[1..] == events[1..] + [e];
      GetThen(events[1..], e, id);
    }
  }

  ghost predicate SeenIds(events: seq<Event>, byId: map<string, Event>) {
    && (forall id :: id in byId <==> Get(events, id).Some?)
    && (forall id :: id in byId ==> Get(events, id).value == byId[id])
  }

  ghost predicate SeenSuccessors(rows: seq<Row>, succeeded: set<string>) {
    forall id :: id in succeeded <==> exists k :: 0 <= k < |rows| && rows[k].event.draft.supersedes == Some(id)
  }

  /** The running indexes of the integrity pass agree with the rows it has passed. */
  ghost predicate Seen(rows: seq<Row>, byId: map<string, Event>, succeeded: set<string>) {
    SeenIds(Events(rows), byId) && SeenSuccessors(rows, succeeded)
  }

  predicate SeenWithin(byId: map<string, Event>, ref: Option<string>, thread: string) {
    ref.Some? ==> ref.value in byId && byId[ref.value].draft.thread == thread
  }

  lemma SeenDecides(rows: seq<Row>, i: nat, byId: map<string, Event>, succeeded: set<string>)
    requires i < |rows| && Seen(rows[..i], byId, succeeded)
    ensures var e := rows[i].event;
            && (e.id in byId <==> exists k :: 0 <= k < i && rows[k].event.id == e.id)
            && (SeenWithin(byId, e.draft.acknowledges, e.draft.thread) <==>
                  RefersWithin(Events(rows[..i]), e.draft.acknowledges, e.draft.thread))
            && (SeenWithin(byId, e.draft.supersedes, e.draft.thread) <==>
                  RefersWithin(Events(rows[..i]), e.draft.supersedes, e.draft.thread))
            && (e.draft.supersedes.Some? ==>
                  (e.draft.supersedes.value in succeeded <==> exists k :: 0 <= k < i && rows[k].event.draft.supersedes == e.draft.supersedes))
  {
    var before := Events(rows[..i]);
    assert forall k :: 0 <= k < i ==> before[k] == rows[k].event && before[k] in before;
    assert forall x :: x in before ==> exists k :: 0 <= k < i && rows[k].event == x;
  }

  lemma SeenMoreIds(events: seq<Event>, byId: map<string, Event>, e: Event)
    requires SeenIds(events, byId) && e.id !in byId
    ensures SeenIds(events + [e], byId[e.id := e])
  {
    forall id
      ensures Get(events + [e], id) == (if Get(events, id).Some? then Get(events, id) else if e.id == id then Some(e) else None)
    {
      GetThen(events, e, id);
    }
  }

  lemma SeenMoreSuccessors(rows: seq<Row>, row: Row, succeeded: set<string>)
    requires SeenSuccessors(rows, succeeded)
    ensures var ref := row.event.draft.supersedes;
            SeenSuccessors(rows + [row], if ref.Some? then succeeded + {ref.value} else succeeded)
  {
    var more := rows + [row];
    assert more[|rows|] == row && forall k :: 0 <= k < |rows| ==> more[k] == rows[k];
  }

  lemma SeenMore(rows: seq<Row>, i: nat, byId: map<string, Event>, succeeded: set<string>)
    requires i < |rows| && Seen(rows[..i], byId, succeeded) && rows[i].event.id !in byId
    ensures var e := rows[i].event;
            Seen(rows[..i + 1], byId[e.id := e],
                 if e.draft.supersedes.Some? then succeeded + {e.draft.supersedes.value} else succeeded)
  {
    assert rows[..i + 1] == rows[..i] + [rows[i]];
    EventsThen(rows[..i], rows[i]);
    SeenMoreIds(Events(rows[..i]), byId, rows[i].event);
    SeenMoreSuccessors(rows[..i], rows[i], succeeded);
  }

  /** Where the integrity pass stands after `i` rows that it found in order. */
  ghost predicate Passed(h: Hash, rows: seq<Row>, i: nat, head: string, byId: map<string, Event>, succeeded: set<string>) {
    i <= |rows| && RowsOkTo(h, rows, i) && head == PredecessorOf(h, rows, i) && Seen(rows[..i], byId, succeeded)
  }

  lemma PassAdvances(h: Hash, rows: seq<Row>, i: nat, head: string, byId: map<string, Event>, succeeded: set<string>)
    requires Passed(h, rows, i, head, byId, succeeded) && i < |rows| && RowOk(h, rows, i)
    ensures var e := rows[i].event;
            Passed(h, rows, i + 1, rows[i].digest, byId[e.id := e],
                   if e.draft.supersedes.Some? then succeeded + {e.draft.supersedes.value} else succeeded)
  {
    SeenDecides(rows, i, byId, succeeded);
    SeenMore(rows, i, byId, succeeded);
    OneMoreRowOk(h, rows, i);
  }

  class SqliteRepository {
    const h: Hash
    var table: Table

    constructor (h: Hash)
      ensures this.h == h && table == EmptyTable(h) && Intact(h, table)
    {
      this.h := h;
      table := EmptyTable(h);
    }

    method Post(draft: Draft, time: Moment) returns (r: Result<Event, RepositoryError>)
      modifies this
      ensures match Append(h, old(table), draft, time)
              case Ok(after) => table == after && r == Ok(after.rows[|after.rows| - 1].event)
              case Err(error) => table == old(table) && r == Err(error)
    {
      if !DraftValid(draft) { return Err(InvalidDraft); }
      var events := Events(table.rows);
      if !RefersWithin(events, draft.acknowledges, draft.thread) { return Err(Conflict); }
      if draft.supersedes.Some? {
        if draft.supersedes == draft.acknowledges { return Err(Conflict); }
        if !RefersWithin(events, draft.supersedes, draft.thread) { return Err(Conflict); }
      }
      var sequence := table.sequence + 1;
      var event := Event(EventId(h, sequence, draft), sequence, draft, time);
      var digest := h(Link(table.head, event));
      var row := Row(event, table.head, digest);
      assert row == Next(h, table, draft, time);
      if !Insertable(table.rows, row) { return Err(Conflict); }
      table := Table(table.rows + [row], sequence, digest);
      return Ok(event);
    }

    /** The checks on one row, against what the pass has seen before it. */
    method CheckRow(i: nat, predecessor: string, byId: map<string, Event>, succeeded: set<string>) returns (ok: bool)
      requires i < |table.rows| && Passed(h, table.rows, i, predecessor, byId, succeeded)
      ensures ok <==> RowOk(h, table.rows, i)
    {
      var row, e := table.rows[i], table.rows[i].event;
      SeenDecides(table.rows, i, byId, succeeded);
      if e.sequence != i + 1 || row.predecessor != predecessor { return false; }
      if !Decodes(e) || e.id in byId { return false; }
      if EventId(h, e.sequence, e.draft) != e.id { return false; }
      if !SeenWithin(byId, e.draft.acknowledges, e.draft.thread) { return false; }
      if e.draft.supersedes.Some? {
        if !SeenWithin(byId, e.draft.supersedes, e.draft.thread) { return false; }
        if e.draft.supersedes.value in succeeded { return false; }
      }
      ok := h(Link(predecessor, e)) == row.digest;
    }

    /** One pass over the rows with the events and the superseded identities seen so far. */
    method VerifyRows() returns (ok: bool, head: string)
      ensures ok <==> RowsOk(h, table.rows)
      ensures ok ==> head == PredecessorOf(h, table.rows, |table.rows|)
    {
      head := h(Genesis);
      var byId: map<string, Event> := map[];
      var succeeded: set<string> := {};
      for i := 0 to |table.rows|
        invariant Passed(h, table.rows, i, head, byId, succeeded)
      {
        ok := CheckRow(i, head, byId, succeeded);
        if !ok { return; }
        var e := table.rows[i].event;
        PassAdvances(h, table.rows, i, head, byId, succeeded);
        head, byId := table.rows[i].digest, byId[e.id := e];
        succeeded := if e.draft.supersedes.Some? then succeeded + {e.draft.supersedes.value} else succeeded;
      }
      ok := true;
    }

    method VerifyIntegrity() returns (ok: bool)
      ensures ok <==> Intact(h, table)
    {
      var head;
      ok, head := VerifyRows();
      ok := ok && table.sequence == |table.rows| && table.head == head;
    }

    /** Every query checks the whole log first and answers nothing from a log that fails. */
    method Lookup(id: string) returns (r: Option<Option<Event>>)
      ensures r == if Intact(h, table) then Some(Get(Events(table.rows), id)) else None
    {
      var ok := VerifyIntegrity();
      r := if ok then Some(Get(Events(table.rows), id)) else None;
    }

    method Thread(thread: string) returns (r: Option<seq<Event>>)
      ensures r == if Intact(h, table) then Some(ListThread(Events(table.rows), thread)) else None
      ensures r.Some? ==> forall e :: e in r.value <==> e in Events(table.rows) && e.draft.thread == thread
    {
      KeepMembers(Events(table.rows), (e: Event) => e.draft.thread == thread);
      var ok := VerifyIntegrity();
      r := if ok then Some(ListThread(Events(table.rows), thread)) else None;
    }

    method Read(target: string, after: nat, limit: nat, includeAcknowledged: bool) returns (r: Option<seq<Event>>)
      ensures r == if Intact(h, table) then Some(ReadInbox(Events(table.rows), target, after, limit, includeAcknowledged)) else None
      ensures r.Some? ==> InboxAnswer(Events(table.rows), target, after, limit, includeAcknowledged, r.value)
    {
      ReadAnswers(Events(table.rows), target, after, limit, includeAcknowledged);
      var ok := VerifyIntegrity();
      r := if ok then Some(ReadInbox(Events(table.rows), target, after, limit, includeAcknowledged)) else None;
    }
  }

  class InMemoryRepository {
    const h: Hash
    const clock: nat -> string
    var events: seq<Event>

    constructor (h: Hash, clock: nat -> string)
      ensures this.h == h && this.clock == clock && events == []
    {
      this.h, this.clock, events := h, clock, [];
    }

    method Post(draft: Draft) returns (r: Result<Event, RepositoryError>)
      modifies this
      ensures if DraftValid(draft)
              then events == Remember(h, clock, old(events), draft) && r == Ok(events[|events| - 1])
              else events == old(events) && r == Err(InvalidDraft)
    {
      if !DraftValid(draft) { return Err(InvalidDraft); }
      var sequence := |events| + 1;
      var event := Event(EventId(h, sequence, draft), sequence, draft, clock(sequence));
      events := events + [event];
      return Ok(event);
    }

    /** The set of answered identities first, then one filtering pass. */
    method Read(target: string, after: nat, limit: nat, includeAcknowledged: bool) returns (r: seq<Event>)
      ensures r == ReadInbox(events, target, after, limit, includeAcknowledged)
      ensures InboxAnswer(events, target, after, limit, includeAcknowledged, r)
    {
      ReadAnswers(events, target, after, limit, includeAcknowledged);
      var answered := set e | e in events && e.draft.source == target && e.draft.acknowledges.Some? :: e.draft.acknowledges.value;
      var wanted := InboxTest(events, target, after, includeAcknowledged);
      var kept: seq<Event> := [];
      for i := 0 to |events|
        invariant kept == Keep(events[..i], wanted)
      {
        var e := events[i];
        assert events[..i + 1][..i] == events[..i];
        assert e.id in answered <==> Answered(events, target, e.id);
        if e.draft.target == Some(target) && e.sequence > after && (includeAcknowledged || e.id !in answered) {
          kept := kept + [e];
        }
      }
      assert events[..|events|] == events;
      r := Take(kept, limit);
    }
  }

  /** Appending in memory: no constraint beyond a valid draft. */
  function Remember(h: Hash, clock: nat -> string, events: seq<Event>, draft: Draft): seq<Event> {
    events + [Event(EventId(h, |events| + 1, draft), |events| + 1, draft, clock(|events| + 1))]
  }
}
