/** The digest-chained coordination log: appending to it, checking it, and what the check proves.

    The hash is an arbitrary function from structured bodies to strings of 64 characters; event
    identities are its first 32 characters. Nothing here assumes that it has no collisions: either a statement does not
    need that, or it says "or there is a collision". */
module CoordinationLog {
  import opened Wrappers
  import opened Collections

  datatype EventType = Status | Issue | Acknowledgement | Review | Decision | Resolution

  datatype Progress =
    | InDraft | ReadyForReview | InProgress | Blocked | Degraded
    | Acknowledged | ChangesRequested | Approved | Resolved | Cancelled

  /** Which progress goes with which kind of event. */
  predicate Pairs(eventType: EventType, progress: Progress) {
    match eventType
    case Status => progress in {InDraft, ReadyForReview, InProgress, Blocked, Degraded, Cancelled}
    case Issue => progress in {ReadyForReview, Blocked, Degraded}
    case Acknowledgement => progress == Acknowledged
    case Review => progress in {ReadyForReview, ChangesRequested, Approved}
    case Decision => progress in {Approved, Cancelled}
    case Resolution => progress in {Resolved, Cancelled}
  }

  const WORKSTREAMS: set<string> := {
    "workstream/memory", "workstream/time", "workstream/initiatives", "workstream/integration",
    "workstream/coordination", "workstream/identity", "workstream/project-architecture", "workstream/github-repo"}

  /** An event before it is stored. `payload` stands for the payload and the reference data. */
  datatype Draft = Draft(
    thread: string, source: string, target: Option<string>, eventType: EventType, progress: Progress,
    objective: string, summary: string, issue: Option<string>, perspective: Option<string>, payload: string,
    supersedes: Option<string>, acknowledges: Option<string>)

  datatype Event = Event(id: string, sequence: nat, draft: Draft, recordTime: string)

  datatype HashBody =
    | Genesis
    | Identity(sequence: nat, draft: Draft)
    | Link(predecessor: string, event: Event)

  /** A digest is 64 characters long; nothing else is known of it. */
  type Hex = s: string | |s| == 64 witness seq(64, _ => '0')

  type Hash = HashBody -> Hex

  /** A moment of recording, as text. */
  type Moment = s: string | s != "" witness "0"

  datatype Row = Row(event: Event, predecessor: string, digest: string)

  datatype Table = Table(rows: seq<Row>, sequence: nat, head: string)

  datatype RepositoryError = InvalidDraft | Conflict

  /** What a new draft must be. */
  predicate DraftValid(d: Draft) {
    && d.thread != "" && d.source in WORKSTREAMS && (d.target.Some? ==> d.target.value in WORKSTREAMS)
    && Pairs(d.eventType, d.progress) && d.objective != "" && d.summary != ""
    && d.issue != Some("") && d.perspective != Some("") && d.supersedes != Some("") && d.acknowledges != Some("")
    && (d.eventType.Acknowledgement? || d.eventType.Review? || d.eventType.Resolution? ==> d.acknowledges.Some?)
    && (d.eventType.Issue? ==> d.issue.Some?)
    && (d.eventType.Review? ==> d.perspective.None?)
  }

  /** A stored address may be a name that is no longer in use. */
  predicate Address(a: string) {
    1 <= |a| <= 256
  }

  /** What decoding asks of the fields of a stored event. */
  predicate DraftDecodes(d: Draft) {
    && d.thread != "" && Address(d.source) && (d.target.Some? ==> Address(d.target.value))
    && Pairs(d.eventType, d.progress) && d.objective != "" && d.summary != ""
  }

  predicate Decodes(e: Event) {
    e.id != "" && e.sequence > 0 && e.recordTime != "" && DraftDecodes(e.draft)
  }

  lemma ValidDecodes(d: Draft)
    requires DraftValid(d)
    ensures DraftDecodes(d)
  {
    assert forall w :: w in WORKSTREAMS ==> Address(w);
  }

  function EventId(h: Hash, sequence: nat, draft: Draft): (id: string)
    ensures |id| == 32
  {
    h(Identity(sequence, draft))[..32]
  }

  function Events(rows: seq<Row>): seq<Event> {
    seq(|rows|, i requires 0 <= i < |rows| => rows[i].event)
  }

  /** The first event with an identity. */
  function Get(events: seq<Event>, id: string): (r: Option<Event>)
    ensures r.Some? ==> r.value in events && r.value.id == id
    ensures r.None? <==> forall e :: e in events ==> e.id != id
  {
    if events == [] then None
    else if events[0].id == id then Some(events[0])
    else Get(events[1..], id)
  }

  /** A reference, if any, names a stored event of the same thread. */
  predicate RefersWithin(events: seq<Event>, ref: Option<string>, thread: string) {
    ref.Some? ==> Get(events, ref.value).Some? && Get(events, ref.value).value.draft.thread == thread
  }

  function Next(h: Hash, t: Table, draft: Draft, time: Moment): Row {
    var event := Event(EventId(h, t.sequence + 1, draft), t.sequence + 1, draft, time);
    Row(event, t.head, h(Link(t.head, event)))
  }

  /** The uniqueness constraints of the table: sequence, identity, digest and at most one successor. */
  predicate Insertable(rows: seq<Row>, row: Row) {
    forall r :: r in rows ==>
      && r.event.sequence != row.event.sequence && r.event.id != row.event.id && r.digest != row.digest
      && (row.event.draft.supersedes.Some? ==> r.event.draft.supersedes != row.event.draft.supersedes)
  }

  function Append(h: Hash, t: Table, draft: Draft, time: Moment): Result<Table, RepositoryError> {
    var events := Events(t.rows);
    if !DraftValid(draft) then Err(InvalidDraft)
    else if !RefersWithin(events, draft.acknowledges, draft.thread) then Err(Conflict)
    else if draft.supersedes.Some? && draft.supersedes == draft.acknowledges then Err(Conflict)
    else if !RefersWithin(events, draft.supersedes, draft.thread) then Err(Conflict)
    else
      var row := Next(h, t, draft, time);
      if !Insertable(t.rows, row) then Err(Conflict) else Ok(Table(t.rows + [row], row.event.sequence, row.digest))
  }

  function EmptyTable(h: Hash): Table {
    Table([], 0, h(Genesis))
  }

  function PredecessorOf(h: Hash, rows: seq<Row>, i: nat): string
    requires i <= |rows|
  {
    if i == 0 then h(Genesis) else rows[i - 1].digest
  }

  /** One row agrees with the rows before it. */
  ghost predicate RowOk(h: Hash, rows: seq<Row>, i: nat)
    requires i < |rows|
  {
    var e := rows[i].event;
    var before := Events(rows[..i]);
    && e.sequence == i + 1 && Decodes(e)
    && rows[i].predecessor == PredecessorOf(h, rows, i)
    && rows[i].digest == h(Link(rows[i].predecessor, e))
    && e.id == EventId(h, e.sequence, e.draft)
    && (forall k :: 0 <= k < i ==> rows[k].event.id != e.id)
    && RefersWithin(before, e.draft.acknowledges, e.draft.thread)
    && RefersWithin(before, e.draft.supersedes, e.draft.thread)
    && (e.draft.supersedes.Some? ==> forall k :: 0 <= k < i ==> rows[k].event.draft.supersedes != e.draft.supersedes)
  }

  ghost predicate RowsOk(h: Hash, rows: seq<Row>) {
    RowsOkTo(h, rows, |rows|)
  }

  ghost predicate RowsOkTo(h: Hash, rows: seq<Row>, n: nat)
    requires n <= |rows|
  {
    forall i :: 0 <= i < n ==> RowOk(h, rows, i)
  }

  lemma OneMoreRowOk(h: Hash, rows: seq<Row>, n: nat)
    requires n < |rows| && RowsOkTo(h, rows, n) && RowOk(h, rows, n)
    ensures RowsOkTo(h, rows, n + 1)
  {
  }

  lemma EventsThen(rows: seq<Row>, row: Row)
    ensures Events(rows + [row]) == Events(rows) + [row.event]
  {
  }

  ghost predicate Intact(h: Hash, t: Table) {
    RowsOk(h, t.rows) && t.sequence == |t.rows| && t.head == PredecessorOf(h, t.rows, |t.rows|)
  }

  lemma RowOkPrefix(h: Hash, rows: seq<Row>, more: seq<Row>, i: nat)
    requires i < |rows| && rows <= more
    ensures RowOk(h, rows, i) <==> RowOk(h, more, i)
  {
    assert rows[..i] == more[..i];
  }

  lemma NewRowOk(h: Hash, t: Table, draft: Draft, time: Moment)
    requires Intact(h, t) && Append(h, t, draft, time).Ok?
    ensures RowOk(h, Append(h, t, draft, time).value.rows, |t.rows|)
  {
    var rows := Append(h, t, draft, time).value.rows;
    assert rows[..|t.rows|] == t.rows;
    assert forall k :: 0 <= k < |t.rows| ==> t.rows[k] in t.rows;
    ValidDecodes(draft);
  }

  /** Every append keeps the log intact, whatever the hash is. */
  lemma AppendKeepsIntact(h: Hash, t: Table, draft: Draft, time: Moment)
    requires Intact(h, t) && Append(h, t, draft, time).Ok?
    ensures Intact(h, Append(h, t, draft, time).value)
  {
    var t' := Append(h, t, draft, time).value;
    NewRowOk(h, t, draft, time);
    forall i | 0 <= i < |t.rows| ensures RowOk(h, t'.rows, i) {
      RowOkPrefix(h, t.rows, t'.rows, i);
    }
  }

  /** The table built by appending the given drafts at the given times; refused drafts change nothing. */
  function Build(h: Hash, posts: seq<(Draft, Moment)>): Table {
    if posts == [] then EmptyTable(h)
    else
      var t := Build(h, posts[..|posts| - 1]);
      var (draft, time) := posts[|posts| - 1];
      match Append(h, t, draft, time) case Ok(t') => t' case Err(_) => t
  }

  /** The integrity check accepts every history that appending can build. */
  lemma {:induction false} BuiltIsIntact(h: Hash, posts: seq<(Draft, Moment)>)
    ensures Intact(h, Build(h, posts))
  {
    if posts != [] {
      var rest := posts[..|posts| - 1];
      BuiltIsIntact(h, rest);
      var (draft, time) := posts[|posts| - 1];
      if Append(h, Build(h, rest), draft, time).Ok? {
        AppendKeepsIntact(h, Build(h, rest), draft, time);
      }
    }
  }

  /** What appending demands and the integrity check does not look at: a draft that would be accepted
      today, and two different references for the two roles. */
  predicate RowPostable(row: Row) {
    DraftValid(row.event.draft) && (row.event.draft.supersedes.Some? ==> row.event.draft.supersedes != row.event.draft.acknowledges)
  }

  ghost predicate Postable(rows: seq<Row>) {
    forall i :: 0 <= i < |rows| ==> RowPostable(rows[i])
  }

  /** The digest column is unique, so this holds of every stored table. */
  ghost predicate UniqueDigests(rows: seq<Row>) {
    forall i, j :: 0 <= i < j < |rows| ==> rows[i].digest != rows[j].digest
  }

  function Posts(rows: seq<Row>): seq<(Draft, Moment)>
    requires forall i :: 0 <= i < |rows| ==> rows[i].event.recordTime != ""
  {
    seq(|rows|, i requires 0 <= i < |rows| => (rows[i].event.draft, rows[i].event.recordTime))
  }

  /** The table without its last row. */
  function Shortened(h: Hash, t: Table): Table
    requires t.rows != []
  {
    var n := |t.rows| - 1;
    Table(t.rows[..n], n, PredecessorOf(h, t.rows, n))
  }

  lemma ShortenedIntact(h: Hash, t: Table)
    requires Intact(h, t) && t.rows != []
    ensures Intact(h, Shortened(h, t))
  {
    var rest := t.rows[..|t.rows| - 1];
    forall i | 0 <= i < |rest| ensures RowOk(h, rest, i) {
      RowOkPrefix(h, rest, t.rows, i);
    }
  }

  lemma LastRowInsertable(h: Hash, rows: seq<Row>)
    requires RowsOk(h, rows) && rows != [] && UniqueDigests(rows)
    ensures Insertable(rows[..|rows| - 1], rows[|rows| - 1])
  {
    var n := |rows| - 1;
    assert RowOk(h, rows, n);
    forall r | r in rows[..n]
      ensures r.event.sequence != rows[n].event.sequence && r.event.id != rows[n].event.id && r.digest != rows[n].digest
      ensures rows[n].event.draft.supersedes.Some? ==> r.event.draft.supersedes != rows[n].event.draft.supersedes
    {
      var k :| 0 <= k < n && rows[k] == r;
      assert RowOk(h, rows, k);
    }
  }

  lemma LastRowIsNext(h: Hash, t: Table)
    requires Intact(h, t) && t.rows != []
    ensures var row := t.rows[|t.rows| - 1];
            && row.event.recordTime != ""
            && Next(h, Shortened(h, t), row.event.draft, row.event.recordTime) == row
            && t == Table(Shortened(h, t).rows + [row], row.event.sequence, row.digest)
  {
    assert RowOk(h, t.rows, |t.rows| - 1);
    LastSplits(t.rows);
  }

  lemma LastRowRefers(h: Hash, rows: seq<Row>, n: nat)
    requires n < |rows| && RowsOk(h, rows)
    ensures var d := rows[n].event.draft;
            RefersWithin(Events(rows[..n]), d.acknowledges, d.thread) && RefersWithin(Events(rows[..n]), d.supersedes, d.thread)
  {
    assert RowOk(h, rows, n);
  }

  lemma RowTimed(h: Hash, rows: seq<Row>)
    requires RowsOk(h, rows)
    ensures forall i :: 0 <= i < |rows| ==> rows[i].event.recordTime != ""
  {
    forall i | 0 <= i < |rows| ensures rows[i].event.recordTime != "" {
      assert RowOk(h, rows, i);
    }
  }

  /** Appending the draft of the last row again gives back the table. */
  lemma LastRowAppends(h: Hash, t: Table)
    requires Intact(h, t) && Postable(t.rows) && UniqueDigests(t.rows) && t.rows != []
    ensures var row := t.rows[|t.rows| - 1];
            row.event.recordTime != "" && Append(h, Shortened(h, t), row.event.draft, row.event.recordTime) == Ok(t)
  {
    RowTimed(h, t.rows);
    LastRowInsertable(h, t.rows);
    LastRowRefers(h, t.rows, |t.rows| - 1);
    LastRowIsNext(h, t);
    assert RowPostable(t.rows[|t.rows| - 1]);
  }

  /** Conversely, an accepted history whose drafts could have been posted is one that appending builds. */
  lemma {:induction false} IntactIsBuilt(h: Hash, t: Table)
    requires Intact(h, t) && Postable(t.rows) && UniqueDigests(t.rows)
    ensures forall i :: 0 <= i < |t.rows| ==> t.rows[i].event.recordTime != ""
    ensures Build(h, Posts(t.rows)) == t
    decreases |t.rows|
  {
    RowTimed(h, t.rows);
    if t.rows != [] {
      ShortenedIntact(h, t);
      ShortenedPostable(h, t);
      IntactIsBuilt(h, Shortened(h, t));
      LastRowAppends(h, t);
      assert Posts(t.rows)[..|t.rows| - 1] == Posts(Shortened(h, t).rows);
    }
  }

  lemma ShortenedPostable(h: Hash, t: Table)
    requires t.rows != [] && Postable(t.rows) && UniqueDigests(t.rows)
    ensures Postable(Shortened(h, t).rows) && UniqueDigests(Shortened(h, t).rows)
  {
  }

  lemma AppendKeepsPostable(h: Hash, t: Table, draft: Draft, time: Moment)
    requires Postable(t.rows) && UniqueDigests(t.rows) && Append(h, t, draft, time).Ok?
    ensures Postable(Append(h, t, draft, time).value.rows) && UniqueDigests(Append(h, t, draft, time).value.rows)
  {
    var row := Next(h, t, draft, time);
    assert forall k :: 0 <= k < |t.rows| ==> t.rows[k] in t.rows;
    assert RowPostable(row);
  }

  lemma {:induction false} BuiltIsPostable(h: Hash, posts: seq<(Draft, Moment)>)
    ensures Postable(Build(h, posts).rows) && UniqueDigests(Build(h, posts).rows)
  {
    if posts != [] {
      var rest := posts[..|posts| - 1];
      BuiltIsPostable(h, rest);
      var (draft, time) := posts[|posts| - 1];
      if Append(h, Build(h, rest), draft, time).Ok? {
        AppendKeepsPostable(h, Build(h, rest), draft, time);
      }
    }
  }

  /** Appending builds exactly the stored tables that the integrity check accepts and whose drafts could
      have been posted. */
  lemma BuiltExactly(h: Hash, t: Table)
    ensures (exists posts :: Build(h, posts) == t) <==> Intact(h, t) && Postable(t.rows) && UniqueDigests(t.rows)
  {
    if Intact(h, t) && Postable(t.rows) && UniqueDigests(t.rows) {
      IntactIsBuilt(h, t);
    }
    forall posts | Build(h, posts) == t
      ensures Intact(h, t) && Postable(t.rows) && UniqueDigests(t.rows)
    {
      BuiltIsIntact(h, posts);
      BuiltIsPostable(h, posts);
    }
  }

  /** Tamper evidence: two accepted histories with the same head are the same history, or the hash
      has a collision. */
  lemma {:induction false} HeadDeterminesHistory(h: Hash, a: Table, b: Table)
    requires Intact(h, a) && Intact(h, b) && a.head == b.head
    ensures a == b || Collides(h)
    decreases |a.rows|
  {
    if a.rows == [] && b.rows == [] {
    } else if a.rows == [] || b.rows == [] {
      var t := if a.rows == [] then b else a;
      var n := |t.rows| - 1;
      assert RowOk(h, t.rows, n);
      assert h(Link(t.rows[n].predecessor, t.rows[n].event)) == h(Genesis);
    } else {
      var m, n := |a.rows| - 1, |b.rows| - 1;
      assert RowOk(h, a.rows, m) && RowOk(h, b.rows, n);
      var x, y := Link(a.rows[m].predecessor, a.rows[m].event), Link(b.rows[n].predecessor, b.rows[n].event);
      assert h(x) == h(y);
      if x == y {
        ShortenedIntact(h, a);
        ShortenedIntact(h, b);
        HeadDeterminesHistory(h, Shortened(h, a), Shortened(h, b));
        LastSplits(a.rows);
        LastSplits(b.rows);
      }
    }
  }
}
