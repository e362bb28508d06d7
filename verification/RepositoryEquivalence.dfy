/** Driven through the bus, the two repositories accept the same operations and give the same answers. */
module RepositoryEquivalence {
  import opened Wrappers
  import opened CoordinationLog
  import opened CoordinationRepository
  import opened CoordinationBus

  function Untimed(e: Event): Event {
    e.(recordTime := "")
  }

  /** The same events but for the moment of recording. */
  ghost predicate Alike(a: seq<Event>, b: seq<Event>) {
    |a| == |b| && forall i :: 0 <= i < |a| ==> Untimed(a[i]) == Untimed(b[i])
  }

  ghost predicate AlikeOption(a: Option<Event>, b: Option<Event>) {
    if a.None? || b.None? then a == b else Untimed(a.value) == Untimed(b.value)
  }

  lemma {:induction false} GetAlike(a: seq<Event>, b: seq<Event>, id: string)
    requires Alike(a, b)
    ensures AlikeOption(Get(a, id), Get(b, id))
  {
    if a != [] {
      assert Untimed(a[0]) == Untimed(b[0]);
      GetAlike(a[1..], b[1..], id);
    }
  }

  lemma {:induction false} KeepAlike(a: seq<Event>, b: seq<Event>, p: Event -> bool, q: Event -> bool)
    requires Alike(a, b) && forall i :: 0 <= i < |a| ==> p(a[i]) == q(b[i])
    ensures Alike(Keep(a, p), Keep(b, q))
  {
    if a != [] {
      KeepAlike(a[..|a| - 1], b[..|b| - 1], p, q);
    }
  }

  lemma AnsweredAlike(a: seq<Event>, b: seq<Event>, target: string, id: string)
    requires Alike(a, b)
    ensures Answered(a, target, id) == Answered(b, target, id)
  {
    if Answered(a, target, id) {
      var i :| 0 <= i < |a| && a[i].draft.source == target && a[i].draft.acknowledges == Some(id);
      assert Untimed(a[i]) == Untimed(b[i]) && b[i] in b;
    }
    if Answered(b, target, id) {
      var i :| 0 <= i < |b| && b[i].draft.source == target && b[i].draft.acknowledges == Some(id);
      assert Untimed(a[i]) == Untimed(b[i]) && a[i] in a;
    }
  }

  /** Get, thread listing and inbox paging answer alike. */
  lemma QueriesAlike(a: seq<Event>, b: seq<Event>, id: string, thread: string, target: string, after: nat, limit: nat, all: bool)
    requires Alike(a, b)
    ensures AlikeOption(Get(a, id), Get(b, id))
    ensures Alike(ListThread(a, thread), ListThread(b, thread))
    ensures Alike(ReadInbox(a, target, after, limit, all), ReadInbox(b, target, after, limit, all))
  {
    GetAlike(a, b, id);
    ThreadAlike(a, b, thread);
    var p, q := InboxTest(a, target, after, all), InboxTest(b, target, after, all);
    forall i | 0 <= i < |a| ensures p(a[i]) == q(b[i]) {
      assert Untimed(a[i]) == Untimed(b[i]);
      AnsweredAlike(a, b, target, a[i].id);
    }
    KeepAlike(a, b, p, q);
  }

  lemma ThreadAlike(a: seq<Event>, b: seq<Event>, thread: string)
    requires Alike(a, b)
    ensures Alike(ListThread(a, thread), ListThread(b, thread))
  {
    var p := (e: Event) => e.draft.thread == thread;
    forall i | 0 <= i < |a| ensures p(a[i]) == p(b[i]) {
      assert Untimed(a[i]) == Untimed(b[i]);
    }
    KeepAlike(a, b, p, p);
  }

  lemma SucceededAlike(a: seq<Event>, b: seq<Event>, thread: string, id: string)
    requires Alike(a, b)
    ensures SucceededInThread(a, thread, id) == SucceededInThread(b, thread, id)
  {
    ThreadAlike(a, b, thread);
    var x, y := ListThread(a, thread), ListThread(b, thread);
    if SucceededInThread(a, thread, id) {
      var i :| 0 <= i < |x| && x[i].draft.supersedes == Some(id);
      assert Untimed(x[i]) == Untimed(y[i]) && y[i] in y;
    }
    if SucceededInThread(b, thread, id) {
      var i :| 0 <= i < |y| && y[i].draft.supersedes == Some(id);
      assert Untimed(x[i]) == Untimed(y[i]) && x[i] in x;
    }
  }

  lemma AcknowledgedFaultAlike(a: seq<Event>, b: seq<Event>, d: Draft)
    requires Alike(a, b)
    ensures AcknowledgedFault(a, d) == AcknowledgedFault(b, d)
  {
    if d.acknowledges.Some? { GetAlike(a, b, d.acknowledges.value); }
  }

  lemma SupersededFaultAlike(a: seq<Event>, b: seq<Event>, d: Draft)
    requires Alike(a, b)
    ensures SupersededFault(a, d) == SupersededFault(b, d)
  {
    if d.supersedes.Some? {
      GetAlike(a, b, d.supersedes.value);
      SucceededAlike(a, b, d.thread, d.supersedes.value);
    }
  }

  lemma LineageAlike(a: seq<Event>, b: seq<Event>, d: Draft)
    requires Alike(a, b)
    ensures Lineage(a, d) == Lineage(b, d)
  {
    AcknowledgedFaultAlike(a, b, d);
    SupersededFaultAlike(a, b, d);
  }

  lemma AuthorizeAlike(a: seq<Event>, b: seq<Event>, actor: Actor, d: Draft)
    requires Alike(a, b)
    ensures AuthorizePost(a, actor, d) == AuthorizePost(b, actor, d)
  {
    if d.acknowledges.Some? { GetAlike(a, b, d.acknowledges.value); }
  }

  lemma DraftedAlike(a: seq<Event>, b: seq<Event>, actor: Actor, op: Operation)
    requires Alike(a, b)
    ensures Drafted(a, actor, op) == Drafted(b, actor, op)
  {
    match op
    case Post(d) => AuthorizeAlike(a, b, actor, d);
    case Acknowledge(id, _, _) => GetAlike(a, b, id);
    case ResolveThread(id, _, _) => GetAlike(a, b, id);
    case _ =>
  }

  /** The bus decides alike over alike repositories. */
  lemma PrepareAlike(a: seq<Event>, b: seq<Event>, actor: Actor, op: Operation)
    requires Alike(a, b)
    ensures Prepare(a, actor, op) == Prepare(b, actor, op)
  {
    DraftedAlike(a, b, actor, op);
    var drafted := Drafted(a, actor, op);
    if drafted.Ok? { LineageAlike(a, b, drafted.value); }
  }

  /** The new row repeats no stored identity and no stored digest. */
  predicate Fresh(h: Hash, t: Table, draft: Draft, time: Moment) {
    var row := Next(h, t, draft, time);
    forall r :: r in t.rows ==> r.event.id != row.event.id && r.digest != row.digest
  }

  lemma SequencesBelow(h: Hash, t: Table)
    requires Intact(h, t)
    ensures forall r :: r in t.rows ==> r.event.sequence <= t.sequence
  {
    forall r | r in t.rows ensures r.event.sequence <= t.sequence {
      var i :| 0 <= i < |t.rows| && t.rows[i] == r;
      assert RowOk(h, t.rows, i);
    }
  }

  lemma FoundIsStored(h: Hash, t: Table, d: Draft)
    requires Lineage(Events(t.rows), d).None? && d.supersedes.Some?
    ensures var found := Get(Events(t.rows), d.supersedes.value);
            found.Some? && found.value.draft.thread == d.thread && !SucceededInThread(Events(t.rows), d.thread, found.value.id)
  {
  }

  /** What the bus lets through has no successor anywhere in the table. */
  lemma NotYetSuperseded(h: Hash, t: Table, d: Draft)
    requires Intact(h, t) && Lineage(Events(t.rows), d).None? && d.supersedes.Some?
    ensures forall r :: r in t.rows ==> r.event.draft.supersedes != d.supersedes
  {
    FoundIsStored(h, t, d);
    ThreadLocalIsGlobal(h, t, Get(Events(t.rows), d.supersedes.value).value);
    forall r | r in t.rows ensures r.event.draft.supersedes != d.supersedes {
      var i :| 0 <= i < |t.rows| && t.rows[i] == r;
    }
  }

  lemma PreparedIsOrdered(events: seq<Event>, actor: Actor, op: Operation)
    requires Prepare(events, actor, op).Ok?
    ensures var d := Prepare(events, actor, op).value;
            && DraftValid(d) && Lineage(events, d).None?
            && RefersWithin(events, d.acknowledges, d.thread) && RefersWithin(events, d.supersedes, d.thread)
            && (d.supersedes.Some? ==> d.supersedes != d.acknowledges)
  {
  }

  /** After the bus has accepted a draft, the SQLite repository refuses it only for a hash clash. */
  lemma AppendAcceptsIff(h: Hash, t: Table, actor: Actor, op: Operation, time: Moment)
    requires Intact(h, t) && Prepare(Events(t.rows), actor, op).Ok?
    ensures var d := Prepare(Events(t.rows), actor, op).value;
            Append(h, t, d, time).Ok? <==> Fresh(h, t, d, time)
  {
    var d := Prepare(Events(t.rows), actor, op).value;
    PreparedIsOrdered(Events(t.rows), actor, op);
    SequencesBelow(h, t);
    if d.supersedes.Some? { NotYetSuperseded(h, t, d); }
    InsertableIff(h, t, d, time);
  }

  lemma InsertableIff(h: Hash, t: Table, d: Draft, time: Moment)
    requires forall r :: r in t.rows ==> r.event.sequence <= t.sequence
    requires d.supersedes.Some? ==> forall r :: r in t.rows ==> r.event.draft.supersedes != d.supersedes
    ensures Insertable(t.rows, Next(h, t, d, time)) <==> Fresh(h, t, d, time)
  {
  }

  lemma AppendedAlike(h: Hash, clock: nat -> string, t: Table, events: seq<Event>, d: Draft, time: Moment)
    requires Intact(h, t) && Alike(Events(t.rows), events)
    ensures Alike(Events(t.rows + [Next(h, t, d, time)]), Remember(h, clock, events, d))
  {
    EventsThen(t.rows, Next(h, t, d, time));
  }

  /** One request: same verdict and still alike, exactly when the hash does not clash. */
  lemma StepAlike(h: Hash, clock: nat -> string, t: Table, events: seq<Event>, r: Request)
    requires Intact(h, t) && Alike(Events(t.rows), events)
    ensures var (t', x), (events', y) := SqliteStep(h, t, r), MemoryStep(h, clock, events, r);
            var prepared := Prepare(Events(t.rows), r.actor, r.op);
            var agree := prepared.Err? || Fresh(h, t, prepared.value, r.time);
            Intact(h, t') && (x == y <==> agree) && (agree ==> Alike(Events(t'.rows), events'))
  {
    PrepareAlike(Events(t.rows), events, r.actor, r.op);
    StepIntact(h, t, r);
    var prepared := Prepare(Events(t.rows), r.actor, r.op);
    if prepared.Ok? {
      AppendAcceptsIff(h, t, r.actor, r.op, r.time);
      AppendedAlike(h, clock, t, events, prepared.value, r.time);
    }
  }

  function SqliteRun(h: Hash, requests: seq<Request>): Table {
    if requests == [] then EmptyTable(h)
    else SqliteStep(h, SqliteRun(h, requests[..|requests| - 1]), requests[|requests| - 1]).0
  }

  function MemoryRun(h: Hash, clock: nat -> string, requests: seq<Request>): seq<Event> {
    if requests == [] then []
    else MemoryStep(h, clock, MemoryRun(h, clock, requests[..|requests| - 1]), requests[|requests| - 1]).0
  }

  /** The append of request `k`, if the bus lets it through, repeats no identity and no digest. */
  ghost predicate NoClashAt(h: Hash, requests: seq<Request>, k: nat)
    requires k < |requests|
  {
    var t := SqliteRun(h, requests[..k]);
    var prepared := Prepare(Events(t.rows), requests[k].actor, requests[k].op);
    prepared.Ok? ==> Fresh(h, t, prepared.value, requests[k].time)
  }

  ghost predicate ClashFree(h: Hash, requests: seq<Request>) {
    forall k :: 0 <= k < |requests| ==> NoClashAt(h, requests, k)
  }

  ghost predicate SameVerdict(h: Hash, clock: nat -> string, requests: seq<Request>, k: nat)
    requires k < |requests|
  {
    var before := requests[..k];
    SqliteStep(h, SqliteRun(h, before), requests[k]).1 == MemoryStep(h, clock, MemoryRun(h, clock, before), requests[k]).1
  }

  lemma {:induction false} StatesAlike(h: Hash, clock: nat -> string, requests: seq<Request>)
    requires ClashFree(h, requests)
    ensures Intact(h, SqliteRun(h, requests))
    ensures Alike(Events(SqliteRun(h, requests).rows), MemoryRun(h, clock, requests))
  {
    if requests != [] {
      var n := |requests| - 1;
      ClashFreePrefix(h, requests, n);
      StatesAlike(h, clock, requests[..n]);
      assert NoClashAt(h, requests, n);
      StepAlike(h, clock, SqliteRun(h, requests[..n]), MemoryRun(h, clock, requests[..n]), requests[n]);
    }
  }

  lemma ClashFreePrefix(h: Hash, requests: seq<Request>, n: nat)
    requires n <= |requests| && ClashFree(h, requests)
    ensures ClashFree(h, requests[..n])
  {
    forall k | 0 <= k < n ensures NoClashAt(h, requests[..n], k) {
      assert NoClashAt(h, requests, k) && requests[..n][..k] == requests[..k];
    }
  }

  lemma VerdictAlike(h: Hash, clock: nat -> string, requests: seq<Request>, k: nat)
    requires ClashFree(h, requests) && k < |requests|
    ensures SameVerdict(h, clock, requests, k)
  {
    ClashFreePrefix(h, requests, k);
    StatesAlike(h, clock, requests[..k]);
    assert NoClashAt(h, requests, k);
    StepAlike(h, clock, SqliteRun(h, requests[..k]), MemoryRun(h, clock, requests[..k]), requests[k]);
  }

  /** At every request of the run both repositories give the same verdict. */
  ghost predicate VerdictsAlike(h: Hash, clock: nat -> string, requests: seq<Request>) {
    forall k :: 0 <= k < |requests| ==> SameVerdict(h, clock, requests, k)
  }

  lemma AllVerdictsAlike(h: Hash, clock: nat -> string, requests: seq<Request>)
    requires ClashFree(h, requests)
    ensures VerdictsAlike(h, clock, requests)
  {
    forall k | 0 <= k < |requests| ensures SameVerdict(h, clock, requests, k) {
      VerdictAlike(h, clock, requests, k);
    }
  }

  /** Whole runs: the two repositories give the same verdicts and stay alike. */
  lemma RunsAlike(h: Hash, clock: nat -> string, requests: seq<Request>)
    requires ClashFree(h, requests)
    ensures VerdictsAlike(h, clock, requests) && Alike(Events(SqliteRun(h, requests).rows), MemoryRun(h, clock, requests))
  {
    AllVerdictsAlike(h, clock, requests);
    StatesAlike(h, clock, requests);
  }

  /** No two bodies agree in the part of their digest that identifies events. */
  ghost predicate OneToOne(h: Hash) {
    forall a, b :: h(a)[..32] == h(b)[..32] ==> a == b
  }

  lemma StoredBodies(h: Hash, rows: seq<Row>, i: nat)
    requires RowsOk(h, rows) && i < |rows|
    ensures rows[i].event.id == h(Identity(i + 1, rows[i].event.draft))[..32]
    ensures rows[i].event.sequence == i + 1 && rows[i].digest == h(Link(rows[i].predecessor, rows[i].event))
  {
    assert RowOk(h, rows, i);
  }

  lemma FreshWhenOneToOne(h: Hash, t: Table, draft: Draft, time: Moment)
    requires Intact(h, t) && OneToOne(h)
    ensures Fresh(h, t, draft, time)
  {
    var row := Next(h, t, draft, time);
    forall r | r in t.rows ensures r.event.id != row.event.id && r.digest != row.digest {
      var i :| 0 <= i < |t.rows| && t.rows[i] == r;
      StoredBodies(h, t.rows, i);
      assert Identity(i + 1, r.event.draft) != Identity(t.sequence + 1, draft);
      assert Link(r.predecessor, r.event) != Link(t.head, row.event);
    }
  }

  lemma {:induction false} RunIntact(h: Hash, requests: seq<Request>)
    ensures Intact(h, SqliteRun(h, requests))
  {
    if requests != [] {
      var n := |requests| - 1;
      RunIntact(h, requests[..n]);
      StepIntact(h, SqliteRun(h, requests[..n]), requests[n]);
    }
  }

  lemma StepIntact(h: Hash, t: Table, r: Request)
    requires Intact(h, t)
    ensures Intact(h, SqliteStep(h, t, r).0)
  {
    var prepared := Prepare(Events(t.rows), r.actor, r.op);
    if prepared.Ok? && Append(h, t, prepared.value, r.time).Ok? {
      AppendKeepsIntact(h, t, prepared.value, r.time);
    }
  }

  lemma OneToOneNoClash(h: Hash, requests: seq<Request>, k: nat)
    requires OneToOne(h) && k < |requests|
    ensures NoClashAt(h, requests, k)
  {
    RunIntact(h, requests[..k]);
    var t := SqliteRun(h, requests[..k]);
    var prepared := Prepare(Events(t.rows), requests[k].actor, requests[k].op);
    if prepared.Ok? { FreshWhenOneToOne(h, t, prepared.value, requests[k].time); }
  }

  /** So without a collision every run is free of clashes, and the two repositories agree on all of them. */
  lemma OneToOneRunsAlike(h: Hash, clock: nat -> string, requests: seq<Request>)
    requires OneToOne(h)
    ensures ClashFree(h, requests) && VerdictsAlike(h, clock, requests)
    ensures Alike(Events(SqliteRun(h, requests).rows), MemoryRun(h, clock, requests))
  {
    forall k | 0 <= k < |requests| ensures NoClashAt(h, requests, k) {
      OneToOneNoClash(h, requests, k);
    }
    RunsAlike(h, clock, requests);
  }

  /** The event that an event supersedes, by position. */
  ghost predicate Supersedes(events: seq<Event>, later: nat, earlier: nat) {
    earlier < |events| && later < |events| && events[later].draft.supersedes == Some(events[earlier].id)
  }

  /** `k` is on the backward chain from `a`. */
  ghost predicate OnChain(events: seq<Event>, a: nat, k: nat)
    decreases a
  {
    a == k || exists b: nat :: b < a && Supersedes(events, a, b) && OnChain(events, b, k)
  }

  ghost predicate ChainsOk(events: seq<Event>) {
    && (forall i, j :: 0 <= i < |events| && 0 <= j < |events| && events[i].id == events[j].id ==> i == j)
    && (forall i, j :: 0 <= i < |events| && 0 <= j < |events| && i != j && events[i].draft.supersedes.Some? ==>
          events[i].draft.supersedes != events[j].draft.supersedes)
    && (forall i :: 0 <= i < |events| && events[i].draft.supersedes.Some? ==>
          exists j :: 0 <= j < i && events[j].id == events[i].draft.supersedes.value && events[j].draft.thread == events[i].draft.thread)
  }

  /** In an intact log every supersession points back within its thread and no event has two successors. */
  lemma IntactChains(h: Hash, t: Table)
    requires Intact(h, t)
    ensures ChainsOk(Events(t.rows))
  {
    var events := Events(t.rows);
    forall i, j | 0 <= i < j < |events|
      ensures events[i].id != events[j].id
      ensures events[j].draft.supersedes.Some? ==> events[i].draft.supersedes != events[j].draft.supersedes
    {
      assert RowOk(h, t.rows, j);
    }
    forall i | 0 <= i < |events| && events[i].draft.supersedes.Some?
      ensures exists j :: 0 <= j < i && events[j].id == events[i].draft.supersedes.value && events[j].draft.thread == events[i].draft.thread
    {
      assert RowOk(h, t.rows, i);
      var before := Events(t.rows[..i]);
      var j :| 0 <= j < i && before[j] == Get(before, events[i].draft.supersedes.value).value;
      assert events[j] == before[j];
    }
  }

  lemma {:induction false} ChainHasStep(events: seq<Event>, a: nat, k: nat)
    requires OnChain(events, a, k) && a != k
    ensures exists x: nat :: OnChain(events, a, x) && Supersedes(events, x, k)
    decreases a
  {
    var b: nat :| b < a && Supersedes(events, a, b) && OnChain(events, b, k);
    if b == k {
      assert OnChain(events, a, a);
    } else {
      ChainHasStep(events, b, k);
      var x: nat :| OnChain(events, b, x) && Supersedes(events, x, k);
      assert OnChain(events, a, x);
    }
  }

  /** Supersession forms disjoint backward chains: two chains that meet anywhere lie on one another. */
  lemma {:induction false} ChainsNeverMerge(events: seq<Event>, a: nat, b: nat, k: nat)
    requires ChainsOk(events) && OnChain(events, a, k) && OnChain(events, b, k)
    ensures OnChain(events, a, b) || OnChain(events, b, a)
    decreases a
  {
    if a != k && b != k {
      var a': nat :| a' < a && Supersedes(events, a, a') && OnChain(events, a', k);
      ChainsNeverMerge(events, a', b, k);
      if OnChain(events, b, a') && b != a' {
        ChainHasStep(events, b, a');
        var x: nat :| OnChain(events, b, x) && Supersedes(events, x, a');
        assert x == a;
      }
    }
  }
}
