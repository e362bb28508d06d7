/** Reading an inbox page by page while the log may grow between the pages. */
module InboxPaging {
  import opened Wrappers
  import opened CoordinationLog
  import opened CoordinationRepository
  import opened CoordinationBus

  datatype Page = Page(events: seq<Event>, cursorOut: nat, hasMore: bool)

  /** One more event than the page holds is read, to learn whether there is a next page. */
  function ReadPage(log: seq<Event>, target: string, after: nat, limit: nat, all: bool): Page {
    var raw := ReadInbox(log, target, after, limit + 1, all);
    var events := Take(raw, limit);
    Page(events, if events == [] then after else events[|events| - 1].sequence, |raw| > limit)
  }

  ghost predicate Sequenced(log: seq<Event>) {
    forall i :: 0 <= i < |log| ==> log[i].sequence == i + 1
  }

  lemma IntactIsSequenced(h: Hash, t: Table)
    requires Intact(h, t)
    ensures Sequenced(Events(t.rows))
  {
    forall i | 0 <= i < |t.rows| ensures Events(t.rows)[i].sequence == i + 1 {
      assert RowOk(h, t.rows, i);
    }
  }

  ghost predicate Ascending(events: seq<Event>, after: nat) {
    && (forall i :: 0 <= i < |events| ==> events[i].sequence > after)
    && (forall i, j :: 0 <= i < j < |events| ==> events[i].sequence < events[j].sequence)
  }

  lemma {:induction false} KeepAscends(log: seq<Event>, wanted: Event -> bool)
    requires Sequenced(log)
    ensures Ascending(Keep(log, wanted), 0)
    ensures forall e :: e in Keep(log, wanted) ==> e.sequence <= |log|
  {
    if log != [] {
      KeepAscends(log[..|log| - 1], wanted);
    }
  }

  lemma InboxAscends(log: seq<Event>, target: string, after: nat, all: bool)
    requires Sequenced(log)
    ensures Ascending(Inbox(log, target, after, all), after)
    ensures forall e :: e in Inbox(log, target, after, all) <==> e in log && InInbox(log, target, after, all, e)
    ensures forall e :: e in Inbox(log, target, after, all) ==> e.sequence <= |log|
  {
    KeepAscends(log, InboxTest(log, target, after, all));
    KeepMembers(log, InboxTest(log, target, after, all));
    forall i | 0 <= i < |Inbox(log, target, after, all)| ensures Inbox(log, target, after, all)[i].sequence > after {
      assert Inbox(log, target, after, all)[i] in Inbox(log, target, after, all);
    }
  }

  /** A page is the part of the inbox up to the outgoing cursor; the last page is the rest of it. */
  lemma PageCovers(log: seq<Event>, target: string, after: nat, limit: nat, all: bool)
    requires Sequenced(log) && limit >= 1
    ensures var page := ReadPage(log, target, after, limit, all);
            && Ascending(page.events, after) && page.cursorOut >= after
            && (forall e :: e in page.events ==> e in log && InInbox(log, target, after, all, e) && e.sequence <= page.cursorOut)
            && (forall e :: e in log && InInbox(log, target, after, all, e) && (!page.hasMore || e.sequence <= page.cursorOut) ==> e in page.events)
            && (page.hasMore ==> page.events != [] && after < page.cursorOut <= |log|)
  {
    InboxAscends(log, target, after, all);
    PageIsPrefix(log, target, after, limit, all);
    PrefixCovers(Inbox(log, target, after, all), after, limit);
  }

  lemma PageIsPrefix(log: seq<Event>, target: string, after: nat, limit: nat, all: bool)
    ensures ReadPage(log, target, after, limit, all) == PrefixPage(Inbox(log, target, after, all), after, limit)
  {
    var inbox := Inbox(log, target, after, all);
    assert Take(Take(inbox, limit + 1), limit) == Take(inbox, limit);
  }

  function PrefixPage(inbox: seq<Event>, after: nat, limit: nat): Page {
    var events := Take(inbox, limit);
    Page(events, if events == [] then after else events[|events| - 1].sequence, |inbox| > limit)
  }

  lemma CursorIsLast(inbox: seq<Event>, after: nat, limit: nat)
    requires Ascending(inbox, after)
    ensures var page := PrefixPage(inbox, after, limit);
            && page.events <= inbox && Ascending(page.events, after) && page.cursorOut >= after
            && (forall i :: 0 <= i < |inbox| ==> (i < |page.events| <==> inbox[i].sequence <= page.cursorOut))
  {
  }

  lemma PrefixCovers(inbox: seq<Event>, after: nat, limit: nat)
    requires Ascending(inbox, after) && limit >= 1
    ensures var page := PrefixPage(inbox, after, limit);
            && Ascending(page.events, after) && page.cursorOut >= after
            && (forall e :: e in page.events ==> e in inbox && e.sequence <= page.cursorOut)
            && (forall e :: e in inbox && (!page.hasMore || e.sequence <= page.cursorOut) ==> e in page.events)
            && (page.hasMore ==> page.events != [] && after < page.cursorOut && page.events[|page.events| - 1] in inbox)
  {
    CursorIsLast(inbox, after, limit);
    PrefixMembers(PrefixPage(inbox, after, limit).events, inbox);
  }

  lemma PrefixMembers(some: seq<Event>, inbox: seq<Event>)
    requires some <= inbox
    ensures forall e :: e in some <==> exists i :: 0 <= i < |some| && inbox[i] == e
    ensures forall e :: e in some ==> e in inbox
  {
  }

  /** Everything read by following the cursor, one page on each successive state of the log. */
  function Collected(logs: seq<seq<Event>>, target: string, after: nat, limit: nat, all: bool): seq<Event> {
    if logs == [] then []
    else
      var page := ReadPage(logs[0], target, after, limit, all);
      page.events + Collected(logs[1..], target, page.cursorOut, limit, all)
  }

  /** Only the last page says that it is the last. */
  predicate ReadToTheEnd(logs: seq<seq<Event>>, target: string, after: nat, limit: nat, all: bool) {
    logs != [] && (
      var page := ReadPage(logs[0], target, after, limit, all);
      if |logs| == 1 then !page.hasMore
      else page.hasMore && ReadToTheEnd(logs[1..], target, page.cursorOut, limit, all))
  }

  /** Successive states of an append-only log. */
  ghost predicate Growing(logs: seq<seq<Event>>) {
    logs == [] || (Sequenced(logs[0]) && (|logs| > 1 ==> logs[0] <= logs[1]) && Growing(logs[1..]))
  }

  lemma {:induction false} FirstInLast(logs: seq<seq<Event>>)
    requires logs != [] && Growing(logs)
    ensures logs[0] <= logs[|logs| - 1] && Sequenced(logs[|logs| - 1])
    decreases |logs|
  {
    if |logs| > 1 {
      FirstInLast(logs[1..]);
    }
  }

  lemma AscendingJoin(a: seq<Event>, b: seq<Event>, after: nat, middle: nat)
    requires Ascending(a, after) && Ascending(b, middle) && after <= middle
    requires forall e :: e in a ==> e.sequence <= middle
    ensures Ascending(a + b, after)
  {
    forall i, j | 0 <= i < j < |a + b|
      ensures (a + b)[i].sequence < (a + b)[j].sequence
    {
      assert i < |a| ==> a[i] in a;
    }
  }

  /** An event that is unanswered at the end was unanswered at every earlier moment. */
  lemma UnansweredBefore(early: seq<Event>, late: seq<Event>, target: string, after: nat, all: bool, e: Event)
    requires early <= late && Sequenced(late) && e in late && InInbox(late, target, after, all, e) && e.sequence <= |early|
    ensures e in early && InInbox(early, target, after, all, e)
  {
    var i :| 0 <= i < |late| && late[i] == e;
    assert early[i] == e;
    assert forall r :: r in early ==> r in late;
  }

  /** In order and without repetition, only events for the target, and no unanswered one missing. */
  ghost predicate Complete(result: seq<Event>, final: seq<Event>, target: string, after: nat, all: bool) {
    && Ascending(result, after)
    && (forall e :: e in result ==> e in final && e.draft.target == Some(target))
    && (forall e :: Awaits(final, target, after, all, e) ==> e in result)
  }

  lemma LastPage(log: seq<Event>, target: string, after: nat, limit: nat, all: bool)
    requires limit >= 1 && Sequenced(log) && !ReadPage(log, target, after, limit, all).hasMore
    ensures Complete(ReadPage(log, target, after, limit, all).events, log, target, after, all)
  {
    PageCovers(log, target, after, limit, all);
  }

  lemma PageThenRest(log: seq<Event>, final: seq<Event>, rest: seq<Event>, target: string, after: nat, limit: nat, all: bool)
    requires limit >= 1 && Sequenced(log) && Sequenced(final) && log <= final
    requires ReadPage(log, target, after, limit, all).hasMore
    requires Complete(rest, final, target, ReadPage(log, target, after, limit, all).cursorOut, all)
    ensures Complete(ReadPage(log, target, after, limit, all).events + rest, final, target, after, all)
  {
    var page := ReadPage(log, target, after, limit, all);
    PageCovers(log, target, after, limit, all);
    AscendingJoin(page.events, rest, after, page.cursorOut);
    forall e | e in final && InInbox(final, target, after, all, e)
      ensures e in page.events + rest
    {
      if e.sequence <= page.cursorOut {
        UnansweredBefore(log, final, target, after, all, e);
      }
    }
    assert forall e :: e in log ==> e in final;
  }

  lemma LastStep(logs: seq<seq<Event>>, target: string, after: nat, limit: nat, all: bool)
    requires limit >= 1 && |logs| == 1 && Growing(logs) && ReadToTheEnd(logs, target, after, limit, all)
    ensures Complete(Collected(logs, target, after, limit, all), logs[0], target, after, all)
  {
    LastPage(logs[0], target, after, limit, all);
    var page := ReadPage(logs[0], target, after, limit, all);
    assert Collected(logs, target, after, limit, all) == page.events + [];
    assert page.events + [] == page.events;
  }

  lemma PageStep(logs: seq<seq<Event>>, target: string, after: nat, limit: nat, all: bool, next: nat)
    requires |logs| > 1 && next == ReadPage(logs[0], target, after, limit, all).cursorOut
    requires ReadToTheEnd(logs, target, after, limit, all)
    ensures ReadPage(logs[0], target, after, limit, all).hasMore
    ensures ReadToTheEnd(logs[1..], target, next, limit, all)
    ensures Collected(logs, target, after, limit, all)
         == ReadPage(logs[0], target, after, limit, all).events + Collected(logs[1..], target, next, limit, all)
  {
  }

  /** Every request to the bus, accepted or refused, leaves a log that grows in this sense. */
  lemma BusGrows(h: Hash, t: Table, r: Request)
    requires Intact(h, t)
    ensures Growing([Events(t.rows), Events(SqliteStep(h, t, r).0.rows)])
  {
    var t' := SqliteStep(h, t, r).0;
    if t'.rows != t.rows {
      var d := Prepare(Events(t.rows), r.actor, r.op).value;
      AppendKeepsIntact(h, t, d, r.time);
      EventsThen(t.rows, Next(h, t, d, r.time));
    }
    assert Intact(h, t');
    IntactIsSequenced(h, t);
    IntactIsSequenced(h, t');
    var logs := [Events(t.rows), Events(t'.rows)];
    assert logs[1..] == [Events(t'.rows)] && Growing(logs[1..][1..]);
  }

  /** Paging over a growing log: what is returned is in order and without repetition, all of it was
      addressed to the target, and every event that is still unanswered at the end is there. */
  lemma {:induction false} PagingMissesNothing(logs: seq<seq<Event>>, target: string, after: nat, limit: nat, all: bool)
    requires limit >= 1 && Growing(logs) && ReadToTheEnd(logs, target, after, limit, all)
    ensures logs != [] && Complete(Collected(logs, target, after, limit, all), logs[|logs| - 1], target, after, all)
    decreases |logs|
  {
    if |logs| == 1 {
      LastStep(logs, target, after, limit, all);
    } else {
      var next := ReadPage(logs[0], target, after, limit, all).cursorOut;
      PageStep(logs, target, after, limit, all, next);
      FirstInLast(logs);
      PagingMissesNothing(logs[1..], target, next, limit, all);
      assert logs[1..][|logs| - 2] == logs[|logs| - 1];
      PageThenRest(logs[0], logs[|logs| - 1], Collected(logs[1..], target, next, limit, all), target, after, limit, all);
    }
  }

  /** The whole inbox, read to the end on a log that does not change. */
  function Drained(log: seq<Event>, target: string, after: nat, limit: nat, all: bool): seq<Event>
    requires Sequenced(log) && limit >= 1
    decreases if after < |log| then |log| - after else 0
  {
    var page := ReadPage(log, target, after, limit, all);
    PageCovers(log, target, after, limit, all);
    if page.hasMore then page.events + Drained(log, target, page.cursorOut, limit, all) else page.events
  }

  lemma {:induction false} AscendingUnique(a: seq<Event>, b: seq<Event>)
    requires Ascending(a, 0) && Ascending(b, 0) && forall e :: e in a <==> e in b
    ensures a == b
  {
    if a != [] { assert a[0] in b; }
    if b != [] { assert b[0] in a; }
    if a != [] {
      var m, n := |a| - 1, |b| - 1;
      assert a[m] in b && b[n] in a;
      assert a[m] == b[n];
      forall e ensures e in a[..m] <==> e in b[..n] {
        assert e in a <==> e in a[..m] || e == a[m];
        assert e in b <==> e in b[..n] || e == b[n];
      }
      AscendingUnique(a[..m], b[..n]);
    }
  }

  lemma {:induction false} DrainedMembers(log: seq<Event>, target: string, after: nat, limit: nat, all: bool)
    requires Sequenced(log) && limit >= 1
    ensures var result := Drained(log, target, after, limit, all);
            Ascending(result, after) && forall e :: e in result <==> e in log && InInbox(log, target, after, all, e)
    decreases if after < |log| then |log| - after else 0
  {
    var page := ReadPage(log, target, after, limit, all);
    PageCovers(log, target, after, limit, all);
    if page.hasMore {
      DrainedMembers(log, target, page.cursorOut, limit, all);
      AscendingJoin(page.events, Drained(log, target, page.cursorOut, limit, all), after, page.cursorOut);
    }
  }

  /** Following the cursor until the page is complete returns exactly the inbox, for any page size. */
  lemma PagingIsTheInbox(log: seq<Event>, target: string, after: nat, limit: nat, all: bool)
    requires Sequenced(log) && limit >= 1
    ensures Drained(log, target, after, limit, all) == Inbox(log, target, after, all)
  {
    DrainedMembers(log, target, after, limit, all);
    InboxAscends(log, target, after, all);
    AscendingUnique(Drained(log, target, after, limit, all), Inbox(log, target, after, all));
  }
}
