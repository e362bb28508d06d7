/** Tables that the integrity check accepts although appending could never have built them. */
module IntegrityGaps {
  import opened Wrappers
  import opened CoordinationLog

  /** A table of one event without references. */
  function Single(h: Hash, d: Draft, time: Moment): Table {
    var row := Next(h, EmptyTable(h), d, time);
    Table([row], 1, row.digest)
  }

  lemma SingleIntact(h: Hash, d: Draft, time: Moment)
    requires DraftDecodes(d) && d.supersedes.None? && d.acknowledges.None?
    ensures Intact(h, Single(h, d, time)) && UniqueDigests(Single(h, d, time).rows)
  {
    assert RowOk(h, Single(h, d, time).rows, 0);
  }

  /** One decodable event alone: accepted in any case, built by an append exactly when its draft is valid. */
  lemma SingleBuiltIff(h: Hash, d: Draft, time: Moment)
    requires DraftDecodes(d) && d.supersedes.None? && d.acknowledges.None?
    ensures Intact(h, Single(h, d, time)) && ((exists posts :: Build(h, posts) == Single(h, d, time)) <==> DraftValid(d))
  {
    SingleIntact(h, d, time);
    BuiltExactly(h, Single(h, d, time));
    assert Postable(Single(h, d, time).rows) <==> RowPostable(Single(h, d, time).rows[0]);
  }

  const NOTE := Draft("t", "workstream/time", None, Status, InProgress, "o", "s", None, None, "", None, None)

  /** A resolution of nothing, an address that is out of use, an issue that names none, and empty texts. */
  const ODD: seq<Draft> := [
    NOTE.(eventType := Resolution, progress := Resolved), NOTE.(source := "github-review"),
    NOTE.(eventType := Issue, progress := Blocked), NOTE.(issue := Some("")), NOTE.(perspective := Some(""))]

  lemma OddDrafts()
    ensures DraftValid(NOTE) && forall i :: 0 <= i < |ODD| ==>
              DraftDecodes(ODD[i]) && !DraftValid(ODD[i]) && ODD[i].supersedes.None? && ODD[i].acknowledges.None?
  {
    assert "workstream/time" in WORKSTREAMS && "github-review" !in WORKSTREAMS;
  }

  /** Each of them passes the integrity check and can be the work of no sequence of appends. */
  lemma OddTablesAccepted(h: Hash, time: Moment, i: nat)
    requires i < |ODD|
    ensures Intact(h, Single(h, ODD[i], time)) && !exists posts :: Build(h, posts) == Single(h, ODD[i], time)
  {
    OddDrafts();
    SingleBuiltIff(h, ODD[i], time);
  }

  /** A second event that refers to the first. */
  function Pair(h: Hash, first: Draft, second: Draft, time: Moment): Table {
    var t := Single(h, first, time);
    var row := Next(h, t, second, time);
    Table(t.rows + [row], 2, row.digest)
  }

  ghost predicate RefersToFirst(h: Hash, first: Draft, second: Draft) {
    var id := EventId(h, 1, first);
    && second.thread == first.thread && second.acknowledges == Some(id)
    && (second.supersedes.None? || second.supersedes == Some(id)) && EventId(h, 2, second) != id
  }

  lemma PairIntact(h: Hash, first: Draft, second: Draft, time: Moment)
    requires DraftDecodes(first) && first.supersedes.None? && first.acknowledges.None?
    requires DraftDecodes(second) && RefersToFirst(h, first, second)
    ensures Intact(h, Pair(h, first, second, time))
  {
    var rows := Pair(h, first, second, time).rows;
    SingleIntact(h, first, time);
    RowOkPrefix(h, Single(h, first, time).rows, rows, 0);
    assert rows[..1] == Single(h, first, time).rows && Events(rows[..1]) == [rows[0].event];
    assert Get([rows[0].event], EventId(h, 1, first)) == Some(rows[0].event);
    assert RowOk(h, rows, 1);
  }

  /** An event that supersedes what it acknowledges, and a review that asks instead of answering. */
  lemma OddPairsAccepted(h: Hash, second: Draft, time: Moment)
    requires DraftDecodes(second) && RefersToFirst(h, NOTE, second)
    requires second.supersedes == second.acknowledges || (second.eventType.Review? && second.perspective.Some?)
    ensures Intact(h, Pair(h, NOTE, second, time)) && !exists posts :: Build(h, posts) == Pair(h, NOTE, second, time)
  {
    OddDrafts();
    PairIntact(h, NOTE, second, time);
    BuiltExactly(h, Pair(h, NOTE, second, time));
    assert !RowPostable(Pair(h, NOTE, second, time).rows[1]);
  }
}
