/** Concurrent clients of the ledger: the stage check and the insertion are separate transactions. */
module CorrectiveRuns {
  import opened Wrappers
  import opened Collections
  import opened CorrectiveLedger

  /** An `advance` that has passed its check and not yet inserted, with the number of rows it saw. */
  datatype Pending = Pending(content: Content, seen: nat)

  datatype State = State(table: seq<Row>, pending: map<nat, Pending>)

  datatype Action =
    | Begin(correction: string, signature: string, summary: string, evidence: seq<string>)
    | CheckAdvance(client: nat, content: Content)
    | CommitAdvance(client: nat)
    | Vanish(client: nat)

  function Step(d: Digest, s: State, a: Action): State {
    match a
    case Begin(correction, signature, summary, evidence) =>
      (match Started(d, s.table, correction, signature, summary, evidence)
       case Ok(table) => s.(table := table)
       case Err(_) => s)
    case CheckAdvance(client, content) =>
      (match Checked(d, s.table, content)
       case Ok(checked) => s.(pending := s.pending[client := Pending(checked, |RowsOf(s.table, content.correction)|)])
       case Err(_) => s.(pending := s.pending - {client}))
    case CommitAdvance(client) =>
      if client !in s.pending then s
      else
        var left := s.pending - {client};
        (match Appended(d, s.table, s.pending[client].content, false)
         case Ok(table) => State(table, left)
         case Err(_) => s.(pending := left))
    case Vanish(client) => s.(pending := s.pending - {client})
  }

  function Run(d: Digest, actions: seq<Action>): State {
    if actions == [] then State([], map[])
    else Step(d, Run(d, actions[..|actions| - 1]), actions[|actions| - 1])
  }

  /** What every correction's rows are: linked, with evidence, and with the references of the last stage
      there and nowhere else. */
  ghost predicate Sound(d: Digest, rows: seq<Row>) {
    && Linked(d, rows)
    && forall i :: 0 <= i < |rows| ==> RowComplete(rows[i])
  }

  predicate RowComplete(row: Row) {
    row.content.summary != "" && RefsValid(row.content.evidence) && RefsFault(row.content).None?
  }

  ghost predicate TableOk(d: Digest, table: seq<Row>) {
    forall correction :: Sound(d, RowsOf(table, correction))
  }

  /** A pending insertion was right when it was checked, and the correction has not shrunk since. */
  ghost predicate PendingOk(table: seq<Row>, p: Pending) {
    var rows := RowsOf(table, p.content.correction);
    && 1 <= p.seen <= |rows| && p.seen < |ORDER| && p.content.stage == ORDER[p.seen]
    && p.content.signature == rows[0].content.signature && RefsFault(p.content).None?
  }

  ghost predicate Inv(d: Digest, s: State) {
    && TableOk(d, s.table)
    && forall client :: client in s.pending ==> PendingOk(s.table, s.pending[client])
  }

  lemma {:induction false} InsertMembers(rows: seq<Row>, row: Row)
    ensures forall r :: r in InsertBySequence(rows, row) <==> r in rows || r == row
  {
    if rows != [] && rows[|rows| - 1].sequence > row.sequence {
      InsertMembers(rows[..|rows| - 1], row);
      assert rows == rows[..|rows| - 1] + [rows[|rows| - 1]];
    }
  }

  lemma {:induction false} RowsOfMembers(table: seq<Row>, correction: string)
    ensures forall r :: r in RowsOf(table, correction) <==> r in table && r.content.correction == correction
  {
    if table != [] {
      var n := |table| - 1;
      RowsOfMembers(table[..n], correction);
      InsertMembers(RowsOf(table[..n], correction), table[n]);
      assert table == table[..n] + [table[n]];
    }
  }

  /** A row numbered by the length of its correction goes to the end of that correction alone. */
  lemma RowsAfter(d: Digest, table: seq<Row>, row: Row, correction: string)
    requires Linked(d, RowsOf(table, correction)) && (row.content.correction == correction ==> row.sequence == |RowsOf(table, correction)|)
    ensures RowsOf(table + [row], correction) ==
            if row.content.correction == correction then RowsOf(table, correction) + [row] else RowsOf(table, correction)
  {
    var rows := RowsOf(table, correction);
    assert (table + [row])[..|table|] == table;
    if rows != [] {
      assert RowFault(d, rows, |rows| - 1).None?;
    }
  }

  lemma LinkedThen(d: Digest, rows: seq<Row>, c: Content)
    requires Linked(d, rows) && |rows| < |ORDER| && c.stage == ORDER[|rows|]
    requires rows != [] ==> c.signature == rows[0].content.signature
    ensures Linked(d, rows + [NextRow(d, rows, c)])
  {
    var more := rows + [NextRow(d, rows, c)];
    forall i | 0 <= i < |rows| ensures RowFault(d, more, i) == RowFault(d, rows, i) {}
  }

  /** Inserting succeeds exactly when nobody has inserted that stage since the check: the unique
      constraint on the stage stands in for the check that is out of date. */
  lemma CommitsIff(d: Digest, table: seq<Row>, p: Pending)
    requires TableOk(d, table) && PendingOk(table, p)
    ensures Appended(d, table, p.content, false).Ok? <==>
            p.content.summary != "" && RefsValid(p.content.evidence) && |RowsOf(table, p.content.correction)| == p.seen
  {
    var rows := RowsOf(table, p.content.correction);
    assert Sound(d, rows);
    RowsOfMembers(table, p.content.correction);
    assert |rows| <= |ORDER| by { assert RowFault(d, rows, |rows| - 1).None?; }
    if p.seen < |rows| {
      assert RowFault(d, rows, p.seen).None?;
      assert rows[p.seen] in rows;
    } else {
      StageIsNew(d, table, rows, NextRow(d, rows, p.content));
    }
  }

  lemma StageIsNew(d: Digest, table: seq<Row>, rows: seq<Row>, row: Row)
    requires Linked(d, rows) && |rows| < |ORDER| && row.sequence == |rows| && row.content.stage == ORDER[|rows|]
    requires forall r :: r in table && r.content.correction == row.content.correction ==> r in rows
    ensures Insertable(table, row)
  {
    forall r | r in rows ensures r.sequence != row.sequence && r.content.stage != row.content.stage {
      var i :| 0 <= i < |rows| && rows[i] == r;
      assert RowFault(d, rows, i).None?;
    }
  }

  /** One accepted insertion keeps every correction sound. */
  lemma InsertKeepsTable(d: Digest, table: seq<Row>, c: Content)
    requires TableOk(d, table)
    requires var rows := RowsOf(table, c.correction);
             |rows| < |ORDER| && c.stage == ORDER[|rows|] && (rows != [] ==> c.signature == rows[0].content.signature)
    requires c.summary != "" && RefsValid(c.evidence) && RefsFault(c).None?
    ensures var row := NextRow(d, RowsOf(table, c.correction), c);
            TableOk(d, table + [row])
            && forall correction :: RowsOf(table, correction) <= RowsOf(table + [row], correction)
  {
    var rows := RowsOf(table, c.correction);
    assert Sound(d, rows);
    var row := NextRow(d, rows, c);
    LinkedThen(d, rows, c);
    forall correction
      ensures Sound(d, RowsOf(table + [row], correction)) && RowsOf(table, correction) <= RowsOf(table + [row], correction)
    {
      assert Sound(d, RowsOf(table, correction));
      RowsAfter(d, table, row, correction);
    }
  }

  lemma PendingStays(table: seq<Row>, more: seq<Row>, p: Pending)
    requires PendingOk(table, p) && RowsOf(table, p.content.correction) <= RowsOf(more, p.content.correction)
    ensures PendingOk(more, p)
  {
  }

  lemma BeginKeepsInv(d: Digest, s: State, correction: string, signature: string, summary: string, evidence: seq<string>)
    requires Inv(d, s)
    ensures Inv(d, Step(d, s, Begin(correction, signature, summary, evidence)))
  {
    var after := Started(d, s.table, correction, signature, summary, evidence);
    if after.Ok? {
      InsertKeepsTable(d, s.table, FlagContent(correction, signature, summary, evidence));
      forall client | client in s.pending ensures PendingOk(after.value, s.pending[client]) {
        PendingStays(s.table, after.value, s.pending[client]);
      }
    }
  }

  lemma CommitKeepsInv(d: Digest, s: State, client: nat)
    requires Inv(d, s) && client in s.pending
    ensures Inv(d, Step(d, s, CommitAdvance(client)))
  {
    var p := s.pending[client];
    var after := Appended(d, s.table, p.content, false);
    assert PendingOk(s.table, p);
    CommitsIff(d, s.table, p);
    if after.Ok? {
      InsertKeepsTable(d, s.table, p.content);
      forall other | other in s.pending ensures PendingOk(after.value, s.pending[other]) {
        PendingStays(s.table, after.value, s.pending[other]);
      }
    }
  }

  lemma StepKeepsInv(d: Digest, s: State, a: Action)
    requires Inv(d, s)
    ensures Inv(d, Step(d, s, a))
  {
    match a
    case Begin(correction, signature, summary, evidence) => BeginKeepsInv(d, s, correction, signature, summary, evidence);
    case CheckAdvance(client, content) =>
    case CommitAdvance(client) => if client in s.pending { CommitKeepsInv(d, s, client); }
    case Vanish(client) =>
  }

  /** Under every interleaving each correction's rows are a digest-linked prefix of the stage order. */
  lemma {:induction false} RunsKeepInv(d: Digest, actions: seq<Action>)
    ensures Inv(d, Run(d, actions))
  {
    if actions != [] {
      RunsKeepInv(d, actions[..|actions| - 1]);
      StepKeepsInv(d, Run(d, actions[..|actions| - 1]), actions[|actions| - 1]);
    } else {
      assert forall correction :: RowsOf([], correction) == [];
    }
  }

  lemma LinkedPlaces(d: Digest, rows: seq<Row>)
    requires Linked(d, rows)
    ensures |rows| <= |ORDER|
    ensures forall i :: 0 <= i < |rows| ==> rows[i].content.stage == ORDER[i] && rows[i].content.signature == rows[0].content.signature
  {
    if rows != [] { assert RowFault(d, rows, |rows| - 1).None?; }
    forall i | 0 <= i < |rows| ensures rows[i].content.stage == ORDER[i] && rows[i].content.signature == rows[0].content.signature {
      assert RowFault(d, rows, i).None?;
    }
  }

  /** A row of the last stage is the sixth and carries both kinds of references. */
  lemma PreventComplete(d: Digest, rows: seq<Row>, i: nat)
    requires Sound(d, rows) && i < |rows| && rows[i].content.stage.Prevent?
    ensures i == |ORDER| - 1 && |rows| == |ORDER|
    ensures RefsValid(rows[i].content.guardrails) && RefsValid(rows[i].content.verifications)
  {
    LinkedPlaces(d, rows);
    assert RowComplete(rows[i]);
  }

  /** So the ledger never refuses its own rows, and a completed correction has all six stages and names
      a guardrail and a verification. */
  lemma RowsAlwaysDecode(d: Digest, actions: seq<Action>, correction: string)
    ensures var rows := RowsOf(Run(d, actions).table, correction);
            && Decoded(d, rows, 0).None? && |rows| <= |ORDER|
            && (forall i :: 0 <= i < |rows| ==> rows[i].content.stage == ORDER[i] && rows[i].content.signature == rows[0].content.signature)
            && (forall i :: 0 <= i < |rows| && rows[i].content.stage.Prevent? ==>
                  |rows| == |ORDER| && RefsValid(rows[i].content.guardrails) && RefsValid(rows[i].content.verifications))
  {
    RunsKeepInv(d, actions);
    var rows := RowsOf(Run(d, actions).table, correction);
    assert Sound(d, rows);
    LinkedPlaces(d, rows);
    forall i | 0 <= i < |rows| && rows[i].content.stage.Prevent?
      ensures |rows| == |ORDER| && RefsValid(rows[i].content.guardrails) && RefsValid(rows[i].content.verifications)
    {
      PreventComplete(d, rows, i);
    }
  }

  lemma LinkedPrefix(d: Digest, rows: seq<Row>, n: nat)
    requires Linked(d, rows) && n <= |rows|
    ensures Linked(d, rows[..n])
  {
    forall i | 0 <= i < n ensures RowFault(d, rows[..n], i) == RowFault(d, rows, i) {}
  }

  /** The last digest commits to the whole correction: equal rows, or a collision of the digest. */
  lemma {:induction false} LastDigestDetermines(d: Digest, a: seq<Row>, b: seq<Row>)
    requires Linked(d, a) && Linked(d, b) && PreviousDigest(a, |a|) == PreviousDigest(b, |b|)
    ensures a == b || Collides(d)
  {
    if a != [] && b != [] {
      var m, n := |a| - 1, |b| - 1;
      assert RowFault(d, a, m).None? && RowFault(d, b, n).None?;
      var x, y := Payload(a[m].content, m, a[m].previous), Payload(b[n].content, n, b[n].previous);
      assert d(x) == d(y);
      if x == y {
        LinkedPrefix(d, a, m);
        LinkedPrefix(d, b, n);
        LastDigestDetermines(d, a[..m], b[..n]);
        LastSplits(a);
        LastSplits(b);
      }
    }
  }

  lemma AppendLengthens(d: Digest, table: seq<Row>, c: Content)
    requires TableOk(d, table) && Appended(d, table, c, false).Ok?
    ensures |RowsOf(Appended(d, table, c, false).value, c.correction)| == |RowsOf(table, c.correction)| + 1
  {
    assert Sound(d, RowsOf(table, c.correction));
    RowsAfter(d, table, NextRow(d, RowsOf(table, c.correction), c), c.correction);
  }

  /** An insertion that was checked on a shorter correction is refused. */
  lemma StaleIsRefused(d: Digest, table: seq<Row>, p: Pending)
    requires TableOk(d, table) && PendingOk(table, p) && p.seen < |RowsOf(table, p.content.correction)|
    ensures Appended(d, table, p.content, false).Err?
  {
    CommitsIff(d, table, p);
  }

  lemma OtherStaysPending(d: Digest, s: State, first: nat, second: nat)
    requires Inv(d, s) && first in s.pending && second in s.pending && first != second
    ensures var after := Step(d, s, CommitAdvance(first));
            TableOk(d, after.table) && PendingOk(after.table, s.pending[second])
  {
    CommitKeepsInv(d, s, first);
    assert Step(d, s, CommitAdvance(first)).pending[second] == s.pending[second];
  }

  /** Of several clients that passed the same check at most one inserts: the first commit shuts the rest out. */
  lemma FirstCommitWins(d: Digest, actions: seq<Action>, first: nat, second: nat)
    requires var s := Run(d, actions);
             first != second && first in s.pending && second in s.pending
             && s.pending[first].content.correction == s.pending[second].content.correction
             && Appended(d, s.table, s.pending[first].content, false).Ok?
    ensures var s := Run(d, actions);
            Appended(d, Step(d, s, CommitAdvance(first)).table, s.pending[second].content, false).Err?
  {
    var s := Run(d, actions);
    RunsKeepInv(d, actions);
    OtherStaysPending(d, s, first, second);
    AppendLengthens(d, s.table, s.pending[first].content);
    assert PendingOk(s.table, s.pending[second]);
    StaleIsRefused(d, Step(d, s, CommitAdvance(first)).table, s.pending[second]);
  }
}
