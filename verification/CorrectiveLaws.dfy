/** What a correction needs to begin, to go on and to be complete, in terms of what its rows say. */
module CorrectiveLaws {
  import opened Wrappers
  import opened Collections
  import opened CorrectiveLedger
  import opened CorrectiveRuns

  /** At least one reference, none of them empty, none twice. */
  ghost predicate Cited(refs: seq<string>) {
    |refs| > 0 && (forall r :: r in refs ==> r != "") && |Elements(refs)| == |refs|
  }

  lemma CitedIff(refs: seq<string>)
    ensures RefsValid(refs) <==> Cited(refs)
  {
    DistinctIff(refs);
  }

  /** A row cites its evidence; the last stage names guardrails and verifications, the others neither. */
  ghost predicate WellCited(c: Content) {
    && c.summary != "" && Cited(c.evidence)
    && if c.stage == Prevent then Cited(c.guardrails) && Cited(c.verifications) else c.guardrails == [] && c.verifications == []
  }

  /** Every row of every reachable correction is well cited and stands at its stage. */
  lemma RowsWellCited(d: Digest, actions: seq<Action>, correction: string, i: nat)
    requires i < |RowsOf(Run(d, actions).table, correction)|
    ensures var row := RowsOf(Run(d, actions).table, correction)[i];
            WellCited(row.content) && i < 6 && row.content.stage == [Flag, Understand, Calibrate, Know, Unlearn, Prevent][i]
            && row.content.correction == correction && row.sequence == i
  {
    RunsKeepInv(d, actions);
    var rows := RowsOf(Run(d, actions).table, correction);
    assert Sound(d, rows);
    assert RowComplete(rows[i]) && RowFault(d, rows, i).None?;
    RowsOfMembers(Run(d, actions).table, correction);
    assert rows[i] in rows;
    CitedIff(rows[i].content.evidence);
    CitedIff(rows[i].content.guardrails);
    CitedIff(rows[i].content.verifications);
  }

  /** A correction can be begun exactly once, with its names, a summary and evidence. */
  lemma BeginsIff(d: Digest, table: seq<Row>, correction: string, signature: string, summary: string, evidence: seq<string>)
    requires TableOk(d, table)
    ensures Started(d, table, correction, signature, summary, evidence).Ok? <==>
            && correction != "" && signature != "" && summary != "" && Cited(evidence)
            && forall r :: r in table ==> r.content.correction != correction
  {
    CitedIff(evidence);
    RowsOfMembers(table, correction);
    var rows := RowsOf(table, correction);
    assert rows == [] <==> forall r :: r in table ==> r.content.correction != correction by {
      assert rows != [] ==> rows[0] in rows;
    }
  }

  /** The check of an undisturbed `advance` passes exactly for the next stage with the right references. */
  lemma CheckPassesIff(d: Digest, table: seq<Row>, c: Content)
    requires TableOk(d, table)
    ensures var rows := RowsOf(table, c.correction);
            Checked(d, table, c).Ok? <==>
            && 0 < |rows| < 6 && c.stage == [Flag, Understand, Calibrate, Know, Unlearn, Prevent][|rows|]
            && if c.stage == Prevent then Cited(c.guardrails) && Cited(c.verifications) else c.guardrails == [] && c.verifications == []
  {
    assert Sound(d, RowsOf(table, c.correction));
    CitedIff(c.guardrails);
    CitedIff(c.verifications);
  }

  /** So in every reachable state the next stage is accepted from whoever brings it, well cited. */
  lemma NextStageIsAccepted(d: Digest, actions: seq<Action>, c: Content)
    requires var rows := RowsOf(Run(d, actions).table, c.correction);
             0 < |rows| < 6 && c.stage == [Flag, Understand, Calibrate, Know, Unlearn, Prevent][|rows|]
    requires WellCited(c)
    ensures var table := Run(d, actions).table;
            Checked(d, table, c).Ok? && Appended(d, table, Checked(d, table, c).value, false).Ok?
  {
    RunsKeepInv(d, actions);
    var table := Run(d, actions).table;
    var rows := RowsOf(table, c.correction);
    assert Sound(d, rows);
    CheckPassesIff(d, table, c);
    CitedIff(c.evidence);
    CommitsIff(d, table, Pending(Checked(d, table, c).value, |rows|));
  }

  /** The inserting transaction succeeds exactly for a named summary and cited evidence, on a new correction
      or an old one as was asked, under the correction's own failure signature, at a stage it does not have. */
  lemma AppendsIff(d: Digest, table: seq<Row>, c: Content, requireNew: bool)
    requires TableOk(d, table)
    ensures var rows := RowsOf(table, c.correction);
            Appended(d, table, c, requireNew).Ok? <==>
            && c.summary != "" && Cited(c.evidence) && (requireNew <==> rows == [])
            && forall r :: r in rows ==> r.content.signature == c.signature && r.content.stage != c.stage
  {
    var rows := RowsOf(table, c.correction);
    assert Sound(d, rows);
    CitedIff(c.evidence);
    RowsOfMembers(table, c.correction);
    LinkedPlaces(d, rows);
    SequencesAre(d, rows);
    assert rows != [] ==> rows[0] in rows;
  }

  lemma SequencesAre(d: Digest, rows: seq<Row>)
    requires Linked(d, rows)
    ensures forall r :: r in rows ==> r.sequence < |rows| && r.content.signature == rows[0].content.signature
  {
    forall r | r in rows ensures r.sequence < |rows| && r.content.signature == rows[0].content.signature {
      var i :| 0 <= i < |rows| && rows[i] == r;
      assert RowFault(d, rows, i).None?;
    }
  }
}
