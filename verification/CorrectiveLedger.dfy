/** The corrective-learning ledger: six stages per correction, each row linked to the one before by digest. */
module CorrectiveLedger {
  import opened Wrappers

  datatype Stage = Flag | Understand | Calibrate | Know | Unlearn | Prevent

  const ORDER: seq<Stage> := [Flag, Understand, Calibrate, Know, Unlearn, Prevent]

  /** What a row says; `summary` is stripped, so it is compared with "" where the source strips it. */
  datatype Content = Content(
    correction: string, signature: string, stage: Stage, summary: string,
    evidence: seq<string>, guardrails: seq<string>, verifications: seq<string>)

  datatype Payload = Payload(content: Content, sequence: nat, previous: Option<string>)

  type Digest = Payload -> string

  datatype Row = Row(content: Content, sequence: nat, previous: Option<string>, digest: string)

  datatype LedgerError =
    | InvalidIdentity | InvalidSummary | InvalidRefs | AlreadyBound | Unknown | Complete | WrongStage | MisplacedRefs
    | ExcessStages | StageOrder | SignatureChanged | SequenceBroken | ChainBroken | DigestBroken
    | SignatureRebound | ConstraintViolated

  predicate RefsValid(refs: seq<string>) {
    refs != [] && "" !in refs && forall i, j :: 0 <= i < j < |refs| ==> refs[i] != refs[j]
  }

  function InsertBySequence(rows: seq<Row>, row: Row): seq<Row> {
    if rows == [] || rows[|rows| - 1].sequence <= row.sequence then rows + [row]
    else InsertBySequence(rows[..|rows| - 1], row) + [rows[|rows| - 1]]
  }

  /** The rows of one correction, ordered by sequence. */
  function RowsOf(table: seq<Row>, correction: string): seq<Row> {
    if table == [] then []
    else
      var n := |table| - 1;
      var rows := RowsOf(table[..n], correction);
      if table[n].content.correction == correction then InsertBySequence(rows, table[n]) else rows
  }

  function PreviousDigest(rows: seq<Row>, i: nat): Option<string>
    requires i <= |rows|
  {
    if i == 0 then None else Some(rows[i - 1].digest)
  }

  /** The first thing wrong with the row at place `i`, in the order in which it is looked at. */
  function RowFault(d: Digest, rows: seq<Row>, i: nat): Option<LedgerError>
    requires i < |rows|
  {
    var row, previous := rows[i], PreviousDigest(rows, i);
    if i >= |ORDER| then Some(ExcessStages)
    else if row.content.stage != ORDER[i] then Some(StageOrder)
    else if row.content.signature != rows[0].content.signature then Some(SignatureChanged)
    else if row.sequence != i then Some(SequenceBroken)
    else if row.previous != previous then Some(ChainBroken)
    else if row.digest != d(Payload(row.content, i, previous)) then Some(DigestBroken)
    else None
  }

  /** A digest-linked prefix of the six-stage order under one failure signature. */
  ghost predicate Linked(d: Digest, rows: seq<Row>) {
    forall i :: 0 <= i < |rows| ==> RowFault(d, rows, i).None?
  }

  function Decoded(d: Digest, rows: seq<Row>, from: nat): (r: Option<LedgerError>)
    requires from <= |rows|
    ensures r.None? <==> forall i :: from <= i < |rows| ==> RowFault(d, rows, i).None?
    decreases |rows| - from
  {
    if from == |rows| then None
    else if RowFault(d, rows, from).Some? then RowFault(d, rows, from)
    else Decoded(d, rows, from + 1)
  }

  /** References to guardrails and verifications belong to the last stage, and there both are required. */
  function RefsFault(c: Content): Option<LedgerError> {
    if c.stage.Prevent? then
      if RefsValid(c.guardrails) && RefsValid(c.verifications) then None else Some(InvalidRefs)
    else if c.guardrails != [] || c.verifications != [] then Some(MisplacedRefs)
    else None
  }

  /** The check that `advance` makes in its own transaction; the signature it read goes into the row. */
  function Checked(d: Digest, table: seq<Row>, c: Content): Result<Content, LedgerError> {
    var rows := RowsOf(table, c.correction);
    if rows == [] then Err(Unknown)
    else match Decoded(d, rows, 0)
      case Some(fault) => Err(fault)
      case None =>
        if |rows| >= |ORDER| then Err(Complete)
        else if c.stage != ORDER[|rows|] then Err(WrongStage)
        else match RefsFault(c)
          case Some(fault) => Err(fault)
          case None => Ok(c.(signature := rows[0].content.signature))
  }

  function NextRow(d: Digest, rows: seq<Row>, c: Content): Row {
    var previous := PreviousDigest(rows, |rows|);
    Row(c, |rows|, previous, d(Payload(c, |rows|, previous)))
  }

  /** One row per sequence and per stage of a correction. */
  predicate Insertable(table: seq<Row>, row: Row) {
    forall r :: r in table && r.content.correction == row.content.correction ==>
      r.sequence != row.sequence && r.content.stage != row.content.stage
  }

  /** The inserting transaction. */
  function Appended(d: Digest, table: seq<Row>, c: Content, requireNew: bool): Result<seq<Row>, LedgerError> {
    var rows := RowsOf(table, c.correction);
    if c.summary == "" then Err(InvalidSummary)
    else if !RefsValid(c.evidence) then Err(InvalidRefs)
    else if requireNew && rows != [] then Err(AlreadyBound)
    else if !requireNew && rows == [] then Err(Unknown)
    else
      var fault := Decoded(d, rows, 0);
      if fault.Some? then Err(fault.value)
      else if rows != [] && rows[0].content.signature != c.signature then Err(SignatureRebound)
      else
        var row := NextRow(d, rows, c);
        if Insertable(table, row) then Ok(table + [row]) else Err(ConstraintViolated)
  }

  function FlagContent(correction: string, signature: string, summary: string, evidence: seq<string>): Content {
    Content(correction, signature, Flag, summary, evidence, [], [])
  }

  function Started(d: Digest, table: seq<Row>, correction: string, signature: string, summary: string, evidence: seq<string>):
    Result<seq<Row>, LedgerError>
  {
    if correction == "" || signature == "" then Err(InvalidIdentity)
    else Appended(d, table, FlagContent(correction, signature, summary, evidence), true)
  }

  class Ledger {
    const d: Digest
    var table: seq<Row>

    constructor (d: Digest)
      ensures this.d == d && table == []
    {
      this.d, table := d, [];
    }

    /** One pass carrying the previous digest: the first fault, or none exactly for a linked list of rows. */
    method DecodeRows(rows: seq<Row>) returns (fault: Option<LedgerError>)
      requires rows != []
      ensures fault == Decoded(d, rows, 0) && (fault.None? <==> Linked(d, rows))
    {
      var signature := rows[0].content.signature;
      var previous: Option<string> := None;
      for i := 0 to |rows|
        invariant previous == PreviousDigest(rows, i)
        invariant Decoded(d, rows, 0) == Decoded(d, rows, i)
      {
        var row := rows[i];
        if i >= |ORDER| { return Some(ExcessStages); }
        if row.content.stage != ORDER[i] { return Some(StageOrder); }
        if row.content.signature != signature { return Some(SignatureChanged); }
        if row.sequence != i { return Some(SequenceBroken); }
        if row.previous != previous { return Some(ChainBroken); }
        if row.digest != d(Payload(row.content, i, previous)) { return Some(DigestBroken); }
        previous := Some(row.digest);
      }
      fault := None;
    }

    method Append(c: Content, requireNew: bool) returns (r: Result<Row, LedgerError>)
      modifies this
      ensures match Appended(d, old(table), c, requireNew)
              case Ok(after) => table == after && r == Ok(after[|after| - 1])
              case Err(error) => table == old(table) && r == Err(error)
    {
      if c.summary == "" { return Err(InvalidSummary); }
      if !RefsValid(c.evidence) { return Err(InvalidRefs); }
      var rows := RowsOf(table, c.correction);
      if requireNew && rows != [] { return Err(AlreadyBound); }
      if !requireNew && rows == [] { return Err(Unknown); }
      if rows != [] {
        var fault := DecodeRows(rows);
        if fault.Some? { return Err(fault.value); }
        if rows[0].content.signature != c.signature { return Err(SignatureRebound); }
      }
      var row := NextRow(d, rows, c);
      if !Insertable(table, row) { return Err(ConstraintViolated); }
      table := table + [row];
      return Ok(row);
    }

    method Start(correction: string, signature: string, summary: string, evidence: seq<string>) returns (r: Result<Row, LedgerError>)
      modifies this
      ensures match Started(d, old(table), correction, signature, summary, evidence)
              case Ok(after) => table == after && r == Ok(after[|after| - 1])
              case Err(error) => table == old(table) && r == Err(error)
    {
      if correction == "" || signature == "" { return Err(InvalidIdentity); }
      r := Append(FlagContent(correction, signature, summary, evidence), true);
    }

    /** The reading half of `advance`. */
    method Check(c: Content) returns (r: Result<Content, LedgerError>)
      ensures r == Checked(d, table, c)
    {
      var rows := RowsOf(table, c.correction);
      if rows == [] { return Err(Unknown); }
      var fault := DecodeRows(rows);
      if fault.Some? { return Err(fault.value); }
      if |rows| >= |ORDER| { return Err(Complete); }
      if c.stage != ORDER[|rows|] { return Err(WrongStage); }
      fault := RefsFault(c);
      r := if fault.Some? then Err(fault.value) else Ok(c.(signature := rows[0].content.signature));
    }

    /** Undisturbed, `advance` is its check followed by its insertion. */
    method Advance(c: Content) returns (r: Result<Row, LedgerError>)
      modifies this
      ensures match Checked(d, old(table), c)
              case Err(error) => table == old(table) && r == Err(error)
              case Ok(checked) =>
                match Appended(d, old(table), checked, false)
                case Ok(after) => table == after && r == Ok(after[|after| - 1])
                case Err(error) => table == old(table) && r == Err(error)
    {
      var checked := Check(c);
      if checked.Err? { return Err(checked.error); }
      r := Append(checked.value, false);
    }
  }
}
