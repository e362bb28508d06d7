/** The durable single-use effect fence: one row per effect, and the transactions that move it.

    Each transaction is a function from the stored rows to the new rows or an error; the class
    performs the same transactions in place. Digests are opaque strings. The three identity
    prefixes of the gateway, which keep every identity non-empty and the three kinds of effect
    apart, are constructors here. */
module EffectFence {
  import opened Wrappers

  type Digest = string

  datatype EffectId =
    | Coordination(command: string)
    | Pc(envelope: string)
    | Provider(provider: string, name: string)

  datatype EffectState =
    | Reserved
    | Executing
    | Committed
    | AttemptedUnknown
    | ReconciledCommitted
    | ReconciledNoEffect
    | CancelledPreDispatch

  /** The request and the evidence that an effect identity is bound to for ever. */
  datatype Cut = Cut(request: Digest, permit: Digest, authority: Digest, currentness: Digest)

  datatype Row = Row(cut: Cut, state: EffectState, result: Option<Digest>, reconciliation: Option<Digest>)

  type Rows = map<EffectId, Row>

  datatype FenceError =
    | UnknownEffect
    | DifferentCut
    | NotDispatchable
    | NotExecuting
    | ResultMissing
    | ResultForbidden
    | AfterDispatchClaim
    | NotAmbiguous
    | BarrierActive

  predicate IsUnresolved(state: EffectState) {
    state.Reserved? || state.Executing? || state.AttemptedUnknown?
  }

  /** The row has passed its dispatch claim, so its callback may have run. */
  predicate IsDispatched(state: EffectState) {
    !state.Reserved? && !state.CancelledPreDispatch?
  }

  function Unresolved(rows: Rows): (ids: set<EffectId>) {
    set e | e in rows && IsUnresolved(rows[e].state)
  }

  function ReserveRow(rows: Rows, e: EffectId, cut: Cut): Result<Rows, FenceError> {
    if e in rows then
      if rows[e].cut == cut then Ok(rows) else Err(DifferentCut)
    else Ok(rows[e := Row(cut, Reserved, None, None)])
  }

  /** The second transaction of a dispatch claim; the first one is another ReserveRow. */
  function ClaimRow(rows: Rows, e: EffectId): Result<Rows, FenceError> {
    if e !in rows then Err(UnknownEffect)
    else if !rows[e].state.Reserved? then Err(NotDispatchable)
    else Ok(rows[e := rows[e].(state := Executing)])
  }

  function SettleRow(rows: Rows, e: EffectId, result: Option<Digest>, completionKnown: bool): Result<Rows, FenceError> {
    if e !in rows then Err(UnknownEffect)
    else if !rows[e].state.Executing? then Err(NotExecuting)
    else if completionKnown && result.None? then Err(ResultMissing)
    else
      var state := if completionKnown then Committed else AttemptedUnknown;
      Ok(rows[e := rows[e].(state := state, result := result)])
  }

  function CancelRow(rows: Rows, e: EffectId): Result<Rows, FenceError> {
    if e !in rows then Err(UnknownEffect)
    else if !rows[e].state.Reserved? then Err(AfterDispatchClaim)
    else Ok(rows[e := rows[e].(state := CancelledPreDispatch)])
  }

  function ReconcileRow(rows: Rows, e: EffectId, occurred: bool, result: Option<Digest>, evidence: Digest)
    : Result<Rows, FenceError>
  {
    if occurred && result.None? then Err(ResultMissing)
    else if !occurred && result.Some? then Err(ResultForbidden)
    else if e !in rows then Err(UnknownEffect)
    else if !rows[e].state.Executing? && !rows[e].state.AttemptedUnknown? then Err(NotAmbiguous)
    else
      var state := if occurred then ReconciledCommitted else ReconciledNoEffect;
      Ok(rows[e := rows[e].(state := state, result := result, reconciliation := Some(evidence))])
  }

  /** The edges of the life of one effect. */
  predicate Edge(a: EffectState, b: EffectState) {
    match a
    case Reserved => b.Executing? || b.CancelledPreDispatch?
    case Executing => b.Committed? || b.AttemptedUnknown? || b.ReconciledCommitted? || b.ReconciledNoEffect?
    case AttemptedUnknown => b.ReconciledCommitted? || b.ReconciledNoEffect?
    case _ => false
  }

  /** What one transaction may do to the table: keep every row and every cut, and move states along edges. */
  ghost predicate Advances(before: Rows, after: Rows) {
    forall e :: e in before ==>
      && e in after
      && after[e].cut == before[e].cut
      && (after[e] == before[e] || Edge(before[e].state, after[e].state))
  }

  /** The durable table object. */
  class EffectFence {
    var rows: Rows

    constructor ()
      ensures rows == map[]
    {
      rows := map[];
    }

    method Reserve(e: EffectId, cut: Cut) returns (r: Result<Row, FenceError>)
      modifies this
      ensures match ReserveRow(old(rows), e, cut)
              case Ok(after) => rows == after && e in rows && r == Ok(rows[e])
              case Err(error) => rows == old(rows) && r == Err(error)
      ensures Advances(old(rows), rows)
    {
      if e in rows {
        if rows[e].cut == cut { return Ok(rows[e]); }
        return Err(DifferentCut);
      }
      rows := rows[e := Row(cut, Reserved, None, None)];
      return Ok(rows[e]);
    }

    method ClaimDispatch(e: EffectId, cut: Cut) returns (r: Result<Row, FenceError>)
      modifies this
      ensures match ReserveRow(old(rows), e, cut)
              case Err(error) => rows == old(rows) && r == Err(error)
              case Ok(reserved) =>
                match ClaimRow(reserved, e)
                case Ok(after) => rows == after && e in rows && r == Ok(rows[e])
                case Err(error) => rows == reserved && r == Err(error)
      ensures Advances(old(rows), rows)
    {
      var requested := Reserve(e, cut);
      if requested.Err? { return requested; }
      if !rows[e].state.Reserved? { return Err(NotDispatchable); }
      rows := rows[e := rows[e].(state := Executing)];
      return Ok(rows[e]);
    }

    method Settle(e: EffectId, result: Option<Digest>, completionKnown: bool) returns (r: Result<Row, FenceError>)
      modifies this
      ensures match SettleRow(old(rows), e, result, completionKnown)
              case Ok(after) => rows == after && e in rows && r == Ok(rows[e])
              case Err(error) => rows == old(rows) && r == Err(error)
      ensures r.Ok? ==> r.value.state == (if completionKnown then Committed else AttemptedUnknown) && r.value.result == result
      ensures Advances(old(rows), rows)
    {
      if e !in rows { return Err(UnknownEffect); }
      if !rows[e].state.Executing? { return Err(NotExecuting); }
      if completionKnown && result.None? { return Err(ResultMissing); }
      var state := if completionKnown then Committed else AttemptedUnknown;
      rows := rows[e := rows[e].(state := state, result := result)];
      return Ok(rows[e]);
    }

    method CancelBeforeDispatch(e: EffectId) returns (r: Result<Row, FenceError>)
      modifies this
      ensures match CancelRow(old(rows), e)
              case Ok(after) => rows == after && e in rows && r == Ok(rows[e])
              case Err(error) => rows == old(rows) && r == Err(error)
      ensures Advances(old(rows), rows)
    {
      if e !in rows { return Err(UnknownEffect); }
      if !rows[e].state.Reserved? { return Err(AfterDispatchClaim); }
      rows := rows[e := rows[e].(state := CancelledPreDispatch)];
      return Ok(rows[e]);
    }

    method ReconcileUnknown(e: EffectId, occurred: bool, result: Option<Digest>, evidence: Digest)
      returns (r: Result<Row, FenceError>)
      modifies this
      ensures match ReconcileRow(old(rows), e, occurred, result, evidence)
              case Ok(after) => rows == after && e in rows && r == Ok(rows[e])
              case Err(error) => rows == old(rows) && r == Err(error)
      ensures r.Ok? ==> r.value.state == (if occurred then ReconciledCommitted else ReconciledNoEffect)
                        && r.value.result == result && r.value.reconciliation == Some(evidence)
      ensures Advances(old(rows), rows)
    {
      var state := ReconciledNoEffect;
      if occurred {
        if result.None? { return Err(ResultMissing); }
        state := ReconciledCommitted;
      } else if result.Some? {
        return Err(ResultForbidden);
      }
      if e !in rows { return Err(UnknownEffect); }
      if !rows[e].state.Executing? && !rows[e].state.AttemptedUnknown? { return Err(NotAmbiguous); }
      rows := rows[e := rows[e].(state := state, result := result, reconciliation := Some(evidence))];
      return Ok(rows[e]);
    }

    method AssertClear() returns (r: Result<(), FenceError>)
      ensures r.Ok? <==> forall e :: e in rows ==> !IsUnresolved(rows[e].state)
      ensures r.Err? ==> r.error == BarrierActive
    {
      if Unresolved(rows) != {} {
        assert exists e :: e in Unresolved(rows);
        return Err(BarrierActive);
      }
      assert forall e :: e in rows && IsUnresolved(rows[e].state) ==> e in Unresolved(rows);
      return Ok(());
    }
  }
}
