/** The bus rules over a repository, and why it does not matter which repository is behind them. */
module CoordinationBus {
  import opened Wrappers
  import opened CoordinationLog
  import opened CoordinationRepository

  datatype Permission = MayPost | MayAcknowledge | MayPublish | MayReview | MayResolve

  datatype Actor = Actor(workstream: string, permissions: set<Permission>)

  datatype Operation =
    | Post(draft: Draft)
    | Acknowledge(event: string, summary: string, payload: string)
    | PublishStatus(thread: string, target: Option<string>, progress: Progress, objective: string, summary: string,
                    issue: Option<string>, acknowledges: Option<string>, supersedes: Option<string>, payload: string)
    | RequestReview(thread: string, reviewer: string, objective: string, summary: string, perspective: string,
                    acknowledges: Option<string>, payload: string)
    | ResolveThread(event: string, summary: string, payload: string)
    | ExitCheckpoint(thread: string, target: Option<string>, progress: Progress, objective: string, summary: string,
                     issue: Option<string>, acknowledges: Option<string>, payload: string)

  datatype BusError = Denied | Invalid | Contradicts | NotFound

  function Find(events: seq<Event>, id: string): Result<Event, BusError> {
    if id == "" then Err(Invalid)
    else match Get(events, id) case Some(e) => Ok(e) case None => Err(NotFound)
  }

  predicate Participates(actor: Actor, e: Event) {
    actor.workstream == e.draft.source || Some(actor.workstream) == e.draft.target
  }

  function OtherParty(actor: Actor, e: Event): Option<string> {
    if actor.workstream != e.draft.source then Some(e.draft.source) else e.draft.target
  }

  /** Who may post what with the generic command. */
  function AuthorizePost(events: seq<Event>, actor: Actor, d: Draft): Option<BusError> {
    if !DraftValid(d) then Some(Invalid)
    else if d.eventType.Decision? then Some(Denied)
    else if d.eventType.Acknowledgement? || d.eventType.Review? then
      var permission := if d.eventType.Review? then MayReview else MayAcknowledge;
      if permission !in actor.permissions then Some(Denied)
      else match Find(events, d.acknowledges.value)
        case Err(e) => Some(e)
        case Ok(original) =>
          if original.draft.target != Some(actor.workstream) || d.target != Some(original.draft.source) then Some(Denied) else None
    else if d.eventType.Resolution? then
      if MayResolve !in actor.permissions then Some(Denied)
      else match Find(events, d.acknowledges.value)
        case Err(e) => Some(e)
        case Ok(original) =>
          if !Participates(actor, original) || d.target != OtherParty(actor, original) then Some(Denied) else None
    else if MayPost !in actor.permissions then Some(Denied)
    else None
  }

  /** The draft that an operation asks to append. */
  function Drafted(events: seq<Event>, actor: Actor, op: Operation): Result<Draft, BusError> {
    match op
    case Post(d) =>
      (match AuthorizePost(events, actor, d) case Some(e) => Err(e) case None => Ok(d))
    case Acknowledge(id, summary, payload) =>
      if MayAcknowledge !in actor.permissions then Err(Denied)
      else (match Find(events, id)
        case Err(e) => Err(e)
        case Ok(o) =>
          if o.draft.target != Some(actor.workstream) then Err(Denied)
          else Ok(Draft(o.draft.thread, actor.workstream, Some(o.draft.source), Acknowledgement, Acknowledged,
                        o.draft.objective, summary, None, None, payload, None, Some(o.id))))
    case PublishStatus(thread, target, progress, objective, summary, issue, acknowledges, supersedes, payload) =>
      if MayPublish !in actor.permissions then Err(Denied)
      else Ok(Draft(thread, actor.workstream, target, Status, progress, objective, summary, issue, None, payload,
                    supersedes, acknowledges))
    case RequestReview(thread, reviewer, objective, summary, perspective, acknowledges, payload) =>
      if MayReview !in actor.permissions then Err(Denied)
      else if perspective == "" then Err(Invalid)
      else Ok(Draft(thread, actor.workstream, Some(reviewer), Status, ReadyForReview, objective, summary, None,
                    Some(perspective), payload, None, acknowledges))
    case ResolveThread(id, summary, payload) =>
      if MayResolve !in actor.permissions then Err(Denied)
      else (match Find(events, id)
        case Err(e) => Err(e)
        case Ok(o) =>
          if !Participates(actor, o) then Err(Denied)
          else Ok(Draft(o.draft.thread, actor.workstream, OtherParty(actor, o), Resolution, Resolved,
                        o.draft.objective, summary, None, None, payload, None, Some(o.id))))
    case ExitCheckpoint(thread, target, progress, objective, summary, issue, acknowledges, payload) =>
      if MayPublish !in actor.permissions then Err(Denied)
      else Ok(Draft(thread, actor.workstream, target, Status, progress, objective, summary, issue, None, payload,
                    None, acknowledges))
  }

  predicate SucceededInThread(events: seq<Event>, thread: string, id: string) {
    exists e :: e in ListThread(events, thread) && e.draft.supersedes == Some(id)
  }

  function AcknowledgedFault(events: seq<Event>, d: Draft): Option<BusError> {
    if d.acknowledges.None? then None
    else match Find(events, d.acknowledges.value)
      case Err(e) => Some(e)
      case Ok(o) => if o.draft.thread != d.thread || Some(o.id) == d.supersedes then Some(Contradicts) else None
  }

  function SupersededFault(events: seq<Event>, d: Draft): Option<BusError> {
    if d.supersedes.None? then None
    else match Find(events, d.supersedes.value)
      case Err(e) => Some(e)
      case Ok(prior) =>
        if prior.draft.thread != d.thread || SucceededInThread(events, d.thread, prior.id) then Some(Contradicts) else None
  }

  /** References stay in their thread, and the bus looks for an earlier successor in that thread only. */
  function Lineage(events: seq<Event>, d: Draft): Option<BusError> {
    var fault := AcknowledgedFault(events, d);
    if fault.Some? then fault else SupersededFault(events, d)
  }

  function Prepare(events: seq<Event>, actor: Actor, op: Operation): Result<Draft, BusError> {
    match Drafted(events, actor, op)
    case Err(e) => Err(e)
    case Ok(d) =>
      if !DraftValid(d) then Err(Invalid)
      else if d.source != actor.workstream then Err(Denied)
      else match Lineage(events, d) case Some(e) => Err(e) case None => Ok(d)
  }

  datatype Request = Request(actor: Actor, op: Operation, time: Moment)

  function SqliteStep(h: Hash, t: Table, r: Request): (Table, Option<BusError>) {
    match Prepare(Events(t.rows), r.actor, r.op)
    case Err(e) => (t, Some(e))
    case Ok(d) => match Append(h, t, d, r.time) case Ok(t') => (t', None) case Err(_) => (t, Some(Contradicts))
  }

  function MemoryStep(h: Hash, clock: nat -> string, events: seq<Event>, r: Request): (seq<Event>, Option<BusError>) {
    match Prepare(events, r.actor, r.op)
    case Err(e) => (events, Some(e))
    case Ok(d) => (Remember(h, clock, events, d), None)
  }

  lemma SameIdentity(h: Hash, rows: seq<Row>, j: nat, k: nat)
    requires RowsOk(h, rows) && j < |rows| && k < |rows| && rows[j].event.id == rows[k].event.id
    ensures j == k
  {
    assert RowOk(h, rows, j) && RowOk(h, rows, k);
  }

  lemma EarlierEvent(h: Hash, rows: seq<Row>, i: nat, id: string) returns (j: nat)
    requires RowsOk(h, rows) && i < |rows| && rows[i].event.draft.supersedes == Some(id)
    ensures j < i && rows[j].event.id == id && rows[j].event.draft.thread == rows[i].event.draft.thread
  {
    assert RowOk(h, rows, i);
    var before := Events(rows[..i]);
    var k :| 0 <= k < i && before[k] == Get(before, id).value;
    j := k;
  }

  lemma SuccessorInThread(h: Hash, rows: seq<Row>, i: nat, k: nat)
    requires RowsOk(h, rows) && i < |rows| && k < |rows| && rows[i].event.draft.supersedes == Some(rows[k].event.id)
    ensures rows[i].event.draft.thread == rows[k].event.draft.thread
  {
    var j := EarlierEvent(h, rows, i, rows[k].event.id);
    SameIdentity(h, rows, j, k);
  }

  /** In an intact log the thread-local search finds every successor there is: the bus check is the
      global unique index. */
  lemma ThreadLocalIsGlobal(h: Hash, t: Table, prior: Event)
    requires Intact(h, t) && prior in Events(t.rows)
    ensures SucceededInThread(Events(t.rows), prior.draft.thread, prior.id) <==>
            exists i :: 0 <= i < |t.rows| && t.rows[i].event.draft.supersedes == Some(prior.id)
  {
    var events := Events(t.rows);
    var k :| 0 <= k < |events| && events[k] == prior;
    KeepMembers(events, (e: Event) => e.draft.thread == prior.draft.thread);
    if i :| 0 <= i < |t.rows| && t.rows[i].event.draft.supersedes == Some(prior.id) {
      SuccessorInThread(h, t.rows, i, k);
      assert events[i] in ListThread(events, prior.draft.thread);
    }
  }
}
