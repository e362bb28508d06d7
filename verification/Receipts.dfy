/** Trace records, the receipt of a run, and the two checks that tie them together. */
module Receipts {
  import opened Wrappers
  import opened Collections
  import opened EpisodeStore
  import opened Scheduler
  import opened Admission

  datatype Record = Record(
    executionId: string, nodeId: string, emitted: seq<string>, independenceDemonstrated: bool,
    envelope: Option<string>, task: Option<string>, producer: Option<string>,
    snapshot: string, output: Option<string>, sourceVersions: seq<string>, failures: seq<Failure>)

  datatype Reason =
    | InvalidTaskId | InvalidEnvelope | InvalidNodes | InvalidBudget | DuplicateNode
    | Authority | MissingNode | MissingMandatory | ScheduledTarget | InputContract | IndependenceContext
    | NotIndependent | InvalidResult | EpisodeMutation | ExecutionRaised | ExecutionFailed
    | Unverified | NotAdmitted | ClaimDisposition

  datatype Unresolved = Unresolved(reason: Reason, subject: string)

  datatype ResultReceipt = ResultReceipt(
    taskId: string, episode: string, version: nat,
    acceptedClaims: seq<string>, rejectedClaims: seq<string>, dispositionComplete: bool, planOnly: bool,
    unresolved: seq<Unresolved>, failures: seq<Failure>, sourceVersions: seq<string>,
    executionIds: seq<string>, outputs: seq<(string, string)>, producers: seq<(string, string)>,
    envelope: Option<string>)

  /** Append what is not there yet, in order. */
  function AddNew<T(==)>(seen: seq<T>, items: seq<T>): seq<T> {
    if items == [] then seen
    else
      var before := AddNew(seen, items[..|items| - 1]);
      var last := items[|items| - 1];
      if last in before then before else before + [last]
  }

  lemma {:induction false} AddNewMembers<T>(seen: seq<T>, items: seq<T>)
    ensures forall x :: x in AddNew(seen, items) <==> x in seen || x in items
    ensures Distinct(seen) ==> Distinct(AddNew(seen, items))
  {
    if items != [] {
      AddNewMembers(seen, items[..|items| - 1]);
      assert items == items[..|items| - 1] + [items[|items| - 1]];
    }
  }

  function ExecutionIds(records: seq<Record>): seq<string> {
    seq(|records|, i requires 0 <= i < |records| => records[i].executionId)
  }

  function CollectVersions(records: seq<Record>): seq<string> {
    if records == [] then []
    else AddNew(CollectVersions(records[..|records| - 1]), records[|records| - 1].sourceVersions)
  }

  /** The (execution, value) pairs of the records that have a value. */
  function Pairs(records: seq<Record>, pick: Record -> Option<string>): seq<(string, string)> {
    if records == [] then []
    else
      var last := records[|records| - 1];
      var before := Pairs(records[..|records| - 1], pick);
      if pick(last).Some? then before + [(last.executionId, pick(last).value)] else before
  }

  const OUTPUT := (r: Record) => r.output
  const PRODUCER := (r: Record) => r.producer

  /** Non-empty pairs, each for a different known execution. */
  ghost predicate BindingsOk(pairs: seq<(string, string)>, ids: seq<string>) {
    && (forall i :: 0 <= i < |pairs| ==> pairs[i].0 != "" && pairs[i].1 != "" && pairs[i].0 in ids)
    && (forall i, j :: 0 <= i < j < |pairs| ==> pairs[i].0 != pairs[j].0)
  }

  method CheckBindings(pairs: seq<(string, string)>, ids: seq<string>) returns (ok: bool)
    ensures ok <==> BindingsOk(pairs, ids)
  {
    var seen: set<string> := {};
    for i := 0 to |pairs|
      invariant BindingsOk(pairs[..i], ids)
      invariant forall id :: id in seen <==> exists k :: 0 <= k < i && pairs[k].0 == id
    {
      if pairs[i].0 == "" || pairs[i].1 == "" || pairs[i].0 !in ids { return false; }
      if pairs[i].0 in seen { return false; }
      seen := seen + {pairs[i].0};
    }
    assert pairs[..|pairs|] == pairs;
    ok := true;
  }

  ghost predicate Constructible(r: ResultReceipt) {
    && r.taskId != ""
    && r.acceptedClaims == [] && r.rejectedClaims == [] && !r.dispositionComplete && r.planOnly
    && BindingsOk(r.outputs, r.executionIds) && BindingsOk(r.producers, r.executionIds)
  }

  method ConstructReceipt(r: ResultReceipt) returns (ok: bool)
    ensures ok <==> Constructible(r)
  {
    if r.taskId == "" { return false; }
    var overlap := set c | c in r.acceptedClaims && c in r.rejectedClaims;
    if overlap != {} {
      var c :| c in overlap;
      return false;
    }
    ok := CheckBindings(r.outputs, r.executionIds);
    if !ok { return; }
    ok := CheckBindings(r.producers, r.executionIds);
    if !ok { return; }
    ok := r.acceptedClaims == [] && r.rejectedClaims == [] && !r.dispositionComplete && r.planOnly;
  }

  predicate ProducerRecomputes(h: Digests, r: Record) {
    r.producer.Some? ==>
      r.output.Some? && r.producer.value == h.producer(r.nodeId, r.snapshot, r.task, r.output.value)
  }

  /** What the export requires of a receipt and the trace it travels with. */
  ghost predicate ExportAccepts(h: Digests, r: ResultReceipt, records: seq<Record>) {
    && r.planOnly
    && r.executionIds == ExecutionIds(records)
    && r.sourceVersions == CollectVersions(records)
    && (forall i, f :: 0 <= i < |records| && f in records[i].failures ==> f in r.failures)
    && r.outputs == Pairs(records, OUTPUT)
    && r.producers == Pairs(records, PRODUCER)
    && (forall i :: 0 <= i < |records| ==> records[i].envelope == r.envelope && ProducerRecomputes(h, records[i]))
  }

  /** What the records say, gathered in one pass. */
  datatype Gathered = Gathered(ids: seq<string>, versions: seq<string>, failures: seq<Failure>,
                               outputs: seq<(string, string)>, producers: seq<(string, string)>)

  ghost predicate Gathers(records: seq<Record>, g: Gathered) {
    && g.ids == ExecutionIds(records) && g.versions == CollectVersions(records)
    && g.outputs == Pairs(records, OUTPUT) && g.producers == Pairs(records, PRODUCER)
    && FailuresOf(records, g.failures)
  }

  ghost predicate FailuresOf(records: seq<Record>, failures: seq<Failure>) {
    forall f :: f in failures <==> exists k :: 0 <= k < |records| && f in records[k].failures
  }

  function GatherOne(g: Gathered, record: Record): Gathered {
    Gathered(g.ids + [record.executionId], AddNew(g.versions, record.sourceVersions), AddNew(g.failures, record.failures),
             g.outputs + (if record.output.Some? then [(record.executionId, record.output.value)] else []),
             g.producers + (if record.producer.Some? then [(record.executionId, record.producer.value)] else []))
  }

  lemma FailuresThen(records: seq<Record>, failures: seq<Failure>, record: Record)
    requires FailuresOf(records, failures)
    ensures FailuresOf(records + [record], AddNew(failures, record.failures))
  {
    AddNewMembers(failures, record.failures);
    var more := records + [record];
    assert more[|records|] == record && forall k :: 0 <= k < |records| ==> more[k] == records[k];
  }

  lemma GathersOne(records: seq<Record>, g: Gathered, record: Record)
    requires Gathers(records, g)
    ensures Gathers(records + [record], GatherOne(g, record))
  {
    assert (records + [record])[..|records|] == records;
    FailuresThen(records, g.failures, record);
  }

  method Gather(records: seq<Record>) returns (g: Gathered)
    ensures Gathers(records, g)
  {
    g := Gathered([], [], [], [], []);
    for i := 0 to |records|
      invariant Gathers(records[..i], g)
    {
      GathersOne(records[..i], g, records[i]);
      assert records[..i + 1] == records[..i] + [records[i]];
      g := GatherOne(g, records[i]);
    }
    assert records[..|records|] == records;
  }

  method AllBound(h: Digests, envelope: Option<string>, records: seq<Record>) returns (bound: bool)
    ensures bound <==> forall i :: 0 <= i < |records| ==> records[i].envelope == envelope && ProducerRecomputes(h, records[i])
  {
    for i := 0 to |records|
      invariant forall k :: 0 <= k < i ==> records[k].envelope == envelope && ProducerRecomputes(h, records[k])
    {
      if records[i].envelope != envelope || !ProducerRecomputes(h, records[i]) { return false; }
    }
    bound := true;
  }

  method ValidateReceiptTraceBinding(h: Digests, r: ResultReceipt, records: seq<Record>) returns (ok: bool)
    ensures ok <==> ExportAccepts(h, r, records)
  {
    var g := Gather(records);
    var bound := AllBound(h, r.envelope, records);
    ok := r.planOnly && r.executionIds == g.ids && r.sourceVersions == g.versions
          && (forall f :: f in g.failures ==> f in r.failures)
          && r.outputs == g.outputs && r.producers == g.producers && bound;
  }

  lemma {:induction false} PairsAreBound(records: seq<Record>, pick: Record -> Option<string>)
    requires forall i :: 0 <= i < |records| ==> records[i].executionId != "" && pick(records[i]) != Some("")
    requires forall i, j :: 0 <= i < j < |records| ==> records[i].executionId != records[j].executionId
    ensures BindingsOk(Pairs(records, pick), ExecutionIds(records))
  {
    if records != [] {
      var n := |records| - 1;
      PairsAreBound(records[..n], pick);
      assert ExecutionIds(records) == ExecutionIds(records[..n]) + [records[n].executionId];
      assert forall k :: 0 <= k < |Pairs(records[..n], pick)| ==> Pairs(records[..n], pick)[k].0 in ExecutionIds(records[..n]);
    }
  }
}
