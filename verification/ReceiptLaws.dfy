/** What a receipt and its trace say when they are accepted, pair by pair and record by record. */
module ReceiptLaws {
  import opened Wrappers
  import opened Collections
  import opened Admission
  import opened Receipts

  /** The pairs are those of the records that have a value, one each. */
  lemma {:induction false} PairsAre(records: seq<Record>, pick: Record -> Option<string>)
    ensures forall id, v :: (id, v) in Pairs(records, pick) <==> exists r :: r in records && r.executionId == id && pick(r) == Some(v)
    ensures |Pairs(records, pick)| <= |records|
    ensures (forall r :: r in records ==> pick(r).Some?) ==> |Pairs(records, pick)| == |records|
  {
    if records != [] {
      PairsAre(records[..|records| - 1], pick);
      LastSplits(records);
    }
  }

  lemma {:induction false} VersionsAre(records: seq<Record>)
    ensures Distinct(CollectVersions(records))
    ensures forall v :: v in CollectVersions(records) <==> exists r :: r in records && v in r.sourceVersions
  {
    if records != [] {
      var n := |records| - 1;
      VersionsAre(records[..n]);
      AddNewMembers(CollectVersions(records[..n]), records[n].sourceVersions);
      LastSplits(records);
    }
  }

  /** The bindings of a receipt, of one kind, are exactly what its trace has. */
  ghost predicate BindingsTell(pairs: seq<(string, string)>, records: seq<Record>, pick: Record -> Option<string>) {
    forall id, v :: (id, v) in pairs <==> exists r :: r in records && r.executionId == id && pick(r) == Some(v)
  }

  /** An accepted receipt names the executions of its trace in order, its source versions once each, every
      failure, exactly the outputs and producers of its records, and every producer can be computed again
      from node, snapshot, task and output. */
  lemma ExportTells(h: Digests, r: ResultReceipt, records: seq<Record>)
    requires ExportAccepts(h, r, records)
    ensures |r.executionIds| == |records| && forall i :: 0 <= i < |records| ==> r.executionIds[i] == records[i].executionId
    ensures Distinct(r.sourceVersions) && forall v :: v in r.sourceVersions <==> exists x :: x in records && v in x.sourceVersions
    ensures forall x, f :: x in records && f in x.failures ==> f in r.failures
    ensures BindingsTell(r.outputs, records, OUTPUT) && BindingsTell(r.producers, records, PRODUCER)
    ensures forall x :: x in records && x.producer.Some? ==>
              x.output.Some? && x.producer.value == h.producer(x.nodeId, x.snapshot, x.task, x.output.value)
    ensures forall x :: x in records ==> x.envelope == r.envelope
    ensures r.planOnly
  {
    PairsAre(records, OUTPUT);
    PairsAre(records, PRODUCER);
    VersionsAre(records);
    forall x | x in records ensures ProducerRecomputes(h, x) && x.envelope == r.envelope {
      var i :| 0 <= i < |records| && records[i] == x;
    }
    forall x, f | x in records && f in x.failures ensures f in r.failures {
      var i :| 0 <= i < |records| && records[i] == x;
    }
  }

  /** Every bound execution is one of the receipt's, is bound once, and to something. */
  ghost predicate Bound(pairs: seq<(string, string)>, ids: seq<string>) {
    && (forall id, v :: (id, v) in pairs ==> id != "" && v != "" && id in ids)
    && |set i | 0 <= i < |pairs| :: pairs[i].0| == |pairs|
  }

  function Firsts(pairs: seq<(string, string)>): seq<string> {
    seq(|pairs|, i requires 0 <= i < |pairs| => pairs[i].0)
  }

  lemma BoundIff(pairs: seq<(string, string)>, ids: seq<string>)
    ensures BindingsOk(pairs, ids) <==> Bound(pairs, ids)
  {
    var firsts := Firsts(pairs);
    DistinctIff(firsts);
    assert Elements(firsts) == set i | 0 <= i < |pairs| :: pairs[i].0 by {
      assert forall i :: 0 <= i < |pairs| ==> firsts[i] == pairs[i].0 && firsts[i] in firsts;
    }
    assert Distinct(firsts) <==> forall i, j :: 0 <= i < j < |pairs| ==> pairs[i].0 != pairs[j].0 by {
      assert forall i :: 0 <= i < |pairs| ==> firsts[i] == pairs[i].0;
    }
    assert forall i :: 0 <= i < |pairs| ==> (pairs[i].0, pairs[i].1) in pairs;
  }

  /** A receipt can be made exactly when it is about a task, is a plan only, disposes of no claim, and its
      bindings are sound. */
  lemma ConstructibleIff(r: ResultReceipt)
    ensures Constructible(r) <==>
            && r.taskId != "" && r.planOnly && !r.dispositionComplete && |r.acceptedClaims| == 0 && |r.rejectedClaims| == 0
            && Bound(r.outputs, r.executionIds) && Bound(r.producers, r.executionIds)
  {
    BoundIff(r.outputs, r.executionIds);
    BoundIff(r.producers, r.executionIds);
  }
}
