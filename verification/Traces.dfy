/** Runs of a loop whose turns are given by a relation; its flag says whether the loop goes on. */
module Traces {
  /** The turn after stage `i` went on to the next stage. */
  ghost predicate GoesAt<S>(turn: (S, S, bool) -> bool, trace: seq<S>, i: nat)
    requires i + 1 < |trace|
  {
    turn(trace[i], trace[i + 1], true)
  }

  /** The stages of a run so far. */
  ghost predicate IsTrace<S>(turn: (S, S, bool) -> bool, start: S, trace: seq<S>) {
    trace != [] && trace[0] == start && forall i :: 0 <= i < |trace| - 1 ==> GoesAt(turn, trace, i)
  }

  /** A complete run: turns that went on and a last one that did not. */
  ghost predicate Completes<S(!new)>(turn: (S, S, bool) -> bool, start: S, turns: nat, end: S) {
    exists trace :: IsTrace(turn, start, trace) && |trace| == turns && turn(trace[turns - 1], end, false)
  }

  lemma TraceOn<S>(turn: (S, S, bool) -> bool, start: S, trace: seq<S>, next: S)
    requires IsTrace(turn, start, trace) && turn(trace[|trace| - 1], next, true)
    ensures IsTrace(turn, start, trace + [next])
  {
    var more := trace + [next];
    forall i | 0 <= i < |more| - 1 ensures GoesAt(turn, more, i) {
      assert i < |trace| - 1 ==> GoesAt(turn, trace, i);
    }
  }

  lemma TraceEnds<S(!new)>(turn: (S, S, bool) -> bool, start: S, trace: seq<S>, end: S)
    requires IsTrace(turn, start, trace) && turn(trace[|trace| - 1], end, false)
    ensures Completes(turn, start, |trace|, end)
  {
  }

  /** What every turn keeps holds at every stage. */
  lemma {:induction false} TraceKeeps<S(!new)>(turn: (S, S, bool) -> bool, start: S, trace: seq<S>, kept: S -> bool)
    requires IsTrace(turn, start, trace) && kept(start)
    requires forall a, b, go :: kept(a) && turn(a, b, go) ==> kept(b)
    ensures kept(trace[|trace| - 1])
  {
    var n := |trace| - 1;
    if n > 0 {
      forall i | 0 <= i < n - 1 ensures GoesAt(turn, trace[..n], i) {
        assert GoesAt(turn, trace, i);
      }
      TraceKeeps(turn, start, trace[..n], kept);
      assert GoesAt(turn, trace, n - 1);
    }
  }

  /** ...and at the end. */
  lemma CompletionKeeps<S(!new)>(turn: (S, S, bool) -> bool, start: S, turns: nat, end: S, kept: S -> bool) returns (last: S)
    requires Completes(turn, start, turns, end) && kept(start)
    requires forall a, b, go :: kept(a) && turn(a, b, go) ==> kept(b)
    ensures kept(end) && kept(last) && turn(last, end, false)
  {
    var trace :| IsTrace(turn, start, trace) && |trace| == turns && turn(trace[turns - 1], end, false);
    TraceKeeps(turn, start, trace, kept);
    last := trace[turns - 1];
  }
}
