/** Short-window retry suppression: an ordered map that forgets, proved against a history that does not. */
module RetryGuard {
  import opened Wrappers

  datatype Entry = Entry(key: string, time: nat)

  datatype GuardError = InvalidKey | InvalidTime | ClockRegression

  /** Everything that ever happened: accepted entries not rolled back, oldest first; the last clock
      reading; the time of the latest acceptance, rolled back or not. */
  datatype History = History(accepted: seq<Entry>, lastNow: Option<nat>, lastAccepted: Option<nat>)

  /** The key's last acceptance that has not been rolled back. */
  function Last(accepted: seq<Entry>, key: string): (r: Option<nat>)
    ensures r.Some? ==> Entry(key, r.value) in accepted
    ensures r.None? <==> forall e :: e in accepted ==> e.key != key
  {
    if accepted == [] then None
    else
      var n := |accepted| - 1;
      if accepted[n].key == key then Some(accepted[n].time) else Last(accepted[..n], key)
  }

  function WithoutLast(accepted: seq<Entry>, key: string): seq<Entry> {
    if accepted == [] then []
    else
      var n := |accepted| - 1;
      if accepted[n].key == key then accepted[..n] else WithoutLast(accepted[..n], key) + [accepted[n]]
  }

  /** The promise: a repetition within the window of the last standing acceptance is suppressed. */
  predicate Recent(h: History, window: nat, key: string, now: nat) {
    var last := Last(h.accepted, key);
    last.Some? && now - last.value <= window
  }

  function CallFault(h: History, key: string, now: int): Option<GuardError> {
    if key == "" then Some(InvalidKey)
    else if now < 0 then Some(InvalidTime)
    else if h.lastNow.Some? && now < h.lastNow.value then Some(ClockRegression)
    else None
  }

  /** Accepting, on the full history. */
  function Accepted(h: History, window: nat, key: string, now: int): History {
    if CallFault(h, key, now).Some? then h
    else if Recent(h, window, key, now) then h.(lastNow := Some(now))
    else History(h.accepted + [Entry(key, now)], Some(now), Some(now))
  }

  function RolledBack(h: History, key: string, at: nat): History {
    if Last(h.accepted, key) == Some(at) then h.(accepted := WithoutLast(h.accepted, key)) else h
  }

  /** Not older than the window at the latest acceptance. */
  predicate Kept(h: History, window: nat, time: nat) {
    h.lastAccepted.Some? && h.lastAccepted.value - time <= window
  }

  /** Standing acceptances of one key are more than a window apart. */
  ghost predicate Spaced(accepted: seq<Entry>, window: nat) {
    forall i, j :: 0 <= i < j < |accepted| && accepted[i].key == accepted[j].key ==> accepted[i].time + window < accepted[j].time
  }

  ghost predicate Timely(h: History) {
    && (h.lastAccepted.Some? ==> h.lastNow.Some? && h.lastAccepted.value <= h.lastNow.value)
    && forall e :: e in h.accepted ==> h.lastAccepted.Some? && e.time <= h.lastAccepted.value
  }

  ghost predicate Sorted(seen: seq<Entry>) {
    forall i, j :: 0 <= i < j < |seen| ==> seen[i].time <= seen[j].time && seen[i].key != seen[j].key
  }

  /** The map holds exactly the last standing acceptances that are not older than the window. */
  ghost predicate Mirrors(seen: seq<Entry>, h: History, window: nat) {
    forall e: Entry :: e in seen <==> Last(h.accepted, e.key) == Some(e.time) && Kept(h, window, e.time)
  }

  ghost predicate Coherent(seen: seq<Entry>, h: History, window: nat) {
    Sorted(seen) && Mirrors(seen, h, window) && Timely(h) && Spaced(h.accepted, window)
  }

  function Lookup(seen: seq<Entry>, key: string): (r: Option<nat>)
    ensures r.Some? ==> Entry(key, r.value) in seen
    ensures r.None? <==> forall e :: e in seen ==> e.key != key
  {
    if seen == [] then None else if seen[0].key == key then Some(seen[0].time) else Lookup(seen[1..], key)
  }

  function Without(seen: seq<Entry>, key: string): seq<Entry> {
    if seen == [] then []
    else if seen[0].key == key then Without(seen[1..], key)
    else [seen[0]] + Without(seen[1..], key)
  }

  lemma {:induction false} WithoutMembers(seen: seq<Entry>, key: string)
    ensures forall e :: e in Without(seen, key) <==> e in seen && e.key != key
  {
    if seen != [] {
      WithoutMembers(seen[1..], key);
      assert seen == [seen[0]] + seen[1..];
    }
  }

  lemma SortedTail(first: Entry, rest: seq<Entry>)
    requires Sorted(rest) && forall e :: e in rest ==> first.time <= e.time && first.key != e.key
    ensures Sorted([first] + rest)
  {
    var all := [first] + rest;
    forall i, j | 0 <= i < j < |all| ensures all[i].time <= all[j].time && all[i].key != all[j].key {
      assert all[j] == rest[j - 1] && rest[j - 1] in rest;
    }
  }

  lemma {:induction false} WithoutSorted(seen: seq<Entry>, key: string)
    requires Sorted(seen)
    ensures Sorted(Without(seen, key))
  {
    if seen != [] {
      WithoutSorted(seen[1..], key);
      WithoutMembers(seen[1..], key);
      forall e | e in seen[1..] ensures seen[0].time <= e.time && seen[0].key != e.key {
        var i :| 1 <= i < |seen| && seen[i] == e;
      }
      if seen[0].key != key { SortedTail(seen[0], Without(seen[1..], key)); }
    }
  }

  lemma WithoutKeeps(seen: seq<Entry>, key: string)
    requires Sorted(seen)
    ensures Sorted(Without(seen, key)) && forall e :: e in Without(seen, key) <==> e in seen && e.key != key
  {
    WithoutSorted(seen, key);
    WithoutMembers(seen, key);
  }

  lemma {:induction false} LastIsLatest(accepted: seq<Entry>, window: nat, e: Entry)
    requires Spaced(accepted, window) && e in accepted
    ensures Last(accepted, e.key).Some? && (Last(accepted, e.key) == Some(e.time) || e.time + window < Last(accepted, e.key).value)
  {
    var n := |accepted| - 1;
    if accepted[n].key != e.key {
      assert e in accepted[..n];
      LastIsLatest(accepted[..n], window, e);
    }
  }

  lemma {:induction false} WithoutLastSpaced(accepted: seq<Entry>, window: nat, key: string)
    requires Spaced(accepted, window)
    ensures Spaced(WithoutLast(accepted, key), window)
    ensures forall e :: e in WithoutLast(accepted, key) ==> e in accepted
  {
    if accepted != [] {
      var n := |accepted| - 1;
      WithoutLastSpaced(accepted[..n], window, key);
      var rest := WithoutLast(accepted[..n], key);
      forall i | 0 <= i < |rest| && rest[i].key == accepted[n].key ensures rest[i].time + window < accepted[n].time {
        assert rest[i] in accepted[..n];
      }
    }
  }

  lemma {:induction false} LastOfOthers(accepted: seq<Entry>, key: string, other: string)
    requires other != key
    ensures Last(WithoutLast(accepted, key), other) == Last(accepted, other)
  {
    if accepted != [] {
      var n := |accepted| - 1;
      LastOfOthers(accepted[..n], key, other);
      var rest := WithoutLast(accepted[..n], key);
      assert (rest + [accepted[n]])[..|rest|] == rest;
    }
  }

  /** Removing a key's last acceptance uncovers an older one, more than a window before it. */
  lemma {:induction false} LastUncovered(accepted: seq<Entry>, window: nat, key: string)
    requires Spaced(accepted, window)
    ensures var rest := WithoutLast(accepted, key);
            Last(rest, key).Some? ==> Last(accepted, key).Some? && Last(rest, key).value + window < Last(accepted, key).value
  {
    if accepted != [] {
      var n := |accepted| - 1;
      LastUncovered(accepted[..n], window, key);
      var rest := WithoutLast(accepted[..n], key);
      assert (rest + [accepted[n]])[..|rest|] == rest;
    }
  }

  /** Between calls the map answers whether a key is recent exactly as the history does. */
  lemma MapAnswersAlike(seen: seq<Entry>, h: History, window: nat, key: string, now: nat)
    requires Coherent(seen, h, window) && (h.lastNow.Some? ==> h.lastNow.value <= now)
    ensures Recent(h, window, key, now) <==> Lookup(seen, key).Some? && now - Lookup(seen, key).value <= window
  {
    var last := Last(h.accepted, key);
    if last.Some? && now - last.value <= window {
      assert Entry(key, last.value) in seen;
    }
  }

  lemma LastThen(accepted: seq<Entry>, e: Entry, key: string)
    ensures Last(accepted + [e], key) == if e.key == key then Some(e.time) else Last(accepted, key)
  {
    assert (accepted + [e])[..|accepted|] == accepted;
  }

  /** What the history gains when a key is accepted. */
  lemma AcceptKeepsHistory(h: History, window: nat, key: string, now: nat)
    requires Timely(h) && Spaced(h.accepted, window)
    ensures Timely(Accepted(h, window, key, now)) && Spaced(Accepted(h, window, key, now).accepted, window)
  {
    if CallFault(h, key, now).None? && !Recent(h, window, key, now) {
      forall i | 0 <= i < |h.accepted| && h.accepted[i].key == key ensures h.accepted[i].time + window < now {
        LastIsLatest(h.accepted, window, h.accepted[i]);
      }
    }
  }

  /** The map after the insertion and before the pruning. */
  ghost predicate Unpruned(seen: seq<Entry>, h: History, window: nat) {
    && Sorted(seen)
    && (forall e: Entry :: e in seen ==> Last(h.accepted, e.key) == Some(e.time))
    && (forall e: Entry :: Last(h.accepted, e.key) == Some(e.time) && Kept(h, window, e.time) ==> e in seen)
  }

  lemma SortedEnd(kept: seq<Entry>, last: Entry)
    requires Sorted(kept) && forall e :: e in kept ==> e.time <= last.time && e.key != last.key
    ensures Sorted(kept + [last])
  {
    forall i | 0 <= i < |kept| ensures kept[i].time <= last.time && kept[i].key != last.key {
      assert kept[i] in kept;
    }
  }

  lemma SeenBefore(seen: seq<Entry>, h: History, window: nat, e: Entry, now: nat)
    requires Mirrors(seen, h, window) && Timely(h) && e in seen && (h.lastNow.Some? ==> h.lastNow.value <= now)
    ensures e.time <= now
  {
    assert Last(h.accepted, e.key) == Some(e.time);
    assert Entry(e.key, e.time) in h.accepted;
  }

  lemma InsertionSorted(seen: seq<Entry>, h: History, window: nat, key: string, now: nat)
    requires Coherent(seen, h, window) && (h.lastNow.Some? ==> h.lastNow.value <= now)
    ensures Sorted(Without(seen, key) + [Entry(key, now)])
  {
    WithoutKeeps(seen, key);
    forall e | e in Without(seen, key) ensures e.time <= now && e.key != key {
      SeenBefore(seen, h, window, e, now);
    }
    SortedEnd(Without(seen, key), Entry(key, now));
  }

  lemma InsertionUnpruned(seen: seq<Entry>, h: History, window: nat, key: string, now: nat)
    requires Coherent(seen, h, window) && CallFault(h, key, now).None? && !Recent(h, window, key, now)
    ensures Unpruned(Without(seen, key) + [Entry(key, now)], Accepted(h, window, key, now), window)
  {
    var h' := Accepted(h, window, key, now);
    InsertionSorted(seen, h, window, key, now);
    WithoutKeeps(seen, key);
    forall e: Entry ensures Last(h'.accepted, e.key) == if e.key == key then Some(now) else Last(h.accepted, e.key) {
      LastThen(h.accepted, Entry(key, now), e.key);
    }
    forall e: Entry | Last(h'.accepted, e.key) == Some(e.time) && Kept(h', window, e.time) && e.key != key ensures e in seen {
      assert Kept(h, window, e.time);
    }
  }

  /** Dropping the oldest entry loses nothing while it is older than the window. */
  lemma PruneOldest(seen: seq<Entry>, h: History, window: nat)
    requires seen != [] && Unpruned(seen, h, window) && !Kept(h, window, seen[0].time)
    ensures Unpruned(seen[1..], h, window)
  {
    assert forall e :: e in seen ==> e == seen[0] || e in seen[1..];
  }

  /** When the oldest entry is young enough, all are. */
  lemma PrunedMirrors(seen: seq<Entry>, h: History, window: nat)
    requires Unpruned(seen, h, window) && (seen == [] || Kept(h, window, seen[0].time))
    ensures Mirrors(seen, h, window)
  {
    forall e | e in seen ensures Kept(h, window, e.time) {
      var i :| 0 <= i < |seen| && seen[i] == e;
      assert i == 0 || seen[0].time <= seen[i].time;
    }
  }

  lemma RollbackMirrors(seen: seq<Entry>, h: History, window: nat, key: string, at: nat)
    requires Coherent(seen, h, window) && Last(h.accepted, key) == Some(at)
    ensures Coherent(Without(seen, key), RolledBack(h, key, at), window)
  {
    var h' := RolledBack(h, key, at);
    WithoutKeeps(seen, key);
    WithoutLastSpaced(h.accepted, window, key);
    LastUncovered(h.accepted, window, key);
    forall e: Entry | e.key != key ensures Last(h'.accepted, e.key) == Last(h.accepted, e.key) {
      LastOfOthers(h.accepted, key, e.key);
    }
    assert Entry(key, at) in h.accepted;
  }

  /** A rollback that finds nothing in the map concerns nothing that could still suppress. */
  lemma MissedRollback(seen: seq<Entry>, h: History, window: nat, key: string, at: nat)
    requires Coherent(seen, h, window) && Lookup(seen, key) != Some(at)
    ensures Coherent(seen, RolledBack(h, key, at), window)
  {
    if Last(h.accepted, key) == Some(at) {
      assert !Kept(h, window, at);
      RollbackMirrors(seen, h, window, key, at);
      forall e | e in seen ensures e.key != key {
        assert e.key == key ==> Last(h.accepted, key) == Some(e.time);
      }
      WithoutKeeps(seen, key);
      assert forall e :: e in Without(seen, key) <==> e in seen;
    }
  }

  /** What the bus did with the draft: a confirmed write, an unconfirmed one, or an exception. */
  datatype Outcome = Confirmed | Unconfirmed | Raised

  datatype PostState = Written | DuplicateSuppressed | Failed(rolledBack: bool) | PassedOn

  /** One guarded post of a draft with the given retry key. */
  datatype Attempt = Attempt(key: string, now: int, outcome: Outcome)

  /** Suppressed within the window of the last standing write, otherwise whatever the bus made of it. */
  function PostAnswer(h: History, window: nat, a: Attempt): Result<PostState, GuardError> {
    match CallFault(h, a.key, a.now)
    case Some(fault) => Err(fault)
    case None =>
      if Recent(h, window, a.key, a.now) then Ok(DuplicateSuppressed)
      else match a.outcome case Confirmed => Ok(Written) case Unconfirmed => Ok(Failed(true)) case Raised => Ok(PassedOn)
  }

  predicate Releases(h: History, window: nat, a: Attempt) {
    CallFault(h, a.key, a.now).None? && !Recent(h, window, a.key, a.now) && !a.outcome.Confirmed?
  }

  /** A write that was not confirmed is rolled back. */
  function AfterPost(h: History, window: nat, a: Attempt): History {
    var h' := Accepted(h, window, a.key, a.now);
    if Releases(h, window, a) then RolledBack(h', a.key, a.now) else h'
  }

  lemma AcceptThenRollback(h: History, window: nat, key: string, now: nat)
    requires CallFault(h, key, now).None? && !Recent(h, window, key, now)
    ensures Last(Accepted(h, window, key, now).accepted, key) == Some(now)
    ensures RolledBack(Accepted(h, window, key, now), key, now) == History(h.accepted, Some(now), Some(now))
  {
    LastThen(h.accepted, Entry(key, now), key);
  }

  function PostRun(window: nat, attempts: seq<Attempt>): History {
    if attempts == [] then History([], None, None)
    else AfterPost(PostRun(window, attempts[..|attempts| - 1]), window, attempts[|attempts| - 1])
  }

  /** The attempts of a run that were written, in order. */
  function WrittenIn(window: nat, attempts: seq<Attempt>): seq<Entry> {
    if attempts == [] then []
    else
      var n := |attempts| - 1;
      var a := attempts[n];
      WrittenIn(window, attempts[..n])
      + if PostAnswer(PostRun(window, attempts[..n]), window, a) == Ok(Written) then [Entry(a.key, a.now)] else []
  }

  lemma PostKeepsHistory(h: History, window: nat, a: Attempt)
    requires Timely(h) && Spaced(h.accepted, window)
    ensures Timely(AfterPost(h, window, a)) && Spaced(AfterPost(h, window, a).accepted, window)
  {
    if Releases(h, window, a) {
      AcceptThenRollback(h, window, a.key, a.now);
    } else if a.now >= 0 {
      AcceptKeepsHistory(h, window, a.key, a.now);
    }
  }

  /** Over every run of guarded posts: what stands is what was written, and two writes with the same
      retry key are more than a window apart. */
  lemma {:induction false} WritesAreSpaced(window: nat, attempts: seq<Attempt>)
    ensures PostRun(window, attempts).accepted == WrittenIn(window, attempts)
    ensures Timely(PostRun(window, attempts)) && Spaced(WrittenIn(window, attempts), window)
  {
    if attempts != [] {
      var n := |attempts| - 1;
      WritesAreSpaced(window, attempts[..n]);
      var h, a := PostRun(window, attempts[..n]), attempts[n];
      PostKeepsHistory(h, window, a);
      if Releases(h, window, a) {
        AcceptThenRollback(h, window, a.key, a.now);
      }
    }
  }

  lemma PostLeaves(h: History, window: nat, a: Attempt)
    requires CallFault(h, a.key, a.now).None? && !Recent(h, window, a.key, a.now)
    ensures var h' := AfterPost(h, window, a);
            && h'.lastNow == Some(a.now)
            && Last(h'.accepted, a.key) == if a.outcome.Confirmed? then Some(a.now) else Last(h.accepted, a.key)
  {
    AcceptThenRollback(h, window, a.key, a.now);
  }

  /** What a post reports: written when the bus confirmed the write, failed with its reservation released when
      it did not, the bus's own exception when it raised, and suppressed only within the window. */
  lemma PostReports(h: History, window: nat, a: Attempt)
    requires CallFault(h, a.key, a.now).None?
    ensures var answer, last := PostAnswer(h, window, a), Last(h.accepted, a.key);
            && (answer == Ok(DuplicateSuppressed) <==> last != None && a.now <= last.value + window)
            && (answer != Ok(DuplicateSuppressed) ==>
                  && (answer == Ok(Written) <==> a.outcome == Confirmed) && (answer == Ok(PassedOn) <==> a.outcome == Raised)
                  && (answer == Ok(Failed(true)) <==> a.outcome == Unconfirmed))
  {
  }

  /** A failed or raising post may be repeated at once, and a written one may not until the window is over. */
  lemma RepeatedPost(h: History, window: nat, a: Attempt, again: Attempt)
    requires CallFault(h, a.key, a.now).None? && !Recent(h, window, a.key, a.now)
    requires again.key == a.key && again.now >= a.now
    ensures PostAnswer(AfterPost(h, window, a), window, again) == Ok(DuplicateSuppressed) <==>
            a.outcome.Confirmed? && again.now - a.now <= window
  {
    PostLeaves(h, window, a);
    SuppressedWhenRecent(AfterPost(h, window, a), window, again);
  }

  lemma SuppressedWhenRecent(h: History, window: nat, a: Attempt)
    requires a.key != "" && a.now >= 0 && h.lastNow.Some? && h.lastNow.value <= a.now
    ensures PostAnswer(h, window, a) == Ok(DuplicateSuppressed) <==>
            Last(h.accepted, a.key).Some? && a.now - Last(h.accepted, a.key).value <= window
  {
  }

  class RetryGuard {
    const window: nat
    var seen: seq<Entry>
    var lastNow: Option<nat>
    ghost var history: History

    ghost predicate Valid()
      reads this
    {
      Coherent(seen, history, window) && lastNow == history.lastNow
    }

    constructor (window: nat)
      ensures Valid() && this.window == window && history == History([], None, None) && seen == []
    {
      this.window, seen, lastNow := window, [], None;
      history := History([], None, None);
    }

    /** The answer is the full history's answer, although the map is pruned. */
    method Accept(key: string, now: int) returns (r: Result<bool, GuardError>)
      requires Valid()
      modifies this
      ensures Valid() && history == Accepted(old(history), window, key, now)
      ensures match CallFault(old(history), key, now)
              case Some(fault) => r == Err(fault) && seen == old(seen)
              case None => r == Ok(!Recent(old(history), window, key, now))
      ensures r == Ok(true) ==> forall e :: e in seen ==> now - e.time <= window
    {
      if key == "" { return Err(InvalidKey); }
      if now < 0 { return Err(InvalidTime); }
      if lastNow.Some? && now < lastNow.value { return Err(ClockRegression); }
      lastNow := Some(now);
      var previous := Lookup(seen, key);
      MapAnswersAlike(seen, history, window, key, now);
      AcceptKeepsHistory(history, window, key, now);
      if previous.Some? && now - previous.value <= window {
        history := Accepted(history, window, key, now);
        return Ok(false);
      }
      InsertionUnpruned(seen, history, window, key, now);
      history := Accepted(history, window, key, now);
      seen := Without(seen, key) + [Entry(key, now)];
      Prune(key, now);
      return Ok(true);
    }

    method Prune(key: string, now: nat)
      requires Unpruned(seen, history, window) && history.lastAccepted == Some(now) && Last(history.accepted, key) == Some(now)
      modifies this`seen
      ensures Sorted(seen) && Mirrors(seen, history, window)
    {
      var cutoff := now - window;
      while seen != []
        invariant Unpruned(seen, history, window)
        decreases |seen|
      {
        var oldest := seen[0];
        if oldest.time >= cutoff { break; }
        if oldest.key == key { break; }
        PruneOldest(seen, history, window);
        seen := seen[1..];
      }
      PrunedMirrors(seen, history, window);
    }

    /** True exactly for a last standing acceptance that pruning has not forgotten; either way the map
        goes on agreeing with the history. */
    method RollbackAccept(key: string, at: int) returns (r: Result<bool, GuardError>)
      requires Valid()
      modifies this
      ensures Valid() && lastNow == old(lastNow)
      ensures r == if key == "" then Err(InvalidKey) else if at < 0 then Err(InvalidTime)
                   else Ok(Last(old(history).accepted, key) == Some(at) && Kept(old(history), window, at))
      ensures history == if key == "" || at < 0 then old(history) else RolledBack(old(history), key, at)
    {
      if key == "" { return Err(InvalidKey); }
      if at < 0 { return Err(InvalidTime); }
      if Lookup(seen, key) != Some(at) {
        MissedRollback(seen, history, window, key, at);
        history := RolledBack(history, key, at);
        return Ok(false);
      }
      RollbackMirrors(seen, history, window, key, at);
      history := RolledBack(history, key, at);
      seen := Without(seen, key);
      return Ok(true);
    }

    /** The reservation, the write and, unless the write is confirmed, the release; the draft's retry
        key is a digest and so not empty. The bus is reached only when the key was accepted. */
    method GuardedPost(a: Attempt) returns (r: Result<PostState, GuardError>, reachedBus: bool)
      requires Valid() && a.key != ""
      modifies this
      ensures Valid() && r == PostAnswer(old(history), window, a) && history == AfterPost(old(history), window, a)
      ensures reachedBus <==> r.Ok? && r.value != DuplicateSuppressed
    {
      reachedBus := false;
      if a.now < 0 { return Err(InvalidTime), false; }
      var accepted := Accept(a.key, a.now);
      if accepted.Err? { return Err(accepted.error), false; }
      if !accepted.value { return Ok(DuplicateSuppressed), false; }
      reachedBus := true;
      if a.outcome.Confirmed? { return Ok(Written), true; }
      AcceptThenRollback(old(history), window, a.key, a.now);
      var rolledBack := RollbackAccept(a.key, a.now);
      r := if a.outcome.Raised? then Ok(PassedOn) else Ok(Failed(rolledBack.value));
    }
  }

  datatype Call = AcceptCall(key: string, now: int) | RollbackCall(key: string, at: int)

  function AfterCall(h: History, window: nat, c: Call): History {
    match c
    case AcceptCall(key, now) => Accepted(h, window, key, now)
    case RollbackCall(key, at) => if key == "" || at < 0 then h else RolledBack(h, key, at)
  }

  /** What the history that never forgets says; a rollback of a forgotten acceptance answers false. */
  function Answer(h: History, window: nat, c: Call): Result<bool, GuardError> {
    match c
    case AcceptCall(key, now) =>
      (match CallFault(h, key, now) case Some(fault) => Err(fault) case None => Ok(!Recent(h, window, key, now)))
    case RollbackCall(key, at) =>
      if key == "" then Err(InvalidKey) else if at < 0 then Err(InvalidTime)
      else Ok(Last(h.accepted, key) == Some(at) && Kept(h, window, at))
  }

  /** A call to accept is an error without a key, before time began, or when the clock has gone back; it is
      suppressed within the window of the key's last standing acceptance; otherwise it is accepted. */
  lemma AcceptAnswers(h: History, window: nat, key: string, now: int)
    ensures var answer, last := Answer(h, window, AcceptCall(key, now)), Last(h.accepted, key);
            && (answer.Err? <==> key == "" || now < 0 || (h.lastNow.Some? && now < h.lastNow.value))
            && (answer.Ok? ==> answer.value == (last == None || now > last.value + window))
  {
  }

  function HistoryOf(window: nat, calls: seq<Call>): History {
    if calls == [] then History([], None, None)
    else AfterCall(HistoryOf(window, calls[..|calls| - 1]), window, calls[|calls| - 1])
  }

  method Handle(guard: RetryGuard, c: Call) returns (r: Result<bool, GuardError>)
    requires guard.Valid()
    modifies guard
    ensures guard.Valid() && guard.history == AfterCall(old(guard.history), guard.window, c)
    ensures r == Answer(old(guard.history), guard.window, c)
  {
    match c {
      case AcceptCall(key, now) => r := guard.Accept(key, now);
      case RollbackCall(key, at) => r := guard.RollbackAccept(key, at);
    }
  }

  /** The answers so far are those of the full history. */
  ghost predicate Answered(window: nat, calls: seq<Call>, answers: seq<Result<bool, GuardError>>) {
    |answers| <= |calls| && forall k :: 0 <= k < |answers| ==> AnsweredAt(window, calls, k, answers[k])
  }

  /** The call at place `k` is answered as the full history answers it. */
  ghost predicate AnsweredAt(window: nat, calls: seq<Call>, k: nat, r: Result<bool, GuardError>)
    requires k < |calls|
  {
    r == Answer(HistoryOf(window, calls[..k]), window, calls[k])
  }

  lemma OneMoreAnswered(window: nat, calls: seq<Call>, answers: seq<Result<bool, GuardError>>, r: Result<bool, GuardError>)
    requires Answered(window, calls, answers) && |answers| < |calls|
    requires r == Answer(HistoryOf(window, calls[..|answers|]), window, calls[|answers|])
    ensures Answered(window, calls, answers + [r])
    ensures HistoryOf(window, calls[..|answers| + 1]) == AfterCall(HistoryOf(window, calls[..|answers|]), window, calls[|answers|])
  {
    assert AnsweredAt(window, calls, |answers|, r);
    assert calls[..|answers| + 1][..|answers|] == calls[..|answers|];
  }

  /** Every sequence of calls on a new guard is answered as the full history answers it. */
  method AnswerAll(window: nat, calls: seq<Call>) returns (answers: seq<Result<bool, GuardError>>)
    ensures |answers| == |calls| && Answered(window, calls, answers)
  {
    var guard := new RetryGuard(window);
    answers := [];
    for i := 0 to |calls|
      invariant |answers| == i && fresh(guard) && guard.Valid() && guard.window == window
      invariant guard.history == HistoryOf(window, calls[..i]) && Answered(window, calls, answers)
    {
      var r := Handle(guard, calls[i]);
      OneMoreAnswered(window, calls, answers, r);
      answers := answers + [r];
    }
  }

  /** What a rollback would answer if nothing were ever forgotten. */
  function Unforgetting(h: History, key: string, at: nat): bool {
    Last(h.accepted, key) == Some(at)
  }

  /** Call `k` was an acceptance. */
  ghost predicate AcceptedAt(window: nat, calls: seq<Call>, k: nat)
    requires k < |calls|
  {
    calls[k].AcceptCall? && Answer(HistoryOf(window, calls[..k]), window, calls[k]) == Ok(true)
  }

  ghost predicate Ordered(h: History) {
    && (h.accepted != [] ==> h.lastAccepted.Some?)
    && (h.lastAccepted.Some? ==> h.lastNow.Some? && h.lastAccepted.value <= h.lastNow.value)
  }

  /** One call: an acceptance becomes the latest one, and nothing else changes that. */
  lemma LatestAfterCall(h: History, window: nat, c: Call)
    requires Ordered(h)
    ensures Ordered(AfterCall(h, window, c))
    ensures if c.AcceptCall? && Answer(h, window, c) == Ok(true)
            then c.now >= 0 && AfterCall(h, window, c).lastAccepted == Some(c.now) && (h.lastAccepted.Some? ==> h.lastAccepted.value <= c.now)
            else AfterCall(h, window, c).lastAccepted == h.lastAccepted
  {
  }

  ghost predicate SomeAccepted(window: nat, calls: seq<Call>, now: int) {
    exists k :: 0 <= k < |calls| && AcceptedAt(window, calls, k) && calls[k].now == now
  }

  ghost predicate AllAcceptedBy(window: nat, calls: seq<Call>, latest: Option<nat>) {
    forall k :: 0 <= k < |calls| && AcceptedAt(window, calls, k) ==> latest.Some? && calls[k].now <= latest.value
  }

  /** The latest acceptance of the history is the latest among the calls. */
  ghost predicate Latest(window: nat, calls: seq<Call>) {
    var latest := HistoryOf(window, calls).lastAccepted;
    Ordered(HistoryOf(window, calls)) && AllAcceptedBy(window, calls, latest)
    && (latest.Some? ==> SomeAccepted(window, calls, latest.value))
  }

  lemma AcceptedBefore(window: nat, calls: seq<Call>, n: nat, k: nat)
    requires k < n <= |calls|
    ensures AcceptedAt(window, calls[..n], k) <==> AcceptedAt(window, calls, k)
  {
    assert calls[..n][..k] == calls[..k];
  }

  lemma SomeAcceptedStays(window: nat, calls: seq<Call>, n: nat, now: int)
    requires n <= |calls| && SomeAccepted(window, calls[..n], now)
    ensures SomeAccepted(window, calls, now)
  {
    var k :| 0 <= k < n && AcceptedAt(window, calls[..n], k) && calls[..n][k].now == now;
    AcceptedBefore(window, calls, n, k);
  }

  lemma AllAcceptedThen(window: nat, calls: seq<Call>, early: Option<nat>, late: Option<nat>)
    requires calls != [] && AllAcceptedBy(window, calls[..|calls| - 1], early)
    requires early.Some? ==> late.Some? && early.value <= late.value
    requires AcceptedAt(window, calls, |calls| - 1) ==> late.Some? && calls[|calls| - 1].now <= late.value
    ensures AllAcceptedBy(window, calls, late)
  {
    var n := |calls| - 1;
    forall k | 0 <= k < |calls| && AcceptedAt(window, calls, k) ensures late.Some? && calls[k].now <= late.value {
      if k < n { AcceptedBefore(window, calls, n, k); }
    }
  }

  lemma LatestThen(window: nat, calls: seq<Call>)
    requires calls != [] && Latest(window, calls[..|calls| - 1])
    ensures Latest(window, calls)
  {
    var n := |calls| - 1;
    var before, after := HistoryOf(window, calls[..n]), HistoryOf(window, calls);
    LatestAfterCall(before, window, calls[n]);
    AllAcceptedThen(window, calls, before.lastAccepted, after.lastAccepted);
    if !AcceptedAt(window, calls, n) && before.lastAccepted.Some? {
      SomeAcceptedStays(window, calls, n, before.lastAccepted.value);
    }
  }

  lemma {:induction false} AlwaysLatest(window: nat, calls: seq<Call>)
    ensures Latest(window, calls)
  {
    if calls != [] {
      AlwaysLatest(window, calls[..|calls| - 1]);
      LatestThen(window, calls);
    }
  }

  /** After any calls the guard answers a rollback as if it had forgotten nothing, except for a standing
      acceptance that was followed by another one more than a window later. */
  lemma RollbackIff(window: nat, calls: seq<Call>, key: string, at: nat)
    requires key != ""
    ensures var h := HistoryOf(window, calls);
            Answer(h, window, RollbackCall(key, at)) == Ok(Unforgetting(h, key, at)) <==>
            !(Unforgetting(h, key, at) && exists k :: 0 <= k < |calls| && AcceptedAt(window, calls, k) && calls[k].now > at + window)
  {
    AlwaysLatest(window, calls);
  }

  lemma HistoryThen(window: nat, calls: seq<Call>, c: Call)
    ensures HistoryOf(window, calls + [c]) == AfterCall(HistoryOf(window, calls), window, c)
  {
    assert (calls + [c])[..|calls|] == calls;
  }

  const A_AT_0: Entry := Entry("a", 0)
  const B_AT_2: Entry := Entry("b", 2)

  lemma AcceptA()
    ensures AfterCall(History([], None, None), 1, AcceptCall("a", 0)) == History([A_AT_0], Some(0), Some(0))
  {
  }

  lemma AcceptB()
    ensures AfterCall(History([A_AT_0], Some(0), Some(0)), 1, AcceptCall("b", 2)) == History([A_AT_0] + [B_AT_2], Some(2), Some(2))
  {
    assert Last([A_AT_0], "b").None?;
  }

  lemma StandingA()
    ensures Last([A_AT_0] + [B_AT_2], "a") == Some(0)
  {
    LastThen([A_AT_0], B_AT_2, "a");
  }

  /** "a" accepted at 0 is forgotten when "b" is accepted at 2 with a window of 1. */
  lemma ForgottenRollback()
    ensures var h := HistoryOf(1, [AcceptCall("a", 0)] + [AcceptCall("b", 2)]);
            Unforgetting(h, "a", 0) && Answer(h, 1, RollbackCall("a", 0)) == Ok(false)
  {
    HistoryThen(1, [], AcceptCall("a", 0));
    assert [] + [AcceptCall("a", 0)] == [AcceptCall("a", 0)];
    AcceptA();
    HistoryThen(1, [AcceptCall("a", 0)], AcceptCall("b", 2));
    AcceptB();
    StandingA();
  }
}
