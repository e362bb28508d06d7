/** The loops of the guarded vote, proved to compute the judgement on the set of candidates. */
module GuardedVoteRun {
  import opened Wrappers
  import opened Collections
  import opened GuardedVote

  function Filter(s: seq<Candidate>, p: Candidate -> bool): seq<Candidate> {
    if s == [] then [] else Filter(s[..|s| - 1], p) + if p(s[|s| - 1]) then [s[|s| - 1]] else []
  }

  lemma {:induction false} FilterMembers(s: seq<Candidate>, p: Candidate -> bool)
    ensures forall c :: c in Filter(s, p) <==> c in s && p(c)
  {
    if s != [] {
      FilterMembers(s[..|s| - 1], p);
      assert s == s[..|s| - 1] + [s[|s| - 1]];
    }
  }

  lemma {:induction false} FilterDistinct(s: seq<Candidate>, p: Candidate -> bool)
    requires DistinctIds(s)
    ensures DistinctIds(Filter(s, p))
  {
    if s != [] {
      var n := |s| - 1;
      FilterDistinct(s[..n], p);
      FilterMembers(s[..n], p);
      var kept := Filter(s[..n], p);
      forall i | 0 <= i < |kept| ensures kept[i].id != s[n].id {
        assert kept[i] in kept;
      }
    }
  }

  lemma {:induction false} DistinctCount(s: seq<Candidate>)
    requires DistinctIds(s)
    ensures |Elements(s)| == |s|
  {
    if s != [] {
      var n := |s| - 1;
      DistinctCount(s[..n]);
      assert Elements(s) == Elements(s[..n]) + {s[n]};
      assert s[n] !in s[..n];
    }
  }

  function Ids(s: seq<Candidate>): seq<string> {
    seq(|s|, i requires 0 <= i < |s| => s[i].id)
  }

  lemma IdsMembers(s: seq<Candidate>)
    ensures forall id :: id in Ids(s) <==> exists x :: x in s && x.id == id
  {
    forall id | id in Ids(s) ensures exists x :: x in s && x.id == id {
      var i :| 0 <= i < |s| && Ids(s)[i] == id;
      assert s[i] in s;
    }
    forall x | x in s ensures x.id in Ids(s) {
      var i :| 0 <= i < |s| && s[i] == x;
      assert Ids(s)[i] == x.id;
    }
  }

  /** One guard over a list of candidates. */
  method Sweep(k: Case, g: Guard, s: seq<Candidate>) returns (ids: set<string>, operations: nat)
    ensures ids == set c | c in s && Objects(k, g, c) :: c.id
    ensures operations == |s|
  {
    ids, operations := {}, 0;
    for i := 0 to |s|
      invariant ids == set c | c in s[..i] && Objects(k, g, c) :: c.id
      invariant operations == i
    {
      operations := operations + 1;
      assert s[..i + 1] == s[..i] + [s[i]];
      if Objects(k, g, s[i]) { ids := ids + {s[i].id}; }
    }
    assert s[..|s|] == s;
  }

  /** The places `p` and `q` are a related pair and `id` is one of the two. */
  ghost predicate Hit(s: seq<Candidate>, p: int, q: int, id: string) {
    0 <= p < q < |s| && Related(s[p], s[q]) && (id == s[p].id || id == s[q].id)
  }

  method PairsFrom(s: seq<Candidate>, p: nat) returns (ids: set<string>)
    requires p < |s|
    ensures forall id :: id in ids <==> exists q :: Hit(s, p, q, id)
  {
    ids := {};
    for j := p + 1 to |s|
      invariant forall id :: id in ids <==> exists q :: q < j && Hit(s, p, q, id)
    {
      if Related(s[p], s[j]) {
        assert Hit(s, p, j, s[p].id) && Hit(s, p, j, s[j].id);
        ids := ids + {s[p].id, s[j].id};
      }
    }
  }

  /** Every pair is looked at once, from its earlier member. */
  method CorrelatedCandidates(s: seq<Candidate>) returns (ids: set<string>)
    requires DistinctIds(s) && forall c :: c in s ==> Answering(c)
    ensures ids == set c | c in s && (c.sawOther == Some(true) || Correlated(Elements(s), c)) :: c.id
  {
    ids := set c | c in s && c.sawOther == Some(true) :: c.id;
    ghost var alone := ids;
    for i := 0 to |s|
      invariant forall id :: id in ids <==> id in alone || exists p, q :: p < i && Hit(s, p, q, id)
    {
      var more := PairsFrom(s, i);
      ids := ids + more;
    }
    PairsCorrelate(s);
    assert forall id :: id in ids <==> id in alone || InPair(s, id);
  }

  ghost predicate InPair(s: seq<Candidate>, id: string) {
    exists p, q :: Hit(s, p, q, id)
  }

  lemma PairsCorrelate(s: seq<Candidate>)
    requires DistinctIds(s) && forall c :: c in s ==> Answering(c)
    ensures forall id :: InPair(s, id) <==> exists c :: c in s && c.id == id && Correlated(Elements(s), c)
  {
    forall id, p, q | Hit(s, p, q, id)
      ensures exists c :: c in s && c.id == id && Correlated(Elements(s), c)
    {
      assert s[p] in Elements(s) && s[q] in Elements(s) && s[p] != s[q];
      assert Related(s[q], s[p]);
      assert Correlated(Elements(s), s[p]) && Correlated(Elements(s), s[q]);
    }
    forall c | c in s && Correlated(Elements(s), c)
      ensures InPair(s, c.id)
    {
      var other :| other in Elements(s) && other != c && Answering(other) && Related(c, other);
      var i :| 0 <= i < |s| && s[i] == c;
      var j :| 0 <= j < |s| && s[j] == other;
      assert Related(other, c);
      assert Hit(s, i, j, c.id) || Hit(s, j, i, c.id);
    }
  }

  /** One enabled guard adds exactly its faulty candidates and costs one operation per candidate it looks at. */
  method ApplyGuard(k: Case, g: Guard, s: seq<Candidate>, answering: seq<Candidate>) returns (ids: set<string>, operations: nat)
    requires DistinctIds(s) && DistinctIds(answering) && Elements(answering) == AnsweringOf(Elements(s))
    ensures ids == FaultyIds(k, Elements(s), g) && operations == Cost(Elements(s), g)
  {
    DistinctCount(s);
    DistinctCount(answering);
    var all := Elements(s);
    assert forall c :: c in answering <==> c in AnsweringOf(all);
    if g.FailureVisibility? {
      ids, operations := Sweep(k, g, s);
    } else if g.IndependenceContamination? {
      ids := CorrelatedCandidates(answering);
      operations := |answering|;
      CorrelatedAlike(all);
    } else {
      ids, operations := Sweep(k, g, answering);
    }
  }

  lemma CorrelatedAlike(all: set<Candidate>)
    ensures forall c :: Correlated(AnsweringOf(all), c) <==> Correlated(all, c)
  {
  }

  ghost predicate GuardedTo(k: Case, on: set<Guard>, all: set<Candidate>, n: nat,
                            rejected: set<string>, violations: seq<Guard>, operations: nat)
  {
    && n <= |GUARDS| && rejected == RejectedUpTo(k, on, all, n) && violations == ViolationsUpTo(k, on, all, n)
    && operations == OperationsUpTo(on, all, n)
  }

  lemma GuardedOne(k: Case, on: set<Guard>, all: set<Candidate>, n: nat, rejected: set<string>, violations: seq<Guard>, operations: nat)
    requires n < |GUARDS| && GuardedTo(k, on, all, n, rejected, violations, operations)
    ensures var ids := FaultyIds(k, all, GUARDS[n]);
            if GUARDS[n] !in on then GuardedTo(k, on, all, n + 1, rejected, violations, operations)
            else GuardedTo(k, on, all, n + 1, rejected + ids, violations + (if ids != {} then [GUARDS[n]] else []),
                           operations + Cost(all, GUARDS[n]))
  {
  }

  /** All guards in order. */
  method ApplyGuards(k: Case, on: set<Guard>, s: seq<Candidate>, answering: seq<Candidate>)
    returns (rejected: set<string>, violations: seq<Guard>, operations: nat)
    requires DistinctIds(s) && DistinctIds(answering) && Elements(answering) == AnsweringOf(Elements(s))
    ensures rejected == RejectedUpTo(k, on, Elements(s), |GUARDS|)
    ensures violations == ViolationsUpTo(k, on, Elements(s), |GUARDS|)
    ensures operations == OperationsUpTo(on, Elements(s), |GUARDS|)
  {
    rejected, violations, operations := {}, [], 0;
    for n := 0 to |GUARDS|
      invariant GuardedTo(k, on, Elements(s), n, rejected, violations, operations)
    {
      var g := GUARDS[n];
      if g in on {
        var ids, cost := ApplyGuard(k, g, s, answering);
        GuardedOne(k, on, Elements(s), n, rejected, violations, operations);
        rejected, operations := rejected + ids, operations + cost;
        violations := violations + if ids != {} then [g] else [];
      } else {
        GuardedOne(k, on, Elements(s), n, rejected, violations, operations);
      }
    }
  }

  function VotesIn(k: Case, s: seq<Candidate>, answer: string): nat {
    if s == [] then 0 else VotesIn(k, s[..|s| - 1], answer) + if Ballot(k, s[|s| - 1]) == answer then 1 else 0
  }

  lemma {:induction false} VotesAreVoters(k: Case, s: seq<Candidate>, answer: string)
    requires DistinctIds(s)
    ensures VotesIn(k, s, answer) == |VotersFor(k, Elements(s), answer)|
  {
    if s != [] {
      var n := |s| - 1;
      VotesAreVoters(k, s[..n], answer);
      var before, after := VotersFor(k, Elements(s[..n]), answer), VotersFor(k, Elements(s), answer);
      assert s[n] !in s[..n];
      assert after == if Ballot(k, s[n]) == answer then before + {s[n]} else before;
    } else {
      assert VotersFor(k, Elements(s), answer) == {};
    }
  }

  method Tally(k: Case, s: seq<Candidate>) returns (counts: map<string, nat>)
    ensures forall a :: a in counts <==> VotesIn(k, s, a) > 0
    ensures forall a :: a in counts ==> counts[a] == VotesIn(k, s, a)
  {
    counts := map[];
    for i := 0 to |s|
      invariant forall a :: a in counts <==> VotesIn(k, s[..i], a) > 0
      invariant forall a :: a in counts ==> counts[a] == VotesIn(k, s[..i], a)
    {
      var a := Ballot(k, s[i]);
      assert s[..i + 1][..i] == s[..i];
      counts := counts[a := (if a in counts then counts[a] else 0) + 1];
    }
    assert s[..|s|] == s;
  }

  ghost predicate MostVotes(k: Case, s: seq<Candidate>, a: string) {
    VotesIn(k, s, a) > 0 && forall b :: VotesIn(k, s, b) <= VotesIn(k, s, a)
  }

  /** The answers with the most votes. */
  method TiedWinners(k: Case, s: seq<Candidate>) returns (tied: set<string>)
    requires s != []
    ensures tied != {}
    ensures forall a :: a in tied <==> MostVotes(k, s, a)
  {
    var counts := Tally(k, s);
    VotesOfMember(k, s, s[0]);
    var best := Ballot(k, s[0]);
    for i := 0 to |s|
      invariant best in counts && forall j :: 0 <= j < i ==> VotesIn(k, s, Ballot(k, s[j])) <= counts[best]
    {
      VotesOfMember(k, s, s[i]);
      if counts[Ballot(k, s[i])] > counts[best] { best := Ballot(k, s[i]); }
    }
    forall b ensures VotesIn(k, s, b) <= counts[best] {
      if VotesIn(k, s, b) > 0 { VoterExists(k, s, b); }
    }
    tied := set a | a in counts && counts[a] == counts[best];
    assert best in tied;
    forall a | MostVotes(k, s, a) ensures a in tied {
      assert VotesIn(k, s, best) <= VotesIn(k, s, a);
    }
  }

  lemma {:induction false} VotesOfMember(k: Case, s: seq<Candidate>, c: Candidate)
    requires c in s
    ensures VotesIn(k, s, Ballot(k, c)) > 0
  {
    if c != s[|s| - 1] { VotesOfMember(k, s[..|s| - 1], c); }
  }

  lemma {:induction false} VoterExists(k: Case, s: seq<Candidate>, answer: string)
    requires VotesIn(k, s, answer) > 0
    ensures exists j :: 0 <= j < |s| && Ballot(k, s[j]) == answer
  {
    if Ballot(k, s[|s| - 1]) != answer { VoterExists(k, s[..|s| - 1], answer); }
  }

  /** One answer with the most votes wins; two do not. */
  lemma WinsIffAlone(k: Case, s: seq<Candidate>, a: string)
    requires DistinctIds(s)
    ensures Wins(k, Elements(s), a) <==> MostVotes(k, s, a) && forall b :: MostVotes(k, s, b) ==> b == a
  {
    forall b ensures VotesIn(k, s, b) == |VotersFor(k, Elements(s), b)| {
      VotesAreVoters(k, s, b);
    }
    if MostVotes(k, s, a) && forall b :: MostVotes(k, s, b) ==> b == a {
      forall b | b != a ensures |VotersFor(k, Elements(s), b)| < |VotersFor(k, Elements(s), a)| {
        assert VotesIn(k, s, b) <= VotesIn(k, s, a);
        assert VotesIn(k, s, b) == VotesIn(k, s, a) ==> MostVotes(k, s, b);
      }
    }
    if Wins(k, Elements(s), a) {
      forall b ensures VotesIn(k, s, b) <= VotesIn(k, s, a) {
        assert b != a ==> |VotersFor(k, Elements(s), b)| < |VotersFor(k, Elements(s), a)|;
      }
    }
  }

  /** The vote: the single winner, if there is one. */
  method Integrate(k: Case, eligible: seq<Candidate>) returns (winner: Option<string>)
    requires DistinctIds(eligible) && eligible != []
    ensures winner.Some? ==> Wins(k, Elements(eligible), winner.value)
    ensures winner.None? ==> forall a :: !Wins(k, Elements(eligible), a)
  {
    var tied := TiedWinners(k, eligible);
    var a :| a in tied;
    forall b ensures Wins(k, Elements(eligible), b) <==> MostVotes(k, eligible, b) && forall c :: MostVotes(k, eligible, c) ==> c == b {
      WinsIffAlone(k, eligible, b);
    }
    if |tied| > 1 {
      assert tied != {a};
      var b :| b in tied && b != a;
      return None;
    }
    assert tied == {a} by { assert |tied - {a}| == 0; }
    return Some(a);
  }

  function Summarized(k: Case, o: Outcome): Summary {
    Summary(o.disposition, if o.answer.Some? then Some(k.normalizeAnswer(o.answer.value)) else None,
            (set id | id in o.rejected), o.violations, Issues(o.unresolved), o.operations)
  }

  function Issues(unresolved: seq<Issue>): set<Issue> {
    set issue | issue in unresolved
  }

  /** The failing candidates, in order. */
  method FailuresSeen(on: set<Guard>, s: seq<Candidate>) returns (unresolved: seq<Issue>)
    ensures Issues(unresolved) == Failures(on, Elements(s))
  {
    unresolved := [];
    if FailureVisibility in on {
      for i := 0 to |s|
        invariant Issues(unresolved) == Failures(on, Elements(s[..i]))
      {
        FailuresThen(on, s[..i], s[i]);
        assert s[..i + 1] == s[..i] + [s[i]];
        if s[i].failure.Some? {
          var issue := Failing(s[i].id, s[i].failure.value);
          assert Issues(unresolved + [issue]) == Issues(unresolved) + {issue};
          unresolved := unresolved + [issue];
        }
      }
      assert s[..|s|] == s;
    }
  }

  lemma FailuresThen(on: set<Guard>, s: seq<Candidate>, c: Candidate)
    requires FailureVisibility in on
    ensures Failures(on, Elements(s + [c])) ==
            Failures(on, Elements(s)) + if c.failure.Some? then {Failing(c.id, c.failure.value)} else {}
  {
    assert Elements(s + [c]) == Elements(s) + {c};
  }

  /** The candidates with the given identities, in their order. */
  function Named(s: seq<Candidate>, ids: set<string>): seq<string> {
    Ids(Filter(s, (c: Candidate) => c.id in ids))
  }

  lemma NamedAll(s: seq<Candidate>, ids: set<string>)
    requires forall id :: id in ids ==> exists c :: c in s && c.id == id
    ensures (set id | id in Named(s, ids)) == ids
  {
    var p := (c: Candidate) => c.id in ids;
    FilterMembers(s, p);
    IdsMembers(Filter(s, p));
  }

  lemma {:induction false} RejectedAreCandidates(k: Case, on: set<Guard>, all: set<Candidate>, n: nat)
    requires n <= |GUARDS|
    ensures forall id :: id in RejectedUpTo(k, on, all, n) ==> exists c :: c in all && c.id == id
  {
    if n > 0 { RejectedAreCandidates(k, on, all, n - 1); }
  }

  /** The eligible candidates that gave an answer, in their order. */
  function Supporters(k: Case, eligible: seq<Candidate>, answer: string): seq<Candidate> {
    Filter(eligible, (c: Candidate) => Ballot(k, c) == answer)
  }

  lemma SupportersVote(k: Case, eligible: seq<Candidate>, answer: string)
    ensures forall c :: c in Supporters(k, eligible, answer) <==> c in eligible && Ballot(k, c) == answer
    ensures VotersFor(k, Elements(eligible), answer) != {} ==> Supporters(k, eligible, answer) != []
  {
    FilterMembers(eligible, (c: Candidate) => Ballot(k, c) == answer);
    if c :| c in VotersFor(k, Elements(eligible), answer) {
      assert c in Supporters(k, eligible, answer);
    }
  }

  ghost predicate LeftToVote(s: seq<Candidate>, eligible: seq<Candidate>, rejected: set<string>) {
    forall c :: c in eligible <==> c in s && Answering(c) && c.id !in rejected
  }

  /** Each answering candidate is accepted or rejected and not both; nothing else is accepted. */
  ghost predicate Partitions(s: seq<Candidate>, accepted: seq<string>, rejected: seq<string>) {
    && (forall c :: c in s && Answering(c) ==> (c.id in accepted <==> c.id !in rejected))
    && (forall id :: id in accepted ==> exists c :: c in s && Answering(c) && c.id == id)
  }

  lemma VotePartitions(k: Case, s: seq<Candidate>, eligible: seq<Candidate>, rejected: set<string>, winner: string, out: seq<string>)
    requires DistinctIds(s) && LeftToVote(s, eligible, rejected)
    requires (set id | id in out) == rejected + Losers(k, Elements(eligible), winner)
    ensures Partitions(s, Ids(Supporters(k, eligible, winner)), out)
  {
    var mine := Supporters(k, eligible, winner);
    SupportersVote(k, eligible, winner);
    IdsMembers(mine);
    forall c | c in s && Answering(c) ensures c.id in Ids(mine) <==> c.id !in out {
      assert c.id in out <==> c.id in rejected + Losers(k, Elements(eligible), winner);
      assert forall x :: x in s && x.id == c.id ==> x == c;
    }
  }

  /** The given answer is the winner's, first as it was written, and its opponents are rejected as well. */
  method Accept(k: Case, s: seq<Candidate>, eligible: seq<Candidate>, rejected: set<string>, winner: string)
    returns (answer: Option<string>, accepted: seq<string>, out: seq<string>)
    requires DistinctIds(s) && LeftToVote(s, eligible, rejected) && Wins(k, Elements(eligible), winner)
    requires forall id :: id in rejected ==> exists c :: c in s && c.id == id
    ensures answer.Some? && k.normalizeAnswer(answer.value) == winner
    ensures (set id | id in out) == rejected + Losers(k, Elements(eligible), winner)
    ensures Partitions(s, accepted, out)
  {
    var mine := Supporters(k, eligible, winner);
    SupportersVote(k, eligible, winner);
    var lost := set c | c in eligible && Ballot(k, c) != winner :: c.id;
    assert lost == Losers(k, Elements(eligible), winner);
    NamedAll(s, rejected + lost);
    assert mine[0] in mine;
    answer, accepted, out := mine[0].answer, Ids(mine), Named(s, rejected + lost);
    VotePartitions(k, s, eligible, rejected, winner, out);
  }

  /** What the guards leave: the eligible candidates, in their order. */
  method Remaining(k: Case, on: set<Guard>, s: seq<Candidate>, answering: seq<Candidate>, rejected: set<string>)
    returns (eligible: seq<Candidate>)
    requires DistinctIds(answering) && Elements(answering) == AnsweringOf(Elements(s))
    requires rejected == RejectedUpTo(k, on, Elements(s), |GUARDS|)
    ensures DistinctIds(eligible) && LeftToVote(s, eligible, rejected)
    ensures Elements(eligible) == Eligible(k, on, Elements(s)) && |Eligible(k, on, Elements(s))| == |eligible|
  {
    var kept := (c: Candidate) => c.id !in rejected;
    eligible := Filter(answering, kept);
    FilterMembers(answering, kept);
    FilterDistinct(answering, kept);
    DistinctCount(eligible);
    assert forall c :: c in answering <==> c in AnsweringOf(Elements(s));
    assert Elements(eligible) == Eligible(k, on, Elements(s));
  }

  /** The part of the judgement that the guards fix. */
  ghost function Guarded(k: Case, on: set<Guard>, all: set<Candidate>): Summary {
    Summary(Abstain, None, RejectedUpTo(k, on, all, |GUARDS|), ViolationsUpTo(k, on, all, |GUARDS|), Failures(on, all),
            OperationsUpTo(on, all, |GUARDS|))
  }

  lemma JudgedAbstains(k: Case, on: set<Guard>, all: set<Candidate>)
    requires Failures(on, all) != {} || Eligible(k, on, all) == {}
    ensures Judged(k, on, all) == Guarded(k, on, all)
  {
  }

  lemma JudgedTied(k: Case, on: set<Guard>, all: set<Candidate>)
    requires Failures(on, all) == {} && Eligible(k, on, all) != {} && forall a :: !Wins(k, Eligible(k, on, all), a)
    ensures var g := Guarded(k, on, all);
            Judged(k, on, all) == g.(unresolved := {Tie}, operations := g.operations + |Eligible(k, on, all)|)
  {
  }

  lemma JudgedAnswers(k: Case, on: set<Guard>, all: set<Candidate>, winner: string)
    requires Failures(on, all) == {} && Wins(k, Eligible(k, on, all), winner)
    ensures var g := Guarded(k, on, all);
            Judged(k, on, all) ==
            Summary(Answer, Some(winner), g.rejected + Losers(k, Eligible(k, on, all), winner), g.violations, {},
                    g.operations + |Eligible(k, on, all)|)
  {
  }

  /** The vote on what the guards left. */
  method Decide(k: Case, on: set<Guard>, s: seq<Candidate>, eligible: seq<Candidate>, rejected: set<string>,
                violations: seq<Guard>, operations: nat) returns (o: Outcome)
    requires DistinctIds(s) && DistinctIds(eligible) && eligible != [] && LeftToVote(s, eligible, rejected)
    requires Elements(eligible) == Eligible(k, on, Elements(s)) && |Eligible(k, on, Elements(s))| == |eligible|
    requires Failures(on, Elements(s)) == {}
    requires Guarded(k, on, Elements(s)) == Summary(Abstain, None, rejected, violations, {}, operations)
    ensures Summarized(k, o) == Judged(k, on, Elements(s))
    ensures if o.disposition.Answer? then Partitions(s, o.accepted, o.rejected) else o.accepted == []
  {
    RejectedAreCandidates(k, on, Elements(s), |GUARDS|);
    assert eligible[0] in Elements(eligible);
    var winner := Integrate(k, eligible);
    if winner.None? {
      NamedAll(s, rejected);
      JudgedTied(k, on, Elements(s));
      return Outcome(Abstain, None, [], Named(s, rejected), violations, [Tie], operations + |eligible|);
    }
    JudgedAnswers(k, on, Elements(s), winner.value);
    var answer, accepted, out := Accept(k, s, eligible, rejected, winner.value);
    o := Outcome(Answer, answer, accepted, out, violations, [], operations + |eligible|);
  }

  /** The guards, then the vote. The outcome depends on the set of candidates only. */
  method RezonGuarded(k: Case, on: set<Guard>, s: seq<Candidate>) returns (r: Option<Outcome>)
    ensures r.Some? <==> DistinctIds(s)
    ensures r.Some? ==> Summarized(k, r.value) == Judged(k, on, Elements(s))
    ensures r.Some? ==> if r.value.disposition.Answer? then Partitions(s, r.value.accepted, r.value.rejected) else r.value.accepted == []
  {
    if !DistinctIds(s) { return None; }
    var answering := Filter(s, Answering);
    FilterMembers(s, Answering);
    FilterDistinct(s, Answering);
    assert Elements(answering) == AnsweringOf(Elements(s));
    var rejected, violations, operations := ApplyGuards(k, on, s, answering);
    var unresolved := FailuresSeen(on, s);
    IssuesEmpty(unresolved);
    var eligible := Remaining(k, on, s, answering, rejected);
    if unresolved != [] || eligible == [] {
      RejectedAreCandidates(k, on, Elements(s), |GUARDS|);
      NamedAll(s, rejected);
      JudgedAbstains(k, on, Elements(s));
      return Some(Outcome(Abstain, None, [], Named(s, rejected), violations, unresolved, operations));
    }
    var o := Decide(k, on, s, eligible, rejected, violations, operations);
    return Some(o);
  }

  lemma IssuesEmpty(unresolved: seq<Issue>)
    ensures Issues(unresolved) == {} <==> unresolved == []
  {
    if unresolved != [] { assert unresolved[0] in Issues(unresolved); }
  }

  /** The same candidates in two orders: the same disposition, normalized answer, rejected set, violations,
      open issues and operation count. */
  method AnyOrder(k: Case, on: set<Guard>, a: seq<Candidate>, b: seq<Candidate>) returns (x: Outcome, y: Outcome)
    requires DistinctIds(a) && DistinctIds(b) && Elements(a) == Elements(b)
    ensures Summarized(k, x) == Summarized(k, y) && Summarized(k, x) == Judged(k, on, Elements(a))
  {
    var first := RezonGuarded(k, on, a);
    var second := RezonGuarded(k, on, b);
    x, y := first.value, second.value;
  }
}
