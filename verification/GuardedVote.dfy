/** The guarded vote over replayed candidates: six guards, then a plurality vote among what is left.

    The specification speaks of the set of candidates; that the loops meet it is why their order does
    not matter. */
module GuardedVote {
  import opened Wrappers

  datatype Guard = PropositionFidelity | ProvenanceCurrentness | AdmissionIntegrity | IndependenceContamination
                 | FailureVisibility | AuthorityEffectBoundary

  /** The order in which the guards run. */
  const GUARDS: seq<Guard> := [PropositionFidelity, ProvenanceCurrentness, AdmissionIntegrity,
                               IndependenceContamination, FailureVisibility, AuthorityEffectBoundary]

  datatype Source = Source(admission: Option<string>, current: Option<bool>)

  datatype Candidate = Candidate(
    id: string, answer: Option<string>, solvedRequest: Option<string>, sources: seq<string>,
    model: Option<string>, provider: Option<string>, prompt: Option<string>, context: Option<string>,
    sawOther: Option<bool>, commonEvidence: seq<string>, failure: Option<string>,
    effectClaim: Option<string>, authorityClaims: seq<string>)

  /** The question, its sources by identity, and the two text normalizations. */
  datatype Case = Case(request: string, sources: map<string, Source>,
                       normalizeAnswer: string -> string, normalizeRequest: string -> string)

  datatype Disposition = Answer | Abstain

  datatype Issue = Failing(id: string, reason: string) | Tie

  datatype Outcome = Outcome(disposition: Disposition, answer: Option<string>, accepted: seq<string>, rejected: seq<string>,
                             violations: seq<Guard>, unresolved: seq<Issue>, operations: nat)

  predicate Answering(c: Candidate) {
    c.answer.Some? && c.failure.None?
  }

  /** What a guard objects to in a candidate by itself. */
  predicate Objects(k: Case, g: Guard, c: Candidate) {
    match g
    case PropositionFidelity => c.solvedRequest.Some? && k.normalizeRequest(c.solvedRequest.value) != k.normalizeRequest(k.request)
    case ProvenanceCurrentness => exists ref :: ref in c.sources && ref in k.sources && k.sources[ref].current != Some(true)
    case AdmissionIntegrity => exists ref :: ref in c.sources && (ref !in k.sources || k.sources[ref].admission != Some("ADMITTED"))
    case AuthorityEffectBoundary => c.effectClaim !in {None, Some("PLAN")} || c.authorityClaims != []
    case IndependenceContamination => c.sawOther == Some(true)
    case FailureVisibility => c.failure.Some?
  }

  predicate Share(a: Option<string>, b: Option<string>) {
    a.Some? && a == b
  }

  predicate Related(a: Candidate, b: Candidate) {
    || Share(a.model, b.model) || Share(a.provider, b.provider) || Share(a.prompt, b.prompt) || Share(a.context, b.context)
    || exists ref :: ref in a.commonEvidence && ref in b.commonEvidence
  }

  /** Another answering candidate shares lineage or evidence. */
  ghost predicate Correlated(all: set<Candidate>, c: Candidate) {
    exists other :: other in all && other != c && Answering(other) && Related(c, other)
  }

  ghost predicate Faulty(k: Case, all: set<Candidate>, g: Guard, c: Candidate) {
    if g.FailureVisibility? then c.failure.Some?
    else Answering(c) && (Objects(k, g, c) || (g.IndependenceContamination? && Correlated(all, c)))
  }

  ghost function FaultyIds(k: Case, all: set<Candidate>, g: Guard): set<string> {
    set c | c in all && Faulty(k, all, g, c) :: c.id
  }

  ghost function AnsweringOf(all: set<Candidate>): set<Candidate> {
    set c | c in all && Answering(c)
  }

  ghost function Cost(all: set<Candidate>, g: Guard): nat {
    if g.FailureVisibility? then |all| else |AnsweringOf(all)|
  }

  ghost function RejectedUpTo(k: Case, on: set<Guard>, all: set<Candidate>, n: nat): set<string>
    requires n <= |GUARDS|
  {
    if n == 0 then {}
    else RejectedUpTo(k, on, all, n - 1) + if GUARDS[n - 1] in on then FaultyIds(k, all, GUARDS[n - 1]) else {}
  }

  ghost function ViolationsUpTo(k: Case, on: set<Guard>, all: set<Candidate>, n: nat): seq<Guard>
    requires n <= |GUARDS|
  {
    if n == 0 then []
    else
      var g := GUARDS[n - 1];
      ViolationsUpTo(k, on, all, n - 1) + if g in on && FaultyIds(k, all, g) != {} then [g] else []
  }

  ghost function OperationsUpTo(on: set<Guard>, all: set<Candidate>, n: nat): nat
    requires n <= |GUARDS|
  {
    if n == 0 then 0 else OperationsUpTo(on, all, n - 1) + if GUARDS[n - 1] in on then Cost(all, GUARDS[n - 1]) else 0
  }

  predicate DistinctIds(s: seq<Candidate>) {
    forall i, j :: 0 <= i < j < |s| ==> s[i].id != s[j].id
  }

  /** What is left for the vote. */
  ghost function Eligible(k: Case, on: set<Guard>, all: set<Candidate>): set<Candidate> {
    set c | c in all && Answering(c) && c.id !in RejectedUpTo(k, on, all, |GUARDS|)
  }

  function Ballot(k: Case, c: Candidate): string {
    k.normalizeAnswer(if c.answer.Some? then c.answer.value else "")
  }

  ghost function VotersFor(k: Case, eligible: set<Candidate>, answer: string): set<Candidate> {
    set c | c in eligible && Ballot(k, c) == answer
  }

  /** More votes than every other answer. */
  ghost predicate Wins(k: Case, eligible: set<Candidate>, answer: string) {
    && VotersFor(k, eligible, answer) != {}
    && forall other :: other != answer ==> |VotersFor(k, eligible, other)| < |VotersFor(k, eligible, answer)|
  }

  /** The part of an outcome that is a function of the set of candidates. */
  datatype Summary = Summary(disposition: Disposition, answer: Option<string>, rejected: set<string>,
                             violations: seq<Guard>, unresolved: set<Issue>, operations: nat)

  ghost function Failures(on: set<Guard>, all: set<Candidate>): set<Issue> {
    if FailureVisibility in on then set c | c in all && c.failure.Some? :: Failing(c.id, c.failure.value) else {}
  }

  ghost function Losers(k: Case, eligible: set<Candidate>, winner: string): set<string> {
    set c | c in eligible && Ballot(k, c) != winner :: c.id
  }

  /** Any visible failure blocks the answer; otherwise the only answer with the most votes is given. */
  ghost function Judged(k: Case, on: set<Guard>, all: set<Candidate>): Summary {
    var rejected, violations, failures := RejectedUpTo(k, on, all, |GUARDS|), ViolationsUpTo(k, on, all, |GUARDS|), Failures(on, all);
    var operations, eligible := OperationsUpTo(on, all, |GUARDS|), Eligible(k, on, all);
    if failures != {} || eligible == {} then Summary(Abstain, None, rejected, violations, failures, operations)
    else if winner :| Wins(k, eligible, winner)
      then Summary(Answer, Some(winner), rejected + Losers(k, eligible, winner), violations, failures, operations + |eligible|)
      else Summary(Abstain, None, rejected, violations, failures + {Tie}, operations + |eligible|)
  }

  lemma {:induction false} RejectedMeans(k: Case, on: set<Guard>, all: set<Candidate>, n: nat)
    requires n <= |GUARDS|
    ensures forall id :: id in RejectedUpTo(k, on, all, n) <==> exists m :: 0 <= m < n && GUARDS[m] in on && id in FaultyIds(k, all, GUARDS[m])
  {
    if n > 0 { RejectedMeans(k, on, all, n - 1); }
  }

  lemma {:induction false} ViolationsMean(k: Case, on: set<Guard>, all: set<Candidate>, n: nat)
    requires n <= |GUARDS|
    ensures forall g :: g in ViolationsUpTo(k, on, all, n) <==> exists m :: 0 <= m < n && GUARDS[m] == g && g in on && FaultyIds(k, all, g) != {}
  {
    if n > 0 { ViolationsMean(k, on, all, n - 1); }
  }

  function Place(g: Guard): (m: nat)
    ensures m < |GUARDS| && GUARDS[m] == g
  {
    match g
    case PropositionFidelity => 0
    case ProvenanceCurrentness => 1
    case AdmissionIntegrity => 2
    case IndependenceContamination => 3
    case FailureVisibility => 4
    case AuthorityEffectBoundary => 5
  }

  /** A candidate is rejected by the guards, and a violation reported, exactly when an enabled guard finds
      a fault. */
  lemma GuardsMean(k: Case, on: set<Guard>, all: set<Candidate>)
    ensures forall id :: id in RejectedUpTo(k, on, all, |GUARDS|) <==> exists g :: g in on && id in FaultyIds(k, all, g)
    ensures forall g :: g in ViolationsUpTo(k, on, all, |GUARDS|) <==> g in on && exists c :: c in all && Faulty(k, all, g, c)
  {
    RejectedMeans(k, on, all, |GUARDS|);
    ViolationsMean(k, on, all, |GUARDS|);
    forall g, id | g in on && id in FaultyIds(k, all, g) ensures id in RejectedUpTo(k, on, all, |GUARDS|) {
      assert GUARDS[Place(g)] == g;
    }
    forall g ensures g in ViolationsUpTo(k, on, all, |GUARDS|) <==> g in on && exists c :: c in all && Faulty(k, all, g, c) {
      assert GUARDS[Place(g)] == g;
      if c :| c in all && Faulty(k, all, g, c) {
        assert c.id in FaultyIds(k, all, g);
      } else {
        assert FaultyIds(k, all, g) == {};
      }
    }
  }
}
