/** What it takes a candidate to reach the vote, and when the vote answers. */
module GuardedVoteLaws {
  import opened Wrappers
  import opened Collections
  import opened GuardedVote

  /** Answered the literal request, if it says which request it answered. */
  predicate Faithful(k: Case, c: Candidate) {
    c.solvedRequest == None || k.normalizeRequest(c.solvedRequest.value) == k.normalizeRequest(k.request)
  }

  /** Every known source is explicitly current. */
  predicate OnCurrentSources(k: Case, c: Candidate) {
    forall ref :: ref in c.sources && ref in k.sources ==> k.sources[ref].current == Some(true)
  }

  /** Every source is known and admitted. */
  predicate OnAdmittedSources(k: Case, c: Candidate) {
    forall ref :: ref in c.sources ==> ref in k.sources && k.sources[ref].admission == Some("ADMITTED")
  }

  /** Saw no other answer, and shares no known model, provider, prompt, context or evidence with any other
      answering candidate. */
  predicate Uncorrelated(all: set<Candidate>, c: Candidate) {
    && c.sawOther != Some(true)
    && forall o :: o in all && o != c && o.answer != None && o.failure == None ==>
         && (c.model == None || c.model != o.model) && (c.provider == None || c.provider != o.provider)
         && (c.prompt == None || c.prompt != o.prompt) && (c.context == None || c.context != o.context)
         && forall ref :: ref in c.commonEvidence ==> ref !in o.commonEvidence
  }

  /** Claims no effect beyond a plan and no authority. */
  predicate ClaimsNothing(c: Candidate) {
    (c.effectClaim == None || c.effectClaim == Some("PLAN")) && |c.authorityClaims| == 0
  }

  predicate Passes(k: Case, all: set<Candidate>, g: Guard, c: Candidate) {
    match g
    case PropositionFidelity => Faithful(k, c)
    case ProvenanceCurrentness => OnCurrentSources(k, c)
    case AdmissionIntegrity => OnAdmittedSources(k, c)
    case IndependenceContamination => Uncorrelated(all, c)
    case FailureVisibility => c.failure == None
    case AuthorityEffectBoundary => ClaimsNothing(c)
  }

  lemma PassesIff(k: Case, all: set<Candidate>, g: Guard, c: Candidate)
    requires c.answer != None && c.failure == None
    ensures Faulty(k, all, g, c) <==> !Passes(k, all, g, c)
  {
  }

  ghost predicate ApartByName(all: set<Candidate>) {
    forall a, b :: a in all && b in all && a.id == b.id ==> a == b
  }

  lemma RejectedIff(k: Case, on: set<Guard>, all: set<Candidate>, c: Candidate)
    requires ApartByName(all) && c in all && c.answer != None && c.failure == None
    ensures c.id in RejectedUpTo(k, on, all, |GUARDS|) <==> exists g :: g in on && !Passes(k, all, g, c)
  {
    GuardsMean(k, on, all);
    forall g ensures c.id in FaultyIds(k, all, g) <==> !Passes(k, all, g, c) {
      PassesIff(k, all, g, c);
    }
  }

  /** A candidate reaches the vote exactly when it has an answer and no failure and passes every guard that
      is on. */
  lemma EligibleIff(k: Case, on: set<Guard>, all: set<Candidate>, c: Candidate)
    requires ApartByName(all) && c in all
    ensures c in Eligible(k, on, all) <==>
            c.answer != None && c.failure == None && forall g :: g in on ==> Passes(k, all, g, c)
  {
    if c.answer != None && c.failure == None { RejectedIff(k, on, all, c); }
  }

  /** With failure visibility on, a failing candidate blocks the answer and is named with its reason. */
  lemma FailureBlocks(k: Case, on: set<Guard>, all: set<Candidate>, c: Candidate, reason: string)
    requires FailureVisibility in on && c in all && c.failure == Some(reason)
    ensures Judged(k, on, all).disposition == Abstain && Failing(c.id, reason) in Judged(k, on, all).unresolved
  {
    assert Failing(c.id, reason) in Failures(on, all);
  }

  lemma VotersApart(k: Case, eligible: set<Candidate>, a: string, b: string)
    requires a != b
    ensures |VotersFor(k, eligible, a)| + |VotersFor(k, eligible, b)| <= |eligible|
  {
    var x, y := VotersFor(k, eligible, a), VotersFor(k, eligible, b);
    assert x !! y && x + y <= eligible;
    Smaller(x + y, eligible);
  }

  lemma {:induction false} Smaller(a: set<Candidate>, b: set<Candidate>)
    requires a <= b
    ensures |a| <= |b|
  {
    assert b == a + (b - a);
  }

  /** An answer that more than half of the eligible candidates give is the answer. */
  lemma MajorityAnswers(k: Case, on: set<Guard>, all: set<Candidate>, a: string)
    requires Failures(on, all) == {}
    requires 2 * |VotersFor(k, Eligible(k, on, all), a)| > |Eligible(k, on, all)|
    ensures Judged(k, on, all).disposition == Answer && Judged(k, on, all).answer == Some(a)
  {
    var eligible := Eligible(k, on, all);
    forall b | b != a ensures |VotersFor(k, eligible, b)| < |VotersFor(k, eligible, a)| {
      VotersApart(k, eligible, a, b);
    }
    assert VotersFor(k, eligible, a) != {};
    assert Wins(k, eligible, a);
    forall b | Wins(k, eligible, b) ensures b == a {
      assert b != a ==> |VotersFor(k, eligible, a)| < |VotersFor(k, eligible, b)|;
    }
  }

  /** Two answers with equally many and most votes are no answer. */
  lemma TieAbstains(k: Case, on: set<Guard>, all: set<Candidate>, a: string, b: string)
    requires a != b && |VotersFor(k, Eligible(k, on, all), a)| == |VotersFor(k, Eligible(k, on, all), b)|
    requires forall x :: |VotersFor(k, Eligible(k, on, all), x)| <= |VotersFor(k, Eligible(k, on, all), a)|
    ensures Judged(k, on, all).disposition == Abstain && Judged(k, on, all).answer == None
  {
    var eligible := Eligible(k, on, all);
    forall x ensures !Wins(k, eligible, x) {
      var y := if x == a then b else a;
      assert Wins(k, eligible, x) ==> |VotersFor(k, eligible, y)| < |VotersFor(k, eligible, x)|;
    }
  }

  /** An answer is given by some eligible candidate, and no other answer has as many votes. */
  lemma AnswerIsPlurality(k: Case, on: set<Guard>, all: set<Candidate>, other: string)
    requires Judged(k, on, all).disposition == Answer
    ensures Judged(k, on, all).answer.Some?
    ensures var a := Judged(k, on, all).answer.value;
            && (exists c :: c in Eligible(k, on, all) && c.answer != None && k.normalizeAnswer(c.answer.value) == a)
            && (other != a ==> |VotersFor(k, Eligible(k, on, all), other)| < |VotersFor(k, Eligible(k, on, all), a)|)
  {
    var a := Judged(k, on, all).answer.value;
    assert Wins(k, Eligible(k, on, all), a);
    var c :| c in VotersFor(k, Eligible(k, on, all), a);
    assert c in Eligible(k, on, all) && Ballot(k, c) == a;
  }

  function When(on: bool, n: nat): nat {
    if on then n else 0
  }

  /** One operation per candidate looked at: the answering ones for five guards, all of them for failures. */
  lemma OperationsAre(on: set<Guard>, all: set<Candidate>)
    ensures var answering := |set c | c in all && c.answer != None && c.failure == None|;
            OperationsUpTo(on, all, |GUARDS|) ==
              When(PropositionFidelity in on, answering) + When(ProvenanceCurrentness in on, answering)
              + When(AdmissionIntegrity in on, answering) + When(IndependenceContamination in on, answering)
              + When(FailureVisibility in on, |all|) + When(AuthorityEffectBoundary in on, answering)
  {
    assert AnsweringOf(all) == set c | c in all && c.answer != None && c.failure == None;
    assert OperationsUpTo(on, all, 1) == When(PropositionFidelity in on, |AnsweringOf(all)|);
    assert OperationsUpTo(on, all, 3) == OperationsUpTo(on, all, 1)
      + When(ProvenanceCurrentness in on, |AnsweringOf(all)|) + When(AdmissionIntegrity in on, |AnsweringOf(all)|);
    assert OperationsUpTo(on, all, 5) == OperationsUpTo(on, all, 3)
      + When(IndependenceContamination in on, |AnsweringOf(all)|) + When(FailureVisibility in on, |all|);
  }
}
