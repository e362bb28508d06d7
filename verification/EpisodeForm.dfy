/** What every stored object looks like, in every reachable episode, and what a retraction writes down. */
module EpisodeForm {
  import opened Wrappers
  import opened Collections
  import opened EpisodeStore
  import opened EpisodeHistory

  ghost predicate PropositionFormed(episode: string, id: string, p: Proposition) {
    && p.id == id && p.id != "" && p.content != "" && p.episode == episode && p.producer != Some("")
    && "" !in p.sourceRefs && "" !in p.sourceVersions
  }

  ghost predicate RelationFormed(episode: string, id: string, r: Relation) {
    && r.id == id && r.id != "" && r.relationType != "" && r.episode == episode && r.producer != Some("")
    && "" !in r.sourceRefs && "" !in r.sourceVersions
    && forall q :: q in r.participants ==> q.refId != "" && q.role != ""
  }

  /** Every object is stored under its own name, has a text in every field that needs one, and belongs to
      this episode. */
  ghost predicate Formed(episode: string, s: Store) {
    && s.id == episode
    && (forall id :: id in s.propositions ==> PropositionFormed(episode, id, s.propositions[id]))
    && (forall id :: id in s.relations ==> RelationFormed(episode, id, s.relations[id]))
  }

  lemma AddKeepsForm(s: Store, p: Proposition)
    requires Formed(s.id, s)
    ensures AddProposition(s, p).Ok? ==> Formed(s.id, AddProposition(s, p).value)
  {
  }

  lemma RelateKeepsForm(s: Store, r: Relation)
    requires Formed(s.id, s)
    ensures AddRelation(s, r).Ok? ==> Formed(s.id, AddRelation(s, r).value)
  {
  }

  lemma StepKeepsForm(s: Store, change: Change, t: Store)
    requires ActiveStored(s) && StoreNext(s, change, t) && Formed(s.id, s)
    ensures Formed(s.id, t)
  {
    match change
    case Add(p) => AddKeepsForm(s, p);
    case Relate(r) => RelateKeepsForm(s, r);
    case _ =>
  }

  ghost predicate MachineFormed(episode: string, m: Machine) {
    Formed(episode, m.store) && forall s :: s in m.checkpoints ==> Formed(episode, s)
  }

  lemma NextKeepsForm(episode: string, m: Machine, change: Change, m': Machine)
    requires Next(m, change, m') && MachineFormed(episode, m)
    ensures MachineFormed(episode, m')
  {
    if !change.Begin? && !change.Commit? && !change.Rollback? {
      StepKeepsForm(m.store, change, m'.store);
    }
  }

  /** In every state of every run of additions, retractions and rollbacks. */
  lemma {:induction false} RunsKeepForm(id: string, run: seq<Machine>, changes: seq<Change>, i: nat)
    requires IsRun(id, run, changes) && i < |run|
    ensures MachineFormed(id, run[i])
  {
    if i > 0 {
      RunsKeepForm(id, run, changes, i - 1);
      assert Next(run[i - 1], changes[i - 1], run[i]);
      NextKeepsForm(id, run[i - 1], changes[i - 1], run[i]);
    }
  }

  /** A retraction writes its reason first, and after it only invalidations that name the root. */
  lemma RetractionIsLogged(s: Store, root: string, reason: string, t: Store)
    requires ActiveStored(s) && Retracts(s, root, reason, t)
    ensures |t.events| > |s.events| && s.events <= t.events
    ensures t.events[|s.events|] == Event(|s.events| + 1, PropositionRetracted, root, Some(reason))
    ensures forall i :: |s.events| < i < |t.events| ==>
              && t.events[i].kind in {PropositionInvalidated, RelationInvalidated}
              && t.events[i].number == i + 1 && t.events[i].reason == Some("dependency_retracted:" + root)
    ensures t.propositions == s.propositions && t.relations == s.relations && root !in t.activePropositions
  {
  }
}
