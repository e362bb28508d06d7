/** Adding the output of an execution to an episode, the check that is made beforehand, and exactly what
    that check does not look at. */
module Prevalidation {
  import opened Wrappers
  import opened EpisodeStore
  import opened Visibility

  function AddPropositions(s: Store, items: seq<Proposition>): Result<Store, EpisodeError>
    decreases |items|
  {
    if items == [] then Ok(s)
    else match AddProposition(s, items[0])
      case Ok(t) => AddPropositions(t, items[1..])
      case Err(e) => Err(e)
  }

  function AddRelations(s: Store, items: seq<Relation>): Result<Store, EpisodeError>
    decreases |items|
  {
    if items == [] then Ok(s)
    else match AddRelation(s, items[0])
      case Ok(t) => AddRelations(t, items[1..])
      case Err(e) => Err(e)
  }

  /** All propositions, then all relations. */
  function AddOutput(s: Store, propositions: seq<Proposition>, relations: seq<Relation>): Result<Store, EpisodeError> {
    match AddPropositions(s, propositions)
    case Ok(t) => AddRelations(t, relations)
    case Err(e) => Err(e)
  }

  lemma {:induction false} AddPropositionsThen(s: Store, items: seq<Proposition>, i: nat)
    requires i < |items|
    ensures AddPropositions(s, items[..i + 1]) ==
            (match AddPropositions(s, items[..i]) case Ok(t) => AddProposition(t, items[i]) case Err(e) => Err(e))
    ensures AddPropositions(s, items[..i + 1]).Err? ==> AddPropositions(s, items).Err?
    decreases i
  {
    if i == 0 {
      assert items[..1] == [items[0]] && items[..0] == [];
    } else if AddProposition(s, items[0]).Ok? {
      var t := AddProposition(s, items[0]).value;
      assert items[..i + 1][1..] == items[1..][..i] && items[..i][1..] == items[1..][..i - 1];
      AddPropositionsThen(t, items[1..], i - 1);
    }
  }

  lemma {:induction false} AddRelationsThen(s: Store, items: seq<Relation>, i: nat)
    requires i < |items|
    ensures AddRelations(s, items[..i + 1]) ==
            (match AddRelations(s, items[..i]) case Ok(t) => AddRelation(t, items[i]) case Err(e) => Err(e))
    ensures AddRelations(s, items[..i + 1]).Err? ==> AddRelations(s, items).Err?
    decreases i
  {
    if i == 0 {
      assert items[..1] == [items[0]] && items[..0] == [];
    } else if AddRelation(s, items[0]).Ok? {
      var t := AddRelation(s, items[0]).value;
      assert items[..i + 1][1..] == items[1..][..i] && items[..i][1..] == items[1..][..i - 1];
      AddRelationsThen(t, items[1..], i - 1);
    }
  }

  predicate PropositionClash(s: Store, stage: map<string, Proposition>, p: Proposition) {
    || (p.id in stage && stage[p.id] != p)
    || (p.id !in stage && p.id in s.propositions && s.propositions[p.id] != p)
    || (p.id in s.propositions && p.id !in s.activePropositions)
  }

  predicate RelationClash(s: Store, stage: map<string, Relation>, current: set<string>, r: Relation) {
    || (r.id in stage && stage[r.id] != r)
    || (r.id !in stage && r.id in s.relations && s.relations[r.id] != r)
    || (r.id in s.relations && r.id !in s.activeRelations)
    || !(ParticipantRefs(r) <= current)
  }

  /** The propositions staged one by one, unless one of them clashes. */
  function StagePropositions(s: Store, items: seq<Proposition>): Option<map<string, Proposition>> {
    if items == [] then Some(map[])
    else
      var last := items[|items| - 1];
      match StagePropositions(s, items[..|items| - 1])
      case None => None
      case Some(stage) => if PropositionClash(s, stage, last) then None else Some(stage[last.id := last])
  }

  /** The relations, which may also connect what was staged before them. */
  function StageRelations(s: Store, known: set<string>, items: seq<Relation>): Option<map<string, Relation>> {
    if items == [] then Some(map[])
    else
      var last := items[|items| - 1];
      match StageRelations(s, known, items[..|items| - 1])
      case None => None
      case Some(stage) => if RelationClash(s, stage, known + stage.Keys, last) then None else Some(stage[last.id := last])
  }

  predicate Prevalidated(s: Store, propositions: seq<Proposition>, relations: seq<Relation>) {
    var stage := StagePropositions(s, propositions);
    stage.Some? && StageRelations(s, Active(s) + stage.value.Keys, relations).Some?
  }

  method PrevalidatePropositions(s: Store, items: seq<Proposition>) returns (staged: Option<map<string, Proposition>>)
    ensures staged == StagePropositions(s, items)
  {
    var stage: map<string, Proposition> := map[];
    for i := 0 to |items|
      invariant StagePropositions(s, items[..i]) == Some(stage)
    {
      assert items[..i + 1][..i] == items[..i];
      if PropositionClash(s, stage, items[i]) {
        StageFails(s, items, i + 1);
        return None;
      }
      stage := stage[items[i].id := items[i]];
    }
    assert items[..|items|] == items;
    staged := Some(stage);
  }

  lemma {:induction false} StageFails(s: Store, items: seq<Proposition>, i: nat)
    requires i <= |items| && StagePropositions(s, items[..i]).None?
    ensures StagePropositions(s, items).None?
  {
    if i < |items| {
      assert items[..|items| - 1][..i] == items[..i];
      StageFails(s, items[..|items| - 1], i);
    } else {
      assert items[..i] == items;
    }
  }

  lemma {:induction false} StageRelationsFails(s: Store, known: set<string>, items: seq<Relation>, i: nat)
    requires i <= |items| && StageRelations(s, known, items[..i]).None?
    ensures StageRelations(s, known, items).None?
  {
    if i < |items| {
      assert items[..|items| - 1][..i] == items[..i];
      StageRelationsFails(s, known, items[..|items| - 1], i);
    } else {
      assert items[..i] == items;
    }
  }

  /** The whole check, as the loops make it. */
  method Prevalidate(s: Store, propositions: seq<Proposition>, relations: seq<Relation>) returns (ok: bool)
    ensures ok <==> Prevalidated(s, propositions, relations)
  {
    var staged := PrevalidatePropositions(s, propositions);
    if staged.None? { return false; }
    var known := Active(s) + staged.value.Keys;
    var stage: map<string, Relation>, current := map[], known;
    for i := 0 to |relations|
      invariant StageRelations(s, known, relations[..i]) == Some(stage) && current == known + stage.Keys
    {
      assert relations[..i + 1][..i] == relations[..i];
      if RelationClash(s, stage, current, relations[i]) {
        StageRelationsFails(s, known, relations, i + 1);
        return false;
      }
      stage, current := stage[relations[i].id := relations[i]], current + {relations[i].id};
    }
    assert relations[..|relations|] == relations;
    ok := true;
  }

  /** A source that the episode knows must be current or staged before. */
  predicate SourcesStaged(s: Store, staged: set<string>, refs: seq<string>) {
    forall r :: r in refs && r in Known(s) ==> r in Active(s) || r in staged
  }

  /** What the check does not look at: form, episode and sources. */
  predicate PropositionSound(s: Store, staged: set<string>, p: Proposition) {
    WellFormedProposition(p) && p.episode == s.id && SourcesStaged(s, staged, p.sourceRefs)
  }

  predicate RelationSound(s: Store, staged: set<string>, r: Relation) {
    WellFormedRelation(r) && r.episode == s.id && SourcesStaged(s, staged, r.sourceRefs)
  }

  predicate PropositionsSound(s: Store, items: seq<Proposition>) {
    forall k :: 0 <= k < |items| ==> PropositionSoundAt(s, items, k)
  }

  predicate PropositionSoundAt(s: Store, items: seq<Proposition>, k: nat)
    requires k < |items|
  {
    PropositionSound(s, PropositionIds(items[..k]), items[k])
  }

  predicate RelationsSound(s: Store, staged: set<string>, items: seq<Relation>) {
    forall k :: 0 <= k < |items| ==> RelationSoundAt(s, staged, items, k)
  }

  predicate RelationSoundAt(s: Store, staged: set<string>, items: seq<Relation>, k: nat)
    requires k < |items|
  {
    RelationSound(s, staged + RelationIds(items[..k]), items[k])
  }

  /** The store that adding the staged propositions leads to. */
  ghost predicate HoldsPropositions(s: Store, t: Store, stage: map<string, Proposition>) {
    && t.id == s.id
    && t.propositions == s.propositions + stage
    && t.activePropositions == s.activePropositions + stage.Keys
    && t.relations == s.relations && t.activeRelations == s.activeRelations
    && stage.Keys * s.propositions.Keys <= s.activePropositions
  }

  lemma AddPropositionIff(s: Store, t: Store, stage: map<string, Proposition>, p: Proposition)
    requires HoldsPropositions(s, t, stage)
    ensures AddProposition(t, p).Ok? <==> PropositionSound(s, stage.Keys, p) && !PropositionClash(s, stage, p)
    ensures AddProposition(t, p).Ok? ==> HoldsPropositions(s, AddProposition(t, p).value, stage[p.id := p])
  {
    assert SourcesCurrent(t, p.sourceRefs) <==> SourcesStaged(s, stage.Keys, p.sourceRefs);
  }

  lemma {:induction false} StagedIds(s: Store, items: seq<Proposition>)
    requires StagePropositions(s, items).Some?
    ensures StagePropositions(s, items).value.Keys == PropositionIds(items)
  {
    if items != [] {
      StagedIds(s, items[..|items| - 1]);
      assert items == items[..|items| - 1] + [items[|items| - 1]];
    }
  }

  lemma PropositionsSoundThen(s: Store, items: seq<Proposition>)
    requires items != []
    ensures var n := |items| - 1;
            PropositionsSound(s, items) <==> PropositionsSound(s, items[..n]) && PropositionSound(s, PropositionIds(items[..n]), items[n])
  {
    var rest := items[..|items| - 1];
    forall k | 0 <= k < |rest| ensures PropositionSoundAt(s, items, k) <==> PropositionSoundAt(s, rest, k) {
      assert rest[..k] == items[..k];
    }
    assert PropositionsSound(s, items) ==> PropositionSoundAt(s, items, |rest|);
  }

  /** Adding propositions succeeds exactly when staging them does and what it does not look at is right. */
  lemma {:induction false} AddPropositionsIff(s: Store, items: seq<Proposition>)
    ensures AddPropositions(s, items).Ok? <==> StagePropositions(s, items).Some? && PropositionsSound(s, items)
    ensures AddPropositions(s, items).Ok? ==> HoldsPropositions(s, AddPropositions(s, items).value, StagePropositions(s, items).value)
  {
    if items != [] {
      var n := |items| - 1;
      AddPropositionsIff(s, items[..n]);
      AddPropositionsThen(s, items, n);
      assert items[..n + 1] == items;
      PropositionsSoundThen(s, items);
      if AddPropositions(s, items[..n]).Ok? {
        StagedIds(s, items[..n]);
        AddPropositionIff(s, AddPropositions(s, items[..n]).value, StagePropositions(s, items[..n]).value, items[n]);
      }
    }
  }

  /** The store that adding the staged relations leads to, after propositions with the given names. */
  ghost predicate HoldsRelations(s: Store, names: set<string>, t: Store, stage: map<string, Relation>) {
    && t.id == s.id && t.propositions.Keys == s.propositions.Keys + names && t.activePropositions == s.activePropositions + names
    && t.relations == s.relations + stage
    && t.activeRelations == s.activeRelations + stage.Keys
    && stage.Keys * s.relations.Keys <= s.activeRelations
  }

  lemma ClashAfter(s: Store, names: set<string>, t: Store, stage: map<string, Relation>, r: Relation)
    requires HoldsRelations(s, names, t, stage)
    ensures RelationClash(s, stage, Active(t), r) <==>
            || !(ParticipantRefs(r) <= Active(t)) || (r.id in t.relations && (t.relations[r.id] != r || r.id !in t.activeRelations))
  {
  }

  lemma HoldsMore(s: Store, names: set<string>, t: Store, stage: map<string, Relation>, r: Relation)
    requires HoldsRelations(s, names, t, stage) && AddRelation(t, r).Ok?
    ensures HoldsRelations(s, names, AddRelation(t, r).value, stage[r.id := r])
  {
  }

  lemma AddRelationIff(s: Store, names: set<string>, t: Store, stage: map<string, Relation>, r: Relation)
    requires HoldsRelations(s, names, t, stage)
    ensures AddRelation(t, r).Ok? <==> RelationSound(s, names + stage.Keys, r) && !RelationClash(s, stage, Active(s) + names + stage.Keys, r)
    ensures AddRelation(t, r).Ok? ==> HoldsRelations(s, names, AddRelation(t, r).value, stage[r.id := r])
  {
    SourcesAfter(s, names, t, stage, r.sourceRefs);
    ClashAfter(s, names, t, stage, r);
    if AddRelation(t, r).Ok? { HoldsMore(s, names, t, stage, r); }
  }

  lemma SourcesAfter(s: Store, names: set<string>, t: Store, stage: map<string, Relation>, refs: seq<string>)
    requires HoldsRelations(s, names, t, stage)
    ensures Active(t) == Active(s) + names + stage.Keys
    ensures SourcesCurrent(t, refs) <==> SourcesStaged(s, names + stage.Keys, refs)
  {
    assert Known(t) == Known(s) + names + stage.Keys;
  }

  lemma {:induction false} StagedRelationIds(s: Store, known: set<string>, items: seq<Relation>)
    requires StageRelations(s, known, items).Some?
    ensures StageRelations(s, known, items).value.Keys == RelationIds(items)
  {
    if items != [] {
      StagedRelationIds(s, known, items[..|items| - 1]);
      assert items == items[..|items| - 1] + [items[|items| - 1]];
    }
  }

  lemma RelationsSoundThen(s: Store, names: set<string>, items: seq<Relation>)
    requires items != []
    ensures var n := |items| - 1;
            RelationsSound(s, names, items) <==> RelationsSound(s, names, items[..n]) && RelationSound(s, names + RelationIds(items[..n]), items[n])
  {
    var rest := items[..|items| - 1];
    forall k | 0 <= k < |rest| ensures RelationSoundAt(s, names, items, k) <==> RelationSoundAt(s, names, rest, k) {
      RelationSoundBefore(s, names, items, rest, k);
    }
    assert RelationsSound(s, names, items) ==> RelationSoundAt(s, names, items, |rest|);
  }

  lemma RelationSoundBefore(s: Store, names: set<string>, items: seq<Relation>, rest: seq<Relation>, k: nat)
    requires k < |rest| && rest <= items
    ensures RelationSoundAt(s, names, items, k) <==> RelationSoundAt(s, names, rest, k)
  {
    assert rest[..k] == items[..k];
  }

  lemma {:induction false} AddRelationsIff(s: Store, names: set<string>, t: Store, items: seq<Relation>)
    requires HoldsRelations(s, names, t, map[])
    ensures AddRelations(t, items).Ok? <==> StageRelations(s, Active(s) + names, items).Some? && RelationsSound(s, names, items)
    ensures AddRelations(t, items).Ok? ==> HoldsRelations(s, names, AddRelations(t, items).value, StageRelations(s, Active(s) + names, items).value)
  {
    if items != [] {
      var n := |items| - 1;
      AddRelationsIff(s, names, t, items[..n]);
      AddRelationsThen(t, items, n);
      assert items[..n + 1] == items;
      RelationsSoundThen(s, names, items);
      if AddRelations(t, items[..n]).Ok? {
        StagedRelationIds(s, Active(s) + names, items[..n]);
        AddRelationIff(s, names, AddRelations(t, items[..n]).value, StageRelations(s, Active(s) + names, items[..n]).value, items[n]);
      }
    }
  }

  lemma HoldsBoth(s: Store, t: Store, stage: map<string, Proposition>)
    requires HoldsPropositions(s, t, stage)
    ensures HoldsRelations(s, stage.Keys, t, map[])
  {
    assert s.relations + map[] == s.relations;
  }

  /** The exact gap: an output can be added if and only if it passes the check and, besides, every item is
      well-formed, of this episode, and cites only current sources or ones staged before it. */
  lemma AdditionsIff(s: Store, propositions: seq<Proposition>, relations: seq<Relation>)
    ensures AddOutput(s, propositions, relations).Ok? <==>
            && Prevalidated(s, propositions, relations)
            && PropositionsSound(s, propositions) && RelationsSound(s, PropositionIds(propositions), relations)
  {
    AddPropositionsIff(s, propositions);
    if AddPropositions(s, propositions).Ok? {
      StagedIds(s, propositions);
      var t := AddPropositions(s, propositions).value;
      HoldsBoth(s, t, StagePropositions(s, propositions).value);
      AddRelationsIff(s, PropositionIds(propositions), t, relations);
    }
  }

  /** So the check alone is not enough: a new well-formed proposition of this episode that cites a
      retracted source passes it, and the addition refuses it for that source. */
  lemma PrevalidationMissesInactiveSources(s: Store, p: Proposition, source: string)
    requires WellFormedProposition(p) && p.episode == s.id && p.id !in s.propositions
    requires source in p.sourceRefs && source in Known(s) && source !in Active(s)
    ensures Prevalidated(s, [p], []) && AddOutput(s, [p], []) == Err(InactiveSource)
  {
    assert [p][..0] == [];
    assert StagePropositions(s, [p]) == Some(map[p.id := p]);
    assert !SourcesCurrent(s, p.sourceRefs);
  }
}
