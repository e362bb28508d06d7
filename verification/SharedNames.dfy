/** An episode in which a proposition and a relation share a name, and the view it gets. */
module SharedNames {
  import opened Wrappers
  import opened EpisodeStore
  import opened EpisodeHistory
  import opened Visibility

  const HYPOTHESIS := Proposition("x", "e", Hypothesis, "c", [], None, None, [])
  const EVIDENCE := Proposition("y", "e", Evidence, "c", [], None, None, [])
  const ABOUT_X := Relation("r", "e", "supports", [Participant("x", "role")], [], None, [])
  const NAMED_X := Relation("x", "e", "supports", [Participant("y", "role")], [], None, [])
  const BLIND := Policy({}, {}, {Hypothesis}, {})

  const ADD_X := Event(1, PropositionAdded, "x", None)
  const ADD_Y := Event(2, PropositionAdded, "y", None)
  const RELATE_R := Event(3, RelationAdded, "r", None)
  const RELATE_X := Event(4, RelationAdded, "x", None)

  const STORE1 := Store("e", map["x" := HYPOTHESIS], ["x"], map[], [], {"x"}, {}, [ADD_X])
  const STORE2 := Store("e", map["x" := HYPOTHESIS, "y" := EVIDENCE], ["x", "y"], map[], [], {"x", "y"}, {}, [ADD_X, ADD_Y])
  const STORE3 := Store("e", map["x" := HYPOTHESIS, "y" := EVIDENCE], ["x", "y"], map["r" := ABOUT_X], ["r"],
                        {"x", "y"}, {"r"}, [ADD_X, ADD_Y, RELATE_R])
  const STORE4 := Store("e", map["x" := HYPOTHESIS, "y" := EVIDENCE], ["x", "y"], map["r" := ABOUT_X, "x" := NAMED_X], ["r", "x"],
                        {"x", "y"}, {"r", "x"}, [ADD_X, ADD_Y, RELATE_R, RELATE_X])

  lemma AddedX()
    ensures AddProposition(Empty("e"), HYPOTHESIS) == Ok(STORE1)
  {
    var t := AddProposition(Empty("e"), HYPOTHESIS).value;
    assert t.propositions == STORE1.propositions && t.activePropositions == STORE1.activePropositions;
    assert t.propositionOrder == STORE1.propositionOrder && t.events == STORE1.events;
  }

  lemma AddedY()
    ensures AddProposition(STORE1, EVIDENCE) == Ok(STORE2)
  {
    var t := AddProposition(STORE1, EVIDENCE).value;
    assert t.propositions == STORE2.propositions && t.activePropositions == STORE2.activePropositions;
    assert t.propositionOrder == STORE2.propositionOrder && t.events == STORE2.events;
  }

  lemma Participants()
    ensures ParticipantRefs(ABOUT_X) == {"x"} && ParticipantRefs(NAMED_X) == {"y"}
  {
    assert Participant("x", "role") in ABOUT_X.participants && Participant("y", "role") in NAMED_X.participants;
  }

  lemma RelatedR()
    ensures AddRelation(STORE2, ABOUT_X) == Ok(STORE3)
  {
    Participants();
    var t := AddRelation(STORE2, ABOUT_X).value;
    assert t.relations == STORE3.relations && t.activeRelations == STORE3.activeRelations;
    assert t.relationOrder == STORE3.relationOrder && t.events == STORE3.events;
  }

  lemma RelatedX()
    ensures AddRelation(STORE3, NAMED_X) == Ok(STORE4)
  {
    Participants();
    var t := AddRelation(STORE3, NAMED_X).value;
    assert t.relations == STORE4.relations && t.activeRelations == STORE4.activeRelations;
    assert t.relationOrder == STORE4.relationOrder && t.events == STORE4.events;
  }

  const CHANGES: seq<Change> := [Add(HYPOTHESIS), Add(EVIDENCE), Relate(ABOUT_X), Relate(NAMED_X)]
  const RUN: seq<Machine> := [Machine(Empty("e"), []), Machine(STORE1, []), Machine(STORE2, []), Machine(STORE3, []), Machine(STORE4, [])]

  lemma Reachable()
    ensures IsRun("e", RUN, CHANGES)
  {
    AddedX();
    AddedY();
    RelatedR();
    RelatedX();
    assert Next(RUN[0], CHANGES[0], RUN[1]);
    assert Next(RUN[1], CHANGES[1], RUN[2]);
    assert Next(RUN[2], CHANGES[2], RUN[3]);
    assert Next(RUN[3], CHANGES[3], RUN[4]);
  }

  lemma Current()
    ensures TakeSnapshot(STORE4).currentPropositions == [HYPOTHESIS, EVIDENCE]
    ensures TakeSnapshot(STORE4).currentRelations == [ABOUT_X, NAMED_X]
  {
    assert ["x", "y"][..1] == ["x"] && ["x"][..0] == [] && ["r", "x"][..1] == ["r"] && ["r"][..0] == [];
    assert Select(["x"], STORE4.propositions, STORE4.activePropositions) == [] + [HYPOTHESIS];
    assert Select(["r"], STORE4.relations, STORE4.activeRelations) == [] + [ABOUT_X];
  }

  lemma Visible()
    ensures PropositionIds(VisiblePropositions([HYPOTHESIS, EVIDENCE], BLIND)) == {"y"}
    ensures VisibleRelations([ABOUT_X, NAMED_X], {"y"}, BLIND) == [NAMED_X]
  {
    Participants();
    assert [HYPOTHESIS, EVIDENCE][..1] == [HYPOTHESIS] && [HYPOTHESIS][..0] == [];
    assert VisiblePropositions([HYPOTHESIS], BLIND) == [];
    assert VisiblePropositions([HYPOTHESIS, EVIDENCE], BLIND) == [] + [EVIDENCE];
    assert [ABOUT_X, NAMED_X][..1] == [ABOUT_X] && [ABOUT_X][..0] == [];
    assert "x" !in {"y"} + RelationIds([]);
    assert VisibleRelations([ABOUT_X], {"y"}, BLIND) == [];
    assert VisibleRelations([ABOUT_X, NAMED_X], {"y"}, BLIND) == [] + [NAMED_X];
  }

  lemma Solutions()
    ensures !IsFixpoint([ABOUT_X, NAMED_X], {"y"}, BLIND, {NAMED_X})
    ensures IsFixpoint([ABOUT_X, NAMED_X], {"y"}, BLIND, {ABOUT_X, NAMED_X})
  {
    Participants();
    assert NAMED_X.id == "x" && ABOUT_X.id == "r";
    assert "x" in (set x | x in {NAMED_X} :: x.id) && "x" in (set x | x in {ABOUT_X, NAMED_X} :: x.id);
    assert ABOUT_X in [ABOUT_X, NAMED_X] && ABOUT_X !in {NAMED_X};
  }

  /** A reachable episode whose view is not the solution: the hypothesis "x" is hidden by its kind, the
      later relation "x" is visible, and "r" stays hidden although the only name it needs is visible. */
  lemma SharedNamesBreakThePass()
    ensures IsRun("e", RUN, CHANGES) && RUN[|RUN| - 1].store == STORE4
    ensures var snapshot := TakeSnapshot(STORE4);
            var view := ViewOf(snapshot, BLIND);
            && PropositionIds(view.propositions) == {"y"} && view.relations == [NAMED_X]
            && !IsFixpoint(snapshot.currentRelations, {"y"}, BLIND, {NAMED_X})
            && IsFixpoint(snapshot.currentRelations, {"y"}, BLIND, {ABOUT_X, NAMED_X})
  {
    Reachable();
    Current();
    Visible();
    Solutions();
  }
}
