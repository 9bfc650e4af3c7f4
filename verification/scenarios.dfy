/**
 * Concrete walks through the workflow.
 */
module Scenarios {
  import opened Collation
  import opened Broker
  import opened EffectSort
  import opened Pickers
  import opened SpellMaker
  import opened Workflow

  /**
   * Two destruction effects listed as "Fireball", "Cold Touch" are shown as
   * "Cold Touch", "Fireball" under any collation that puts "Cold Touch"
   * strictly first, and picking the second entry resolves to the fireball.
   */
  lemma FireballScenario(broker: EffectBroker, leq: Leq, s: Session, fireball: EffectKeyNamePair, coldTouch: EffectKeyNamePair)
    requires TotalPreorder(leq)
    requires leq("Cold Touch", "Fireball") && !leq("Fireball", "Cold Touch")
    requires broker.groupNames == ["Destruction", "Restoration"]
    requires fireball.subGroupName == "Fireball" && coldTouch.subGroupName == "Cold Touch"
    requires broker.keyNamePairs("Destruction") == [fireball, coldTouch]
    ensures var clicked := AddEffectClick(broker, s);
      var confirmed := GroupConfirm(broker, leq, clicked);
      && confirmed.Returned?
      && confirmed.After().subGroupPicker.items == ["Cold Touch", "Fireball"]
      && var picked := confirmed.After().(subGroupPicker := Select(confirmed.After().subGroupPicker, 1));
         SubGroupConfirm(picked) == Returned(picked, fireball)
  {
    var clicked := AddEffectClick(broker, s);
    assert clicked.groupPicker.items[clicked.groupPicker.selected] == "Destruction";
    var confirmed := GroupConfirm(broker, leq, clicked);
    TwoSortedInOrder(leq, confirmed.After().enumeratedEffects, coldTouch, fireball);
  }

  /** The only ordering by subgroup name of two effects whose names compare
      strictly puts the smaller one first. */
  lemma TwoSortedInOrder(leq: Leq, sorted: seq<EffectKeyNamePair>, first: EffectKeyNamePair, second: EffectKeyNamePair)
    requires leq(first.subGroupName, second.subGroupName) && !leq(second.subGroupName, first.subGroupName)
    requires multiset(sorted) == multiset{second, first}
    requires SortedBySubGroup(leq, sorted)
    ensures sorted == [first, second]
  {
    assert |sorted| == 2;
    assert sorted[0] in multiset(sorted) && sorted[1] in multiset(sorted);
    assert leq(sorted[0].subGroupName, sorted[1].subGroupName);
    assert sorted[0] != second;
  }

  /**
   * A group with no effects makes the group step throw: the subgroup picker
   * is not pushed, the group picker stays on top as it was, and a later
   * escape leaves the wizard.
   */
  lemma EmptyGroupScenario(broker: EffectBroker, leq: Leq, below: seq<Window>)
    requires TotalPreorder(leq)
    requires broker.groupNames != [] && broker.keyNamePairs(broker.groupNames[0]) == []
    ensures var clicked := Run(broker, leq, Opened(below), [AddEffect]);
      var r := GroupConfirm(broker, leq, clicked);
      && r == Thrown(r.After(), NoEffectsForGroup(broker.groupNames[0]))
      && r.After().windows == below + [SpellMakerWindow, EffectGroupPicker]
      && r.After().groupPicker == clicked.groupPicker
      && Run(broker, leq, Opened(below), [AddEffect, ConfirmGroup, Escape]).windows
         == below + [SpellMakerWindow]
  {
    var start := Opened(below);
    var clicked := Dispatch(broker, leq, start, AddEffect);
    assert Run(broker, leq, start, [AddEffect]) == clicked;
    RunAppend(broker, leq, start, [AddEffect], [ConfirmGroup, Escape]);
    assert [AddEffect] + [ConfirmGroup, Escape] == [AddEffect, ConfirmGroup, Escape];
    var failed := Dispatch(broker, leq, clicked, ConfirmGroup);
    assert failed.windows == below + [SpellMakerWindow, EffectGroupPicker];
    assert Run(broker, leq, clicked, [ConfirmGroup, Escape]) == Run(broker, leq, failed, [Escape]);
    assert (below + [SpellMakerWindow, EffectGroupPicker])[..|below| + 1] == below + [SpellMakerWindow];
  }

  /**
   * Add effect, confirm the first group, escape, escape: the first escape
   * shows the group picker exactly as it was before the group was
   * confirmed; the second leaves only the spell maker.
   */
  lemma EscapeTwiceScenario(broker: EffectBroker, leq: Leq, below: seq<Window>)
    requires TotalPreorder(leq)
    requires broker.groupNames != [] && broker.keyNamePairs(broker.groupNames[0]) != []
    ensures var clicked := Run(broker, leq, Opened(below), [AddEffect]);
      var back := Run(broker, leq, Opened(below), [AddEffect, ConfirmGroup, Escape]);
      && back.groupPicker == clicked.groupPicker
      && back.windows == clicked.windows
      && Run(broker, leq, Opened(below), [AddEffect, ConfirmGroup, Escape, Escape]).windows
         == below + [SpellMakerWindow]
  {
    var start := Opened(below);
    var clicked := Dispatch(broker, leq, start, AddEffect);
    assert Run(broker, leq, start, [AddEffect]) == clicked;
    assert clicked.windows == below + [SpellMakerWindow, EffectGroupPicker];
    EscapeReturnsToGroupPicker(broker, leq, clicked, []);
    assert [ConfirmGroup] + [] + [Escape] == [ConfirmGroup, Escape];
    var back := Run(broker, leq, clicked, [ConfirmGroup, Escape]);
    RunAppend(broker, leq, start, [AddEffect], [ConfirmGroup, Escape]);
    assert [AddEffect] + [ConfirmGroup, Escape] == [AddEffect, ConfirmGroup, Escape];
    RunAppend(broker, leq, start, [AddEffect, ConfirmGroup, Escape], [Escape]);
    assert [AddEffect, ConfirmGroup, Escape] + [Escape] == [AddEffect, ConfirmGroup, Escape, Escape];
    assert Run(broker, leq, back, [Escape]) == Dispatch(broker, leq, back, Escape);
    assert (below + [SpellMakerWindow, EffectGroupPicker])[..|below| + 1] == below + [SpellMakerWindow];
  }
}
