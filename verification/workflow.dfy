/**
 * The workflow as a whole: what the handlers promise together, and the
 * window as it evolves under a sequence of player inputs.
 *
 * The user interface manager routes input to the top window only; `Dispatch`
 * models that routing, and an exception thrown by a handler leaves the state
 * it had reached (the game loop reports it and carries on).
 */
module Workflow {
  import opened Collation
  import opened Broker
  import opened EffectSort
  import opened Pickers
  import opened SpellMaker

  /** A player input that reaches the spell maker or one of its pickers. */
  datatype Event =
    | AddEffect             // click on the add-effect button
    | ConfirmGroup          // use the selected item of the group picker
    | ConfirmSubGroup       // use the selected item of the subgroup picker
    | Highlight(index: int) // move the top picker's selection
    | Escape                // leave the top picker

  /**
   * Delivers one input to whichever window is on top: the add-effect button
   * belongs to the spell maker, each confirm to its own picker, a highlight
   * moves the top picker's selection within its list, and escape pops a
   * picker (closing the spell maker itself is not modelled).
   */
  function Dispatch(broker: EffectBroker, leq: Leq, s: Session, e: Event): (r: Session)
    requires TotalPreorder(leq)
    // the stack only changes by the push of the matching handler or the pop of a picker
    ensures || r.windows == s.windows
            || (e.AddEffect? && OnTop(s.windows, SpellMakerWindow) && r.windows == s.windows + [EffectGroupPicker])
            || (e.ConfirmGroup? && OnTop(s.windows, EffectGroupPicker) && r.windows == s.windows + [EffectSubGroupPicker])
            || (e.Escape? && (OnTop(s.windows, EffectGroupPicker) || OnTop(s.windows, EffectSubGroupPicker))
                && r.windows == PopWindow(s.windows))
    // only the spell maker or the group picker, when on top, act on the group picker
    ensures r.groupPicker != s.groupPicker ==>
      OnTop(s.windows, SpellMakerWindow) || OnTop(s.windows, EffectGroupPicker)
    // the subgroup list and the enumerated effects change only through a group confirm
    ensures r.subGroupPicker.items != s.subGroupPicker.items || r.enumeratedEffects != s.enumeratedEffects ==>
      e.ConfirmGroup? && OnTop(s.windows, EffectGroupPicker)
    // a highlight keeps both lists and leaves the selection it moves within range
    ensures e.Highlight? ==>
      && r.windows == s.windows
      && r.groupPicker.items == s.groupPicker.items
      && r.subGroupPicker.items == s.subGroupPicker.items
      && r.enumeratedEffects == s.enumeratedEffects
      && (r.groupPicker != s.groupPicker ==> HasSelection(r.groupPicker))
      && (r.subGroupPicker != s.subGroupPicker ==> HasSelection(r.subGroupPicker))
  {
    match e
    case AddEffect =>
      if OnTop(s.windows, SpellMakerWindow) then AddEffectClick(broker, s) else s
    case ConfirmGroup =>
      if OnTop(s.windows, EffectGroupPicker) then GroupConfirm(broker, leq, s).After() else s
    case ConfirmSubGroup =>
      if OnTop(s.windows, EffectSubGroupPicker) then SubGroupConfirm(s).After() else s
    case Highlight(i) =>
      if OnTop(s.windows, EffectGroupPicker) && 0 <= i < |s.groupPicker.items| then
        s.(groupPicker := Select(s.groupPicker, i))
      else if OnTop(s.windows, EffectSubGroupPicker) && 0 <= i < |s.subGroupPicker.items| then
        s.(subGroupPicker := Select(s.subGroupPicker, i))
      else
        s
    case Escape =>
      if OnTop(s.windows, EffectGroupPicker) || OnTop(s.windows, EffectSubGroupPicker) then
        s.(windows := PopWindow(s.windows))
      else
        s
  }

  /** Delivers the inputs one after another. */
  function Run(broker: EffectBroker, leq: Leq, s: Session, events: seq<Event>): (r: Session)
    requires TotalPreorder(leq)
    decreases |events|
  {
    if events == [] then s else Run(broker, leq, Dispatch(broker, leq, s, events[0]), events[1..])
  }

  /**
   * What holds of the window at every moment after it opened above `below`:
   * the subgroup picker is in lockstep with the enumerated effects, at most
   * the group picker and then the subgroup picker sit above the spell maker,
   * and a shown subgroup picker has a valid selection.
   */
  ghost predicate Inv(below: seq<Window>, s: Session) {
    && Lockstep(s)
    && (|| s.windows == below + [SpellMakerWindow]
        || s.windows == below + [SpellMakerWindow, EffectGroupPicker]
        || (&& s.windows == below + [SpellMakerWindow, EffectGroupPicker, EffectSubGroupPicker]
            && HasSelection(s.subGroupPicker)))
  }

  /** Every routed input keeps `Inv`. */
  lemma DispatchKeepsInv(broker: EffectBroker, leq: Leq, below: seq<Window>, s: Session, e: Event)
    requires TotalPreorder(leq)
    requires Inv(below, s)
    ensures Inv(below, Dispatch(broker, leq, s, e))
  {
  }

  /** However the player plays, `Inv` holds from the moment the window opens. */
  lemma {:induction false} RunKeepsInv(broker: EffectBroker, leq: Leq, below: seq<Window>, s: Session, events: seq<Event>)
    requires TotalPreorder(leq)
    requires Inv(below, s)
    ensures Inv(below, Run(broker, leq, s, events))
    decreases |events|
  {
    if events != [] {
      DispatchKeepsInv(broker, leq, below, s, events[0]);
      RunKeepsInv(broker, leq, below, Dispatch(broker, leq, s, events[0]), events[1..]);
    }
  }

  /**
   * Whatever inputs came before, confirming a subgroup the player can see
   * never hits an out-of-range index, and the effect it resolves carries the
   * subgroup name the player selected.
   */
  lemma ShownSubGroupResolves(broker: EffectBroker, leq: Leq, below: seq<Window>, events: seq<Event>)
    requires TotalPreorder(leq)
    ensures var s := Run(broker, leq, Opened(below), events);
      OnTop(s.windows, EffectSubGroupPicker) ==>
        var r := SubGroupConfirm(s);
        && HasSelection(s.subGroupPicker)
        && r.Returned?
        && r.value.subGroupName == s.subGroupPicker.items[s.subGroupPicker.selected]
  {
    RunKeepsInv(broker, leq, below, Opened(below), events);
  }

  /**
   * In any state where the subgroup picker mirrors the enumerated effects,
   * confirming a subgroup succeeds exactly when the picker has a selection,
   * and resolves to an effect whose name is the selected item.
   */
  lemma LockstepResolution(s: Session)
    requires Lockstep(s)
    ensures SubGroupConfirm(s).Returned? <==> HasSelection(s.subGroupPicker)
    ensures SubGroupConfirm(s).Returned? ==>
      SubGroupConfirm(s).value.subGroupName == s.subGroupPicker.items[s.subGroupPicker.selected]
  {
  }

  /**
   * After a group is confirmed and the player highlights any subgroup `i`,
   * the effect resolved is one the broker listed for the confirmed group,
   * and its subgroup name is the `i`th item shown.
   */
  lemma ResolvedEffectBelongsToGroup(broker: EffectBroker, leq: Leq, s: Session, i: int)
    requires TotalPreorder(leq)
    requires GroupConfirm(broker, leq, s).Returned?
    ensures var t := GroupConfirm(broker, leq, s).After();
      0 <= i < |t.subGroupPicker.items| ==>
        var r := SubGroupConfirm(t.(subGroupPicker := Select(t.subGroupPicker, i)));
        && r.Returned?
        && r.value in broker.keyNamePairs(s.groupPicker.items[s.groupPicker.selected])
        && r.value.subGroupName == t.subGroupPicker.items[i]
  {
    var t := GroupConfirm(broker, leq, s).After();
    if 0 <= i < |t.subGroupPicker.items| {
      var e := t.enumeratedEffects[i];
      assert e in multiset(t.enumeratedEffects);
    }
  }

  /** Inputs that do not leave the subgroup picker. */
  predicate WithinSubGroup(events: seq<Event>) {
    forall k :: 0 <= k < |events| ==> events[k].ConfirmSubGroup? || events[k].Highlight?
  }

  /** While the subgroup picker is on top, its inputs leave the group picker,
      the stack, the shown subgroup names and the enumerated effects alone,
      and keep a valid subgroup selection valid. */
  lemma {:induction false} WithinSubGroupKeepsBelow(broker: EffectBroker, leq: Leq, s: Session, events: seq<Event>)
    requires TotalPreorder(leq)
    requires OnTop(s.windows, EffectSubGroupPicker)
    requires WithinSubGroup(events)
    ensures Run(broker, leq, s, events).windows == s.windows
    ensures Run(broker, leq, s, events).groupPicker == s.groupPicker
    ensures Run(broker, leq, s, events).enumeratedEffects == s.enumeratedEffects
    ensures Run(broker, leq, s, events).subGroupPicker.items == s.subGroupPicker.items
    ensures HasSelection(s.subGroupPicker) ==> HasSelection(Run(broker, leq, s, events).subGroupPicker)
    decreases |events|
  {
    if events != [] {
      var t := Dispatch(broker, leq, s, events[0]);
      assert t.windows == s.windows && t.groupPicker == s.groupPicker;
      assert t.enumeratedEffects == s.enumeratedEffects && t.subGroupPicker.items == s.subGroupPicker.items;
      assert WithinSubGroup(events[1..]) by {
        forall k | 0 <= k < |events| - 1
          ensures events[1..][k].ConfirmSubGroup? || events[1..][k].Highlight?
        {
          assert events[1..][k] == events[k + 1];
        }
      }
      WithinSubGroupKeepsBelow(broker, leq, t, events[1..]);
    }
  }

  /**
   * Escape from the subgroup picker returns to the group picker exactly as
   * the player left it: same items, same selection, same stack, however the
   * subgroup picker was used in between.
   */
  lemma EscapeReturnsToGroupPicker(broker: EffectBroker, leq: Leq, s: Session, events: seq<Event>)
    requires TotalPreorder(leq)
    requires OnTop(s.windows, EffectGroupPicker)
    requires GroupConfirm(broker, leq, s).Returned?
    requires WithinSubGroup(events)
    ensures var t := Run(broker, leq, s, [ConfirmGroup] + events + [Escape]);
      t.windows == s.windows && t.groupPicker == s.groupPicker
  {
    var s1 := Dispatch(broker, leq, s, ConfirmGroup);
    assert OnTop(s1.windows, EffectSubGroupPicker);
    WithinSubGroupKeepsBelow(broker, leq, s1, events);
    RunAppend(broker, leq, s, [ConfirmGroup] + events, [Escape]);
    RunAppend(broker, leq, s, [ConfirmGroup], events);
    var s2 := Run(broker, leq, s1, events);
    assert Run(broker, leq, s, [ConfirmGroup] + events) == s2;
    assert s1.windows[..|s1.windows| - 1] == s.windows;
  }

  /**
   * Confirm a group, use the subgroup picker in any way, then confirm a
   * subgroup: the effect resolved is the entry, at the selected index, of the
   * list captured by the group confirm (the broker is not asked again), and it
   * is one of the effects the broker listed for the confirmed group.
   */
  lemma ResolvesFromCapturedList(broker: EffectBroker, leq: Leq, s: Session, events: seq<Event>)
    requires TotalPreorder(leq)
    requires OnTop(s.windows, EffectGroupPicker)
    requires GroupConfirm(broker, leq, s).Returned?
    requires WithinSubGroup(events)
    ensures var captured := GroupConfirm(broker, leq, s).After().enumeratedEffects;
      var t := Run(broker, leq, s, [ConfirmGroup] + events);
      var r := SubGroupConfirm(t);
      && OnTop(t.windows, EffectSubGroupPicker)
      && t.enumeratedEffects == captured
      && t.subGroupPicker.items == SubGroupNames(captured)
      && 0 <= t.subGroupPicker.selected < |captured|
      && r.Returned?
      && r.value == captured[t.subGroupPicker.selected]
      && r.value.subGroupName == t.subGroupPicker.items[t.subGroupPicker.selected]
      && r.value in broker.keyNamePairs(s.groupPicker.items[s.groupPicker.selected])
  {
    var after := GroupConfirm(broker, leq, s).After();
    RunAfterConfirm(broker, leq, s, events);
    WithinSubGroupKeepsBelow(broker, leq, after, events);
    var t := Run(broker, leq, after, events);
    var listed := broker.keyNamePairs(s.groupPicker.items[s.groupPicker.selected]);
    var chosen := after.enumeratedEffects[t.subGroupPicker.selected];
    assert chosen in multiset(after.enumeratedEffects);
    assert chosen in multiset(listed);
  }

  /** With the group picker on top, a run that starts with a group confirm
      continues from the state that handler left. */
  lemma RunAfterConfirm(broker: EffectBroker, leq: Leq, s: Session, events: seq<Event>)
    requires TotalPreorder(leq)
    requires OnTop(s.windows, EffectGroupPicker)
    ensures Run(broker, leq, s, [ConfirmGroup] + events)
         == Run(broker, leq, GroupConfirm(broker, leq, s).After(), events)
  {
    RunAppend(broker, leq, s, [ConfirmGroup], events);
  }

  /** Running two input sequences one after the other is running their concatenation. */
  lemma {:induction false} RunAppend(broker: EffectBroker, leq: Leq, s: Session, xs: seq<Event>, ys: seq<Event>)
    requires TotalPreorder(leq)
    ensures Run(broker, leq, s, xs + ys) == Run(broker, leq, Run(broker, leq, s, xs), ys)
    decreases |xs|
  {
    if xs != [] {
      assert (xs + ys)[0] == xs[0] && (xs + ys)[1..] == xs[1..] + ys;
      RunAppend(broker, leq, Dispatch(broker, leq, s, xs[0]), xs[1..], ys);
    } else {
      assert xs + ys == ys;
    }
  }

  /**
   * The subgroup list shown after a group is confirmed agrees, name by name
   * up to collation ties, with ANY ordering of the group's effects by
   * subgroup name, so it does not depend on how `List.Sort` breaks ties
   * beyond swapping names the culture compares as equal.
   */
  lemma ShownOrderIndependentOfSort(broker: EffectBroker, leq: Leq, s: Session, other: seq<EffectKeyNamePair>)
    requires TotalPreorder(leq)
    ensures var r := GroupConfirm(broker, leq, s);
      r.Returned? ==>
      var listed := broker.keyNamePairs(s.groupPicker.items[s.groupPicker.selected]);
      multiset(other) == multiset(listed) && SortedBySubGroup(leq, other) ==>
      && |r.After().subGroupPicker.items| == |other|
      && forall i :: 0 <= i < |other| ==> Tie(leq, r.After().subGroupPicker.items[i], other[i].subGroupName)
  {
    var r := GroupConfirm(broker, leq, s);
    if r.Returned? {
      var listed := broker.keyNamePairs(s.groupPicker.items[s.groupPicker.selected]);
      if multiset(other) == multiset(listed) && SortedBySubGroup(leq, other) {
        SortedPermutationsAgree(leq, r.After().enumeratedEffects, other);
      }
    }
  }
}
