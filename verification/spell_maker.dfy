/**
 * The add-effect selection workflow of the spell maker window.
 *
 * Three input handlers move the window through two nested list pickers:
 * the add-effect button fills and shows the effect group picker; confirming
 * a group enumerates that group's effects, sorts them by subgroup name and
 * fills and shows the subgroup picker; confirming a subgroup resolves the
 * chosen effect from the list enumerated at the group step. Escape pops the
 * top picker and so returns to the one below, untouched.
 *
 * Each handler is a function from the window's state to its state after the
 * handler ran. A handler that throws yields `Thrown` together with the state
 * it left behind, since assignments made before the throw stay made.
 */
module SpellMaker {
  import opened Collation
  import opened Broker
  import opened EffectSort
  import opened Pickers

  /** The part of the spell maker window the workflow reads and writes. */
  datatype Session = Session(
    groupPicker: Picker,
    subGroupPicker: Picker,
    windows: seq<Window>,
    enumeratedEffects: seq<EffectKeyNamePair>)

  /** Why a handler throws. */
  datatype Fault =
    | NoEffectsForGroup(group: string)   // the broker has no effects for the selected group
    | SelectionOutOfRange(index: int)    // a picker's selected index designates no entry

  /** The end of one handler run: the state left behind, and either the
      handler's result or the exception it threw. */
  datatype Outcome<T> =
    | Returned(after: Session, value: T)
    | Thrown(after: Session, fault: Fault)
  {
    /** The state the handler left, whether it returned or threw. */
    function After(): (s: Session) {
      match this
      case Returned(s, _) => s
      case Thrown(s, _) => s
    }
  }

  /** The subgroup picker shows exactly the subgroup names of the enumerated
      effects, entry for entry: an index into one is an index into the other. */
  predicate Lockstep(s: Session) {
    s.subGroupPicker.items == SubGroupNames(s.enumeratedEffects)
  }

  /**
   * The window right after `Setup` wired its pickers: both pickers are new
   * and empty, no effects are enumerated yet, and the spell maker is the top
   * window above `below`.
   */
  function Opened(below: seq<Window>): (s: Session)
    ensures Lockstep(s)
    ensures OnTop(s.windows, SpellMakerWindow) && PopWindow(s.windows) == below
    ensures s.groupPicker.items == [] && s.subGroupPicker.items == []
  {
    Session(EmptyPicker, EmptyPicker, PushWindow(below, SpellMakerWindow), [])
  }

  /**
   * The add-effect button was clicked: the group picker is emptied, refilled
   * with the broker's group names, its first entry selected, and pushed.
   */
  function AddEffectClick(broker: EffectBroker, s: Session): (r: Session)
    // nothing from an earlier click survives: only the broker decides the list
    ensures r.groupPicker == Picker(broker.groupNames, 0)
    ensures r.windows == s.windows + [EffectGroupPicker]
    ensures r.subGroupPicker == s.subGroupPicker
    ensures r.enumeratedEffects == s.enumeratedEffects
  {
    var picker := Select(AddItems(ClearItems(s.groupPicker), broker.groupNames), 0);
    s.(groupPicker := picker, windows := PushWindow(s.windows, EffectGroupPicker))
  }

  /** One `AddItem` per effect, in order: the loop that fills the subgroup picker. */
  function AddSubGroupNames(p: Picker, effects: seq<EffectKeyNamePair>): (r: Picker)
    ensures r.items == p.items + SubGroupNames(effects)
    ensures r.selected == p.selected
    decreases |effects|
  {
    if effects == [] then
      p
    else
      var r := AddSubGroupNames(AddItem(p, effects[0].subGroupName), effects[1..]);
      assert p.items + [effects[0].subGroupName] + SubGroupNames(effects[1..])
          == p.items + ([effects[0].subGroupName] + SubGroupNames(effects[1..]));
      r
  }

  /**
   * The selected group was confirmed. In order: the subgroup picker and the
   * enumerated effects are cleared; the broker is asked for the selected
   * group's effects, which become the enumerated effects; if there are none
   * the handler throws; otherwise they are sorted by subgroup name, their
   * subgroup names fill the subgroup picker, whose first entry is selected,
   * and the subgroup picker is pushed.
   */
  function GroupConfirm(broker: EffectBroker, leq: Leq, s: Session): (r: Outcome<()>)
    requires TotalPreorder(leq)
    // the group picker is left exactly as it was, and the stack only grows
    ensures r.After().groupPicker == s.groupPicker
    ensures r.Returned? ==> r.After().windows == s.windows + [EffectSubGroupPicker]
    ensures r.Thrown? ==> r.After().windows == s.windows
    // whatever happens, the subgroup picker shows the enumerated effects
    ensures Lockstep(r.After())
    // it throws exactly when no group is selected or the group has no effects
    ensures r.Thrown? <==>
      !HasSelection(s.groupPicker) ||
      broker.keyNamePairs(s.groupPicker.items[s.groupPicker.selected]) == []
    ensures r.Thrown? ==> r.After().enumeratedEffects == [] && r.After().subGroupPicker.items == []
    ensures r.Thrown? && !HasSelection(s.groupPicker) ==>
      r.fault == SelectionOutOfRange(s.groupPicker.selected)
    ensures r.Thrown? && HasSelection(s.groupPicker) ==>
      r.fault == NoEffectsForGroup(s.groupPicker.items[s.groupPicker.selected])
    // on success: the group's effects, sorted, shown in that order, first one selected
    ensures r.Returned? ==>
      var effects := broker.keyNamePairs(s.groupPicker.items[s.groupPicker.selected]);
      && multiset(r.After().enumeratedEffects) == multiset(effects)
      && SortedBySubGroup(leq, r.After().enumeratedEffects)
      && r.After().subGroupPicker.items == SubGroupNames(r.After().enumeratedEffects)
      && r.After().subGroupPicker.selected == 0
      && HasSelection(r.After().subGroupPicker)
  {
    var cleared := s.(subGroupPicker := ClearItems(s.subGroupPicker), enumeratedEffects := []);
    if !HasSelection(s.groupPicker) then
      Thrown(cleared, SelectionOutOfRange(s.groupPicker.selected))
    else
      var group := s.groupPicker.items[s.groupPicker.selected];
      var enumerated := broker.keyNamePairs(group);
      if |enumerated| < 1 then
        Thrown(cleared.(enumeratedEffects := enumerated), NoEffectsForGroup(group))
      else
        var sorted := Sort(leq, enumerated);
        assert |sorted| == |multiset(enumerated)| == |enumerated|;
        var picker := Select(AddSubGroupNames(cleared.subGroupPicker, sorted), 0);
        Returned(
          cleared.(subGroupPicker := picker,
                   enumeratedEffects := sorted,
                   windows := PushWindow(s.windows, EffectSubGroupPicker)),
          ())
  }

  /**
   * The selected subgroup was confirmed: the chosen effect is the entry of
   * the list enumerated at the group step at the picker's selected index
   * (the broker is not asked again). Nothing in the window changes; the
   * choice is only reported.
   */
  function SubGroupConfirm(s: Session): (r: Outcome<EffectKeyNamePair>)
    ensures r.After() == s
    ensures r.Returned? <==> 0 <= s.subGroupPicker.selected < |s.enumeratedEffects|
    ensures r.Returned? ==> r.value == s.enumeratedEffects[s.subGroupPicker.selected]
    ensures r.Thrown? ==> r.fault == SelectionOutOfRange(s.subGroupPicker.selected)
  {
    var i := s.subGroupPicker.selected;
    if 0 <= i < |s.enumeratedEffects| then
      Returned(s, s.enumeratedEffects[i])
    else
      Thrown(s, SelectionOutOfRange(i))
  }
}
