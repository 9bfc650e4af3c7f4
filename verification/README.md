# Spell maker add-effect workflow, in Dafny

This project models the add-effect selection workflow of Daggerfall Unity's
spell maker window (`DaggerfallSpellMakerWindow`). The player clicks the
add-effect button. A list picker then shows the effect broker's group names.
Confirming a group enumerates that group's effect key/name pairs, sorts them
by subgroup name and shows their subgroup names in a second picker.
Confirming a subgroup resolves the chosen effect from the list enumerated at
the group step. Escape pops the top picker and returns to the one beneath,
unchanged.

Layout:

- `collation.dfy` (`Collation`): the culture-sensitive `string.CompareTo`, as an abstract total preorder `leq`.
- `broker.dfy` (`Broker`): the effect key/name pair record and the two broker queries the window makes.
- `effect_sort.dfy` (`EffectSort`): the sort by subgroup name. The model proves it is sorted and a permutation, and that any two such orderings agree up to collation ties.
- `pickers.dfy` (`Pickers`): the list box calls the window makes, and the window stack's push and pop.
- `spell_maker.dfy` (`SpellMaker`): the window state (`Session`) and the three handlers as pure functions. A handler that throws returns `Thrown` with the state it left behind.
- `workflow.dfy` (`Workflow`): input routed to the top window (`Dispatch`, `Run`). It also holds the invariant that every run keeps and the escape/resolution properties.
- `scenarios.dfy` (`Scenarios`): concrete walks through the workflow.

Two behaviours of the program shape what the model promises:

- The window calls `List.Sort`, which is unstable, with the culture-sensitive `string.CompareTo`. Neither the order of ties nor an ordinal order is fixed. The model therefore promises only "sorted by subgroup name, and a permutation of the broker's list". `EffectSort.Sort` is one admissible result. `SortedPermutationsAgree` shows that any such result shows the same names up to collation ties. `SortIdempotentUpToTies` draws the corollary: sorting again a list that is already sorted yields the same names up to ties.
- When a group has no effects, the handler throws after it has already cleared the subgroup picker and replaced `enumeratedEffects` with the broker's empty list. The stack is untouched, so the group picker stays on top. `GroupConfirm` returns exactly that state.

## Model

| member | source | states |
|---|---|---|
| `SpellMaker.Opened` | Assets/Scripts/Game/UserInterfaceWindows/DaggerfallSpellMakerWindow.cs:139-149 | Right after setup, both pickers are empty, no effects are enumerated, the subgroup picker and the enumerated list are in lockstep, and the spell maker is the top window. |
| `SpellMaker.AddEffectClick` | Assets/Scripts/Game/UserInterfaceWindows/DaggerfallSpellMakerWindow.cs:164-176 | After the click the group picker holds exactly the broker's group names with index 0 selected, whatever it held before. The group picker is pushed as the new top. The subgroup picker and the enumerated effects are untouched. |
| `SpellMaker.AddSubGroupNames` | Assets/Scripts/Game/UserInterfaceWindows/DaggerfallSpellMakerWindow.cs:193-196 | Adding one item per effect appends exactly the effects' subgroup names, in the same order, and does not move the selection. |
| `SpellMaker.GroupConfirm` | Assets/Scripts/Game/UserInterfaceWindows/DaggerfallSpellMakerWindow.cs:178-204 | The handler throws if and only if no group is selected or the broker has no effects for the group. On a throw the stack is unchanged and the subgroup picker and enumerated list are empty. On success the enumerated effects are a permutation of the broker's list, sorted by subgroup name. The subgroup picker then shows their names in that order, with index 0 selected, and is pushed. In every case the group picker is left as it was. |
| `SpellMaker.SubGroupConfirm` | Assets/Scripts/Game/UserInterfaceWindows/DaggerfallSpellMakerWindow.cs:206-211 | The handler resolves the enumerated effect at the subgroup picker's selected index, and succeeds exactly when that index is within the list. Otherwise it throws an out-of-range fault. It changes nothing in the window. |
| `EffectSort.Insert` | Assets/Scripts/Game/UserInterfaceWindows/DaggerfallSpellMakerWindow.cs:190 | Inserting one effect into a list sorted by subgroup name keeps it sorted and adds exactly that effect. |
| `EffectSort.Sort` | Assets/Scripts/Game/UserInterfaceWindows/DaggerfallSpellMakerWindow.cs:190 | The sorted effects are a permutation of the input, ordered non-decreasingly by subgroup name under any total preorder. |
| `EffectSort.SortedPermutationsAgree` | Assets/Scripts/Game/UserInterfaceWindows/DaggerfallSpellMakerWindow.cs:190 | Two sorted permutations of the same effects have, position by position, subgroup names that tie under the collation. So the shown order does not depend on how an unstable sort breaks ties. |
| `EffectSort.SortIdempotentUpToTies` | Assets/Scripts/Game/UserInterfaceWindows/DaggerfallSpellMakerWindow.cs:190 | Sorting an already sorted list again gives, position by position, subgroup names that tie with the original. |
| `Workflow.ShownOrderIndependentOfSort` | Assets/Scripts/Game/UserInterfaceWindows/DaggerfallSpellMakerWindow.cs:185-196 | After a group is confirmed, the shown subgroup names tie position by position with those of any other sorted ordering of the group's effects. |
| `Workflow.Dispatch` | Assets/Scripts/Game/UserInterfaceWindows/DaggerfallSpellMakerWindow.cs:139-158 | Input is routed to the handlers wired at lines 143, 148 and 157. The routing assumptions, which are the user interface manager's and the list box's behaviour rather than the window's, behind every workflow lemma are: the add-effect button acts only when the spell maker is on top; each confirm acts only when its own picker is on top; a highlight moves the top picker's selection only within its list; and escape pops only a picker (line 146). The contract states that the stack changes only by the matching push or a picker pop, the group picker changes only when the spell maker or the group picker is on top, and the subgroup list and enumerated effects change only through a group confirm. |
| `Workflow.DispatchKeepsInv` | Assets/Scripts/Game/UserInterfaceWindows/DaggerfallSpellMakerWindow.cs:139-158 | Any input routed to the top window keeps the invariant. The invariant says: the subgroup picker mirrors the enumerated effects; above the spell maker sit at most the group picker and then the subgroup picker; and a shown subgroup picker has a valid selection. |
| `Workflow.RunKeepsInv` | Assets/Scripts/Game/UserInterfaceWindows/DaggerfallSpellMakerWindow.cs:164-211 | The invariant holds after any sequence of player inputs. |
| `Workflow.ShownSubGroupResolves` | Assets/Scripts/Game/UserInterfaceWindows/DaggerfallSpellMakerWindow.cs:178-211 | Whatever inputs came before, confirming a visible subgroup picker never indexes out of range. The resolved effect's subgroup name is the item the player selected. |
| `Workflow.LockstepResolution` | Assets/Scripts/Game/UserInterfaceWindows/DaggerfallSpellMakerWindow.cs:193-208 | When the picker mirrors the enumerated list, subgroup confirm succeeds if and only if the picker has a selection. The resolved effect's name is then the selected item. |
| `Workflow.ResolvedEffectBelongsToGroup` | Assets/Scripts/Game/UserInterfaceWindows/DaggerfallSpellMakerWindow.cs:185-208 | After a successful group confirm, choosing any shown subgroup resolves to an effect the broker listed for that group, with the shown name. |
| `Workflow.WithinSubGroupKeepsBelow` | Assets/Scripts/Game/UserInterfaceWindows/DaggerfallSpellMakerWindow.cs:206-211 | While the subgroup picker is on top, confirming and moving its selection change neither the stack, nor the group picker, nor the shown subgroup names, nor the enumerated effects. A valid subgroup selection stays valid. |
| `Workflow.ResolvesFromCapturedList` | Assets/Scripts/Game/UserInterfaceWindows/DaggerfallSpellMakerWindow.cs:185-208 | Confirm a group, use the subgroup picker in any way, then confirm a subgroup. The resolved effect is the entry, at the selected index, of the list captured by the group confirm, with no new query to the broker. It carries the selected name and is one of the broker's effects for the confirmed group. |
| `Workflow.EscapeReturnsToGroupPicker` | Assets/Scripts/Game/UserInterfaceWindows/DaggerfallSpellMakerWindow.cs:145-148 | Confirm a group, use the subgroup picker in any way, then escape. The stack and the group picker (items and selection) are exactly as before the confirm. |
| `Scenarios.FireballScenario` | Assets/Scripts/Game/UserInterfaceWindows/DaggerfallSpellMakerWindow.cs:164-211 | Effects listed as "Fireball", "Cold Touch" are shown as "Cold Touch", "Fireball" under a collation that orders them that way. Picking index 1 resolves to the fireball. |
| `Scenarios.EmptyGroupScenario` | Assets/Scripts/Game/UserInterfaceWindows/DaggerfallSpellMakerWindow.cs:185-187 | A group with no effects throws a no-effects fault. The subgroup picker is not pushed, the group picker stays on top unchanged, and one escape leaves only the spell maker. |
| `Scenarios.EscapeTwiceScenario` | Assets/Scripts/Game/UserInterfaceWindows/DaggerfallSpellMakerWindow.cs:145-148 | Add effect, confirm, escape: the group picker and the stack are as they were after the click. A second escape leaves only the spell maker. |

## Left out

- Texture loading, UI rectangles and layout constants: these are asset I/O and rendering.
- Label and panel construction, the rest of `Setup`, and the tip-text hover handlers: these are widget rendering and localized text.
- `Debug.LogFormat` in the subgroup handler: the resolved effect is returned as the handler's value instead.
- The real user interface manager, `DaggerfallListPickerWindow` and its `ListBox`, and the entity effect broker: this is foreign code. They are modelled through the calls the handlers make, plus two routing assumptions that no handler makes: the user interface manager delivers input only to the top window, and the list box moves its selection only within its list. `ShownSubGroupResolves`, `RunKeepsInv` and the escape lemmas rest on both. `ClearItems` empties the list and resets the selection to 0. `SelectedItem` with an index outside the list counts as a throw. Escape pops the top picker. Closing the spell maker window itself is not modelled.
- The culture-dependent order of `string.CompareTo`: it is a parameter, assumed only to be a total preorder.
- What happens to an exception thrown by a handler after it leaves the handler: the model keeps the state the handler had reached and goes on delivering input.
- The broker's list storage: the model assumes `GetEffectKeyNamePairs` returns a fresh list on every call, since `keyNamePairs` is a pure function. If the broker handed out a shared list, the `Clear` at DaggerfallSpellMakerWindow.cs:182 on a later confirm would empty the broker's entry for the group confirmed before, and confirming that group again would throw. The in-place sort at line 190 would also reorder the broker's own list. The model does not cover that case.
