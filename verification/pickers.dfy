/**
 * The two collaborators the handlers drive: a list picker window (its
 * `ListBox`) and the user interface manager's window stack.
 *
 * Both are outside this model; only the calls the spell maker makes are
 * modelled, as pure functions on values.
 */
module Pickers {

  /** A list picker's list box: its items in display order and the
      selected index. */
  datatype Picker = Picker(items: seq<string>, selected: int)

  /** A freshly constructed picker: no items, index 0. */
  const EmptyPicker := Picker([], 0)

  /** `ListBox.ClearItems`: no items left, selection reset to 0. */
  function ClearItems(p: Picker): (r: Picker) {
    EmptyPicker
  }

  /** `ListBox.AddItem`: the item goes to the end of the list. */
  function AddItem(p: Picker, item: string): (r: Picker) {
    p.(items := p.items + [item])
  }

  /** `ListBox.AddItems`: the items go to the end of the list, in order. */
  function AddItems(p: Picker, newItems: seq<string>): (r: Picker) {
    p.(items := p.items + newItems)
  }

  /** `ListBox.SelectedIndex = i`. */
  function Select(p: Picker, i: int): (r: Picker) {
    p.(selected := i)
  }

  /** The selected index designates an item, so `SelectedItem` can be read. */
  predicate HasSelection(p: Picker) {
    0 <= p.selected < |p.items|
  }

  /** The windows the spell maker puts on the stack: itself (pushed by
      whoever opened it) and its two pickers. */
  datatype Window = SpellMakerWindow | EffectGroupPicker | EffectSubGroupPicker

  /** `uiManager.PushWindow`: the window becomes the new top. */
  function PushWindow(stack: seq<Window>, w: Window): (r: seq<Window>) {
    stack + [w]
  }

  /** What the user interface manager does on escape: the top window goes. */
  function PopWindow(stack: seq<Window>): (r: seq<Window>) {
    if stack == [] then [] else stack[..|stack| - 1]
  }

  /** `w` is the top window, the only one that receives input. */
  predicate OnTop(stack: seq<Window>, w: Window) {
    stack != [] && stack[|stack| - 1] == w
  }
}
