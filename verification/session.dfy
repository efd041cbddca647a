/**
 * The three session variables of the world-map page and their
 * initialisation at the top of every script run.
 */
module Session {
  import opened Wrappers

  /** The two values the page ever stores in `view`. */
  datatype View = World | Country

  /** A fully initialised session: `view`, `selected_country`, `show_dialog`. */
  datatype State = State(view: View, selected: Option<string>, showDialog: bool)

  /**
   * The session store before initialisation: each slot is `None` when its
   * key is missing and `Some(v)` when it already holds `v`.
   */
  datatype Slots = Slots(view: Option<View>, selected: Option<Option<string>>, showDialog: Option<bool>)

  /** The store of a brand-new session: no key is present. */
  const EmptySlots := Slots(None, None, None)

  /** The state a new session starts in. */
  const Initial := State(World, None, false)

  /** The store that holds exactly the variables of `s`. */
  function Stored(s: State): Slots {
    Slots(Some(s.view), Some(s.selected), Some(s.showDialog))
  }

  /**
   * Initialisation fills every missing slot with its default and keeps
   * every slot that is already present.
   */
  function Initialize(slots: Slots): (r: State)
    ensures slots.view.Some? ==> r.view == slots.view.value
    ensures slots.view.None? ==> r.view == Initial.view
    ensures slots.selected.Some? ==> r.selected == slots.selected.value
    ensures slots.selected.None? ==> r.selected == Initial.selected
    ensures slots.showDialog.Some? ==> r.showDialog == slots.showDialog.value
    ensures slots.showDialog.None? ==> r.showDialog == Initial.showDialog
  {
    var view := if slots.view.None? then World else slots.view.value;
    var selected := if slots.selected.None? then None else slots.selected.value;
    var showDialog := if slots.showDialog.None? then false else slots.showDialog.value;
    State(view, selected, showDialog)
  }

  /** A new session starts on the world view, with nothing selected and no dialog. */
  lemma InitializeEmpty()
    ensures Initialize(EmptySlots) == Initial
    ensures Initial.view == World && Initial.selected.None? && !Initial.showDialog
  {
  }

  /** Re-running the initialisation on a session that already holds a state changes nothing. */
  lemma InitializeKeepsState(s: State)
    ensures Initialize(Stored(s)) == s
  {
  }

  /** Initialising twice is the same as initialising once. */
  lemma InitializeIdempotent(slots: Slots)
    ensures Initialize(Stored(Initialize(slots))) == Initialize(slots)
  {
    InitializeKeepsState(Initialize(slots));
  }
}
