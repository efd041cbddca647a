/**
 * The navigation state machine of the world-map page: the user events, the
 * handlers that change the session, and the dispatch that picks the screen.
 */
module Navigation {
  import opened Wrappers
  import opened Session
  import CountryView

  /** One selected point of a chart selection: its named fields. */
  type Point = map<string, string>

  /**
   * A user event.
   *  - `Click(points)`: the world map reported a selection with these points
   *    (an absent selection and an empty one both give `[]`);
   *  - `Confirm` / `Cancel`: the OK / Cancel buttons of the dialog;
   *  - `BackToWorld`: the back button at the top of every country view;
   *  - `GoBack`: the button under the "not available" notice.
   */
  datatype Event = Click(points: seq<Point>) | Confirm | Cancel | BackToWorld | GoBack

  /** The field of a selected point that names the country under the cursor. */
  const HoverKey := "hovertext"

  /** The country a click names: the hover text of the first selected point, if it has one. */
  function ClickedCountry(points: seq<Point>): (r: Option<string>)
    ensures r.Some? <==> |points| > 0 && HoverKey in points[0]
    ensures r.Some? ==> r.value == points[0][HoverKey]
  {
    if |points| > 0 && HoverKey in points[0] then Some(points[0][HoverKey]) else None
  }

  /**
   * The handler of each event. A click naming a country selects it and opens
   * the dialog; OK enters the country view; Cancel closes the dialog and
   * forgets the selection; both back buttons return to the world view and
   * forget the selection.
   */
  function Step(s: State, e: Event): (r: State)
    ensures e.Click? && ClickedCountry(e.points).None? ==> r == s
    ensures e.Click? && ClickedCountry(e.points).Some? ==>
      r.view == s.view && r.selected == ClickedCountry(e.points) && r.showDialog
    ensures e.Confirm? ==> r.view == Country && r.selected == s.selected && !r.showDialog
    ensures e.Cancel? ==> r.view == s.view && r.selected.None? && !r.showDialog
    ensures e.BackToWorld? || e.GoBack? ==> r.view == World && r.selected.None? && r.showDialog == s.showDialog
  {
    match e
    case Click(points) =>
      (match ClickedCountry(points)
       case Some(name) => s.(selected := Some(name), showDialog := true)
       case None => s)
    case Confirm => s.(view := Country, showDialog := false)
    case Cancel => s.(showDialog := false, selected := None)
    case BackToWorld => s.(view := World, selected := None)
    case GoBack => s.(view := World, selected := None)
  }

  /**
   * The screen the dispatch renders. `Broken` is the country view entered
   * with no selected country, where lower-casing the missing name fails.
   */
  datatype Screen = WorldMap | Dialog(selection: Option<string>) | CountryMap(country: string) | Broken

  /** The dispatch: the dialog has priority over the view. */
  function ScreenOf(s: State): (r: Screen)
    ensures s.showDialog ==> r == Dialog(s.selected)
    ensures r == WorldMap <==> !s.showDialog && s.view.World?
    ensures r == Broken <==> !s.showDialog && s.view.Country? && s.selected.None?
    ensures r.CountryMap? <==> !s.showDialog && s.view.Country? && s.selected.Some?
    ensures r.CountryMap? ==> r.country == s.selected.value
  {
    if s.showDialog then Dialog(s.selected)
    else if s.view == World then WorldMap
    else if s.selected.Some? then CountryMap(s.selected.value)
    else Broken
  }

  /**
   * The events a screen can produce: the world map reports clicks, the
   * dialog offers OK and Cancel (its background map reports no selection),
   * every country view has the top back button and only the notice of an
   * unsupported country has the second one. The broken country view has
   * already drawn its top back button when the name lookup fails.
   */
  function Enabled(screen: Screen, e: Event): (r: bool)
    ensures r && e.Click? ==> screen == WorldMap
    ensures r && (e.Confirm? || e.Cancel?) ==> screen.Dialog?
    ensures r && e.BackToWorld? ==> screen.CountryMap? || screen == Broken
    ensures r && e.GoBack? ==> screen.CountryMap? && !CountryView.IsSupported(screen.country)
    ensures screen == WorldMap ==> (r <==> e.Click?)
    ensures screen.Dialog? ==> (r <==> e.Confirm? || e.Cancel?)
    ensures screen.CountryMap? ==> (r <==> e.BackToWorld? || (e.GoBack? && !CountryView.IsSupported(screen.country)))
    ensures screen == Broken ==> (r <==> e.BackToWorld?)
  {
    match screen
    case WorldMap => e.Click?
    case Dialog(_) => e.Confirm? || e.Cancel?
    case CountryMap(c) => e.BackToWorld? || (e.GoBack? && !CountryView.IsSupported(c))
    case Broken => e.BackToWorld?
  }

  /** The state after handling `events` in order. */
  function Run(s: State, events: seq<Event>): State
    decreases |events|
  {
    if events == [] then s else Run(Step(s, events[0]), events[1..])
  }

  /** Every event of `events` is offered by the screen shown when it arrives. */
  predicate ValidTrace(s: State, events: seq<Event>)
    decreases |events|
  {
    events == [] || (Enabled(ScreenOf(s), events[0]) && ValidTrace(Step(s, events[0]), events[1..]))
  }

  /** Only the first selected point counts, and a click without hover text changes nothing. */
  lemma ClickEffect(s: State, points: seq<Point>)
    ensures ClickedCountry(points).None? ==> Step(s, Click(points)) == s
    ensures ClickedCountry(points).Some? ==>
      Step(s, Click(points)) == State(s.view, Some(points[0][HoverKey]), true)
  {
  }

  /** OK enters the country view, hides the dialog and keeps the selection. */
  lemma ConfirmEffect(s: State)
    ensures Step(s, Confirm) == State(Country, s.selected, false)
  {
  }

  /** Cancel hides the dialog and forgets the selection, keeping the view. */
  lemma CancelEffect(s: State)
    ensures Step(s, Cancel) == State(s.view, None, false)
  {
  }

  /** Both back buttons return to the world view and forget the selection, keeping the dialog flag. */
  lemma BackEffect(s: State)
    ensures Step(s, BackToWorld) == Step(s, GoBack) == State(World, None, s.showDialog)
  {
  }

  /** The dialog is shown whatever the view is. */
  lemma DialogHasPriority(s: State, v: View)
    requires s.showDialog
    ensures ScreenOf(s.(view := v)) == ScreenOf(s) == Dialog(s.selected)
  {
  }

  /** Handling two traces one after the other is handling their concatenation. */
  lemma {:induction false} RunAppend(s: State, a: seq<Event>, b: seq<Event>)
    ensures Run(s, a + b) == Run(Run(s, a), b)
    decreases |a|
  {
    if a == [] {
      assert a + b == b;
    } else {
      assert (a + b)[0] == a[0];
      assert (a + b)[1..] == a[1..] + b;
      RunAppend(Step(s, a[0]), a[1..], b);
    }
  }

  /** A concatenation is offered exactly when its first part is, and its second part is from where the first ends. */
  lemma {:induction false} ValidTraceAppend(s: State, a: seq<Event>, b: seq<Event>)
    ensures ValidTrace(s, a + b) <==> ValidTrace(s, a) && ValidTrace(Run(s, a), b)
    decreases |a|
  {
    if a == [] {
      assert a + b == b;
    } else {
      assert (a + b)[0] == a[0];
      assert (a + b)[1..] == a[1..] + b;
      ValidTraceAppend(Step(s, a[0]), a[1..], b);
    }
  }
}
