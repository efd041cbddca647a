# Interactive world map: navigation model

A Dafny model of the navigation logic of the Streamlit page `worldmap.py`.
The page shows a world map; clicking a country opens a confirmation dialog;
OK enters a state-level map of that country (only India has one), Cancel
returns to the world map, and the back buttons of the country view return
to the world map as well.

The session holds three variables — `view` (`'world'` or `'country'`),
`selected_country` (a name or `None`) and `show_dialog` — modelled as
`Session.State`. Each script run first fills the missing variables with their
defaults (`Session.Initialize`), then renders one screen chosen by the
dispatch at the bottom of the script (`Navigation.ScreenOf`). Each button
press or map selection is a `Navigation.Event`, and its handler is the pure
function `Navigation.Step`. `Navigation.Enabled` says which screen can produce
which event. Clicks come only from the world map, because the dialog's
background map has no selection handler. OK and Cancel come only from the
dialog. The top back button is on every country view. The "Go Back" button
appears only under the notice for an unsupported country.

The main result is `Reachability.ReachableIffCanonical`. A session reaches a
state by a run of offered events from a new session exactly when that state
has one of three shapes:
- the idle world map (`Idle`);
- the dialog over the world map with a selection (`Pending(name)`);
- the country view of the selection (`Viewing(name)`).

So the dialog always has a country to ask about. The country view never
receives `None`; on `None`, lower-casing at line 71 would raise.

The country view's own logic is in module `CountryView`:
- the case-insensitive drill-down test `IsSupported`;
- the extraction of the `ST_NM` state names and of the constant value
  column from the fetched feature list (`StateNames`, `Ones`, `BuildTable`);
- the page for a country (`Page`), which reads the fetched data only for a
  supported country.

Files: `wrappers.dfy` (Option, Result), `session.dfy`, `navigation.dfy`,
`country.dfy`, `reachability.dfy`.

## Model

| member | source | states |
|---|---|---|
| Session.Initialize | worldmap.py:11-16 | each of the three variables keeps its value when present and otherwise gets its default (`'world'`, `None`, `False`) |
| Session.InitializeEmpty | worldmap.py:11-16 | a new session starts on the world view with nothing selected and the dialog hidden |
| Session.InitializeKeepsState | worldmap.py:11-16 | re-running the initialisation on an initialised session changes nothing |
| Session.InitializeIdempotent | worldmap.py:11-16 | initialising twice gives the same state as initialising once |
| Navigation.ClickedCountry | worldmap.py:55-57 | a click names a country exactly when there is a first selected point and it has a `hovertext` field; the name is that field |
| Navigation.ClickEffect | worldmap.py:55-60 | a click without a named country leaves the state untouched; otherwise it stores the name, shows the dialog and keeps the view |
| Navigation.ConfirmEffect | worldmap.py:132-135 | OK sets the view to `'country'`, hides the dialog and keeps the selection |
| Navigation.CancelEffect | worldmap.py:137-140 | Cancel hides the dialog and clears the selection, keeping the view |
| Navigation.BackEffect | worldmap.py:66-69 | the top back button and the "Go Back" button of lines 116-119 have the same effect: world view, no selection, dialog flag unchanged |
| Navigation.Step | worldmap.py:55-140 | the five handlers (lines 55-60, 66-69, 116-119, 132-135, 137-140): a click naming a country stores it, shows the dialog and keeps the view, and a click naming none changes nothing; OK sets `'country'`, hides the dialog and keeps the selection; Cancel hides the dialog and clears the selection, keeping the view; either back button sets `'world'` and clears the selection, keeping the dialog flag |
| Navigation.ScreenOf | worldmap.py:122-157 | a shown dialog wins over the view; otherwise the world map is shown exactly for `'world'`, the country map of the selection exactly for `'country'` with a selection, and the failing country view (`None.lower()` at line 71) exactly for `'country'` without one |
| Navigation.Enabled | worldmap.py:52-157 | clicks arise only on the world map (line 52; the dialog's background chart at line 152 has no selection handler); the dialog offers exactly OK and Cancel (lines 132, 137); every country view, including the failing one, offers the top back button (line 66, drawn before the branch at line 71); "Go Back" is offered exactly on the view of an unsupported country (line 116) |
| Navigation.RunAppend | worldmap.py:11-157 | `Run` models the session over successive script runs (re-initialising between runs is a no-op by `Session.InitializeKeepsState`); handling two runs of events in turn equals handling their concatenation |
| Navigation.ValidTraceAppend | worldmap.py:52-157 | `ValidTrace` says every event comes from the screen on display; a concatenation is such a trace exactly when its first part is and its second part is from the state the first part ends in |
| Navigation.DialogHasPriority | worldmap.py:122-157 | while the dialog is shown, the screen does not depend on the view |
| Reachability.CanonicalHasInv | worldmap.py:122-157 | each of the three shapes satisfies the invariant and never dispatches to a country view without a country |
| Reachability.StepCanonical | worldmap.py:55-140 | every event the current screen offers moves one of the three shapes to one of the three shapes |
| Reachability.RunCanonical | worldmap.py:55-140 | a whole run of offered events keeps the state in the three shapes (induction over the run) |
| Reachability.ReachableInvariant | worldmap.py:11-157 | from a new session, after any run of offered events: a shown dialog has a selection and the world view; the country view has a selection and no dialog; the country view is never entered without a country |
| Reachability.CanonicalIsReachable | worldmap.py:55-135 | each of the three shapes, for every country name, is reached by some run of offered events |
| Reachability.ReachableIffCanonical | worldmap.py:11-157 | the reachable sessions are exactly the idle world map, the dialog over a selection, and the country view of a selection |
| Reachability.CanReturnToIdle | worldmap.py:66-140 | from every reachable shape an offered event sequence leads back to the idle world map: Cancel from the dialog, the top back button from a country view |
| Reachability.UnofferedBackBreaksInv | worldmap.py:122-140 | the screen restriction matters: a back press during the dialog, which the dialog does not offer, would leave a dialog with no selection |
| Reachability.BackOnWorldIsNoOp | worldmap.py:52-60 | the world map offers no back button, and a back press there would change nothing |
| Reachability.IndiaRoundTrip | worldmap.py:55-69 | selecting India opens the dialog for India; OK shows India's country map; back returns to the idle world map |
| Reachability.UnsupportedCountryScenario | worldmap.py:114-119 | France's country view shows the notice whatever the boundary data, offers "Go Back", and both back buttons return to the idle world map; India's view does not offer "Go Back" |
| CountryView.Lower | worldmap.py:71 | lower-casing keeps the length and lower-cases each position (ASCII) |
| CountryView.LowerEqualIff | worldmap.py:71 | two names lower-case to the same string exactly when they are equal up to letter case |
| CountryView.IsSupported | worldmap.py:71 | the drill-down is supported exactly for the names equal to "India" up to letter case |
| CountryView.SupportedIgnoresCase | worldmap.py:71 | names that differ only in case are supported alike |
| CountryView.SupportExamples | worldmap.py:71 | "India", "INDIA" and "india" are supported; "France" is not |
| CountryView.StateNames | worldmap.py:78 | with every feature named, the names come one per feature, in feature order, from `properties['ST_NM']`; otherwise the lookup fails at the first feature without `ST_NM` |
| CountryView.Ones | worldmap.py:83 | the value column has the requested length and every entry is 1 |
| CountryView.BuildTable | worldmap.py:78-84 | the table has one row per feature with its state name and value 1, and its two columns have equal length; it fails exactly when a feature lacks `ST_NM` |
| CountryView.Page | worldmap.py:71-119 | an unsupported country gets the notice naming it; a supported one gets the state map built from the fetched features (their `ST_NM` names, value 1), or the lookup failure at the first feature lacking `ST_NM` |
| CountryView.UnsupportedIgnoresFetch | worldmap.py:71-75 | for an unsupported country the page does not depend on the boundary data, so nothing is fetched |

## Left out

- Page set-up, titles, info and warning texts, column layout and the `st.rerun` mechanics: UI plumbing, abstracted into discrete events and screens.
- Plotly figure construction and styling (lines 25-49, 87-113, 143-152): wrappers over a chart library outside the model.
- The HTTP fetch and JSON decoding (lines 73-75): network I/O. The feature list the request would return is a parameter of `CountryView.Page`. A failed request or a response without `features` is not modelled.
- The float map centre and zoom (lines 103-104) and the gapminder dataset query (lines 23, 143): floating point and bundled external data.
- CountryView.Lower: lower-cases ASCII letters only, not Python's full Unicode `str.lower`. For the comparison with `india` the two agree on ordinary inputs.
- `Navigation.Point` maps field names to strings: the hover text is taken to be the world map's `hover_name` country string. A null hover text would be stored as `None` with the dialog shown, and OK would then reach the failing country view; this case is not modelled.
- `CountryView.Feature` keeps only a string-valued `properties` map. Geometry is not read by the extracted logic, and non-string property values are not modelled.
- `view` is a two-valued datatype. The handlers only ever store `'world'` or `'country'`. The source's `elif` chain would render nothing for any other string.
- Streamlit widget state that could survive across reruns, such as a chart selection that persists after returning to the world map: every event is modelled as coming fresh from the screen on display.
- The failure of line 71 when the country view gets `None` is the `Broken` screen. It is proved unreachable, so its further behaviour is not modelled.
