/**
 * Which sessions the page can reach from a new session when every event
 * comes from the screen on display.
 */
module Reachability {
  import opened Wrappers
  import opened Session
  import opened Navigation
  import CountryView

  /** The invariant of the page: a dialog needs a selection on the world view, and so does the country view. */
  predicate Inv(s: State) {
    && (s.showDialog ==> s.selected.Some? && s.view == World)
    && (s.view.Country? ==> s.selected.Some? && !s.showDialog)
  }

  /** Nothing selected, on the world map. */
  const Idle := Initial

  /** The dialog asks about `name` over the world map. */
  function Pending(name: string): State {
    State(World, Some(name), true)
  }

  /** The country view of `name`. */
  function Viewing(name: string): State {
    State(Country, Some(name), false)
  }

  /** The three shapes of a session the page moves between. */
  predicate Canonical(s: State) {
    s == Idle || (s.selected.Some? && (s == Pending(s.selected.value) || s == Viewing(s.selected.value)))
  }

  /** A state some trace of offered events leads to from a new session. */
  ghost predicate Reachable(s: State) {
    exists events :: ValidTrace(Initial, events) && Run(Initial, events) == s
  }

  lemma CanonicalHasInv(s: State)
    requires Canonical(s)
    ensures Inv(s)
    ensures ScreenOf(s) != Broken
  {
  }

  /** Every offered event moves a canonical state to a canonical state. */
  lemma StepCanonical(s: State, e: Event)
    requires Canonical(s) && Enabled(ScreenOf(s), e)
    ensures Canonical(Step(s, e))
  {
    if s == Idle {
      assert e.Click?;
    } else if s == Pending(s.selected.value) {
      assert e.Confirm? || e.Cancel?;
    } else {
      assert e.BackToWorld? || e.GoBack?;
    }
  }

  /** Handling a trace of offered events keeps a state canonical. */
  lemma {:induction false} RunCanonical(s: State, events: seq<Event>)
    requires Canonical(s) && ValidTrace(s, events)
    ensures Canonical(Run(s, events))
    decreases |events|
  {
    if events != [] {
      StepCanonical(s, events[0]);
      RunCanonical(Step(s, events[0]), events[1..]);
    }
  }

  /**
   * From a new session, every trace of offered events keeps the invariant
   * and never dispatches to the country view without a country.
   */
  lemma ReachableInvariant(events: seq<Event>)
    requires ValidTrace(Initial, events)
    ensures Canonical(Run(Initial, events))
    ensures Inv(Run(Initial, events))
    ensures ScreenOf(Run(Initial, events)) != Broken
  {
    InitializeEmpty();
    RunCanonical(Initial, events);
    CanonicalHasInv(Run(Initial, events));
  }

  /** Every canonical state is reached: no shape of the three is dead. */
  lemma CanonicalIsReachable(s: State)
    requires Canonical(s)
    ensures Reachable(s)
  {
    if s == Idle {
      assert ValidTrace(Initial, []) && Run(Initial, []) == s;
    } else {
      var name := s.selected.value;
      var click := Click([map[HoverKey := name]]);
      var toDialog := [click];
      assert Step(Initial, click) == Pending(name);
      assert ValidTrace(Pending(name), []);
      assert ValidTrace(Initial, toDialog) && Run(Initial, toDialog) == Pending(name);
      if s == Pending(name) {
      } else {
        var toCountry := [click, Confirm];
        assert Step(Pending(name), Confirm) == Viewing(name);
        assert ValidTrace(Viewing(name), []);
        assert ValidTrace(Pending(name), [Confirm]);
        assert toCountry[1..] == [Confirm];
        assert ValidTrace(Initial, toCountry) && Run(Initial, toCountry) == Viewing(name);
      }
    }
  }

  /** The reachable sessions are exactly the canonical ones. */
  lemma ReachableIffCanonical(s: State)
    ensures Reachable(s) <==> Canonical(s)
  {
    if Reachable(s) {
      var events :| ValidTrace(Initial, events) && Run(Initial, events) == s;
      ReachableInvariant(events);
    }
    if Canonical(s) {
      CanonicalIsReachable(s);
    }
  }

  /** Without the screen restriction the invariant breaks: a back press while the dialog is up. */
  lemma UnofferedBackBreaksInv(name: string)
    ensures Inv(Pending(name)) && !Inv(Step(Pending(name), BackToWorld))
  {
  }

  /** A back press on the idle world map, were it offered, would change nothing. */
  lemma BackOnWorldIsNoOp()
    ensures !Enabled(ScreenOf(Idle), BackToWorld) && !Enabled(ScreenOf(Idle), GoBack)
    ensures Step(Idle, BackToWorld) == Step(Idle, GoBack) == Idle
  {
  }

  /** Selecting India, confirming and going back returns to the idle world map. */
  lemma IndiaRoundTrip()
    ensures Step(Idle, Click([map[HoverKey := "India"]])) == Pending("India")
    ensures Step(Pending("India"), Confirm) == Viewing("India")
    ensures ScreenOf(Viewing("India")) == CountryMap("India")
    ensures Step(Viewing("India"), BackToWorld) == Idle
  {
  }

  /**
   * France is confirmed but has no state data: its view ignores the boundary
   * data, offers the second back button, and both buttons return to the idle map.
   */
  lemma UnsupportedCountryScenario(fetched: seq<CountryView.Feature>)
    ensures CountryView.Page("France", fetched) == CountryView.Unavailable("France")
    ensures Enabled(ScreenOf(Viewing("France")), GoBack)
    ensures Step(Viewing("France"), GoBack) == Step(Viewing("France"), BackToWorld) == Idle
    ensures !Enabled(ScreenOf(Viewing("India")), GoBack)
  {
    CountryView.SupportExamples();
  }

  /** From every reachable shape some offered trace leads back to the idle world map. */
  lemma CanReturnToIdle(s: State)
    requires Canonical(s)
    ensures exists events :: ValidTrace(s, events) && Run(s, events) == Idle
  {
    if s == Idle {
      assert ValidTrace(s, []) && Run(s, []) == Idle;
    } else if s == Pending(s.selected.value) {
      assert ValidTrace(Step(s, Cancel), []);
      assert ValidTrace(s, [Cancel]) && Run(s, [Cancel]) == Idle;
    } else {
      assert ValidTrace(Step(s, BackToWorld), []);
      assert ValidTrace(s, [BackToWorld]) && Run(s, [BackToWorld]) == Idle;
    }
  }
}
