/** The settings screen: one button that toggles the unit and names the unit it switches to. */
module SettingsScreen {
  import opened WeatherSlice

  /** The unit a press dispatches, computed from the unit string the store yields. */
  function NextUnit(current: string): (next: Unit)
    ensures next == Fahrenheit <==> current == "celsius"
    ensures next == Celsius <==> current != "celsius"
  {
    if current == "celsius" then Fahrenheit else Celsius
  }

  /** The capitalised name of a unit, as the button shows it. */
  function Title(u: Unit): string
  {
    match u
    case Celsius => "Celsius"
    case Fahrenheit => "Fahrenheit"
  }

  /** The button label: it names the unit that a press switches to. */
  function ToggleLabel(current: string): (caption: string)
    ensures caption == "Toggle to " + Title(NextUnit(current))
  {
    "Toggle to " + (if current == "celsius" then "Fahrenheit" else "Celsius")
  }

  /** For a unit in the two-value domain, a press always changes it. */
  lemma ToggleChangesUnit(u: Unit)
    ensures NextUnit(u.Name()) != u
  {
  }

  /** Toggling twice returns the original unit. */
  lemma ToggleInvolution(u: Unit)
    ensures NextUnit(NextUnit(u.Name()).Name()) == u
  {
  }

  /** Any string other than "celsius" toggles to Celsius, including values outside the domain. */
  lemma ToggleOutsideDomain(current: string)
    requires current != "celsius" && current != "fahrenheit"
    ensures NextUnit(current) == Celsius
    ensures ToggleLabel(current) == "Toggle to Celsius"
  {
  }

  /** The label says "Fahrenheit" exactly when a press dispatches Fahrenheit, and
      "Celsius" exactly when it dispatches Celsius. */
  lemma LabelAgreesWithDispatch(current: string)
    ensures ToggleLabel(current) == "Toggle to Fahrenheit" <==> NextUnit(current) == Fahrenheit
    ensures ToggleLabel(current) == "Toggle to Celsius" <==> NextUnit(current) == Celsius
  {
  }

  /** Pressing the button: dispatch `setUnit` with the next unit. */
  method PressToggle(store: WeatherStore)
    modifies store
    ensures store.state.unit == NextUnit(old(store.state.unit).Name())
    ensures store.state.unit != old(store.state.unit)
  {
    ToggleChangesUnit(store.state.unit);
    store.Dispatch(SetUnit(NextUnit(store.state.unit.Name())));
  }

  /** Two presses leave the store where it was. */
  method PressTwice(store: WeatherStore)
    modifies store
    ensures store.state == old(store.state)
  {
    PressToggle(store);
    PressToggle(store);
    ToggleInvolution(old(store.state.unit));
  }
}
