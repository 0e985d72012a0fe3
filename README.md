# Weather app decision logic, in Dafny

This project models the decision logic of a small React Native weather app. The app lets a
user search for a city or use the device's location, shows the current weather for that
city, and lets the user pick Celsius or Fahrenheit. The UI, the network client and the
platform services are not modelled. Their results are inputs to the model, and their visible
effects are outcome values.

Five modules, one per source file plus a wrapper module:

- `Wrappers` (`wrappers.dfy`): `Option`, and `Attempt`, which says how an awaited call
  settled (`Resolved(value)` or `Rejected`, meaning it threw).
- `WeatherSlice` (`weather_slice.dfy`): the unit preference store. It has the two-valued
  `Unit`, the state record, the slice reducer `Reduce` and a `WeatherStore` class. That
  class updates its state in place on `Dispatch`.
- `SettingsScreen` (`settings_screen.dfy`): the toggle. `NextUnit` computes the unit a
  press dispatches, and `ToggleLabel` builds the button caption.
- `HomeScreen` (`home_screen.dfy`): place selection (`FindLocality`, `SelectedCity`,
  `HandleLocationSelect`) and the current-location chain. The chain is specified by
  `CurrentLocationOutcome` and `CurrentLocationRequests`, and is run step by step by
  `Home.HandleCurrentLocation`, which sets and clears `loading`.
- `DetailsScreen` (`details_screen.dfy`): the rounding (`JsRound`), the conversion and the
  suffix, the render choice (`Render`), and the `Details` class, which runs the fetch cycle
  over `loading` and `weather`.

The screens read the unit as the raw string the store yields (`"celsius"`, `"fahrenheit"`).
This makes the source's fallback branches part of the model: a label and dispatch for a
non-Celsius value, a conversion to 0, and the "F" suffix. The store itself holds only the
two `Unit` values, and `Unit.Name` maps each one to its string.

`Math.round(x)` is modelled as `Floor(x + 1/2)`: the nearest integer, with ties toward
positive infinity. Kelvin readings are `real`, so the arithmetic is exact.

A failed fetch does not reset `weather`. So after the city changes and the new fetch fails,
the screen shows the new city's name over the previous reading. See the `weather` clauses of
`Details.GetWeather` and `Details.ChangeCity`.

## Model

| member | source | states |
|---|---|---|
| `WeatherSlice.Unit.Name` | src/redux/weather.slice.ts:3-5 | the stored unit is always exactly one of "celsius" or "fahrenheit", and it is "celsius" exactly for Celsius |
| `WeatherSlice.Reduce` | src/redux/weather.slice.ts:15-17 | after `setUnit(u)` the unit is `u`; an action of any other type leaves the state unchanged |
| `WeatherSlice.SetUnitIdempotent` | src/redux/weather.slice.ts:15-17 | applying the same `setUnit` twice gives the same state as applying it once |
| `WeatherSlice.SetUnitLastWriteWins` | src/redux/weather.slice.ts:15-17 | `setUnit(a)` then `setUnit(b)` gives the same state as `setUnit(b)` alone, whose unit is `b` |
| `WeatherSlice.ReduceAllLastWriteWins` | src/redux/weather.slice.ts:11-19 | after any sequence of actions, the unit is the payload of the last `setUnit`, or the starting unit if there was none |
| `WeatherSlice.ReduceAll` | src/redux/weather.slice.ts:11-19 | after dispatching a sequence of actions, the state is the starting one or carries the payload of some dispatched `setUnit` |
| `WeatherSlice.LastPayload` | src/redux/weather.slice.ts:15-17 | the reference value is the fallback or the payload of some `setUnit` in the sequence |
| `WeatherSlice.CelsiusUntilFirstSetUnit` | src/redux/weather.slice.ts:7-9 | starting from the initial state, the unit stays Celsius while no `setUnit` has been dispatched |
| `WeatherSlice.WeatherStore.constructor` | src/redux/weather.slice.ts:7-9 | a new store holds the initial state, whose unit is Celsius |
| `WeatherSlice.WeatherStore.Dispatch` | src/redux/weather.slice.ts:15-17 | the store's new state is the reducer applied to the old state; `setUnit(u)` leaves unit `u` |
| `SettingsScreen.NextUnit` | src/screens/settings-screen.tsx:15 | the dispatched unit is Fahrenheit exactly when the current unit is "celsius", and Celsius for every other value |
| `SettingsScreen.ToggleLabel` | src/screens/settings-screen.tsx:14 | the caption is "Toggle to " followed by the name of the unit a press dispatches |
| `SettingsScreen.ToggleChangesUnit` | src/screens/settings-screen.tsx:15 | for a unit in the two-value domain, the dispatched unit differs from the current one |
| `SettingsScreen.ToggleInvolution` | src/screens/settings-screen.tsx:15 | toggling twice returns the original unit |
| `SettingsScreen.ToggleOutsideDomain` | src/screens/settings-screen.tsx:14-15 | a value other than the two unit strings toggles to Celsius, and the label says "Toggle to Celsius" |
| `SettingsScreen.LabelAgreesWithDispatch` | src/screens/settings-screen.tsx:14-15 | the label says "Fahrenheit" exactly when a press dispatches Fahrenheit, and "Celsius" exactly when it dispatches Celsius |
| `SettingsScreen.PressToggle` | src/screens/settings-screen.tsx:15 | a press sets the store's unit to the next unit, which differs from the old one |
| `SettingsScreen.PressTwice` | src/screens/settings-screen.tsx:15 | two presses leave the store's state as it was |
| `HomeScreen.FindLocality` | src/screens/home-screen.tsx:26-28 | the search finds the first component whose types include "locality", and finds nothing exactly when no component has that type |
| `HomeScreen.ComponentsOf` | src/screens/home-screen.tsx:26 | the optional chain yields the address components exactly when both the details and the components are present |
| `HomeScreen.SelectedCity` | src/screens/home-screen.tsx:26-28 | the city is the `long_name` of the first locality component; it is absent exactly when the components are missing or none is a locality |
| `HomeScreen.HandleLocationSelect` | src/screens/home-screen.tsx:25-38 | navigation happens exactly when the selected city is non-empty, and goes to "Details" with that city; otherwise the one selection error alert is raised |
| `HomeScreen.FalsySelectionGivesAlert` | src/screens/home-screen.tsx:26-37 | missing details, missing components, no locality, or an empty `long_name` each give the selection error alert and no navigation |
| `HomeScreen.LaterLocalitiesIgnored` | src/screens/home-screen.tsx:26-28 | once a locality is found, components appended after it do not change the search result |
| `HomeScreen.SelectionIgnoresLaterComponents` | src/screens/home-screen.tsx:25-38 | a selection's outcome does not depend on the components after its first locality |
| `HomeScreen.SpringfieldSelection` | src/screens/home-screen.tsx:25-31 | a breakdown whose first locality is "Springfield" navigates to "Details" with "Springfield", ignoring a later locality |
| `HomeScreen.FirstCity` | src/screens/home-screen.tsx:58 | the city is absent exactly when the geocode list is empty or its first place has no city; otherwise it is that place's city |
| `HomeScreen.CurrentLocationOutcome` | src/screens/home-screen.tsx:43-76 | the chain ends in one of: the failure alert, the no-city alert, the permission prompt (exactly for "denied"), nothing (exactly for another resolved status), or a navigation to "Details" with a non-empty city |
| `HomeScreen.CurrentLocationRequests` | src/screens/home-screen.tsx:45-56 | the permission is asked first; more calls follow exactly after "granted"; the reverse geocode is the third call, for the obtained position, exactly when the position resolved |
| `HomeScreen.LocationRequestedOnlyWhenGranted` | src/screens/home-screen.tsx:45-56 | the permission is always asked first; the position fix is requested exactly when the status is "granted"; the reverse geocode is requested exactly for a position that was obtained after a grant |
| `HomeScreen.DeniedGivesPrompt` | src/screens/home-screen.tsx:65-73 | status "denied" gives the permission prompt with an "Open Settings" button, requests nothing after the permission, and does not navigate |
| `HomeScreen.OtherStatusDoesNothing` | src/screens/home-screen.tsx:47-74 | any status other than "granted" or "denied" gives no alert, no navigation and no further request |
| `HomeScreen.RejectionGivesFailureAlert` | src/screens/home-screen.tsx:43-76 | a rejection at any reached stage (permission, position, geocode) gives the one "failed to fetch location" alert |
| `HomeScreen.CurrentLocationNavigation` | src/screens/home-screen.tsx:58-61 | the chain navigates exactly when permission was granted, both calls resolved and the first place's city is non-empty; it navigates to "Details" with that city |
| `HomeScreen.FalsyCityGivesAlert` | src/screens/home-screen.tsx:58-64 | an empty geocode list, or a first place with a missing or empty city, gives the "unable to determine city" alert |
| `HomeScreen.LocationButton` | src/screens/home-screen.tsx:112-122 | the button is disabled exactly while `loading` is set, shows the spinner exactly then, and otherwise shows "Use Current Location" |
| `HomeScreen.Home.constructor` | src/screens/home-screen.tsx:23 | the screen starts not loading, with the location button enabled and no calls made |
| `HomeScreen.Home.Issue` | src/screens/home-screen.tsx:41-56 | every external call is made while `loading` is set, so the location button is disabled during it |
| `HomeScreen.Home.HandleCurrentLocation` | src/screens/home-screen.tsx:40-80 | the outcome and the calls made are those of the specification functions, and `loading` is false afterwards on every path, including rejections |
| `DetailsScreen.JsRound` | src/screens/details-screen.tsx:48 | the result is the integer within half a unit of the input, with ties going up |
| `DetailsScreen.RoundUnique` | src/screens/details-screen.tsx:48 | no integer other than the rounded value lies in that half-open band |
| `DetailsScreen.RoundTiesUp` | src/screens/details-screen.tsx:48 | n + 0.5 rounds to n + 1; -2.5 rounds to -2 and 2.5 to 3 |
| `DetailsScreen.ConvertTemperature` | src/screens/details-screen.tsx:46-53 | for "celsius" the result is the nearest whole degree to kelvin - 273.15; for "fahrenheit" the nearest to (kelvin - 273.15) * 1.8 + 32; for any other unit 0 |
| `DetailsScreen.ConvertMonotonic` | src/screens/details-screen.tsx:46-53 | a higher Kelvin reading never displays as a lower temperature, for any unit |
| `DetailsScreen.ConvertExample` | src/screens/details-screen.tsx:47-50 | 300.15 K converts to 27 in Celsius and to 81 in Fahrenheit |
| `DetailsScreen.UnitSuffix` | src/screens/details-screen.tsx:72 | the suffix is "C" exactly when the unit is "celsius", and "F" otherwise |
| `DetailsScreen.Render` | src/screens/details-screen.tsx:36-73 | only the spinner while loading; nothing when not loading and there is no reading; otherwise the card for the reading |
| `DetailsScreen.FirstDescription` | src/screens/details-screen.tsx:67 | the description is absent exactly when the reading has no conditions, and otherwise is the first condition's description |
| `DetailsScreen.WeatherCard` | src/screens/details-screen.tsx:55-92 | the card shows the route's city, the first condition's description (absent when there is none), the converted temperature with its suffix, and the reading's humidity, wind speed, sunrise and sunset |
| `DetailsScreen.RenderExample` | src/screens/details-screen.tsx:55-73 | a 300.15 K reading renders as 27 with "C" for Celsius and 81 with "F" for Fahrenheit |
| `DetailsScreen.Details.View` | src/screens/details-screen.tsx:36-73 | the screen shows the spinner exactly while loading, nothing exactly when idle without a reading, and otherwise the card for its city and reading |
| `DetailsScreen.Details.Mount` | src/screens/details-screen.tsx:16-34 | mounting fetches once for the city; it ends not loading, holding the fetched reading, or no reading and one alert |
| `DetailsScreen.Details.RequestWeather` | src/screens/details-screen.tsx:24-26 | the weather request is made while `loading` is set, so every unit renders the spinner meanwhile |
| `DetailsScreen.Details.GetWeather` | src/screens/details-screen.tsx:23-32 | on success `weather` becomes the data; on failure one alert is raised and `weather` is kept; either way `loading` ends false |
| `DetailsScreen.Details.ChangeCity` | src/screens/details-screen.tsx:22-34 | the fetch cycle runs again exactly when the city changes, and nothing changes otherwise |

## Left out

- The weather HTTP client is not modelled. Each fetch result is an input, either `Fetched(data)` or `FetchFailed`. URL building and the API key are not covered.
- The navigation stack, the Provider and the persisted store bootstrapping are not modelled. Persistence across restarts is an external service.
- Location permission, the position fix and reverse geocoding are platform calls. Their results are `Attempt` inputs, and the home screen's navigations and alerts are `Outcome` values.
- Place autocomplete is a platform component. The details of a selected place are an `Option<PlaceDetails>` input, and its two-character minimum is not covered.
- The details screen's fetch error alert is a message appended to `Details.alerts`. `Linking.openSettings` is covered only as the prompt button's `OpenSettings` tag.
- HomeScreen.HandleCurrentLocation: runs the chain atomically. A second press while a call is outstanding is not modelled. The disabled button rules that press out in the source, and the model shows only that every call is made while `loading` is set.
- DetailsScreen.Details.GetWeather: runs the fetch cycle atomically. A stale response that arrives after the city changed, or after the screen was unmounted, is not modelled because the source has no guard for either.
- Floating point is not modelled. Kelvin is an exact `real`. Artefacts such as `300.15 - 273.15` differing from 27 in IEEE-754 arithmetic are not covered.
- Sunrise and sunset formatting, the card layout, styles, and the "Explore More" and "Settings" buttons are presentation only. The card carries the raw sunrise and sunset timestamps.
- The payloads are typed records. A component without `types`, or a reading without `main`, would throw in the source. The model does not include those shapes.
