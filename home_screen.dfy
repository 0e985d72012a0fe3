/** The home screen: picking a place from the search results, and resolving the device's
    current location (permission, then position fix, then reverse geocode). */
module HomeScreen {
  import opened Wrappers

  const DetailsRoute := "Details"
  const ErrorTitle := "Error"
  const SelectionErrorMessage := "Unable to determine city from selection. Try another location."
  const NoCityMessage := "Unable to determine city from your location."
  const LocationFailedMessage := "Failed to fetch location. Please try again."
  const PermissionTitle := "Permission Required"
  const PermissionMessage :=
    "Location permissions are required to fetch your location. Please enable them in settings."

  /** What a button of the permission prompt does when pressed. */
  datatype PromptAction = Dismiss | OpenSettings
  datatype PromptButton = PromptButton(text: string, action: PromptAction)

  const PermissionButtons := [PromptButton("Cancel", Dismiss), PromptButton("Open Settings", OpenSettings)]

  /** The visible effect of one handler run: at most one navigation or one alert. */
  datatype Outcome =
    | Navigate(screen: string, city: string)
    | ErrorAlert(title: string, message: string)
    | PermissionPrompt(title: string, message: string, buttons: seq<PromptButton>)
    | Nothing

  /** JavaScript truthiness of an optional string: present and non-empty. */
  predicate Truthy(s: Option<string>)
  {
    s.Some? && s.value != ""
  }

  // ---------------------------------------------------------------------------
  // Selecting a place from the autocomplete results

  datatype AddressComponent = AddressComponent(longName: string, types: seq<string>)

  /** The place details passed with a selection; `address_components` may be missing. */
  datatype PlaceDetails = PlaceDetails(addressComponents: Option<seq<AddressComponent>>)

  predicate IsLocality(c: AddressComponent)
  {
    "locality" in c.types
  }

  /** `i` is the index of the first locality component of `cs`. */
  predicate IsFirstLocality(cs: seq<AddressComponent>, i: int)
  {
    0 <= i < |cs| && IsLocality(cs[i]) && forall j :: 0 <= j < i ==> !IsLocality(cs[j])
  }

  /** The search `find` performs: the index of the first component whose types include "locality". */
  function FindLocality(cs: seq<AddressComponent>): (i: Option<nat>)
    ensures i.Some? ==> IsFirstLocality(cs, i.value)
    ensures i.None? <==> forall j :: 0 <= j < |cs| ==> !IsLocality(cs[j])
  {
    if |cs| == 0 then None
    else if IsLocality(cs[0]) then Some(0)
    else match FindLocality(cs[1..])
      case None => None
      case Some(k) => Some(k + 1)
  }

  /** The address components of the details, if both the details and the components are present. */
  function ComponentsOf(details: Option<PlaceDetails>): (cs: Option<seq<AddressComponent>>)
    ensures cs.Some? <==> details.Some? && details.value.addressComponents.Some?
    ensures cs.Some? ==> cs == details.value.addressComponents
  {
    if details.Some? then details.value.addressComponents else None
  }

  /** The city a selection yields: the `long_name` of the first locality component. */
  function SelectedCity(details: Option<PlaceDetails>): (city: Option<string>)
    ensures city.None? <==>
      ComponentsOf(details).None? ||
      forall j :: 0 <= j < |ComponentsOf(details).value| ==> !IsLocality(ComponentsOf(details).value[j])
    ensures city.Some? ==>
      exists i :: IsFirstLocality(ComponentsOf(details).value, i) &&
        city.value == ComponentsOf(details).value[i].longName
  {
    match ComponentsOf(details)
    case None => None
    case Some(cs) =>
      match FindLocality(cs)
      case None => None
      case Some(i) => Some(cs[i].longName)
  }

  /** The error alert a selection without a usable city raises. */
  const SelectionError := ErrorAlert(ErrorTitle, SelectionErrorMessage)

  /** `handleLocationSelect`: navigate to the details screen with the city, or raise one alert. */
  function HandleLocationSelect(details: Option<PlaceDetails>): (o: Outcome)
    ensures o.Navigate? <==> Truthy(SelectedCity(details))
    ensures o.Navigate? ==> o.screen == DetailsRoute && SelectedCity(details) == Some(o.city)
    ensures !o.Navigate? ==> o == SelectionError
  {
    var city := SelectedCity(details);
    if Truthy(city) then Navigate(DetailsRoute, city.value) else SelectionError
  }

  /** Once a locality has been found, components after it do not change the search. */
  lemma {:induction false} LaterLocalitiesIgnored(cs: seq<AddressComponent>, more: seq<AddressComponent>)
    requires FindLocality(cs).Some?
    ensures FindLocality(cs + more) == FindLocality(cs)
  {
    assert (cs + more)[0] == cs[0];
    if !IsLocality(cs[0]) {
      assert (cs + more)[1..] == cs[1..] + more;
      LaterLocalitiesIgnored(cs[1..], more);
    }
  }

  /** A selection's city is determined by the components up to its first locality. */
  lemma SelectionIgnoresLaterComponents(cs: seq<AddressComponent>, more: seq<AddressComponent>)
    requires FindLocality(cs).Some?
    ensures HandleLocationSelect(Some(PlaceDetails(Some(cs + more))))
         == HandleLocationSelect(Some(PlaceDetails(Some(cs))))
  {
    LaterLocalitiesIgnored(cs, more);
    var i := FindLocality(cs).value;
    assert (cs + more)[i] == cs[i];
  }

  /** A breakdown whose locality is "Springfield" navigates to the details of "Springfield". */
  lemma SpringfieldSelection()
    ensures HandleLocationSelect(Some(PlaceDetails(Some([
              AddressComponent("Illinois", ["administrative_area_level_1", "political"]),
              AddressComponent("Springfield", ["locality", "political"]),
              AddressComponent("Shelbyville", ["locality"])]))))
         == Navigate("Details", "Springfield")
  {
  }

  // ---------------------------------------------------------------------------
  // Resolving the current location

  datatype Coords = Coords(latitude: real, longitude: real)

  /** One entry of a reverse-geocode result; `city` may be null. */
  datatype GeocodedPlace = GeocodedPlace(city: Option<string>)

  /** The external calls the chain makes, in order. */
  datatype LocationRequest = AskPermission | GetPosition | ReverseGeocode(at: Coords)

  /** The city of the first geocoded place, if there is a place and it has a city. */
  function FirstCity(places: seq<GeocodedPlace>): (city: Option<string>)
    ensures city.None? <==> |places| == 0 || places[0].city.None?
    ensures city.Some? ==> city == places[0].city
  {
    if |places| == 0 then None else places[0].city
  }

  const LocationFailed := ErrorAlert(ErrorTitle, LocationFailedMessage)
  const NoCity := ErrorAlert(ErrorTitle, NoCityMessage)
  const DeniedPrompt := PermissionPrompt(PermissionTitle, PermissionMessage, PermissionButtons)

  /** The outcome of `handleCurrentLocation`, given how each awaited call settles: the
      permission status, the position fix and the reverse geocode. A rejection at any stage
      is caught and raises one error alert. */
  function CurrentLocationOutcome(
    permission: Attempt<string>, position: Attempt<Coords>, geocode: Attempt<seq<GeocodedPlace>>): (o: Outcome)
    ensures o == LocationFailed || o == NoCity || o == DeniedPrompt || o == Nothing ||
      (o.Navigate? && o.screen == DetailsRoute && o.city != "")
    ensures o == DeniedPrompt <==> permission == Resolved("denied")
    ensures o == Nothing <==>
      permission.Resolved? && permission.value != "granted" && permission.value != "denied"
  {
    match permission
    case Rejected => LocationFailed
    case Resolved(status) =>
      if status == "granted" then
        match position
        case Rejected => LocationFailed
        case Resolved(_) =>
          match geocode
          case Rejected => LocationFailed
          case Resolved(places) =>
            var city := FirstCity(places);
            if Truthy(city) then Navigate(DetailsRoute, city.value) else NoCity
      else if status == "denied" then DeniedPrompt
      else Nothing
  }

  /** The external calls `handleCurrentLocation` makes: each stage is reached only when the
      previous one resolved (and, for the position fix, only when permission was granted). */
  function CurrentLocationRequests(permission: Attempt<string>, position: Attempt<Coords>): (rs: seq<LocationRequest>)
    ensures 1 <= |rs| <= 3 && rs[0] == AskPermission
    ensures |rs| > 1 <==> permission == Resolved("granted")
    ensures |rs| == 3 <==> permission == Resolved("granted") && position.Resolved?
    ensures |rs| == 3 ==> rs[1] == GetPosition && rs[2] == ReverseGeocode(position.value)
  {
    if permission == Resolved("granted") then
      match position
      case Rejected => [AskPermission, GetPosition]
      case Resolved(c) => [AskPermission, GetPosition, ReverseGeocode(c)]
    else [AskPermission]
  }

  /** The position fix and the reverse geocode are requested exactly when the permission
      status is "granted" (the geocode only for a position that was obtained). */
  lemma LocationRequestedOnlyWhenGranted(permission: Attempt<string>, position: Attempt<Coords>)
    ensures GetPosition in CurrentLocationRequests(permission, position) <==> permission == Resolved("granted")
    ensures forall c :: ReverseGeocode(c) in CurrentLocationRequests(permission, position) <==>
      permission == Resolved("granted") && position == Resolved(c)
    ensures CurrentLocationRequests(permission, position)[0] == AskPermission
  {
  }

  /** Status "denied" gives the prompt offering to open the settings, and requests nothing more. */
  lemma DeniedGivesPrompt(position: Attempt<Coords>, geocode: Attempt<seq<GeocodedPlace>>)
    ensures CurrentLocationOutcome(Resolved("denied"), position, geocode) == DeniedPrompt
    ensures CurrentLocationRequests(Resolved("denied"), position) == [AskPermission]
    ensures PromptButton("Open Settings", OpenSettings) in DeniedPrompt.buttons
  {
  }

  /** Any status other than "granted" or "denied" (such as "undetermined") has no visible effect. */
  lemma OtherStatusDoesNothing(
    status: string, position: Attempt<Coords>, geocode: Attempt<seq<GeocodedPlace>>)
    requires status != "granted" && status != "denied"
    ensures CurrentLocationOutcome(Resolved(status), position, geocode) == Nothing
    ensures CurrentLocationRequests(Resolved(status), position) == [AskPermission]
  {
  }

  /** A rejection at a stage that is reached raises the one "failed to fetch" alert. */
  lemma RejectionGivesFailureAlert(
    permission: Attempt<string>, position: Attempt<Coords>, geocode: Attempt<seq<GeocodedPlace>>)
    requires permission.Rejected? ||
      (permission == Resolved("granted") && (position.Rejected? || geocode.Rejected?))
    ensures CurrentLocationOutcome(permission, position, geocode) == LocationFailed
  {
  }

  /** Every navigation goes to the details screen, with the first geocoded place's non-empty city. */
  lemma CurrentLocationNavigation(
    permission: Attempt<string>, position: Attempt<Coords>, geocode: Attempt<seq<GeocodedPlace>>)
    ensures CurrentLocationOutcome(permission, position, geocode).Navigate? <==>
      permission == Resolved("granted") && position.Resolved? && geocode.Resolved? &&
      Truthy(FirstCity(geocode.value))
    ensures CurrentLocationOutcome(permission, position, geocode).Navigate? ==>
      CurrentLocationOutcome(permission, position, geocode) ==
        Navigate("Details", FirstCity(geocode.value).value)
  {
  }

  /** An empty geocode list, or a first place whose city is missing or empty, gives the
      "unable to determine city" alert, never a navigation. */
  lemma FalsyCityGivesAlert(position: Coords, places: seq<GeocodedPlace>)
    requires |places| == 0 || places[0].city == None || places[0].city == Some("")
    ensures CurrentLocationOutcome(Resolved("granted"), Resolved(position), Resolved(places)) == NoCity
  {
  }

  /** A selection without a usable city, for any of the reasons the optional chain allows,
      raises the selection alert and does not navigate. */
  lemma FalsySelectionGivesAlert(details: Option<PlaceDetails>)
    requires details.None? || details.value.addressComponents.None? ||
      (forall j :: 0 <= j < |details.value.addressComponents.value| ==>
        !IsLocality(details.value.addressComponents.value[j])) ||
      SelectedCity(details) == Some("")
    ensures HandleLocationSelect(details) == SelectionError
  {
  }

  /** The location button: while loading it shows a spinner and ignores presses. */
  datatype ButtonContent = Spinner | Caption(text: string)
  datatype LocationButtonView = LocationButtonView(disabled: bool, content: ButtonContent)

  function LocationButton(loading: bool): (b: LocationButtonView)
    ensures b.disabled == loading
    ensures loading ==> b.content == Spinner
    ensures b.disabled <==> b.content == Spinner
    ensures !b.disabled ==> b.content == Caption("Use Current Location")
  {
    LocationButtonView(loading, if loading then Spinner else Caption("Use Current Location"))
  }

  /** The home screen's state: the `loading` flag, and a log of the external location
      calls made so far. */
  class Home {
    var loading: bool
    var requests: seq<LocationRequest>

    constructor ()
      ensures !loading && requests == []
      ensures !LocationButton(loading).disabled
    {
      loading := false;
      requests := [];
    }

    /** Issue one external call; the chain only does so while `loading` is set, so the
        location button is disabled for as long as any call is outstanding. */
    method Issue(r: LocationRequest)
      requires loading
      modifies this
      ensures loading && requests == old(requests) + [r]
      ensures LocationButton(loading).disabled
    {
      requests := requests + [r];
    }

    /** `handleCurrentLocation`: set `loading`, run the chain under try/catch, and clear
        `loading` in `finally`. */
    method HandleCurrentLocation(
      permission: Attempt<string>, position: Attempt<Coords>, geocode: Attempt<seq<GeocodedPlace>>)
      returns (o: Outcome)
      modifies this
      ensures !loading
      ensures o == CurrentLocationOutcome(permission, position, geocode)
      ensures requests == old(requests) + CurrentLocationRequests(permission, position)
    {
      loading := true;
      Issue(AskPermission);
      if permission.Rejected? {
        o := LocationFailed;
      } else if permission.value == "granted" {
        Issue(GetPosition);
        if position.Rejected? {
          o := LocationFailed;
        } else {
          Issue(ReverseGeocode(position.value));
          if geocode.Rejected? {
            o := LocationFailed;
          } else {
            var city := FirstCity(geocode.value);
            if Truthy(city) {
              o := Navigate(DetailsRoute, city.value);
            } else {
              o := NoCity;
            }
          }
        }
      } else if permission.value == "denied" {
        o := DeniedPrompt;
      } else {
        o := Nothing;
      }
      loading := false;
    }
  }
}
