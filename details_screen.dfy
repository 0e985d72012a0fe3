/** The details screen: one fetch cycle per city, the choice between spinner, nothing and
    the weather card, and the conversion of the Kelvin reading to the selected unit. */
module DetailsScreen {
  import opened Wrappers

  const FetchErrorMessage := "Error fetching weather details."

  datatype Condition = Condition(description: string)

  /** A weather reading as the provider returns it; the temperature is in Kelvin. */
  datatype WeatherReading = WeatherReading(
    conditions: seq<Condition>, kelvin: real, humidity: real, windSpeed: real, sunrise: int, sunset: int)

  /** How one weather request settled. */
  datatype FetchResult = Fetched(data: WeatherReading) | FetchFailed

  /** What the screen renders. */
  datatype DetailsView =
    | Spinner
    | Empty
    | Card(city: string, description: Option<string>, temperature: int, suffix: string,
           humidity: real, windSpeed: real, sunrise: int, sunset: int)

  /** `Math.round`: the nearest integer, ties rounded toward positive infinity. */
  function JsRound(x: real): (r: int)
    ensures r as real - 0.5 <= x < r as real + 0.5
  {
    (x + 0.5).Floor
  }

  /** The rounding band determines the rounded value: no other integer lies in it. */
  lemma RoundUnique(x: real, n: int)
    requires n as real - 0.5 <= x < n as real + 0.5
    ensures JsRound(x) == n
  {
  }

  /** Ties go up, on both sides of zero. */
  lemma RoundTiesUp(n: int)
    ensures JsRound(n as real + 0.5) == n + 1
    ensures JsRound(-2.5) == -2 && JsRound(2.5) == 3
  {
  }

  /** `convertTemperature`, for the unit string the store yields: the nearest whole degree
      Celsius or Fahrenheit, and 0 for any other unit value. */
  function ConvertTemperature(kelvin: real, unit: string): (t: int)
    ensures unit == "celsius" ==>
      t as real - 0.5 <= kelvin - 273.15 < t as real + 0.5
    ensures unit == "fahrenheit" ==>
      t as real - 0.5 <= (kelvin - 273.15) * 1.8 + 32.0 < t as real + 0.5
    ensures unit != "celsius" && unit != "fahrenheit" ==> t == 0
  {
    if unit == "celsius" then JsRound(kelvin - 273.15)
    else if unit == "fahrenheit" then JsRound((kelvin - 273.15) * 1.8 + 32.0)
    else 0
  }

  /** A warmer reading never displays as a lower temperature. */
  lemma ConvertMonotonic(k1: real, k2: real, unit: string)
    requires k1 <= k2
    ensures ConvertTemperature(k1, unit) <= ConvertTemperature(k2, unit)
  {
  }

  /** 300.15 K displays as 27 in Celsius and as 81 (from 80.6) in Fahrenheit. */
  lemma ConvertExample()
    ensures ConvertTemperature(300.15, "celsius") == 27
    ensures ConvertTemperature(300.15, "fahrenheit") == 81
  {
  }

  /** The unit letter after the degree sign. */
  function UnitSuffix(unit: string): (s: string)
    ensures s == "C" <==> unit == "celsius"
    ensures s == "F" <==> unit != "celsius"
  {
    if unit == "celsius" then "C" else "F"
  }

  /** The description of the reading's first condition, if it has any condition. */
  function FirstDescription(conditions: seq<Condition>): (d: Option<string>)
    ensures d.None? <==> |conditions| == 0
    ensures d.Some? ==> d.value == conditions[0].description
  {
    if |conditions| == 0 then None else Some(conditions[0].description)
  }

  /** The card for a reading: the city, the converted temperature, and the reading's other fields. */
  function WeatherCard(city: string, reading: WeatherReading, unit: string): (v: DetailsView)
    ensures v.Card? && v.city == city
    ensures v.description == FirstDescription(reading.conditions)
    ensures v.temperature == ConvertTemperature(reading.kelvin, unit) && v.suffix == UnitSuffix(unit)
    ensures v.humidity == reading.humidity && v.windSpeed == reading.windSpeed
    ensures v.sunrise == reading.sunrise && v.sunset == reading.sunset
  {
    Card(city, FirstDescription(reading.conditions), ConvertTemperature(reading.kelvin, unit),
         UnitSuffix(unit), reading.humidity, reading.windSpeed, reading.sunrise, reading.sunset)
  }

  /** The render choice: only the spinner while loading, nothing without a reading,
      otherwise the card. */
  function Render(loading: bool, weather: Option<WeatherReading>, city: string, unit: string): (v: DetailsView)
    ensures v == Spinner <==> loading
    ensures v == Empty <==> !loading && weather.None?
    ensures v.Card? <==> !loading && weather.Some?
    ensures v.Card? ==> v == WeatherCard(city, weather.value, unit)
  {
    if loading then Spinner
    else if weather.None? then Empty
    else WeatherCard(city, weather.value, unit)
  }

  /** The reading of 300.15 K renders as "27°C" or "81°F". */
  lemma RenderExample(city: string, conditions: seq<Condition>, sunrise: int, sunset: int)
    ensures var r := WeatherReading(conditions, 300.15, 40.0, 3.2, sunrise, sunset);
      var c := Render(false, Some(r), city, "celsius");
      var f := Render(false, Some(r), city, "fahrenheit");
      c.Card? && c.temperature == 27 && c.suffix == "C" &&
      f.Card? && f.temperature == 81 && f.suffix == "F"
  {
  }

  /** The details screen's state. `fetches` logs the cities requested from the weather
      provider and `alerts` the messages shown, in order. */
  class Details {
    var city: string
    var weather: Option<WeatherReading>
    var loading: bool
    var fetches: seq<string>
    var alerts: seq<string>

    /** The view for the store's current unit. */
    function View(unit: string): (v: DetailsView)
      reads this
      ensures v == Spinner <==> loading
      ensures v == Empty <==> !loading && weather.None?
      ensures v.Card? ==> v.city == city && v == WeatherCard(city, weather.value, unit)
    {
      Render(loading, weather, city, unit)
    }

    /** Mounting the screen: the state starts empty, then the effect runs for `city`. */
    constructor Mount(city: string, fetch: FetchResult)
      ensures this.city == city && !loading
      ensures weather == (if fetch.Fetched? then Some(fetch.data) else None)
      ensures fetches == [city]
      ensures alerts == (if fetch.FetchFailed? then [FetchErrorMessage] else [])
    {
      this.city := city;
      weather := None;
      loading := false;
      fetches := [];
      alerts := [];
      new;
      GetWeather(fetch);
    }

    /** Request the weather for the current city; this happens only while `loading`
        is set, so the screen shows the spinner for as long as the request is outstanding. */
    method RequestWeather()
      requires loading
      modifies this
      ensures fetches == old(fetches) + [city]
      ensures city == old(city) && weather == old(weather) && loading && alerts == old(alerts)
      ensures forall unit :: View(unit) == Spinner
    {
      fetches := fetches + [city];
    }

    /** `getWeather`: set `loading`, fetch, keep the data or raise one alert, clear `loading`.
        A failed fetch leaves the previous reading in place. */
    method GetWeather(fetch: FetchResult)
      modifies this
      ensures city == old(city) && !loading
      ensures fetches == old(fetches) + [city]
      ensures weather == (if fetch.Fetched? then Some(fetch.data) else old(weather))
      ensures alerts == old(alerts) + (if fetch.FetchFailed? then [FetchErrorMessage] else [])
    {
      loading := true;
      RequestWeather();
      match fetch {
        case Fetched(data) =>
          weather := Some(data);
        case FetchFailed =>
          alerts := alerts + [FetchErrorMessage];
      }
      loading := false;
    }

    /** A new `city` route parameter: the effect re-runs exactly when the city changed. */
    method ChangeCity(newCity: string, fetch: FetchResult)
      modifies this
      ensures newCity == old(city) ==>
        fetches == old(fetches) && weather == old(weather) && alerts == old(alerts) &&
        city == old(city) && loading == old(loading)
      ensures newCity != old(city) ==>
        city == newCity && !loading && fetches == old(fetches) + [newCity] &&
        weather == (if fetch.Fetched? then Some(fetch.data) else old(weather)) &&
        alerts == old(alerts) + (if fetch.FetchFailed? then [FetchErrorMessage] else [])
    {
      if newCity != city {
        city := newCity;
        GetWeather(fetch);
      }
    }
  }
}
