/** The application shell: the session and search state and the handlers that change it.
    Each asynchronous handler is modelled by the state it ends in for given outcomes of
    `fetch` and of the geolocation request; what happens between its awaits is not. */
module App {
  import opened Wrappers
  import opened WeatherData
  import Text
  import WeatherApi

  const BlankQueryMessage := "Please enter a location."
  const GeolocationUnsupportedMessage := "Geolocation is not supported by your browser."

  function GeolocationErrorMessage(reason: string): string {
    "Geolocation error: " + reason + ". Please enable location services."
  }

  /** The value held by `fiveDayForecast`: an array (the initial and cleared value `[]`), or the
      forecast response object itself, which a successful fetch stores whole. */
  datatype ForecastSlot = Items(items: seq<Option<Item>>) | Payload(response: ForecastResponse)

  /** `fiveDayForecast.length > 0`: the response object has no `length`, and `undefined > 0`
      is false. */
  predicate HasForecastItems(f: ForecastSlot) {
    f.Items? && |f.items| > 0
  }

  /** The eight state hooks of the component, as one value. */
  datatype Snapshot = Snapshot(
    isLoggedIn: bool,
    showSignUp: bool,
    location: string,
    currentWeather: Option<CurrentWeather>,
    fiveDayForecast: ForecastSlot,
    error: Option<string>,
    isLoading: bool,
    hasSearched: bool)

  const Initial := Snapshot(false, false, "", None, Items([]), None, false, false)

  /** `error` as a condition: null and the empty string are falsy. */
  predicate IsTruthy(error: Option<string>) {
    error.Some? && error.value != ""
  }

  /** What the component renders: the sign-up page, the login page, or the weather page with
      the error line, the loading and welcome messages, the current-weather card and the
      forecast list that are on it (each `None`/false when absent). */
  datatype Screen =
    | SignUpScreen
    | LoginScreen
    | WeatherScreen(
        errorLine: Option<string>,
        loading: bool,
        welcome: bool,
        weather: Option<CurrentWeather>,
        forecast: Option<seq<Option<Item>>>)

  /** The conditional rendering of the component. */
  function ScreenOf(s: Snapshot): (v: Screen)
    ensures v.SignUpScreen? <==> !s.isLoggedIn && s.showSignUp
    ensures v.LoginScreen? <==> !s.isLoggedIn && !s.showSignUp
    ensures v.WeatherScreen? <==> s.isLoggedIn
    ensures v.WeatherScreen? ==>
      && (v.errorLine.Some? <==> IsTruthy(s.error))
      && (v.errorLine.Some? ==> v.errorLine == s.error)
      && (v.loading <==> s.isLoading && !IsTruthy(s.error))
      && (v.welcome <==> !s.hasSearched && !s.isLoading && !IsTruthy(s.error))
      && (v.weather.Some? <==> s.currentWeather.Some? && !s.isLoading && !IsTruthy(s.error))
      && (v.weather.Some? ==> v.weather == s.currentWeather)
      && (v.forecast.Some? ==> HasForecastItems(s.fiveDayForecast))
      // the status lines and the results never share the page
      && (v.errorLine.Some? ==> !v.loading && !v.welcome && v.weather.None? && v.forecast.None?)
      && (v.loading ==> !v.welcome && v.weather.None? && v.forecast.None?)
  {
    if !s.isLoggedIn then
      if s.showSignUp then SignUpScreen else LoginScreen
    else
      var quiet := !s.isLoading && !IsTruthy(s.error);
      WeatherScreen(
        if IsTruthy(s.error) then s.error else None,
        s.isLoading && !IsTruthy(s.error),
        !s.hasSearched && quiet,
        if quiet then s.currentWeather else None,
        if HasForecastItems(s.fiveDayForecast) && quiet then Some(s.fiveDayForecast.items) else None)
  }

  /** The states the handlers can leave: nothing is loading, the forecast slot is `[]` or a
      response object, and before any search (or since logout) there are no results, no
      error and no location. */
  predicate Valid(s: Snapshot) {
    && !s.isLoading
    && (s.fiveDayForecast.Items? ==> s.fiveDayForecast.items == [])
    && (!s.hasSearched ==>
          s.currentWeather.None? && s.fiveDayForecast == Items([]) && s.error.None? && s.location == "")
  }

  /** Because the whole response object is stored, the forecast list is never on the page. */
  lemma ForecastListNeverShown(s: Snapshot)
    requires Valid(s)
    ensures ScreenOf(s).WeatherScreen? ==> ScreenOf(s).forecast.None?
  {
  }

  /** A logged-in user who has not searched sees exactly the welcome message. */
  lemma FreshSessionShowsWelcome(s: Snapshot)
    requires Valid(s) && s.isLoggedIn && !s.hasSearched
    ensures ScreenOf(s) == WeatherScreen(None, false, true, None, None)
  {
  }

  /** The end of a fetch: the `try`/`catch`/`finally` that follows the synchronous part. The
      forecast call is made only after the current-weather call succeeded; the first failure
      sets the error and clears both results; `isLoading` always ends false. `locationOnSuccess`
      is the location written after both calls succeed (the geolocation path does that). */
  function Settle(s: Snapshot, weather: Outcome<CurrentWeather>, forecast: Outcome<ForecastResponse>,
                  locationOnSuccess: Option<string>): (r: Snapshot)
    ensures !r.isLoading
    ensures r.isLoggedIn == s.isLoggedIn && r.showSignUp == s.showSignUp && r.hasSearched == s.hasSearched
    ensures r.currentWeather.Some? <==> weather.Ok? && forecast.Ok?
    ensures weather.Ok? && forecast.Ok? ==>
      && r.currentWeather == Some(weather.value) && r.fiveDayForecast == Payload(forecast.value)
      && r.error == s.error
      && r.location == (if locationOnSuccess.Some? then locationOnSuccess.value else s.location)
    ensures weather.Err? ==> r.error == Some(weather.message)
    ensures weather.Ok? && forecast.Err? ==> r.error == Some(forecast.message)
    ensures !(weather.Ok? && forecast.Ok?) ==> r.fiveDayForecast == Items([]) && r.location == s.location
  {
    match weather
    case Err(m) => s.(error := Some(m), currentWeather := None, fiveDayForecast := Items([]), isLoading := false)
    case Ok(w) =>
      match forecast
      case Err(m) => s.(error := Some(m), currentWeather := None, fiveDayForecast := Items([]), isLoading := false)
      case Ok(f) =>
        var location := if locationOnSuccess.Some? then locationOnSuccess.value else s.location;
        s.(currentWeather := Some(w), fiveDayForecast := Payload(f), isLoading := false, location := location)
  }

  /** A fetch settled after a search has been marked leaves a state the handlers may leave. */
  lemma SettleKeepsValid(s: Snapshot, weather: Outcome<CurrentWeather>, forecast: Outcome<ForecastResponse>,
                         locationOnSuccess: Option<string>)
    requires s.hasSearched
    ensures Valid(Settle(s, weather, forecast, locationOnSuccess))
  {
  }

  /** On a logged-in page, a fetch that succeeded shows the current-weather card and no error;
      one that failed with a non-empty message shows that message and no card. */
  lemma SettledScreen(s: Snapshot, weather: Outcome<CurrentWeather>, forecast: Outcome<ForecastResponse>,
                      locationOnSuccess: Option<string>)
    requires s.isLoggedIn && s.error.None?
    ensures var v := ScreenOf(Settle(s, weather, forecast, locationOnSuccess));
      && (weather.Ok? && forecast.Ok? ==> v.errorLine.None? && v.weather == Some(weather.value))
      && (weather.Err? && weather.message != "" ==> v.errorLine == Some(weather.message) && v.weather.None?)
      && (weather.Ok? && forecast.Err? && forecast.message != "" ==>
            v.errorLine == Some(forecast.message) && v.weather.None?)
  {
  }

  /** What the geolocation request did. `Located` carries the texts `latitude` and `longitude`
      print as, in full and with `toFixed(2)`, and what `fetch` did for the two coordinate
      requests. */
  datatype Geolocation =
    | Unsupported
    | Failed(reason: string)
    | Located(latitude: string, longitude: string, fixedLatitude: string, fixedLongitude: string,
              current: WeatherApi.Fetched<CurrentWeather>, forecast: WeatherApi.Fetched<ForecastResponse>)

  /** The component's state. */
  class App {
    var isLoggedIn: bool
    var showSignUp: bool
    var location: string
    var currentWeather: Option<CurrentWeather>
    var fiveDayForecast: ForecastSlot
    var error: Option<string>
    var isLoading: bool
    var hasSearched: bool

    function State(): Snapshot
      reads this
    {
      Snapshot(isLoggedIn, showSignUp, location, currentWeather, fiveDayForecast, error, isLoading, hasSearched)
    }

    constructor ()
      ensures State() == Initial && Valid(State())
    {
      isLoggedIn, showSignUp := false, false;
      location, currentWeather, fiveDayForecast := "", None, Items([]);
      error, isLoading, hasSearched := None, false, false;
    }

    /** `handleLoginSuccess`. */
    method HandleLoginSuccess()
      requires Valid(State())
      modifies this
      ensures Valid(State())
      ensures State() == old(State()).(isLoggedIn := true, showSignUp := false)
      ensures ScreenOf(State()).WeatherScreen?
    {
      isLoggedIn := true;
      showSignUp := false;
    }

    /** `handleGoToSignUp`. */
    method HandleGoToSignUp()
      requires Valid(State())
      modifies this
      ensures Valid(State())
      ensures State() == old(State()).(showSignUp := true, error := None)
    {
      showSignUp := true;
      error := None;
    }

    /** `handleGoToLogin`. */
    method HandleGoToLogin()
      requires Valid(State())
      modifies this
      ensures Valid(State())
      ensures State() == old(State()).(showSignUp := false, error := None)
    {
      showSignUp := false;
      error := None;
    }

    /** `handleSignUpSuccess`: after the alert (not modelled), back to the login page. */
    method HandleSignUpSuccess()
      requires Valid(State())
      modifies this
      ensures Valid(State())
      ensures State() == old(State()).(showSignUp := false, error := None)
    {
      HandleGoToLogin();
    }

    /** The `try`/`catch`/`finally` at the end of a fetch. */
    method SettleFetch(weather: Outcome<CurrentWeather>, forecast: Outcome<ForecastResponse>,
                       locationOnSuccess: Option<string>)
      modifies this
      ensures State() == Settle(old(State()), weather, forecast, locationOnSuccess)
    {
      var failure: Option<string> := None;
      if weather.Ok? {
        currentWeather := Some(weather.value);
        if forecast.Ok? {
          fiveDayForecast := Payload(forecast.value);
          if locationOnSuccess.Some? {
            location := locationOnSuccess.value;
          }
        } else {
          failure := Some(forecast.message);
        }
      } else {
        failure := Some(weather.message);
      }
      if failure.Some? {
        error := failure;
        currentWeather := None;
        fiveDayForecast := Items([]);
      }
      isLoading := false;
    }

    /** `fetchWeather`: marks the search started, then asks for the current weather and, if
        that succeeded, the forecast. `requests` are the URLs fetched, in order. */
    method FetchWeather(query: string, apiKey: string,
                        current: WeatherApi.Fetched<CurrentWeather>, forecast: WeatherApi.Fetched<ForecastResponse>)
      returns (requests: seq<string>)
      modifies this
      ensures var weather := WeatherApi.GetCurrentWeather(query, current);
        && State() == Settle(old(State()).(isLoading := true, error := None, hasSearched := true),
                             weather, WeatherApi.GetFiveDayForecast(query, forecast), None)
        && requests == [WeatherApi.CurrentWeatherUrl(query, apiKey)]
                       + (if weather.Ok? then [WeatherApi.ForecastUrl(query, apiKey)] else [])
    {
      isLoading := true;
      error := None;
      hasSearched := true;
      var weather := WeatherApi.GetCurrentWeather(query, current);
      requests := [WeatherApi.CurrentWeatherUrl(query, apiKey)];
      if weather.Ok? {
        requests := requests + [WeatherApi.ForecastUrl(query, apiKey)];
      }
      SettleFetch(weather, WeatherApi.GetFiveDayForecast(query, forecast), None);
    }

    /** `handleSearchSubmit`: a blank query only sets the error and marks a search made; any
        other query, trimmed, becomes the location and is fetched. */
    method HandleSearchSubmit(searchQuery: string, apiKey: string,
                              current: WeatherApi.Fetched<CurrentWeather>,
                              forecast: WeatherApi.Fetched<ForecastResponse>)
      returns (requests: seq<string>)
      requires Valid(State())
      modifies this
      ensures Valid(State())
      ensures var query := Text.Trim(searchQuery);
        if query == "" then
          && State() == old(State()).(error := Some(BlankQueryMessage), hasSearched := true)
          && requests == []
        else
          var weather := WeatherApi.GetCurrentWeather(query, current);
          && State() == Settle(old(State()).(location := query, isLoading := true, error := None, hasSearched := true),
                               weather, WeatherApi.GetFiveDayForecast(query, forecast), None)
          && requests == [WeatherApi.CurrentWeatherUrl(query, apiKey)]
                         + (if weather.Ok? then [WeatherApi.ForecastUrl(query, apiKey)] else [])
    {
      var query := Text.Trim(searchQuery);
      if query != "" {
        requests := Search(query, apiKey, current, forecast);
      } else {
        error := Some(BlankQueryMessage);
        hasSearched := true;
        requests := [];
      }
    }

    /** The non-blank branch of `handleSearchSubmit`: the trimmed query becomes the location and is fetched. */
    method Search(query: string, apiKey: string,
                  current: WeatherApi.Fetched<CurrentWeather>, forecast: WeatherApi.Fetched<ForecastResponse>)
      returns (requests: seq<string>)
      requires Valid(State())
      modifies this
      ensures Valid(State())
      ensures var weather := WeatherApi.GetCurrentWeather(query, current);
        && State() == Settle(old(State()).(location := query, isLoading := true, error := None, hasSearched := true),
                             weather, WeatherApi.GetFiveDayForecast(query, forecast), None)
        && requests == [WeatherApi.CurrentWeatherUrl(query, apiKey)]
                       + (if weather.Ok? then [WeatherApi.ForecastUrl(query, apiKey)] else [])
    {
      location := query;
      ghost var located := State();
      requests := FetchWeather(query, apiKey, current, forecast);
      SettleKeepsValid(located.(isLoading := true, error := None, hasSearched := true),
                       WeatherApi.GetCurrentWeather(query, current), WeatherApi.GetFiveDayForecast(query, forecast), None);
    }

    /** The error branches of `handleCurrentLocationWeather`: the message, loading over, results cleared. */
    method FailLocating(message: string)
      modifies this
      ensures State() == old(State()).(error := Some(message), isLoading := false,
                                       currentWeather := None, fiveDayForecast := Items([]))
    {
      error := Some(message);
      isLoading := false;
      currentWeather := None;
      fiveDayForecast := Items([]);
    }

    /** `handleCurrentLocationWeather`: marks a search started; without geolocation, or when
        it fails, sets the error and clears the results; with a position, fetches by
        coordinates and, when both calls succeed, shows the rounded coordinates as the location. */
    method HandleCurrentLocationWeather(geo: Geolocation, apiKey: string) returns (requests: seq<string>)
      requires Valid(State())
      modifies this
      ensures Valid(State())
      ensures var started := old(State()).(isLoading := true, error := None, hasSearched := true);
        match geo
        case Unsupported =>
          && State() == started.(error := Some(GeolocationUnsupportedMessage), isLoading := false,
                                 currentWeather := None, fiveDayForecast := Items([]))
          && requests == []
        case Failed(reason) =>
          && State() == started.(error := Some(GeolocationErrorMessage(reason)), isLoading := false,
                                 currentWeather := None, fiveDayForecast := Items([]))
          && requests == []
        case Located(lat, lon, fixedLat, fixedLon, current, forecast) =>
          var weather := WeatherApi.GetCurrentWeatherByCoords(current);
          && State() == Settle(started, weather, WeatherApi.GetFiveDayForecastByCoords(forecast),
                               Some(fixedLat + "," + fixedLon))
          && requests == [WeatherApi.CurrentWeatherByCoordsUrl(lat, lon, apiKey)]
                         + (if weather.Ok? then [WeatherApi.ForecastByCoordsUrl(lat, lon, apiKey)] else [])
    {
      isLoading := true;
      error := None;
      hasSearched := true;
      ghost var started := State();
      assert started == old(State()).(isLoading := true, error := None, hasSearched := true);
      match geo
      case Unsupported =>
        FailLocating(GeolocationUnsupportedMessage);
        requests := [];
      case Failed(reason) =>
        FailLocating(GeolocationErrorMessage(reason));
        requests := [];
      case Located(lat, lon, fixedLat, fixedLon, current, forecast) =>
        var weather := WeatherApi.GetCurrentWeatherByCoords(current);
        requests := [WeatherApi.CurrentWeatherByCoordsUrl(lat, lon, apiKey)];
        if weather.Ok? {
          requests := requests + [WeatherApi.ForecastByCoordsUrl(lat, lon, apiKey)];
        }
        SettleFetch(weather, WeatherApi.GetFiveDayForecastByCoords(forecast), Some(fixedLat + "," + fixedLon));
        SettleKeepsValid(started, weather,
                         WeatherApi.GetFiveDayForecastByCoords(forecast), Some(fixedLat + "," + fixedLon));
    }

    /** `handleLogout`: back to the pre-login state, except that `showSignUp` and `isLoading`
        are left as they are. */
    method HandleLogout()
      requires Valid(State())
      modifies this
      ensures Valid(State())
      ensures State() == old(State()).(isLoggedIn := false, hasSearched := false, currentWeather := None,
                                       fiveDayForecast := Items([]), location := "", error := None)
      ensures !ScreenOf(State()).WeatherScreen?
    {
      isLoggedIn := false;
      hasSearched := false;
      currentWeather := None;
      fiveDayForecast := Items([]);
      location := "";
      error := None;
    }
  }

}
