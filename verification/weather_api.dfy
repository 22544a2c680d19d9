/** Request URLs of the weather provider and the messages its failures turn into.
    `fetch` itself is not modelled: what it produced is an input. */
module WeatherApi {
  import opened Wrappers
  import Text

  const BaseUrl := "https://api.openweathermap.org/data/2.5"
  const CurrentWeatherPath := "/weather"
  const ForecastPath := "/forecast"

  /** The tail every request URL carries: the API key and metric units. */
  function KeyAndUnits(apiKey: string): string {
    "&appid=" + apiKey + "&units=metric"
  }

  function QueryPrefix(path: string): string {
    BaseUrl + path + "?q="
  }

  /** `${BASE_URL}${path}?q=${query}&appid=${API_KEY}&units=metric`. */
  function QueryUrl(path: string, query: string, apiKey: string): (url: string)
    ensures |url| == |QueryPrefix(path)| + |query| + |KeyAndUnits(apiKey)|
    ensures url[..|QueryPrefix(path)|] == QueryPrefix(path)
    ensures url[|QueryPrefix(path)|..|QueryPrefix(path)| + |query|] == query
    ensures url[|QueryPrefix(path)| + |query|..] == KeyAndUnits(apiKey)
  {
    QueryPrefix(path) + query + KeyAndUnits(apiKey)
  }

  function CurrentWeatherUrl(query: string, apiKey: string): string {
    QueryUrl(CurrentWeatherPath, query, apiKey)
  }

  function ForecastUrl(query: string, apiKey: string): string {
    QueryUrl(ForecastPath, query, apiKey)
  }

  /** `${BASE_URL}${path}?lat=${lat}&lon=${lon}&appid=${API_KEY}&units=metric`, given the
      texts the two numbers print as. */
  function CoordsUrl(path: string, latitude: string, longitude: string, apiKey: string): string {
    BaseUrl + path + "?lat=" + latitude + "&lon=" + longitude + KeyAndUnits(apiKey)
  }

  function CurrentWeatherByCoordsUrl(latitude: string, longitude: string, apiKey: string): string {
    CoordsUrl(CurrentWeatherPath, latitude, longitude, apiKey)
  }

  function ForecastByCoordsUrl(latitude: string, longitude: string, apiKey: string): string {
    CoordsUrl(ForecastPath, latitude, longitude, apiKey)
  }

  /** Reads the query back out of a query URL for `path`: the partner of `QueryUrl`. */
  function QueryOf(path: string, url: string, apiKey: string): (q: Option<string>)
    ensures q.Some? ==> QueryUrl(path, q.value, apiKey) == url
  {
    var pre, post := QueryPrefix(path), KeyAndUnits(apiKey);
    if |pre| + |post| <= |url| && url[..|pre|] == pre && url[|url| - |post|..] == post
    then
      var q := url[|pre|..|url| - |post|];
      assert url == pre + q + post;
      Some(q)
    else None
  }

  /** The query goes into the URL verbatim: it is read back unchanged, so distinct
      queries give distinct URLs. */
  lemma QueryRoundTrip(path: string, query: string, apiKey: string)
    ensures QueryOf(path, QueryUrl(path, query, apiKey), apiKey) == Some(query)
  {
  }

  /** The forecast URL is the current-weather URL with `/forecast` in place of `/weather`. */
  lemma ForecastUrlSwapsPath(query: string, apiKey: string)
    ensures var current := CurrentWeatherUrl(query, apiKey);
      ForecastUrl(query, apiKey) == BaseUrl + ForecastPath + current[|BaseUrl + CurrentWeatherPath|..]
  {
  }

  predicate EndsWith(s: string, suffix: string) {
    |suffix| <= |s| && s[|s| - |suffix|..] == suffix
  }

  /** All four request builders end with the same key and `units=metric`. */
  lemma AllRequestsCarryKeyAndUnits(query: string, latitude: string, longitude: string, apiKey: string)
    ensures EndsWith(CurrentWeatherUrl(query, apiKey), KeyAndUnits(apiKey))
    ensures EndsWith(ForecastUrl(query, apiKey), KeyAndUnits(apiKey))
    ensures EndsWith(CurrentWeatherByCoordsUrl(latitude, longitude, apiKey), KeyAndUnits(apiKey))
    ensures EndsWith(ForecastByCoordsUrl(latitude, longitude, apiKey), KeyAndUnits(apiKey))
  {
  }

  /** The body of a response: JSON that parsed, with its `message` field and the data,
      or text whose parsing rejected with a SyntaxError. */
  datatype Body<+T> = Json(message: Option<string>, data: T) | Unparsable(syntaxError: string)

  /** A response that `fetch` resolved with. */
  datatype Response<+T> = Response(ok: bool, status: nat, body: Body<T>)

  /** What `fetch` did: resolved with a response, or rejected (network failure) with a reason. */
  datatype Fetched<+T> = Received(response: Response<T>) | Rejected(reason: string)

  const HttpErrorPrefix := "HTTP error! Status: "

  /** `errorData.message || \`HTTP error! Status: ${response.status}\``: a missing or empty
      message is falsy. */
  function HttpErrorMessage(message: Option<string>, status: nat): (m: string)
    ensures m != ""
    ensures message.Some? && message.value != "" ==> m == message.value
  {
    if message.Some? && message.value != "" then message.value else HttpErrorPrefix + Text.Decimal(status)
  }

  /** Without a message of its own, the HTTP error names the status code, and the code can be
      read back from it. */
  lemma HttpErrorNamesStatus(message: Option<string>, status: nat)
    requires message.None? || message.value == ""
    ensures var m := HttpErrorMessage(message, status);
      && |HttpErrorPrefix| < |m| && m[..|HttpErrorPrefix|] == HttpErrorPrefix
      && (forall k :: |HttpErrorPrefix| <= k < |m| ==> '0' <= m[k] <= '9')
      && Text.DecimalValue(m[|HttpErrorPrefix|..]) == status
  {
    var m := HttpErrorMessage(message, status);
    assert m[|HttpErrorPrefix|..] == Text.Decimal(status);
    Text.DecimalRoundTrip(status);
  }

  /** `handleResponse`: an ok response yields its parsed body; any other throws with the
      body's message or the status code; a body that does not parse rejects with the parse error. */
  function HandleResponse<T>(response: Response<T>): (o: Outcome<T>)
    ensures o.Ok? <==> response.ok && response.body.Json?
    ensures o.Ok? ==> o.value == response.body.data
    ensures response.body.Unparsable? ==> o == Err(response.body.syntaxError)
    ensures !response.ok && response.body.Json? ==>
      o == Err(HttpErrorMessage(response.body.message, response.status)) && o.message != ""
  {
    match response.body
    case Unparsable(e) => Err(e)
    case Json(message, data) =>
      if response.ok then Ok(data) else Err(HttpErrorMessage(message, response.status))
  }

  /** The shape shared by the four `get*` functions: a rejected `fetch` is caught and rethrown
      with `failure` in front of its message; the promise of `handleResponse` is returned
      without `await`, so its rejection escapes the `catch` unchanged. */
  function Request<T>(fetched: Fetched<T>, failure: string): (o: Outcome<T>)
    ensures fetched.Rejected? ==> o == Err(failure + fetched.reason)
    ensures fetched.Received? ==> o == HandleResponse(fetched.response)
  {
    match fetched
    case Rejected(reason) => Err(failure + reason)
    case Received(response) => HandleResponse(response)
  }

  function GetCurrentWeather<T>(query: string, fetched: Fetched<T>): Outcome<T> {
    Request(fetched, "Failed to get current weather for " + query + ": ")
  }

  function GetFiveDayForecast<T>(query: string, fetched: Fetched<T>): Outcome<T> {
    Request(fetched, "Failed to get 5-day forecast for " + query + ": ")
  }

  function GetCurrentWeatherByCoords<T>(fetched: Fetched<T>): Outcome<T> {
    Request(fetched, "Failed to get current weather for coordinates: ")
  }

  function GetFiveDayForecastByCoords<T>(fetched: Fetched<T>): Outcome<T> {
    Request(fetched, "Failed to get 5-day forecast for coordinates: ")
  }

  /** Only a rejected `fetch` gets the "Failed to get ..." prefix: an HTTP error surfaces with
      exactly the message `handleResponse` chose, so a query call and a coordinates call that
      received the same response fail with the same message. */
  lemma HttpErrorsEscapeUnwrapped<T>(query: string, response: Response<T>)
    requires !response.ok && response.body.Json?
    ensures var m := HttpErrorMessage(response.body.message, response.status);
      && GetCurrentWeather(query, Received(response)) == Err(m)
      && GetFiveDayForecast(query, Received(response)) == Err(m)
      && GetCurrentWeatherByCoords(Received(response)) == Err(m)
      && GetFiveDayForecastByCoords(Received(response)) == Err(m)
  {
  }

  /** A rejected `fetch` for a query fails with a message that names the query. */
  lemma RejectionNamesQuery<T>(query: string, reason: string)
    ensures var m := GetCurrentWeather(query, Fetched<T>.Rejected(reason)).message;
      var prefix := "Failed to get current weather for ";
      && m[..|prefix|] == prefix
      && m[|prefix|..|prefix| + |query|] == query
  {
  }
}
