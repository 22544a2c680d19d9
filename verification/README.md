# Instant Weather — a Dafny model of its logic

Instant Weather is a browser application: a user logs in against a fixed pair of
literals (or fills in a sign-up form that stores nothing), searches for a place or uses
the device's position, and sees the current conditions. Its forecast component keeps one
3-hour sample per calendar date, but the application as written never renders that
component (see `App` below). This project models the parts of it that carry logic:

- `ForecastDisplay` (forecast_display.dfy): the one-pass filter that keeps the first usable
  3-hour sample of each calendar date, as a loop over a sequence with a set of seen dates,
  proved against a specification function `Daily`, with lemmas for subsequence order,
  first occurrence, distinct dates and coverage of every date. The component's `return`
  sits inside the `forEach` callback, so it ends only that callback: no cap of five is
  applied and every distinct date among usable samples is kept. The calendar date of a
  timestamp is locale and time-zone output, so it is a parameter `dateKey`.
- `App` (app.dfy): the component's eight state hooks as a class, its handlers as methods
  whose contracts give the whole new state, the conditional rendering as `ScreenOf`, and
  `Valid`, the invariant every handler keeps. An asynchronous handler is modelled by the
  state it ends in for given outcomes of `fetch` and of the geolocation request.
  A successful fetch stores the whole forecast response object in `fiveDayForecast`
  (src/App.jsx:61), and the page tests `fiveDayForecast.length > 0` (src/App.jsx:174);
  the object has no `length`, so the forecast list is never on the page
  (`App.ForecastListNeverShown`).
- `LoginPage` and `SignUpPage` (login_page.dfy, signup_page.dfy): the two forms as classes
  and their submit handlers, with the sign-up checks in their fixed order.
- `WeatherApi` (weather_api.dfy): the request URLs, built by concatenation with the query
  inserted verbatim, and the message a failed request throws; `fetch` is replaced by its
  outcome (`Fetched`), an input.
- `WeatherDisplay` and `ForecastCard` (weather_display.dfy, forecast_card.dfy): the heading and
  capitalised description the two cards show; `Display` (display.dfy) holds the icon URL
  template both use and the outcome of rendering a card.
- Helpers: `Wrappers` (optional values, call outcomes), `Text` (`trim`, ASCII upper-casing,
  decimal rendering of a status code), `WeatherData` (the payload fields that are read).

## Model

| member | source | states |
|---|---|---|
| `ForecastDisplay.Daily` | src/Components/ForecastDisplay.jsx:16-35 | the kept samples are no more than the input and every one is usable (non-null, truthy `dt`, `main` present, `main.temp` defined) |
| `ForecastDisplay.DailyForecasts` | src/Components/ForecastDisplay.jsx:13-35 | the `forEach` with its array and `Set` of dates computes exactly `Daily` of the input |
| `ForecastDisplay.DailyIsSubsequence` | src/Components/ForecastDisplay.jsx:16-27 | the output is the input's entries at strictly increasing positions: a subsequence in input order |
| `ForecastDisplay.KeptIffFirstOfDate` | src/Components/ForecastDisplay.jsx:25-27 | a position is kept if and only if it holds the first usable sample of its date |
| `ForecastDisplay.DailyDatesDistinct` | src/Components/ForecastDisplay.jsx:24-27 | no two output samples share a date |
| `ForecastDisplay.DailyDatesAreUsableDates` | src/Components/ForecastDisplay.jsx:16-35 | the dates of the output are exactly the dates of the usable input samples |
| `ForecastDisplay.DailyLength` | src/Components/ForecastDisplay.jsx:16-35 | the output is as long as the number of distinct dates among usable samples (no cap of five) |
| `ForecastDisplay.DistinctDatesAllKept` | src/Components/ForecastDisplay.jsx:29-32 | with all samples usable and all dates distinct every sample is kept, however many: the `return` does not stop the walk |
| `ForecastDisplay.KeptCardsRender` | src/Components/ForecastDisplay.jsx:46-48 | the guard does not test `weather`, so a kept sample's card throws exactly when its `weather` array is missing or empty |
| `ForecastDisplay.Render` | src/Components/ForecastDisplay.jsx:8-40 | nothing is rendered iff the prop is null, or no sample is usable (which covers the empty list); otherwise the cards are `Daily` of the list, non-empty |
| `ForecastCard.Render` | src/Components/ForecastCard.jsx:6-21 | icon URL and capitalised description (same length) come from the first `weather` entry; destructuring throws iff `main` or `weather` is missing or `weather` is empty |
| `Display.IconUrl` | src/Components/WeatherDisplay.jsx:19 | the icon URL is the fixed prefix, the icon code and `@2x.png` |
| `Display.IconOf` | src/Components/WeatherDisplay.jsx:19 | an icon code read back from a URL rebuilds that URL |
| `Display.IconRoundTrip` | src/Components/WeatherDisplay.jsx:19 | the icon code is read back unchanged from its URL |
| `WeatherDisplay.Render` | src/Components/WeatherDisplay.jsx:7-33 | a null `weather` renders nothing; an empty `weather` array throws; otherwise heading `name, country`, the first entry's icon and its capitalised description |
| `Text.Trim` | src/App.jsx:74 | the result is the slice of the input left after cutting the whitespace off both ends, and it neither starts nor ends with whitespace |
| `Text.TrimIsEmptyIffBlank` | src/App.jsx:74 | a query trims to the empty string iff it is all whitespace |
| `Text.TrimIdempotent` | src/App.jsx:74-76 | trimming the trimmed query changes nothing |
| `Text.ToUpper` | src/Components/WeatherDisplay.jsx:33 | a lower-case ASCII letter becomes its capital; any other character is unchanged |
| `Text.Capitalize` | src/Components/WeatherDisplay.jsx:33 | same length; the first character upper-cased, all others unchanged; empty stays empty |
| `Text.CapitalizeIdempotent` | src/Components/ForecastCard.jsx:21 | capitalising a capitalised description changes nothing |
| `Text.Decimal` | src/utils/weatherApi.js:13 | the status code prints as at least one decimal digit without leading zeros |
| `Text.DecimalRoundTrip` | src/utils/weatherApi.js:13 | the printed status code reads back as the same number |
| `WeatherApi.QueryUrl` | src/utils/weatherApi.js:25 | a query URL is base URL and path with `?q=`, then the query unchanged, then `&appid=` key `&units=metric` |
| `WeatherApi.QueryOf` | src/utils/weatherApi.js:40 | a query read back from a URL rebuilds that URL |
| `WeatherApi.QueryRoundTrip` | src/utils/weatherApi.js:25 | the query is read back unchanged: it is inserted verbatim, so distinct queries give distinct URLs |
| `WeatherApi.ForecastUrlSwapsPath` | src/utils/weatherApi.js:40 | the forecast URL is the current-weather URL with `/forecast` in place of `/weather` |
| `WeatherApi.AllRequestsCarryKeyAndUnits` | src/utils/weatherApi.js:25-72 | all four request URLs end with the same key and `units=metric` |
| `WeatherApi.HttpErrorMessage` | src/utils/weatherApi.js:13 | never empty; a non-empty body message is used as it is |
| `WeatherApi.HttpErrorNamesStatus` | src/utils/weatherApi.js:13 | without a body message the error is `HTTP error! Status: ` and digits that read back as the status |
| `WeatherApi.HandleResponse` | src/utils/weatherApi.js:9-16 | yields the parsed body iff the response is ok and parses; a parse failure rejects with its error; a non-ok response throws the non-empty HTTP error message |
| `WeatherApi.Request` | src/utils/weatherApi.js:24-30 | a rejected `fetch` is rethrown with the call's prefix; a received response gives what `handleResponse` gives, unwrapped |
| `WeatherApi.HttpErrorsEscapeUnwrapped` | src/utils/weatherApi.js:24-77 | an HTTP error fails all four calls with the same message, without the "Failed to get" prefix |
| `WeatherApi.RejectionNamesQuery` | src/utils/weatherApi.js:29 | a rejected current-weather fetch fails with "Failed to get current weather for " followed by the query |
| `LoginPage.Form.constructor` | src/Components/LoginPage.jsx:7-9 | both inputs and the error start empty |
| `LoginPage.Form.Type` | src/Components/LoginPage.jsx:32-43 | typing sets the two inputs |
| `LoginPage.Form.HandleSubmit` | src/Components/LoginPage.jsx:11-20 | success iff the pair is exactly ("user", "password"); error `''` on success, else 'Invalid username or password.'; the inputs are untouched |
| `SignUpPage.Check` | src/Components/SignUpPage.jsx:19-27 | the mismatch verdict iff the passwords differ; acceptance iff they match, username has at least 3 and password at least 6 characters |
| `SignUpPage.MismatchTakesPrecedence` | src/Components/SignUpPage.jsx:19-27 | a mismatched pair is reported as a mismatch even when the inputs are also too short |
| `SignUpPage.Form.constructor` | src/Components/SignUpPage.jsx:8-12 | all inputs and both message lines start empty |
| `SignUpPage.Form.Type` | src/Components/SignUpPage.jsx:54-76 | typing sets the three inputs |
| `SignUpPage.Form.HandleSubmit` | src/Components/SignUpPage.jsx:14-41 | the error is that of the first failing check or `''`; success message, emptied inputs and the scheduled `onSignUpSuccess` exactly on acceptance, inputs untouched otherwise; exactly one message line is non-empty |
| `App.ScreenOf` | src/App.jsx:137-174 | sign-up page iff logged out with `showSignUp`, login page iff logged out without it, weather page iff logged in; the card only without loading or a truthy error; error line, loading message and results never share the page |
| `App.ForecastListNeverShown` | src/App.jsx:61-174 | in every state the handlers leave, the forecast list is not on the page, because the slot holds `[]` or the response object |
| `App.FreshSessionShowsWelcome` | src/App.jsx:166-170 | logged in and not yet searched: only the welcome message is shown |
| `App.Settle` | src/App.jsx:56-69 | `isLoading` ends false; both results are stored iff both calls succeed; otherwise the first failure's message is the error, the card is cleared and the forecast becomes `[]`; login and view flags are untouched |
| `App.SettleKeepsValid` | src/App.jsx:53-69 | a fetch settled after the search was marked leaves a state satisfying the handlers' invariant |
| `App.SettledScreen` | src/App.jsx:56-172 | after a successful fetch the card is shown with no error line; after a failure with a non-empty message that message is shown and no card |
| `App.App.constructor` | src/App.jsx:15-24 | the initial state: logged out, login page, no location, no results, no error, not loading, no search yet |
| `App.App.HandleLoginSuccess` | src/App.jsx:27-30 | `isLoggedIn` true and `showSignUp` false, nothing else changes; the weather page is shown |
| `App.App.HandleGoToSignUp` | src/App.jsx:33-36 | `showSignUp` true and `error` null, nothing else changes |
| `App.App.HandleGoToLogin` | src/App.jsx:38-41 | `showSignUp` false and `error` null, nothing else changes |
| `App.App.HandleSignUpSuccess` | src/App.jsx:44-49 | the same state change as going to the login page |
| `App.App.SettleFetch` | src/App.jsx:56-69 | the `try`/`catch`/`finally` leaves the state `Settle` gives |
| `App.App.FetchWeather` | src/App.jsx:52-70 | loading, error cleared and search marked, then settled by the two call outcomes; the current-weather URL is fetched, and the forecast URL only after it succeeded |
| `App.App.Search` | src/App.jsx:74-76 | a non-blank query becomes the location and is fetched; the end state is `Settle` of the marked-search state and the invariant is kept |
| `App.App.HandleSearchSubmit` | src/App.jsx:73-81 | a blank query sets only the error "Please enter a location." and `hasSearched`, and fetches nothing; any other query sets `location` to the trimmed query and fetches it |
| `App.App.FailLocating` | src/App.jsx:109-121 | the geolocation error branches set the message, stop loading and clear the card and the forecast, nothing else |
| `App.App.HandleCurrentLocationWeather` | src/App.jsx:84-122 | unsupported or failed geolocation sets its message, stops loading and clears both results, fetching nothing; a position fetches by coordinates and, on full success, sets the location to the rounded coordinates |
| `App.App.HandleLogout` | src/App.jsx:125-132 | logged out, no search, no results, empty location, no error; `showSignUp` and `isLoading` unchanged; the weather page is gone |

## Left out

- Network, JSON parsing, the API key's origin and console logging: what `fetch` did is an input
  (`WeatherApi.Fetched`), the key a parameter (`${API_KEY}` of an unset key would print `undefined`).
- A JSON error body that is `null` (reading `.message` of it would throw a TypeError) is not modelled:
  every parsed body has a `message` field that is present or absent.
- Asynchrony: overlapping searches, responses arriving out of order, a search still running at logout,
  and the states between the awaits (where `isLoading` is true) are not modelled; each handler
  is its end state, so `isLoading` is false in every modelled state.
- The browser `alert` in `handleSignUpSuccess` and the 2-second `setTimeout`: the sign-up form
  reports `scheduled` instead of running the callback.
- Locale and time-zone formatting (`toLocaleDateString`, `toLocaleTimeString`): the calendar date
  of a timestamp is the parameter `dateKey`; the card's date and time labels are not modelled.
- Floating point: `Math.round` of temperatures, humidity, wind and pressure texts, and the
  number-to-text conversion of coordinates (`${lat}`, `toFixed(2)`), which are inputs as texts.
- Text.ToUpper: upper-cases ASCII letters only; `toUpperCase` also maps other scripts and can
  lengthen a character (ß becomes SS).
- String lengths are counted in characters; JavaScript counts UTF-16 code units, which differ
  for characters outside the Basic Multilingual Plane.
- Nested fields of the current-conditions payload (`main`, `wind`, `sys`) are assumed present;
  only an empty `weather` array is modelled as a throw.
- ForecastCard.Render: a `weather` entry that is `null`, or lacks `description` (whose `charAt`
  would then throw), is not modelled; entries always carry both strings.
- WeatherDisplay.Render: the same holds for the entries of the current-conditions `weather` array.
- Markup, styles, icons, the search form (which passes the raw query through and disables its
  controls while loading) and the error-message component (which renders a non-empty message).
