/** The parts of the provider's JSON payloads that the application reads. */
module WeatherData {
  import opened Wrappers

  /** One entry of a payload's `weather` array. */
  datatype Condition = Condition(description: string, icon: string)

  /** The current-conditions payload: `name`, `sys.country` and the `weather` array
      (the numeric readings are not modelled). */
  datatype CurrentWeather = CurrentWeather(name: string, country: string, conditions: seq<Condition>)

  /** The `main` object of a forecast sample; `temp` is `None` when it is undefined. */
  datatype Reading = Reading(temp: Option<real>)

  /** One 3-hour forecast sample: `dt` (Unix seconds), `main` and the `weather` array, each
      possibly missing (`None`). */
  datatype Item = Item(dt: Option<int>, main: Option<Reading>, conditions: Option<seq<Condition>>)

  /** The forecast payload; only its `list` array of samples (a `None` entry is `null`) is modelled. */
  datatype ForecastResponse = ForecastResponse(list: seq<Option<Item>>)
}
