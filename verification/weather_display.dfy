/** The current-conditions card. */
module WeatherDisplay {
  import opened Wrappers
  import opened WeatherData
  import opened Display
  import Text

  /** The strings the card shows. */
  datatype Card = Card(heading: string, iconUrl: string, iconAlt: string, description: string)

  /** The component: nothing for a null `weather`; the heading `name, country`, the icon and the
      capitalised description of the first `weather` entry; a throw when that array is empty. */
  function Render(weather: Option<CurrentWeather>): (r: Rendering<Card>)
    ensures r.Nothing? <==> weather.None?
    ensures r.Throws? <==> weather.Some? && weather.value.conditions == []
    ensures r.Shown? ==>
      var w, c := weather.value, weather.value.conditions[0];
      && r.view.heading == w.name + ", " + w.country
      && IconOf(r.view.iconUrl) == Some(c.icon)
      && r.view.iconAlt == c.description
      && r.view.description == Text.Capitalize(c.description)
  {
    match weather
    case None => Nothing
    case Some(w) =>
      if w.conditions == [] then Throws
      else
        var c := w.conditions[0];
        IconRoundTrip(c.icon);
        Shown(Card(w.name + ", " + w.country, IconUrl(c.icon), c.description, Text.Capitalize(c.description)))
  }
}
