/** One card of the forecast list. */
module ForecastCard {
  import opened Wrappers
  import opened WeatherData
  import opened Display
  import Text

  /** The strings the card shows (the date and time labels are locale output and not modelled). */
  datatype Card = Card(iconUrl: string, iconAlt: string, description: string)

  /** The component: icon and capitalised description come from the first entry of the sample's
      `weather` array; destructuring throws when `main` or `weather` is missing or that array is
      empty. */
  function Render(item: Item): (r: Rendering<Card>)
    ensures !r.Nothing?
    ensures r.Throws? <==> item.main.None? || item.conditions.None? || item.conditions.value == []
    ensures r.Shown? ==>
      var c := item.conditions.value[0];
      && IconOf(r.view.iconUrl) == Some(c.icon)
      && r.view.iconAlt == c.description
      && r.view.description == Text.Capitalize(c.description)
      && |r.view.description| == |c.description|
  {
    if item.main.None? || item.conditions.None? || item.conditions.value == [] then Throws
    else
      var c := item.conditions.value[0];
      IconRoundTrip(c.icon);
      Shown(Card(IconUrl(c.icon), c.description, Text.Capitalize(c.description)))
  }
}
