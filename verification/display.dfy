/** What the two weather cards share: the icon URL template and the outcome of rendering. */
module Display {
  import opened Wrappers

  const IconBase := "https://openweathermap.org/img/wn/"
  const IconSuffix := "@2x.png"

  /** `https://openweathermap.org/img/wn/${icon}@2x.png`. */
  function IconUrl(icon: string): (url: string)
    ensures |url| == |IconBase| + |icon| + |IconSuffix|
    ensures url[..|IconBase|] == IconBase && url[|IconBase| + |icon|..] == IconSuffix
  {
    IconBase + icon + IconSuffix
  }

  /** Reads the icon code back out of an icon URL: the partner of `IconUrl`. */
  function IconOf(url: string): (icon: Option<string>)
    ensures icon.Some? ==> IconUrl(icon.value) == url
  {
    if |IconBase| + |IconSuffix| <= |url| && url[..|IconBase|] == IconBase
       && url[|url| - |IconSuffix|..] == IconSuffix
    then
      var icon := url[|IconBase|..|url| - |IconSuffix|];
      assert url == IconBase + icon + IconSuffix;
      Some(icon)
    else None
  }

  /** The icon code goes into the URL unchanged. */
  lemma IconRoundTrip(icon: string)
    ensures IconOf(IconUrl(icon)) == Some(icon)
  {
  }

  /** What a component renders: nothing, its view, or a TypeError thrown while destructuring. */
  datatype Rendering<+V> = Nothing | Shown(view: V) | Throws
}
