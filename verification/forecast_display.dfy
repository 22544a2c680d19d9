/** The forecast list: one pass over the provider's 3-hour samples that keeps the first
    usable sample of each calendar date. The calendar date of a timestamp depends on the
    viewer's time zone and locale, so it is a parameter, `dateKey`, standing for
    `new Date(dt * 1000).toLocaleDateString('en-US')`. */
module ForecastDisplay {
  import opened Wrappers
  import opened WeatherData
  import ForecastCard

  /** The guard of the `forEach` callback: the entry is not null, `dt` is truthy (present and
      not 0), `main` is present and `main.temp` is defined. */
  predicate IsUsable(entry: Option<Item>) {
    && entry.Some?
    && entry.value.dt.Some? && entry.value.dt.value != 0
    && entry.value.main.Some? && entry.value.main.value.temp.Some?
  }

  /** The date string of a usable entry. */
  function DateOf(entry: Option<Item>, dateKey: int -> string): string
    requires IsUsable(entry)
  {
    dateKey(entry.value.dt.value)
  }

  /** The dates of the usable entries of `entries`: what `uniqueDates` holds after them. */
  function UsableDates(entries: seq<Option<Item>>, dateKey: int -> string): set<string> {
    set j | 0 <= j < |entries| && IsUsable(entries[j]) :: DateOf(entries[j], dateKey)
  }

  /** Entry `i` is the first usable entry of its date. */
  predicate IsFirstOfDate(entries: seq<Option<Item>>, dateKey: int -> string, i: int) {
    && 0 <= i < |entries| && IsUsable(entries[i])
    && forall j :: 0 <= j < i && IsUsable(entries[j]) ==> DateOf(entries[j], dateKey) != DateOf(entries[i], dateKey)
  }

  /** The samples the list shows, defined entry by entry from the left as the callback visits them. */
  function Daily(entries: seq<Option<Item>>, dateKey: int -> string): (daily: seq<Item>)
    ensures |daily| <= |entries|
    ensures forall k :: 0 <= k < |daily| ==> IsUsable(Some(daily[k]))
    decreases |entries|
  {
    if entries == [] then []
    else
      var init, last := entries[..|entries| - 1], entries[|entries| - 1];
      if IsUsable(last) && DateOf(last, dateKey) !in UsableDates(init, dateKey)
      then Daily(init, dateKey) + [last.value]
      else Daily(init, dateKey)
  }

  /** The positions of the kept entries, in the same order as `Daily`. */
  ghost function KeptIndices(entries: seq<Option<Item>>, dateKey: int -> string): seq<int>
    decreases |entries|
  {
    if entries == [] then []
    else
      var init, last := entries[..|entries| - 1], entries[|entries| - 1];
      if IsUsable(last) && DateOf(last, dateKey) !in UsableDates(init, dateKey)
      then KeptIndices(init, dateKey) + [|entries| - 1]
      else KeptIndices(init, dateKey)
  }

  /** Adding one entry adds its date, if it is usable, and nothing else. */
  lemma UsableDatesSnoc(entries: seq<Option<Item>>, dateKey: int -> string)
    requires entries != []
    ensures var init, last := entries[..|entries| - 1], entries[|entries| - 1];
      UsableDates(entries, dateKey)
      == UsableDates(init, dateKey) + (if IsUsable(last) then {DateOf(last, dateKey)} else {})
  {
  }

  /** A date is among the usable dates exactly when some usable entry carries it. */
  lemma UsableDatesMembers(entries: seq<Option<Item>>, dateKey: int -> string, d: string)
    ensures d in UsableDates(entries, dateKey)
      <==> exists j :: 0 <= j < |entries| && IsUsable(entries[j]) && DateOf(entries[j], dateKey) == d
  {
  }

  /** `Daily` is the entries at `KeptIndices`, which increase strictly: the list is a
      subsequence of the input, in input order. */
  lemma {:induction false} DailyIsSubsequence(entries: seq<Option<Item>>, dateKey: int -> string)
    ensures var daily, idx := Daily(entries, dateKey), KeptIndices(entries, dateKey);
      && |idx| == |daily|
      && (forall k :: 0 <= k < |idx| ==> 0 <= idx[k] < |entries| && entries[idx[k]] == Some(daily[k]))
      && (forall k, l :: 0 <= k < l < |idx| ==> idx[k] < idx[l])
    decreases |entries|
  {
    if entries != [] {
      var init := entries[..|entries| - 1];
      DailyIsSubsequence(init, dateKey);
      var idx := KeptIndices(init, dateKey);
      forall k | 0 <= k < |idx| ensures entries[idx[k]] == init[idx[k]] { }
    }
  }

  /** An entry is kept exactly when it is the first usable entry of its date. */
  lemma {:induction false} KeptIffFirstOfDate(entries: seq<Option<Item>>, dateKey: int -> string, i: int)
    ensures i in KeptIndices(entries, dateKey) <==> IsFirstOfDate(entries, dateKey, i)
    decreases |entries|
  {
    if entries != [] {
      var n := |entries| - 1;
      var init, last := entries[..n], entries[n];
      DailyIsSubsequence(init, dateKey);
      if i < n {
        KeptIffFirstOfDate(init, dateKey, i);
        assert IsFirstOfDate(entries, dateKey, i) <==> IsFirstOfDate(init, dateKey, i) by {
          forall j | 0 <= j <= i ensures entries[j] == init[j] { }
        }
      } else if i == n {
        UsableDatesMembers(init, dateKey, if IsUsable(last) then DateOf(last, dateKey) else "");
        if IsUsable(last) && DateOf(last, dateKey) !in UsableDates(init, dateKey) {
          forall j | 0 <= j < n && IsUsable(entries[j])
            ensures DateOf(entries[j], dateKey) != DateOf(last, dateKey)
          {
            assert entries[j] == init[j];
          }
        } else if IsUsable(last) {
          var j :| 0 <= j < n && IsUsable(init[j]) && DateOf(init[j], dateKey) == DateOf(last, dateKey);
          assert entries[j] == init[j];
        }
      }
    }
  }

  /** No two items of the list share a date. */
  lemma {:induction false} DailyDatesDistinct(entries: seq<Option<Item>>, dateKey: int -> string)
    ensures var daily := Daily(entries, dateKey);
      forall k, l :: 0 <= k < l < |daily| ==> DateOf(Some(daily[k]), dateKey) != DateOf(Some(daily[l]), dateKey)
    decreases |entries|
  {
    if entries != [] {
      var init := entries[..|entries| - 1];
      DailyDatesDistinct(init, dateKey);
      DailyDatesAreUsableDates(init, dateKey);
    }
  }

  /** The dates in the list are exactly the dates of the usable entries: every usable date
      appears, with no cap on how many. */
  lemma {:induction false} DailyDatesAreUsableDates(entries: seq<Option<Item>>, dateKey: int -> string)
    ensures var daily := Daily(entries, dateKey);
      (set k | 0 <= k < |daily| :: DateOf(Some(daily[k]), dateKey)) == UsableDates(entries, dateKey)
    decreases |entries|
  {
    if entries != [] {
      var init, last := entries[..|entries| - 1], entries[|entries| - 1];
      DailyDatesAreUsableDates(init, dateKey);
      UsableDatesSnoc(entries, dateKey);
      var before := Daily(init, dateKey);
      var daily := Daily(entries, dateKey);
      if IsUsable(last) && DateOf(last, dateKey) !in UsableDates(init, dateKey) {
        assert daily == before + [last.value];
        var now := set k | 0 <= k < |daily| :: DateOf(Some(daily[k]), dateKey);
        var was := set k | 0 <= k < |before| :: DateOf(Some(before[k]), dateKey);
        assert now == was + {DateOf(last, dateKey)} by {
          forall d | d in now ensures d in was + {DateOf(last, dateKey)} {
            var k :| 0 <= k < |daily| && DateOf(Some(daily[k]), dateKey) == d;
            if k < |before| { assert daily[k] == before[k]; }
          }
          forall k | 0 <= k < |before| ensures daily[k] == before[k] { }
          assert daily[|before|] == last.value;
        }
      }
    }
  }

  /** The list is as long as the number of distinct dates among the usable entries. */
  lemma DailyLength(entries: seq<Option<Item>>, dateKey: int -> string)
    ensures |Daily(entries, dateKey)| == |UsableDates(entries, dateKey)|
  {
    var daily := Daily(entries, dateKey);
    DailyDatesDistinct(entries, dateKey);
    DailyDatesAreUsableDates(entries, dateKey);
    DistinctDatesCount(daily, dateKey);
  }

  /** There is no cap of five: when every sample is usable and the dates are pairwise
      distinct, every sample is kept, however many there are. */
  lemma {:induction false} DistinctDatesAllKept(entries: seq<Option<Item>>, dateKey: int -> string)
    requires forall k :: 0 <= k < |entries| ==> IsUsable(entries[k])
    requires forall k, l :: 0 <= k < l < |entries| ==> DateOf(entries[k], dateKey) != DateOf(entries[l], dateKey)
    ensures |Daily(entries, dateKey)| == |entries|
    decreases |entries|
  {
    if entries != [] {
      var n := |entries| - 1;
      var init, last := entries[..n], entries[n];
      DistinctDatesAllKept(init, dateKey);
      UsableDatesMembers(init, dateKey, DateOf(last, dateKey));
      forall j | 0 <= j < n ensures init[j] == entries[j] { }
    }
  }

  /** The set of dates of a list of usable samples. */
  function DatesOfItems(items: seq<Item>, dateKey: int -> string): set<string>
    requires forall k :: 0 <= k < |items| ==> IsUsable(Some(items[k]))
  {
    set k | 0 <= k < |items| :: DateOf(Some(items[k]), dateKey)
  }

  lemma DatesOfItemsSnoc(items: seq<Item>, dateKey: int -> string)
    requires items != []
    requires forall k :: 0 <= k < |items| ==> IsUsable(Some(items[k]))
    ensures DatesOfItems(items, dateKey)
      == DatesOfItems(items[..|items| - 1], dateKey) + {DateOf(Some(items[|items| - 1]), dateKey)}
  {
  }

  lemma {:induction false} DistinctDatesCount(items: seq<Item>, dateKey: int -> string)
    requires forall k :: 0 <= k < |items| ==> IsUsable(Some(items[k]))
    requires forall k, l :: 0 <= k < l < |items| ==> DateOf(Some(items[k]), dateKey) != DateOf(Some(items[l]), dateKey)
    ensures |DatesOfItems(items, dateKey)| == |items|
    decreases |items|
  {
    if items != [] {
      var init := items[..|items| - 1];
      DistinctDatesCount(init, dateKey);
      DatesOfItemsSnoc(items, dateKey);
      var d := DateOf(Some(items[|items| - 1]), dateKey);
      forall k | 0 <= k < |init| ensures DateOf(Some(init[k]), dateKey) != d {
        assert init[k] == items[k];
      }
    }
  }

  /** The guard does not look at `weather`: every kept sample has its `main` object, so its card
      throws exactly when its `weather` array is missing or empty. */
  lemma KeptCardsRender(entries: seq<Option<Item>>, dateKey: int -> string)
    ensures var daily := Daily(entries, dateKey);
      forall k :: 0 <= k < |daily| ==> (ForecastCard.Render(daily[k]).Throws? <==> daily[k].conditions.None? || daily[k].conditions.value == [])
  {
  }

  /** The `forEach` of the component: walks the samples once, pushing each usable sample whose
      date is not yet in `uniqueDates`. */
  method DailyForecasts(forecast: seq<Option<Item>>, dateKey: int -> string) returns (daily: seq<Item>)
    ensures daily == Daily(forecast, dateKey)
  {
    daily := [];
    var uniqueDates: set<string> := {};
    for i := 0 to |forecast|
      invariant daily == Daily(forecast[..i], dateKey)
      invariant uniqueDates == UsableDates(forecast[..i], dateKey)
    {
      assert forecast[..i + 1][..i] == forecast[..i];
      UsableDatesSnoc(forecast[..i + 1], dateKey);
      var item := forecast[i];
      if IsUsable(item) {
        var dateString := dateKey(item.value.dt.value);
        if dateString !in uniqueDates {
          daily := daily + [item.value];
          uniqueDates := uniqueDates + {dateString};
          if |daily| >= 5 {
            // `return` here leaves only the callback: the walk goes on with the next sample
            continue;
          }
        }
      }
    }
    assert forecast[..|forecast|] == forecast;
  }

  /** The component: nothing (`None`) for a null or empty `forecast` prop or when no sample is
      usable, otherwise the cards of the kept samples. */
  method Render(forecast: Option<seq<Option<Item>>>, dateKey: int -> string) returns (cards: Option<seq<Item>>)
    ensures cards.None? <==> forecast.None? || UsableDates(forecast.value, dateKey) == {}
    ensures cards.Some? ==> cards.value == Daily(forecast.value, dateKey) && cards.value != []
  {
    if forecast.None? || |forecast.value| == 0 {
      return None;
    }
    var daily := DailyForecasts(forecast.value, dateKey);
    DailyLength(forecast.value, dateKey);
    if |daily| == 0 {
      return None;
    }
    return Some(daily);
  }
}
