/**
 What `buildCardHtml` in server.js decides: the escaped location, the main icon
 and the icon of each forecast item. Dates, temperatures and the CSS/template
 text are presentation and are not modelled.
 */
module Card {
  import opened Wrappers
  import opened Daily
  import opened WeatherCodes
  import opened Escaping
  import opened Pipeline

  datatype Card = Card(location: string, icon: string, items: seq<string>)

  /** `Math.max(1, Number(days) || 5)`: unlike the horizon there is no upper cap. */
  function CardDays(days: Option<int>): (r: int)
    ensures r >= Horizon(days)
    ensures days.None? || days == Some(0) ==> r == DefaultDays
    ensures days.Some? && days.value >= 1 ==> r == days.value
    ensures days.Some? && days.value < 0 ==> r == 1
  {
    Max(1, if days.Some? && days.value != 0 then days.value else DefaultDays)
  }

  /** `data.daily || {}` */
  function DailyOf(data: WeatherData): DailyMap {
    if data.OpenMeteo? then data.daily else map[]
  }

  /** `buildCardHtml(data, days)`; a result without a forecast (an `error` result) reads
      as no place, no current conditions and no daily data. */
  function BuildCard(data: WeatherData, days: Option<int>): (c: Card)
    ensures |c.items| == Min(|SeriesAt(DailyOf(data), "time")|, CardDays(days))
    ensures forall i | 0 <= i < |c.items| ::
      c.items[i] == IconOf(CodeAt(SeriesAt(DailyOf(data), "weathercode"), i))
    ensures c.icon == IconOf(if data.OpenMeteo? then data.current.weathercode else None)
    ensures '<' !in c.location && '>' !in c.location
    ensures Unescape(c.location) == (if data.OpenMeteo? then data.place else "")
  {
    var daily := DailyOf(data);
    var codes := SeriesAt(daily, "weathercode");
    var count := Min(|SeriesAt(daily, "time")|, CardDays(days));
    var current := if data.OpenMeteo? then data.current.weathercode else None;
    Card(ServerEscapeHtml(if data.OpenMeteo? then Some(data.place) else None),
         IconOf(current),
         seq(count, i requires 0 <= i < count => IconOf(CodeAt(codes, i))))
  }

  /** A day or a current reading without a code is drawn with the clear-sky icon, as code 0. */
  lemma MissingCodeDrawnAsZero(data: WeatherData, days: Option<int>, i: int)
    requires 0 <= i < |BuildCard(data, days).items|
    requires CodeAt(SeriesAt(DailyOf(data), "weathercode"), i).None?
    ensures BuildCard(data, days).items[i] == Icon(0) == "01d"
  {
  }

  /** On a result of the pipeline the card shows every day of the horizon the data
      holds: the uncapped item count never cuts the already sliced series further. */
  lemma {:induction false} CardCoversHorizon(q: string, days: Option<int>, up: Upstream)
    requires FetchWeatherData(q, days, up).OpenMeteo?
    ensures var raw := up.forecast.value.daily.GetOr(map[]);
      |BuildCard(FetchWeatherData(q, days, up), days).items| == Min(|SeriesAt(raw, "time")|, Horizon(days))
  {
    var data := FetchWeatherData(q, days, up);
    var raw := up.forecast.value.daily.GetOr(map[]);
    SeriesAfterSlice(raw, "time", Horizon(days));
    assert |SeriesAt(data.daily, "time")| == Min(|SeriesAt(raw, "time")|, Horizon(days));
  }

  /** A result without a forecast gives an empty card with the clear-sky icon. */
  lemma ErrorCardIsEmpty(data: WeatherData, days: Option<int>)
    requires !data.OpenMeteo?
    ensures BuildCard(data, days) == Card("", "01d", [])
  {
  }
}
