/**
 The decisions of the chat bot's `/cuaca` handler in main.js that do not
 depend on Telegram: what it sends for a BMKG page, and the weather card it
 draws for a location (escaped name and status, icon, colour and the
 forecast strip).
 */
module Bot {
  import opened Wrappers
  import opened Text
  import opened Daily
  import opened WeatherCodes
  import opened Escaping
  import opened Scrape
  import opened Pipeline
  import opened Card

  datatype BmkgReply = SendPhoto(url: string) | ScreenshotUnavailable | TakeScreenshot

  /** After scraping a BMKG page: send the image, or fall back to a screenshot, which
      needs the headless browser. */
  function ReplyForPage(page: Page, puppeteerAvailable: bool): (r: BmkgReply)
    ensures r.SendPhoto? <==> ScrapedImage(Bot, page).Some?
    ensures r.SendPhoto? ==> r.url == Normalize(ScrapedImage(Bot, page).value) && !StartsWith(r.url, "/")
    ensures r.ScreenshotUnavailable? <==> ScrapedImage(Bot, page).None? && !puppeteerAvailable
  {
    match ImageUrl(Bot, page)
    case Some(url) => SendPhoto(url)
    case None => if puppeteerAvailable then TakeScreenshot else ScreenshotUnavailable
  }

  /** An image known only by an alt text mentioning a map */
  function MapOnlyByAlt(): Img {
    Img(None, None, None, None, None, Some("peta"))
  }

  /** It is a keyword candidate for both variants, without a URL to contribute. */
  lemma MapOnlyByAltIsCandidate(v: Variant)
    ensures IsCandidate(v, MapOnlyByAlt()) && CandidateUrl(v, MapOnlyByAlt()).None?
    ensures !IsRaster(MapOnlyByAlt())
  {
    var img := MapOnlyByAlt();
    assert Present(SourceAttrs(v, img)) == [];
    assert Haystack(v, img) == " peta";
    assert Lower(" peta") == " peta";
    assert Peta in Keywords(v);
    assert StartsWith(" peta"[1..], Spelling(Peta));
    assert ContainsIgnoringCase(Haystack(v, img), Spelling(Peta));
    MatchesAnyIffSome(Haystack(v, img), Keywords(v));
  }

  lemma RadarIsRaster()
    ensures IsRaster(Img(Some("/img/radar.png"), None, None, None, None, None))
  {
    assert Lower("/img/radar.png")[10..] == ".png";
  }

  function AltThenRadar(): Page {
    Page(None, None, None, [MapOnlyByAlt(), Img(Some("/img/radar.png"), None, None, None, None, None)])
  }

  /** The services stop at the first keyword match, which has no URL. */
  lemma ServiceGivesUp()
    ensures ImageUrl(Service, AltThenRadar()) == None
  {
    MapOnlyByAltIsCandidate(Service);
    assert KeywordImage(Service, AltThenRadar().imgs) == None;
  }

  /** The bot goes on to its extension fallback. */
  lemma BotFindsRadar()
    ensures ScrapedImage(Bot, AltThenRadar()) == Some("/img/radar.png")
  {
    MapOnlyByAltIsCandidate(Bot);
    RadarIsRaster();
    assert KeywordImage(Bot, AltThenRadar().imgs) == None;
  }

  lemma RadarNormalized()
    ensures Normalize("/img/radar.png") == "https://www.bmkg.go.id/img/radar.png"
  {
    assert !StartsWith("/img/radar.png", "//") by { assert "/img/radar.png"[1] == 'i'; }
  }

  /** Where the services give up on a first keyword match without a source attribute,
      the bot goes on to its extension fallback and sends the normalised URL. */
  lemma BotFallsBackWhereServiceGivesUp()
    ensures ImageUrl(Service, AltThenRadar()) == None
    ensures ReplyForPage(AltThenRadar(), false) == SendPhoto("https://www.bmkg.go.id/img/radar.png")
  {
    ServiceGivesUp();
    BotFindsRadar();
    RadarNormalized();
  }

  const StripDays := 5

  datatype Box = Box(icon: string, color: string)

  /** The forecast strip: `daysToShow = 5` boxes at most, one per entry of `daily.time`,
      drawn from the unsliced `daily` data. */
  function Strip(daily: Option<DailyMap>): (r: seq<Box>)
    ensures var d := daily.GetOr(map[]);
      && |r| == Min(StripDays, |SeriesAt(d, "time")|)
      && forall i | 0 <= i < |r| ::
        r[i] == Box(IconOf(CodeAt(SeriesAt(d, "weathercode"), i)), WeatherColor(CodeAt(SeriesAt(d, "weathercode"), i)))
  {
    var d := daily.GetOr(map[]);
    var codes := SeriesAt(d, "weathercode");
    var count := Min(StripDays, |SeriesAt(d, "time")|);
    seq(count, i requires 0 <= i < count => Box(IconOf(CodeAt(codes, i)), WeatherColor(CodeAt(codes, i))))
  }

  /** The bot's strip, drawn from the unsliced series, and the server's card, drawn from
      the sliced ones, show the same icon for every day both draw. */
  lemma {:induction false} StripAgreesWithCard(q: string, days: Option<int>, up: Upstream, i: nat)
    requires FetchWeatherData(q, days, up).OpenMeteo?
    requires i < |Strip(up.forecast.value.daily)|
    requires i < |BuildCard(FetchWeatherData(q, days, up), days).items|
    ensures Strip(up.forecast.value.daily)[i].icon == BuildCard(FetchWeatherData(q, days, up), days).items[i]
  {
    var data := FetchWeatherData(q, days, up);
    var raw := up.forecast.value.daily.GetOr(map[]);
    assert data.daily == SliceDaily(raw, Horizon(days));
    SeriesAfterSlice(raw, "time", Horizon(days));
    SeriesAfterSlice(raw, "weathercode", Horizon(days));
    assert i < Horizon(days);
    assert CodeAt(SeriesAt(data.daily, "weathercode"), i) == CodeAt(SeriesAt(raw, "weathercode"), i);
  }

  datatype WeatherCard = WeatherCard(location: string, status: string, icon: string, color: string, strip: seq<Box>)

  /** The card the bot renders for a location */
  function CardFor(place: Place, current: Current, daily: Option<DailyMap>): (c: WeatherCard)
    ensures Unescape(c.location) == place.displayName
    ensures '<' !in c.location && '>' !in c.location && '"' !in c.location
    ensures Unescape(c.status) == Describe(current.weathercode)
    ensures c.icon == IconOf(current.weathercode) && c.color == WeatherColor(current.weathercode)
    ensures |c.strip| <= StripDays
    ensures c.strip == Strip(daily)
  {
    WeatherCard(BotEscapeHtml(Some(place.displayName)), BotEscapeHtml(Some(Describe(current.weathercode))),
                IconOf(current.weathercode), WeatherColor(current.weathercode), Strip(daily))
  }

  /** "Jakarta" with current code 0 is a location query whose card reads "Cerah" under
      the clear-sky icon. */
  lemma JakartaScenario(place: Place, daily: Option<DailyMap>, up: Upstream)
    requires up.geocode == Some([place])
    requires up.forecast == Some(Forecast(Some(Current(30, 5, 90, Some(0))), daily))
    ensures FetchWeatherData("Jakarta", Some(5), up).OpenMeteo?
    ensures var c := CardFor(place, Current(30, 5, 90, Some(0)), daily);
      Unescape(c.status) == "Cerah" && c.icon == "01d"
  {
    assert Lower("Jakarta")[0] == 'j';
    StartsWithHead(Lower("Jakarta"), "http://");
    StartsWithHead(Lower("Jakarta"), "https://");
  }
}
