/**
 `fetchWeatherData(q, days)`, whose server.js and index.js copies are identical.
 The three outbound requests are replaced by their responses, passed in as
 `Upstream`; a response of `None` is a request that threw.
 */
module Pipeline {
  import opened Wrappers
  import opened Text
  import opened Scrape
  import opened Daily

  /** A geocoder hit: `display_name`, `lat`, `lon`, the coordinates kept as strings */
  datatype Place = Place(displayName: string, lat: string, lon: string)

  /** Open-Meteo's `current_weather` object */
  datatype Current = Current(temperature: int, windspeed: int, winddirection: int, weathercode: Option<int>)

  /** The Open-Meteo response body: `current_weather` and `daily` may each be missing. */
  datatype Forecast = Forecast(current: Option<Current>, daily: Option<DailyMap>)

  /** What each outbound request answers; `None` is a request that threw (network error,
      non-2xx status). A missing response body reads as an empty hit list or a forecast
      without `current_weather`. */
  datatype Upstream = Upstream(page: Option<Page>, geocode: Option<seq<Place>>, forecast: Option<Forecast>,
                               imageFetch: bool)

  /** The value `fetchWeatherData` resolves to, or the exception it throws */
  datatype WeatherData =
    | Threw(detail: string)
    | Bmkg(imageUrl: Option<string>, message: Option<string>)
    | Failure(error: string)
    | OpenMeteo(place: string, lat: string, lon: string, current: Current, daily: DailyMap)

  const QRequired := "q required"
  const RequestFailed := "request failed"
  const NoImageFound := "no-image-found"
  const LocationNotFound := "location not found"
  const WeatherFailed := "failed to get weather"

  const BmkgHost := "bmkg.go.id"

  /** `/^https?:\/\//i.test(q)` */
  predicate HasHttpScheme(q: string): (b: bool)
    ensures b <==> (|q| >= 7 && Lower(q[..4]) == "http" &&
                    (q[4..7] == "://" || (|q| >= 8 && LowerChar(q[4]) == 's' && q[5..8] == "://")))
  {
    SchemeShape(q);
    SecureSchemeShape(q);
    StartsWith(Lower(q), "http://") || StartsWith(Lower(q), "https://")
  }

  /** A character that is not an ASCII letter is only ever folded from itself. */
  lemma FoldsOnlyFromItself(c: char, d: char)
    requires !('a' <= d <= 'z') && !('A' <= d <= 'Z')
    ensures LowerChar(c) == d <==> c == d
  {
    if 'A' <= c <= 'Z' {
      assert LowerChar(c) as int == c as int + 32;
      assert 'a' <= LowerChar(c) <= 'z';
    }
  }

  /** `Lower(q)` starts with `p` exactly when q's first |p| characters fold onto it. */
  lemma LowerStartsWith(q: string, p: string)
    ensures StartsWith(Lower(q), p) <==> |p| <= |q| && Lower(q[..|p|]) == p
  {
    if |p| <= |q| {
      assert Lower(q)[..|p|] == Lower(q[..|p|]);
    }
  }

  lemma PunctuationAsWritten(q: string, from: nat)
    requires from + 3 <= |q|
    ensures Lower(q[from..from + 3]) == "://" <==> q[from..from + 3] == "://"
  {
    FoldsOnlyFromItself(q[from], ':');
    FoldsOnlyFromItself(q[from + 1], '/');
    FoldsOnlyFromItself(q[from + 2], '/');
    assert Lower(q[from..from + 3]) == [LowerChar(q[from]), LowerChar(q[from + 1]), LowerChar(q[from + 2])];
  }

  lemma ConcatEquals(a: string, b: string, x: string, y: string)
    requires |a| == |x|
    ensures a + b == x + y <==> a == x && b == y
  {
    if a + b == x + y {
      assert a == (a + b)[..|a|] && x == (x + y)[..|a|];
      assert b == (a + b)[|a|..] && y == (x + y)[|a|..];
    }
  }

  /** Only ASCII letters fold, so the `://` of the scheme must be there as written. */
  lemma SchemeShape(q: string)
    ensures StartsWith(Lower(q), "http://") <==> |q| >= 7 && Lower(q[..4]) == "http" && q[4..7] == "://"
  {
    LowerStartsWith(q, "http://");
    if |q| >= 7 {
      assert q[..7] == q[..4] + q[4..7];
      LowerConcat(q[..4], q[4..7]);
      assert "http://" == "http" + "://";
      ConcatEquals(Lower(q[..4]), Lower(q[4..7]), "http", "://");
      PunctuationAsWritten(q, 4);
    }
  }

  lemma SecureSchemeShape(q: string)
    ensures StartsWith(Lower(q), "https://") <==>
      |q| >= 8 && Lower(q[..4]) == "http" && LowerChar(q[4]) == 's' && q[5..8] == "://"
  {
    LowerStartsWith(q, "https://");
    if |q| >= 8 {
      SecurePrefix(q);
      assert "https://" == "http" + ['s'] + "://";
      ConcatEquals(Lower(q[..4]) + [LowerChar(q[4])], Lower(q[5..8]), "http" + ['s'], "://");
      ConcatEquals(Lower(q[..4]), [LowerChar(q[4])], "http", ['s']);
      PunctuationAsWritten(q, 5);
    }
  }

  lemma SecurePrefix(q: string)
    requires |q| >= 8
    ensures Lower(q[..8]) == Lower(q[..4]) + [LowerChar(q[4])] + Lower(q[5..8])
  {
    assert q[..8] == q[..5] + q[5..8];
    assert q[..5] == q[..4] + q[4..5];
    LowerConcat(q[..5], q[5..8]);
    LowerConcat(q[..4], q[4..5]);
  }

  /** The dispatch test of all three copies: an http(s) URL, scheme in any case,
      containing the BMKG host in lower case */
  predicate IsBmkgUrl(q: string): (b: bool)
    ensures b <==> HasHttpScheme(q) && exists i :: OccursAt(q, BmkgHost, i)
  {
    var hasHost := Contains(q, BmkgHost);
    ContainsIffOccurs(q, BmkgHost);
    assert hasHost <==> exists i :: OccursAt(q, BmkgHost, i);
    HasHttpScheme(q) && hasHost
  }

  /** The BMKG branch: scrape, normalise, and report `no-image-found` when nothing matched */
  function BmkgResult(page: Page): (r: WeatherData)
    ensures r.Bmkg?
    ensures r.imageUrl.None? <==> r.message == Some(NoImageFound)
    ensures r.imageUrl == ImageUrl(Service, page)
  {
    match ImageUrl(Service, page)
    case Some(url) => Bmkg(Some(url), None)
    case None => Bmkg(None, Some(NoImageFound))
  }

  /** The location branch: geocode, fetch the forecast, slice the daily series */
  function ForecastResult(geocode: Option<seq<Place>>, forecast: Option<Forecast>, days: Option<int>): (r: WeatherData)
    ensures !r.Bmkg?
    ensures r == Failure(LocationNotFound) <==> geocode == Some([])
    ensures r.OpenMeteo? <==>
      geocode.Some? && geocode.value != [] && forecast.Some? && forecast.value.current.Some?
    ensures r.OpenMeteo? ==>
      && r.place == geocode.value[0].displayName
      && r.lat == geocode.value[0].lat && r.lon == geocode.value[0].lon
      && r.current == forecast.value.current.value
      && r.daily == SliceDaily(forecast.value.daily.GetOr(map[]), Horizon(days))
    ensures r.Failure? ==> r.error == LocationNotFound || r.error == WeatherFailed
    ensures geocode.Some? && geocode.value != [] && forecast.Some? && forecast.value.current.None? ==>
      r == Failure(WeatherFailed)
    ensures geocode.None? || (geocode.value != [] && forecast.None?) ==> r == Threw(RequestFailed)
  {
    match geocode
    case None => Threw(RequestFailed)
    case Some(hits) =>
      if |hits| == 0 then Failure(LocationNotFound)
      else
        var place := hits[0];
        match forecast
        case None => Threw(RequestFailed)
        case Some(response) =>
          if response.current.None? then Failure(WeatherFailed)
          else
            var limit := Horizon(days);
            OpenMeteo(place.displayName, place.lat, place.lon, response.current.value,
                      SliceDaily(response.daily.GetOr(map[]), limit))
  }

  /** `fetchWeatherData(q, days)` */
  function FetchWeatherData(q: string, days: Option<int>, up: Upstream): (r: WeatherData)
    ensures q == "" ==> r == Threw(QRequired)
    ensures q != "" && IsBmkgUrl(q) ==> r.Bmkg? || r == Threw(RequestFailed)
    ensures r.Bmkg? <==> q != "" && IsBmkgUrl(q) && up.page.Some?
    ensures r.Bmkg? ==> r == BmkgResult(up.page.value)
    ensures q != "" && !IsBmkgUrl(q) ==> r == ForecastResult(up.geocode, up.forecast, days)
    ensures r.Failure? ==> r.error == LocationNotFound || r.error == WeatherFailed
    ensures r.OpenMeteo? ==> forall k | k in r.daily && r.daily[k].Series? :: |r.daily[k].items| <= Horizon(days)
  {
    if q == "" then Threw(QRequired)
    else if IsBmkgUrl(q) then
      match up.page
      case None => Threw(RequestFailed)
      case Some(page) => BmkgResult(page)
    else
      ForecastResult(up.geocode, up.forecast, days)
  }

  /** The BMKG branch never consults the geocoder or the forecast API, nor the horizon. */
  lemma BmkgNeverGeocodes(q: string, days1: Option<int>, days2: Option<int>, up1: Upstream, up2: Upstream)
    requires IsBmkgUrl(q) && up1.page == up2.page
    ensures FetchWeatherData(q, days1, up1) == FetchWeatherData(q, days2, up2)
  {
  }

  /** Any other query never fetches or scrapes a page. */
  lemma LocationNeverScrapes(q: string, days: Option<int>, up1: Upstream, up2: Upstream)
    requires !IsBmkgUrl(q)
    requires up1.geocode == up2.geocode && up1.forecast == up2.forecast
    ensures FetchWeatherData(q, days, up1) == FetchWeatherData(q, days, up2)
  {
  }

  /** An empty query is refused before any request. */
  lemma EmptyQueryRefused(days: Option<int>, up: Upstream)
    ensures FetchWeatherData("", days, up) == Threw(QRequired)
  {
  }

  /** The scheme is matched in any case. */
  lemma UpperCaseSchemeDispatches()
    ensures IsBmkgUrl("HTTPS://www.bmkg.go.id/x")
  {
    var a := "HTTPS://www.bmkg.go.id/x";
    assert Lower(a)[..8] == "https://";
    assert a[12..22] == BmkgHost;
    ContainsIffOccurs(a, BmkgHost);
    assert OccursAt(a, BmkgHost, 12);
  }

  /** Without a scheme the query is a location, even if it names the host. */
  lemma BareHostIsLocation()
    ensures !IsBmkgUrl("www.bmkg.go.id")
  {
    var b := "www.bmkg.go.id";
    assert Lower(b)[0] == 'w';
    StartsWithHead(Lower(b), "http://");
    StartsWithHead(Lower(b), "https://");
  }

  /** The host is matched case-sensitively. */
  lemma UpperCaseHostIsLocation()
    ensures !IsBmkgUrl("https://WWW.BMKG.GO.ID")
  {
    var c := "https://WWW.BMKG.GO.ID";
    assert 'b' !in c;
    ContainsNeedsHead(c, BmkgHost);
  }
}
