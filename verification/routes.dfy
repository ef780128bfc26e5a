/**
 The HTTP handlers `/api/cuaca` and `/api/card` reduced to the reply they
 choose. `/api/cuaca` is the same in server.js and index.js; `/api/card`
 differs by deployment: server.js renders the card when the headless browser
 can be loaded, index.js (the serverless build) always answers 501 for a
 forecast.
 */
module Routes {
  import opened Wrappers
  import opened Pipeline
  import opened Card

  datatype Reply =
    | Json(data: WeatherData)
    | ErrorJson(status: int, error: string)
    | ProxiedImage(url: string)
    | RenderedCard(card: Card)
    | NotImplemented(reason: string, attached: Option<WeatherData>)

  function Status(r: Reply): int {
    match r
    case Json(_) => 200
    case ErrorJson(status, _) => status
    case ProxiedImage(_) => 200
    case RenderedCard(_) => 200
    case NotImplemented(_, _) => 501
  }

  const QParamRequired := "q parameter required"
  const InternalError := "internal error"
  const NoBmkgImage := "no-bmkg-image"
  const RendererNotInstalled := "puppeteer-not-installed"
  const RendererNotAvailable := "puppeteer-not-available"

  /** `!req.query.q` */
  predicate Missing(q: Option<string>) {
    q.None? || q.value == ""
  }

  /** `/api/cuaca?q=..&days=..`; `days` is `req.query.days || 5` and reads as the horizon's input */
  function CuacaReply(q: Option<string>, days: Option<int>, up: Upstream): (r: Reply)
    ensures Status(r) in {200, 400, 500}
    ensures Status(r) == 400 <==> Missing(q)
    ensures !Missing(q) ==> var data := FetchWeatherData(q.value, days, up);
      && (Status(r) == 500 <==> data.Threw? || data.Failure?)
      && (data.Failure? ==> r == ErrorJson(500, data.error))
      && (Status(r) == 200 ==> r == Json(data) && (data.Bmkg? || data.OpenMeteo?))
  {
    if Missing(q) then ErrorJson(400, QParamRequired)
    else
      var data := FetchWeatherData(q.value, days, up);
      match data
      case Threw(_) => ErrorJson(500, InternalError)
      case Failure(error) => ErrorJson(500, error)
      case _ => Json(data)
  }

  /** Where `/api/card` runs: server.js, with or without a loadable (and working)
      headless browser, or the serverless index.js */
  datatype Deployment = Server(rendererInstalled: bool, renderSucceeds: bool) | Serverless

  /** `/api/card?q=..&days=..` */
  function CardReply(dep: Deployment, q: Option<string>, days: Option<int>, up: Upstream): (r: Reply)
    ensures Status(r) in {200, 400, 404, 500, 501}
    ensures Status(r) == 400 <==> Missing(q)
    ensures !Missing(q) ==> var data := FetchWeatherData(q.value, days, up);
      && (Status(r) == 404 <==> data.Bmkg? && data.imageUrl.None?)
      && (r.ProxiedImage? <==> data.Bmkg? && data.imageUrl.Some? && up.imageFetch)
      && (r.ProxiedImage? ==> Some(r.url) == data.imageUrl)
      && (Status(r) == 501 <==> !data.Threw? && !data.Bmkg? &&
                                 (dep.Serverless? || !dep.rendererInstalled))
      && (r.RenderedCard? ==> r.card == BuildCard(data, days))
      && (data.Threw? ==> r == ErrorJson(500, InternalError))
      && (data.Bmkg? && data.imageUrl.Some? && !up.imageFetch ==> r == ErrorJson(500, InternalError))
      && (!data.Threw? && !data.Bmkg? && dep.Server? && dep.rendererInstalled ==>
            r == (if dep.renderSucceeds then RenderedCard(BuildCard(data, days))
                  else ErrorJson(500, InternalError)))
  {
    if Missing(q) then ErrorJson(400, QParamRequired)
    else
      var data := FetchWeatherData(q.value, days, up);
      if data.Threw? then ErrorJson(500, InternalError)
      else if data.Bmkg? then
        match data.imageUrl
        case Some(url) => if up.imageFetch then ProxiedImage(url) else ErrorJson(500, InternalError)
        case None => ErrorJson(404, NoBmkgImage)
      else
        match dep
        case Serverless => NotImplemented(RendererNotAvailable, Some(data))
        case Server(installed, succeeds) =>
          var card := BuildCard(data, days);
          if !installed then NotImplemented(RendererNotInstalled, None)
          else if succeeds then RenderedCard(card)
          else ErrorJson(500, InternalError)
  }

  /** The serverless build answers every forecast with 501 and the data attached,
      whatever horizon was asked for. */
  lemma ServerlessForecastIs501(q: Option<string>, days: Option<int>, up: Upstream)
    requires !Missing(q) && FetchWeatherData(q.value, days, up).OpenMeteo?
    ensures CardReply(Serverless, q, days, up) ==
      NotImplemented(RendererNotAvailable, Some(FetchWeatherData(q.value, days, up)))
  {
  }

  /** The card route does not look at `error`: with a working renderer, a location that
      is not found still yields a 200 card, an empty one. */
  lemma NotFoundStillRendersCard(q: string, days: Option<int>, up: Upstream)
    requires q != "" && !IsBmkgUrl(q) && up.geocode == Some([])
    ensures CardReply(Server(true, true), Some(q), days, up) == RenderedCard(Card("", "01d", []))
    ensures Status(CuacaReply(Some(q), days, up)) == 500
  {
    ErrorCardIsEmpty(FetchWeatherData(q, days, up), days);
  }
}
