# Cuaca-Bot decision logic in Dafny

Cuaca-Bot answers weather questions for Indonesian places in two ways. A
Telegram bot (`main.js`) handles `/cuaca <place or BMKG URL>`. Two HTTP services
expose `/api/cuaca` and `/api/card`: an Express server (`server.js`) and its
serverless copy (`index.js`).

A query that starts with `http://` or `https://` (in any case) and contains
`bmkg.go.id` anywhere, case-sensitively, is taken as a page of BMKG (Indonesia's
meteorological agency) and is answered by scraping that page for a weather
image. The host test is a substring test, so `https://example.com/?r=bmkg.go.id`
is scraped too, while `https://WWW.BMKG.GO.ID` is treated as a place. Any other query
is treated as a place. It is geocoded with Nominatim, its forecast is fetched
from Open-Meteo, and the result is shown as JSON or as a rendered weather card.

This project models the pure decisions inside that plumbing:

- the Open-Meteo weather-code tables: description, icon and colour;
- the two HTML escapers;
- the BMKG dispatch test, the "first match wins" image heuristic in its bot and
  service variants, and the URL normalisation;
- the forecast horizon clamp and the per-key truncation of the `daily` series;
- the outcome of `fetchWeatherData`;
- the replies of the two routes;
- what the server's card and the bot's card show.

Every outbound request is replaced by its response, passed in as a parameter.
`fetchWeatherData` and `/api/cuaca` are textually the same in `server.js` and
`index.js`, so they are modelled once. `/api/card` differs between the two and
is modelled per `Deployment`.

Modules:

- `Wrappers` is `Option`.
- `Text` holds `startsWith`, `includes`, `join` and ASCII case folding.
- `WeatherCodes` holds the three code tables.
- `Escaping` holds both escapers and their inverse.
- `Scrape` holds the page record and the image chain.
- `Daily` holds the horizon and the slicing.
- `Pipeline` holds `fetchWeatherData`.
- `Card` holds `buildCardHtml`.
- `Routes` holds the two HTTP handlers.
- `Bot` holds the bot's BMKG reply and its card.

`Number(days) || 5` treats 0 like a missing value, so a `days` of 0 gives the
default 5 (`Daily.Horizon`).

Some behaviours are kept exactly as written:

- `/api/card` in `server.js` does not look at `data.error`. A place that is not
  found still yields a 200 card, an empty one (`Routes.NotFoundStillRendersCard`).
- The bot's keyword candidate is the first non-empty value of all five
  attributes, `srcset` included, because its `attrs` array is already filtered
  (`Scrape.CandidateUrl`).
- The check for codes 61, 63 and 65 on `main.js:85` can never change the colour
  (`WeatherCodes.RainColorBand`).

## Model

| member | source | states |
|---|---|---|
| WeatherCodes.Describe | main.js:25-55 | The description is never empty. It is "Tidak diketahui" exactly when the code is absent or not one of the 25 table codes; otherwise it is that code's label. |
| WeatherCodes.Icon | main.js:57-71 | Every integer code gets one of the nine icon ids. |
| WeatherCodes.IconOf | server.js:161-165 | An absent code gets the icon of code 0, the clear-sky "01d"; every result is one of the nine ids. |
| WeatherCodes.DrizzleAndShowersShareIcon | main.js:65-68 | A code gets "09d" if and only if it is drizzle (51-57) or rain showers (80-82). |
| WeatherCodes.UncoveredCodesFallBack | main.js:60-70 | Codes between the bands (58-60, 68-70, 76-79, 83-94) and outside 0-99 fall back to "01d". |
| WeatherCodes.DescribedCodesHaveIcons | main.js:60-70 | Every described code other than 0 gets an icon other than the fallback "01d". |
| WeatherCodes.WeatherColor | main.js:80-91 | The colour is one of the six listed colours; an absent code gets the default dark colour. |
| WeatherCodes.ZeroIsNotAbsent | main.js:83-86 | Code 0 gets the clear orange, while an absent code gets the default colour. |
| WeatherCodes.RainColorBand | main.js:84-85 | The rain blue is given exactly to 51-67 and 80-82. The single-code test on line 85 adds nothing. |
| WeatherCodes.SnowHasDefaultColor | main.js:84-90 | Snow codes 71-75 get the default colour. |
| Escaping.Entity | main.js:75-77 | A replaced character yields no raw `<` or `>`, and no raw `"` unless the variant keeps quotes. Any other character is copied unchanged. |
| Escaping.EscapeText | main.js:75-77 | The output has no raw `<` or `>`, and no raw `"` in the quoting variant. It is never shorter than the input, and equals the input exactly when no special character occurs. |
| Escaping.UnescapeEscape | main.js:73-78 | Decoding the four entities inverts escaping, in both variants. |
| Escaping.BotEscapeHtml | main.js:73-78 | Absent or empty input gives "" and nothing else does. The output has no raw `<`, `>` or `"`, and unescapes to the input. |
| Escaping.ServerEscapeHtml | server.js:191 | Absent or empty input gives "". The output has no raw `<` or `>`, unescapes to the input, and keeps every `"`. |
| Escaping.ServerKeepsQuotes | server.js:191 | Escaping without quotes preserves the number of `"` characters. |
| Escaping.EscapesMarkup | server.js:183 | A place name wrapped in tags shows the tags as text and the name unchanged. |
| Escaping.QuoteHandling | main.js:75-76 | The bot escapes `"` as `&quot;`; the server variant leaves it as is. |
| Text.ContainsAcrossSpace | main.js:134 | A keyword without spaces occurs in `a + " " + b` exactly when it occurs in a or in b. |
| Text.JoinContains | main.js:132-134 | A keyword occurs, ignoring case, in the space-joined attributes exactly when it occurs in one of them. |
| Scrape.FirstTruthy | server.js:26 | The `||` chain yields no value exactly when every entry is absent or empty. Otherwise it yields the first non-empty entry. |
| Scrape.Present | main.js:132 | The filtered list has only non-empty values. It is empty exactly when the `||` chain has no value, and it starts with that chain's value. |
| Scrape.PresentMembers | main.js:132 | The filtered list holds exactly the values of the non-empty entries. |
| Scrape.FirstIndex | main.js:143 | The index found satisfies the test and no earlier element does; no index means no element does. |
| Scrape.MetaImage | main.js:122-124 | `og:image` wins, then `twitter:image`, then `image_src`. With none of them non-empty there is no value. |
| Scrape.Haystack | main.js:132-134 | The tested text ends with a space and the alt text. It is just that when no attribute is non-empty, and otherwise it starts with the first non-empty attribute. |
| Scrape.IsCandidate | server.js:24-26 | An image is a candidate exactly when one of its variant's keywords occurs, ignoring case, in its haystack. |
| Scrape.CandidateUrl | main.js:136 | The pushed URL is non-empty when present. For the services it is the first non-empty of `src`, `data-src` and `data-original`; for the bot it is the first element of the filtered five-attribute list, or none when that list is empty. |
| Scrape.MatchesAnyIffSome | main.js:135 | The alternation matches exactly when one of its keywords occurs in the text, ignoring case. |
| Scrape.FirstCandidate | server.js:22-28 | The index found is a candidate with no candidate before it; no index means no image is a candidate. |
| Scrape.KeywordImage | server.js:20-29 | With no candidate there is no URL, and any URL found is non-empty. |
| Scrape.KeywordImageIsFirst | server.js:26-28 | The first candidate decides: its URL is the result, and the result is absent if that image has no source attribute. Later images are not looked at. |
| Scrape.KeywordIsWord | main.js:135 | No keyword is empty or contains a space. |
| Scrape.HaystackMatch | main.js:132-135 | A keyword matches the joined haystack exactly when it matches one non-empty attribute or the alt text, so the separators create no match. |
| Scrape.CandidateIffMentions | server.js:24-26 | An image is a candidate exactly when some keyword appears, ignoring case, in one of its attributes or its alt text. |
| Scrape.BotAcceptsServiceCandidates | main.js:132-135 | Every image the services accept as a candidate, the bot accepts too. |
| Scrape.SrcsetSeenByBot | main.js:132-136 | An image whose only keyword is in `srcset` is a bot candidate, and contributes its `srcset` value. |
| Scrape.SrcsetIgnoredByService | server.js:24-26 | The same image is not a candidate for the services. |
| Scrape.HasRasterExtension | main.js:143 | A URL that passes the extension test has at least four characters and a `.` four or five characters from its end. |
| Scrape.RasterExtensionIgnoresCase | main.js:143 | Lower-casing a URL first does not change the extension test, as the `i` flag promises. |
| Scrape.IsRaster | main.js:143 | An image passing the fallback test has a non-empty `src`, `data-src` or `data-original`, and its source URL is non-empty. |
| Scrape.RasterImage | main.js:141-145 | The bot's fallback yields the source URL of the first image whose URL ends in .png, .jpg, .jpeg or .gif in any case. Without one it yields nothing. |
| Scrape.ScrapedImage | main.js:122-145 | A meta value wins. Otherwise the keyword step's URL is used. If the bot's keyword step yields none, its extension fallback is used; the services stop there. |
| Scrape.ScrapedImageProvenance | server.js:18-28 | A scraped URL is always a meta/link value or an attribute of some `img`. |
| Scrape.Normalize | main.js:190-191 | `//x` becomes `https://x` and `/x` becomes the BMKG origin plus `/x`. Anything else is unchanged, and the result never starts with `/`. |
| Scrape.NormalizeIdempotent | server.js:31-32 | Normalising twice is normalising once. |
| Scrape.ImageUrl | server.js:30-33 | A URL exists exactly when the chain found one; it is non-empty and not site-relative. |
| Daily.Horizon | server.js:60 | The limit is always in 1..14. Absent or 0 gives 5, 1..14 is kept, above 14 gives 14, and negative gives 1. |
| Daily.Truncate | server.js:63-64 | An array field becomes its prefix of length min(length, limit); any other field is unchanged. |
| Daily.SliceDaily | server.js:61-65 | The key set is preserved and every field is truncated. |
| Daily.SliceKeepsAlignment | server.js:59-65 | Arrays of equal length n all become the first min(n, limit) elements; non-arrays are unchanged. |
| Daily.SliceTwice | index.js:57-64 | Slicing to a and then to b is slicing to min(a, b). |
| Daily.SliceIdempotent | index.js:57-64 | Slicing again to the same limit changes nothing. |
| Daily.SeriesAfterSlice | server.js:63 | A series read after slicing is the prefix of length min(length, limit) of the series read before. |
| Pipeline.HasHttpScheme | main.js:116 | The query has a scheme exactly when it starts with "http" in any case followed by "://", or by an `s` in any case and "://". |
| Pipeline.SchemeShape | main.js:116 | The lower-cased query starts with "http://" exactly when its first four characters fold to "http" and the `://` after them is present as written, because only letters fold. |
| Pipeline.SecureSchemeShape | main.js:116 | The lower-cased query starts with "https://" exactly when its first four characters fold to "http", the fifth folds to `s`, and the `://` is present as written. |
| Pipeline.IsBmkgUrl | server.js:15 | The BMKG branch is taken exactly when the query has an http(s) scheme and "bmkg.go.id" occurs in it at some position, case-sensitively. |
| Pipeline.BmkgResult | server.js:30-35 | The BMKG result carries the normalised scraped URL, or no URL together with "no-image-found". |
| Pipeline.ForecastResult | server.js:38-73 | Zero hits give "location not found". The result is a forecast exactly when there are hits and `current_weather`; it then carries the first hit and the daily data sliced to the horizon. Hits without `current_weather` give "failed to get weather", and these two are the only failures. A failed geocode request, or a failed forecast request after a hit, throws. |
| Pipeline.FetchWeatherData | server.js:12-74 | An empty query throws before any request. The result is a BMKG result exactly when the query is a BMKG URL and the page was fetched. Any other non-empty query gets the location branch's result. Error results are one of the two messages, and no forecast array exceeds the horizon. |
| Pipeline.BmkgNeverGeocodes | server.js:15-36 | For a BMKG URL the outcome depends only on the page, not on the geocoder, the forecast or `days`. |
| Pipeline.LocationNeverScrapes | server.js:38-56 | For any other query the outcome does not depend on the page. |
| Pipeline.EmptyQueryRefused | index.js:12 | An empty query is refused with "q required". |
| Pipeline.UpperCaseSchemeDispatches | main.js:116 | The scheme is matched in any case. |
| Pipeline.BareHostIsLocation | server.js:15 | Naming the host without a scheme is a place query. |
| Pipeline.UpperCaseHostIsLocation | index.js:14 | The host is matched case-sensitively. |
| Card.CardDays | server.js:143 | The card's day count is at least the horizon: absent or 0 gives 5, a positive n is kept with no cap, and a negative n gives 1. |
| Card.BuildCard | server.js:136-165 | The card has min(number of dates, day count) items, item i shows the icon of day i's code, the main icon is the current code's, and the location is escaped and unescapes to the place. |
| Card.MissingCodeDrawnAsZero | server.js:161 | A day without a code is drawn with the icon of code 0. |
| Card.CardCoversHorizon | server.js:143 | On a pipeline result the card has exactly min(number of fetched dates, horizon) items. |
| Card.ErrorCardIsEmpty | server.js:137-142 | A result without a forecast gives an empty card with the clear-sky icon. |
| Routes.CuacaReply | server.js:76-87 | A missing `q` gives 400 and nothing else does. An exception or an `error` result gives 500, with the result's message for the latter. Otherwise the reply is 200 with the data. |
| Routes.CardReply | server.js:90-134 | A missing `q` gives 400. A BMKG result gives 404 exactly when it has no URL, and is proxied when the image fetch succeeds. A forecast gives 501 exactly when no renderer can be loaded; a rendered card is the built card. A pipeline exception gives 500, and so does a failed image fetch. On the server with a renderer installed, a forecast gives the built card when rendering succeeds and 500 otherwise. |
| Routes.ServerlessForecastIs501 | index.js:107-112 | The serverless build answers every forecast with 501 and the data attached. |
| Routes.NotFoundStillRendersCard | server.js:96-109 | A place that is not found gives 500 on `/api/cuaca`, but an empty 200 card on `/api/card` with a working renderer. |
| Bot.ReplyForPage | main.js:148-194 | The bot sends a photo exactly when the chain found an image, at its normalised URL. It reports the screenshot as unavailable exactly when nothing was found and no headless browser is installed. |
| Bot.MapOnlyByAltIsCandidate | main.js:130-137 | An image known only by an alt text "peta" is a candidate with no URL, for both variants. |
| Bot.RadarIsRaster | main.js:143 | "/img/radar.png" passes the extension test. |
| Bot.ServiceGivesUp | server.js:20-35 | When the first candidate has no URL, the services find no image even if a later image is a .png. |
| Bot.BotFindsRadar | main.js:140-145 | In the same page the bot falls back to the first raster image. |
| Bot.RadarNormalized | main.js:191 | A site-relative path gets the BMKG origin. |
| Bot.BotFallsBackWhereServiceGivesUp | main.js:136-194 | On that page the services find nothing, while the bot sends "https://www.bmkg.go.id/img/radar.png". |
| Bot.Strip | main.js:247-260 | The strip has exactly min(5, number of dates) boxes. Box i has the icon and colour of day i's code. |
| Bot.StripAgreesWithCard | main.js:247-257 | On a pipeline result, the bot's strip, drawn from the unsliced data, shows the same icon for each day as the server's card, drawn from the sliced data. |
| Bot.CardFor | main.js:236-307 | The card's location and status are escaped and unescape to the place name and the code's description. Its icon and colour are the current code's, and its strip is `Bot.Strip` of the unsliced daily data, so it has min(5, number of dates) boxes. |
| Bot.JakartaScenario | main.js:236-284 | "Jakarta" with current code 0 is a place query, and its card reads "Cerah" under the "01d" icon. |

## Left out

- Telegram plumbing is left out: the handlers, sending, editing and deleting messages, and `process.exit`. It is I/O with no decision in it.
- The outbound HTTP calls are not modelled. Their responses are `Upstream` parameters, and a response of `None` is a request that threw.
  - A missing body reads as an empty hit list or a forecast without `current_weather`.
  - The image proxy's success is a boolean.
- HTML parsing is not modelled. A page is the three meta/link values plus the attribute records of its `img` elements, in document order.
- The headless browser is not modelled. Whether it is installed and whether rendering succeeds are parameters, and screenshots and temporary files are left out.
- The HTTP server setup, static files, dotenv and the port are left out as configuration only.
- Presentation is left out: dates, rounded temperatures, wind figures in the text, the CSS and the template text of both cards. Temperatures are integers in the model.
- JavaScript coercion is simplified. `days` is `Option<int>`, where `None` stands for a missing or non-numeric value. Fractional values are not modelled.
- A weather-code cell holding a string is read as no code. JavaScript would compare it numerically.
- A `daily` field that is not an array is read as no entries. This includes a string-valued field, which JavaScript would read character by character, with `times.length` equal to the string's length. The model does not follow that.
- The bot's fall-through to geocoding after an exception while scraping a BMKG page is left out, as exception control flow.
- Errors thrown while building a card are not modelled; `Routes.CardReply` maps only a failed render to 500.
- The bot's messages for a missing place or a missing `current_weather` are not modelled separately. `Pipeline.ForecastResult` is the decision they follow.
- Pipeline.FetchWeatherData: a failed page fetch is the `Threw` outcome. The exception's text is not modelled.
