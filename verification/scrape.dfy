/**
 The BMKG image heuristic. The fetched page is given abstractly: the
 `content` of the first `meta[property="og:image"]` and
 `meta[name="twitter:image"]`, the `href` of the first `link[rel="image_src"]`,
 and, in document order, the attributes of every `img` element.
 The bot (main.js) and the HTTP services (server.js, index.js; their copies are
 identical) differ in the attributes and keywords of the `img` scan and in the
 bot's extension fallback, so each function takes the `Variant`.
 */
module Scrape {
  import opened Wrappers
  import opened Text

  datatype Img = Img(src: Option<string>, dataSrc: Option<string>, dataOriginal: Option<string>,
                     dataSrcset: Option<string>, srcset: Option<string>, alt: Option<string>)

  datatype Page = Page(ogImage: Option<string>, twitterImage: Option<string>, imageSrc: Option<string>,
                       imgs: seq<Img>)

  datatype Variant = Bot | Service

  /** JavaScript truthiness of an attribute value: present and not empty */
  predicate Truthy(v: Option<string>) {
    v.Some? && v.value != ""
  }

  /** `a || b || ...` over attribute values; an all-falsy chain yields no value */
  function FirstTruthy(vs: seq<Option<string>>): (r: Option<string>)
    ensures r.None? <==> forall i | 0 <= i < |vs| :: !Truthy(vs[i])
    ensures r.Some? ==> Truthy(r) && exists i | 0 <= i < |vs| ::
      vs[i] == r && forall j | 0 <= j < i :: !Truthy(vs[j])
    decreases |vs|
  {
    if |vs| == 0 then None
    else if Truthy(vs[0]) then vs[0]
    else
      var r := FirstTruthy(vs[1..]);
      assert forall i | 1 <= i < |vs| :: vs[1..][i - 1] == vs[i];
      r
  }

  /** `[...].filter(Boolean)` */
  function Present(vs: seq<Option<string>>): (r: seq<string>)
    ensures forall i | 0 <= i < |r| :: r[i] != ""
    ensures |r| == 0 <==> FirstTruthy(vs).None?
    ensures |r| > 0 ==> Some(r[0]) == FirstTruthy(vs)
    decreases |vs|
  {
    if |vs| == 0 then []
    else (if Truthy(vs[0]) then [vs[0].value] else []) + Present(vs[1..])
  }

  /** `filter(Boolean)` keeps exactly the non-empty values. */
  lemma {:induction false} PresentMembers(vs: seq<Option<string>>)
    ensures forall s | s in Present(vs) :: exists j | 0 <= j < |vs| :: vs[j] == Some(s)
    ensures forall j | 0 <= j < |vs| && Truthy(vs[j]) :: vs[j].value in Present(vs)
    decreases |vs|
  {
    if |vs| > 0 {
      PresentMembers(vs[1..]);
      assert forall j | 1 <= j < |vs| :: vs[1..][j - 1] == vs[j];
    }
  }

  /** Index of the first element satisfying p: `Array.prototype.find` and `candidates[0]` */
  function FirstIndex<T>(xs: seq<T>, p: T -> bool): (r: Option<nat>)
    ensures r.Some? ==> r.value < |xs| && p(xs[r.value]) && forall j | 0 <= j < r.value :: !p(xs[j])
    ensures r.None? ==> forall j | 0 <= j < |xs| :: !p(xs[j])
    decreases |xs|
  {
    if |xs| == 0 then None
    else if p(xs[0]) then Some(0)
    else
      match FirstIndex(xs[1..], p)
      case None => None
      case Some(i) => Some(i + 1)
  }

  /** Steps 1 and 2: `og:image || twitter:image`, then `link[rel="image_src"]` */
  function MetaImage(page: Page): (r: Option<string>)
    ensures r.None? <==> !Truthy(page.ogImage) && !Truthy(page.twitterImage) && !Truthy(page.imageSrc)
    ensures Truthy(page.ogImage) ==> r == page.ogImage
    ensures !Truthy(page.ogImage) && Truthy(page.twitterImage) ==> r == page.twitterImage
    ensures !Truthy(page.ogImage) && !Truthy(page.twitterImage) && Truthy(page.imageSrc) ==> r == page.imageSrc
  {
    var metaTag := if Truthy(page.ogImage) then page.ogImage else page.twitterImage;
    if Truthy(metaTag) then metaTag
    else if Truthy(page.imageSrc) then page.imageSrc
    else None
  }

  /** The attributes the `img` scan reads, in the order it reads them */
  function SourceAttrs(v: Variant, img: Img): seq<Option<string>> {
    [img.src, img.dataSrc, img.dataOriginal] + (if v == Bot then [img.dataSrcset, img.srcset] else [])
  }

  function AltText(img: Img): string {
    img.alt.GetOr("")
  }

  /** The text the keyword expression is tested against: the non-empty attributes joined
      with spaces, a space, and the alt text */
  function Haystack(v: Variant, img: Img): (r: string)
    ensures EndsWith(r, " " + AltText(img))
    ensures FirstTruthy(SourceAttrs(v, img)).None? ==> r == " " + AltText(img)
    ensures FirstTruthy(SourceAttrs(v, img)).Some? ==> StartsWith(r, FirstTruthy(SourceAttrs(v, img)).value)
  {
    var present := Present(SourceAttrs(v, img));
    var joined := Join(present, " ");
    assert |present| > 0 ==> StartsWith(joined, present[0]) by {
      if |present| > 1 {
        assert joined == present[0] + (" " + Join(present[1..], " "));
      }
    }
    joined + " " + AltText(img)
  }

  /** The alternatives of the keyword expressions */
  datatype Keyword = Cuaca | Prakiraan | PrakiraanCuaca | ForecastEn | Ramalan | Peta | Map | Kondisi | Sis

  /** A keyword as written in the expression, lower case */
  function Spelling(k: Keyword): string {
    match k
    case Cuaca => "cuaca"
    case Prakiraan => "prakiraan"
    case PrakiraanCuaca => "prakiraan-cuaca"
    case ForecastEn => "forecast"
    case Ramalan => "ramalan"
    case Peta => "peta"
    case Map => "map"
    case Kondisi => "kondisi"
    case Sis => "sis"
  }

  /** The alternatives each variant's expression lists, in order */
  function Keywords(v: Variant): seq<Keyword> {
    match v
    case Bot => [Cuaca, Prakiraan, PrakiraanCuaca, ForecastEn, Ramalan, Peta, Map, Kondisi, Sis]
    case Service => [Cuaca, Prakiraan, ForecastEn, Peta, Map, Kondisi]
  }

  /** An alternation of keywords, tested with the `i` flag: tries each alternative in turn */
  predicate MatchesAny(text: string, keywords: seq<Keyword>)
    decreases |keywords|
  {
    |keywords| > 0 && (ContainsIgnoringCase(text, Spelling(keywords[0])) || MatchesAny(text, keywords[1..]))
  }

  /** The alternation matches exactly when one of its keywords occurs. */
  lemma {:induction false} MatchesAnyIffSome(text: string, keywords: seq<Keyword>)
    ensures MatchesAny(text, keywords) <==> exists k | k in keywords :: ContainsIgnoringCase(text, Spelling(k))
    decreases |keywords|
  {
    if |keywords| > 0 {
      MatchesAnyIffSome(text, keywords[1..]);
      assert forall k | k in keywords :: k == keywords[0] || k in keywords[1..];
      assert forall k | k in keywords[1..] :: k in keywords;
    }
  }

  /** The image's keyword expression matches its haystack. */
  predicate IsCandidate(v: Variant, img: Img): (b: bool)
    ensures b <==> exists k | k in Keywords(v) :: ContainsIgnoringCase(Haystack(v, img), Spelling(k))
  {
    MatchesAnyIffSome(Haystack(v, img), Keywords(v));
    MatchesAny(Haystack(v, img), Keywords(v))
  }

  /** The URL a candidate contributes. The services push `src || data-src || data-original`;
      the bot pushes `attrs[0] || attrs[1] || attrs[2]` of its already filtered five
      attributes, which is the first non-empty one of all five. */
  function CandidateUrl(v: Variant, img: Img): (r: Option<string>)
    ensures r.Some? ==> Truthy(r)
    ensures v == Service ==> r == SourceUrl(img)
    ensures v == Bot ==> r == (if |Present(SourceAttrs(Bot, img))| > 0 then Some(Present(SourceAttrs(Bot, img))[0]) else None)
  {
    assert SourceAttrs(Service, img) == [img.src, img.dataSrc, img.dataOriginal];
    FirstTruthy(SourceAttrs(v, img))
  }

  /** Index of the first candidate: `candidates[0]` comes from the first matching `img` */
  function FirstCandidate(v: Variant, imgs: seq<Img>): (r: Option<nat>)
    ensures r.Some? ==> r.value < |imgs| && IsCandidate(v, imgs[r.value])
    ensures r.Some? ==> forall j | 0 <= j < r.value :: !IsCandidate(v, imgs[j])
    ensures r.None? ==> forall j | 0 <= j < |imgs| :: !IsCandidate(v, imgs[j])
    decreases |imgs|
  {
    if |imgs| == 0 then None
    else if IsCandidate(v, imgs[0]) then Some(0)
    else
      var rest := FirstCandidate(v, imgs[1..]);
      if rest.None? then None else Some(rest.value + 1)
  }

  /** Step 3: `candidates[0]`. No match gives no URL, and so does a first match
      that has none of the source attributes, whatever the later images hold. */
  function KeywordImage(v: Variant, imgs: seq<Img>): (r: Option<string>)
    ensures r.Some? ==> Truthy(r)
    ensures (forall i | 0 <= i < |imgs| :: !IsCandidate(v, imgs[i])) ==> r.None?
  {
    var first := FirstCandidate(v, imgs);
    if first.None? then None else CandidateUrl(v, imgs[first.value])
  }

  /** The first candidate decides: its URL is the result, even when it has none. */
  lemma KeywordImageIsFirst(v: Variant, imgs: seq<Img>, i: nat)
    requires i < |imgs| && IsCandidate(v, imgs[i])
    requires forall j | 0 <= j < i :: !IsCandidate(v, imgs[j])
    ensures KeywordImage(v, imgs) == CandidateUrl(v, imgs[i])
  {
    assert FirstCandidate(v, imgs) == Some(i);
  }

  /** `/\.(png|jpe?g|gif)$/i` */
  predicate HasRasterExtension(u: string): (b: bool)
    ensures b ==> |u| >= 4 && (u[|u| - 4] == '.' || (|u| >= 5 && u[|u| - 5] == '.'))
  {
    var l := Lower(u);
    EndsWith(l, ".png") || EndsWith(l, ".jpg") || EndsWith(l, ".jpeg") || EndsWith(l, ".gif")
  }

  /** `src || data-src || data-original` */
  function SourceUrl(img: Img): Option<string> {
    FirstTruthy([img.src, img.dataSrc, img.dataOriginal])
  }

  /** `find(u => /\.(png|jpe?g|gif)$/i.test(u))` on the `src || data-src || data-original` values */
  predicate IsRaster(img: Img): (b: bool)
    ensures b ==> Truthy(SourceUrl(img))
    ensures b ==> Truthy(img.src) || Truthy(img.dataSrc) || Truthy(img.dataOriginal)
  {
    SourceUrl(img).Some? && HasRasterExtension(SourceUrl(img).value)
  }

  lemma LowerIdempotent(s: string)
    ensures Lower(Lower(s)) == Lower(s)
  {
  }

  /** The extension test ignores case: lower-casing the URL first changes nothing. */
  lemma RasterExtensionIgnoresCase(u: string)
    ensures HasRasterExtension(Lower(u)) == HasRasterExtension(u)
  {
    LowerIdempotent(u);
  }

  /** The bot's step 4: the first image whose source URL ends in a raster extension */
  function RasterImage(imgs: seq<Img>): (r: Option<string>)
    ensures r.Some? ==> Truthy(r) && HasRasterExtension(r.value)
    ensures r.None? <==> forall i | 0 <= i < |imgs| :: !IsRaster(imgs[i])
    ensures forall i | 0 <= i < |imgs| && IsRaster(imgs[i]) ::
      (forall j | 0 <= j < i :: !IsRaster(imgs[j])) ==> r == SourceUrl(imgs[i])
  {
    match FirstIndex(imgs, IsRaster)
    case None => None
    case Some(i) => SourceUrl(imgs[i])
  }

  /** The whole chain, first match wins, before URL normalisation */
  function ScrapedImage(v: Variant, page: Page): (r: Option<string>)
    ensures r.Some? ==> Truthy(r)
    ensures MetaImage(page).Some? ==> r == MetaImage(page)
    ensures MetaImage(page).None? && v == Service ==> r == KeywordImage(Service, page.imgs)
    ensures MetaImage(page).None? && v == Bot && KeywordImage(Bot, page.imgs).Some? ==>
      r == KeywordImage(Bot, page.imgs)
    ensures MetaImage(page).None? && v == Bot && KeywordImage(Bot, page.imgs).None? ==>
      r == RasterImage(page.imgs)
  {
    var meta := MetaImage(page);
    if Truthy(meta) then meta
    else
      var keyword := KeywordImage(v, page.imgs);
      if Truthy(keyword) || v == Service then keyword
      else RasterImage(page.imgs)
  }

  /** The scraper never invents a URL: it returns a meta/link value or an `img` attribute. */
  lemma ScrapedImageProvenance(v: Variant, page: Page)
    requires ScrapedImage(v, page).Some?
    ensures var u := ScrapedImage(v, page);
      || u == page.ogImage || u == page.twitterImage || u == page.imageSrc
      || exists i | 0 <= i < |page.imgs| :: u == CandidateUrl(v, page.imgs[i]) || u == SourceUrl(page.imgs[i])
  {
    var u := ScrapedImage(v, page);
    if MetaImage(page).None? {
      var k := FirstCandidate(v, page.imgs);
      if k.Some? && KeywordImage(v, page.imgs).Some? {
        assert u == CandidateUrl(v, page.imgs[k.value]);
      } else {
        var j := FirstIndex(page.imgs, IsRaster);
        assert u == SourceUrl(page.imgs[j.value]);
      }
    }
  }

  /** A non-empty source attribute or the alt text contains kw, ignoring case */
  ghost predicate Mentions(v: Variant, img: Img, kw: string) {
    || (exists j | 0 <= j < |SourceAttrs(v, img)| ::
          Truthy(SourceAttrs(v, img)[j]) && ContainsIgnoringCase(SourceAttrs(v, img)[j].value, kw))
    || ContainsIgnoringCase(AltText(img), kw)
  }

  lemma KeywordIsWord(k: Keyword)
    ensures ' ' !in Spelling(k) && |Spelling(k)| > 0
  {
  }

  /** Joining the attributes with spaces creates no match across two of them. */
  lemma HaystackMatch(v: Variant, img: Img, kw: string)
    requires ' ' !in kw && |kw| > 0
    ensures ContainsIgnoringCase(Haystack(v, img), kw) <==> Mentions(v, img, kw)
  {
    var attrs := SourceAttrs(v, img);
    var present := Present(attrs);
    PresentMembers(attrs);
    ContainsIgnoringCaseAcrossSpace(Join(present, " "), AltText(img), kw);
    JoinContains(present, kw);
    if i :| 0 <= i < |present| && ContainsIgnoringCase(present[i], kw) {
      assert present[i] in present;
      var j :| 0 <= j < |attrs| && attrs[j] == Some(present[i]);
      assert Truthy(attrs[j]);
    }
    if j :| 0 <= j < |attrs| && Truthy(attrs[j]) && ContainsIgnoringCase(attrs[j].value, kw) {
      assert attrs[j].value in present;
      var i :| 0 <= i < |present| && present[i] == attrs[j].value;
    }
  }

  /** The keyword test holds exactly when some keyword appears in one attribute or in
      the alt text. */
  lemma {:induction false} CandidateIffMentions(v: Variant, img: Img)
    ensures IsCandidate(v, img) <==> exists k | k in Keywords(v) :: Mentions(v, img, Spelling(k))
  {
    MatchesAnyIffSome(Haystack(v, img), Keywords(v));
    forall k: Keyword
      ensures ContainsIgnoringCase(Haystack(v, img), Spelling(k)) <==> Mentions(v, img, Spelling(k))
    {
      KeywordIsWord(k);
      HaystackMatch(v, img, Spelling(k));
    }
  }

  /** The bot's keyword test is the more permissive one: it accepts every image the
      services accept (more attributes, a superset of the keywords). */
  lemma {:induction false} BotAcceptsServiceCandidates(img: Img)
    requires IsCandidate(Service, img)
    ensures IsCandidate(Bot, img)
  {
    CandidateIffMentions(Service, img);
    var k :| k in Keywords(Service) && Mentions(Service, img, Spelling(k));
    assert k in Keywords(Bot);
    assert forall j | 0 <= j < 3 :: SourceAttrs(Bot, img)[j] == SourceAttrs(Service, img)[j];
    assert Mentions(Bot, img, Spelling(k));
    CandidateIffMentions(Bot, img);
  }

  /** The converse fails: a keyword only in `srcset` is seen by the bot alone. */
  lemma SrcsetSeenByBot()
    ensures var img := Img(None, None, None, None, Some("cuaca.png"), None);
      IsCandidate(Bot, img) && CandidateUrl(Bot, img) == Some("cuaca.png")
  {
    var img := Img(None, None, None, None, Some("cuaca.png"), None);
    assert SourceAttrs(Bot, img)[4] == Some("cuaca.png");
    assert Lower("cuaca.png")[..5] == "cuaca";
    assert Mentions(Bot, img, Spelling(Cuaca));
    CandidateIffMentions(Bot, img);
  }

  lemma SrcsetIgnoredByService()
    ensures !IsCandidate(Service, Img(None, None, None, None, Some("cuaca.png"), None))
  {
    var img := Img(None, None, None, None, Some("cuaca.png"), None);
    assert Present(SourceAttrs(Service, img)) == [];
    assert Haystack(Service, img) == " ";
    assert Lower(" ") == " ";
    MatchesAnyIffSome(" ", Keywords(Service));
    forall k: Keyword
      ensures !ContainsIgnoringCase(" ", Spelling(k))
    {
      KeywordIsWord(k);
      ContainsNeedsHead(" ", Spelling(k));
    }
  }

  const BmkgOrigin := "https://www.bmkg.go.id"

  /** `if (u.startsWith('//')) u = 'https:' + u; if (u.startsWith('/')) u = origin + u;`
      The first rewrite never triggers the second. */
  function Normalize(u: string): (r: string)
    ensures StartsWith(u, "//") ==> r == "https:" + u
    ensures StartsWith(u, "/") && !StartsWith(u, "//") ==> r == BmkgOrigin + u
    ensures !StartsWith(u, "/") ==> r == u
    ensures !StartsWith(r, "/")
    ensures u != "" ==> r != ""
  {
    var once := if StartsWith(u, "//") then "https:" + u else u;
    StartsWithHead(once, "/");
    StartsWithHead(BmkgOrigin + once, "/");
    if StartsWith(once, "/") then BmkgOrigin + once else once
  }

  /** A normalised URL is left alone by a second normalisation. */
  lemma NormalizeIdempotent(u: string)
    ensures Normalize(Normalize(u)) == Normalize(u)
  {
  }

  /** The normalised URL of the chain's result */
  function ImageUrl(v: Variant, page: Page): (r: Option<string>)
    ensures r.None? <==> ScrapedImage(v, page).None?
    ensures r.Some? ==> r.value != "" && !StartsWith(r.value, "/")
  {
    match ScrapedImage(v, page)
    case None => None
    case Some(u) => Some(Normalize(u))
  }
}
