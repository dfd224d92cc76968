/** The NewBuildingSpain scraper: walks the paginated listing index
    collecting card links, then fetches each listing and extracts one
    document from it. The site is an oracle from URL to fetch outcome, and
    each fetched page is the record of the markup queries the scraper runs
    on it. */
module NewBuildingSpain {
  import opened Wrappers
  import opened PyStrings

  type Url = string

  /** The pool `get_random_user_agent` draws from. */
  const UserAgents: seq<string> :=
    ["Mozilla/5.0 (Windows NT 10.0; Win64; x64) AppleWebKit/537.36 (KHTML, like Gecko) Chrome/58.0.3029.110 Safari/537.3"]
  const SiteRefPrefix: string := "ON"
  const MapAnchorText: string := "See on the map"

  /** An `a` element: its `.string`, and the text of its nearest enclosing `div`, if any. */
  datatype Anchor = Anchor(str: Option<string>, enclosingDivText: Option<string>)

  /** A `div.single__contents-item`: the text of its first
      `div.single__contents-name` and of its first `div.single__contents-value`. */
  datatype ContentItem = ContentItem(name: Option<string>, value: Option<string>)

  /** What the scraper's markup queries find in one fetched page, each list in document order. */
  datatype Page = Page(
    cardHrefs: seq<Url>,                // href of every `.card__link` that has one
    nextHref: Option<string>,           // href of the first `a.pagination__item--next` that has one
    divDataValues: seq<Option<string>>, // the `data-value` attribute of every `div`
    anchors: seq<Anchor>,               // every `a`
    contentItems: seq<ContentItem>,     // every `div.single__contents-item`
    iconTexts: seq<Option<string>>)     // every `li.item`: text of its first `span.single__icons-text`

  /** The outcome of `requests.get`: a response, or a `RequestException`. */
  datatype Fetch = Response(status: int, body: Page) | RequestException

  type Site = Url -> Fetch

  datatype Document = Document(
    id: string,
    url: Url,
    siteRef: string,
    address: string,
    propertyInformation: map<string, string>,
    extraInformation: seq<string>)

  /** The `AttributeError`s extraction raises, by the lookup that found nothing. */
  datatype ScrapeError =
    | NoSiteRef       // no `div` whose data-value starts with "ON"
    | NoMapAnchor     // no `a` whose string is "See on the map"
    | NoAddressBlock  // that anchor has no enclosing `div`

  datatype SearchDocuments = SearchDocuments(baseUrl: Url, results: seq<Document>)

  /** How `get_search_data` ends: with its result, with an exception, or
      with the page walk still going when its fuel ran out. That last
      outcome covers both a walk longer than the fuel, which the source
      would finish, and a walk that never ends (`SelfLinkedPageNeverStops`). */
  datatype SearchOutcome = Completed(documents: SearchDocuments) | Raised(error: ScrapeError) | WalkUnfinished

  /** `random.choice(user_agents)`, the choice supplied as `pick`. */
  function GetRandomUserAgent(pick: nat): (agent: string)
    ensures agent in UserAgents
  {
    UserAgents[pick % |UserAgents|]
  }

  /** `send_request`: the page of a response with status 200, nothing otherwise. */
  function SendRequest(site: Site, url: Url): (r: Option<Page>)
    ensures r.Some? <==> site(url).Response? && site(url).status == 200
    ensures r.Some? ==> r.value == site(url).body
  {
    match site(url)
    case RequestException => None
    case Response(status, body) => if status == 200 then Some(body) else None
  }

  /** `soup.find(predicate)`: the index of the first element satisfying it. */
  function FindFirst<T>(xs: seq<T>, p: T -> bool): (r: Option<nat>)
    ensures r.Some? ==> r.value < |xs| && p(xs[r.value]) && forall j :: 0 <= j < r.value ==> !p(xs[j])
    ensures r.None? ==> forall j :: 0 <= j < |xs| ==> !p(xs[j])
  {
    if xs == [] then None
    else if p(xs[0]) then Some(0)
    else match FindFirst(xs[1..], p)
      case None => None
      case Some(i) => Some(i + 1)
  }

  //
  // The index walk (`get_card_links`)
  //

  /** Why the walk ended. `OutOfFuel` means the model's page bound was
      reached with a next page still pending. */
  datatype StopReason = NoNextPage | FetchFailed(url: Url) | OutOfFuel

  /** The pages fetched and parsed, in visit order, and the links collected from them. */
  datatype Walk = Walk(pages: seq<Url>, links: seq<Url>, stop: StopReason)

  /** `next_page_link = self.base_url`, as the loop condition sees it: an
      empty base URL is falsy and no page is visited. */
  function FirstPageUrl(baseUrl: Url): (r: Option<Url>)
    ensures r.Some? <==> Truthy(Some(baseUrl))
    ensures r.Some? ==> r.value == baseUrl
  {
    if baseUrl != "" then Some(baseUrl) else None
  }

  /** The next page: `base_url + href` of the next control, when that href
      is truthy. The join is plain concatenation: the base URL is a prefix
      of the result and the href is the rest, with no URL resolution. */
  function NextPageUrl(baseUrl: Url, page: Page): (r: Option<Url>)
    ensures r.Some? <==> page.nextHref.Some? && page.nextHref.value != ""
    ensures r.Some? ==> |r.value| > |baseUrl| && StartsWith(r.value, baseUrl)
                        && r.value[|baseUrl|..] == page.nextHref.value
  {
    if Truthy(page.nextHref) then Some(baseUrl + page.nextHref.value) else None
  }

  /** The walk from `next` on, visiting at most `fuel` pages. */
  function WalkFrom(site: Site, baseUrl: Url, next: Option<Url>, fuel: nat): (w: Walk)
    ensures |w.pages| <= fuel
    ensures next.None? ==> w == Walk([], [], NoNextPage)
    ensures w.pages != [] ==> next == Some(w.pages[0])
    ensures w.stop == OutOfFuel ==> next.Some? && |w.pages| == fuel
    decreases fuel
  {
    match next
    case None => Walk([], [], NoNextPage)
    case Some(url) =>
      if fuel == 0 then Walk([], [], OutOfFuel)
      else match SendRequest(site, url)
        case None => Walk([], [], FetchFailed(url))
        case Some(page) =>
          var rest := WalkFrom(site, baseUrl, NextPageUrl(baseUrl, page), fuel - 1);
          Walk([url] + rest.pages, page.cardHrefs + rest.links, rest.stop)
  }

  /** The walk `get_card_links` makes: it starts at `base_url`, or visits
      nothing when that is empty. */
  function CardLinks(site: Site, baseUrl: Url, fuel: nat): (w: Walk)
    ensures baseUrl == "" ==> w == Walk([], [], NoNextPage)
    ensures w.pages != [] ==> w.pages[0] == baseUrl
  {
    WalkFrom(site, baseUrl, FirstPageUrl(baseUrl), fuel)
  }

  /** The page a visited URL was parsed into. */
  function PageAt(site: Site, url: Url): Page
    requires SendRequest(site, url).Some?
  {
    SendRequest(site, url).value
  }

  /** The card hrefs of the given pages, page after page. */
  function HrefsOf(site: Site, urls: seq<Url>): seq<Url>
    requires forall i :: 0 <= i < |urls| ==> SendRequest(site, urls[i]).Some?
  {
    if urls == [] then [] else PageAt(site, urls[0]).cardHrefs + HrefsOf(site, urls[1..])
  }

  /** The URL the loop holds after visiting `pages`, having started from `next`. */
  function UrlAfter(site: Site, baseUrl: Url, next: Option<Url>, pages: seq<Url>): Option<Url>
    requires forall i :: 0 <= i < |pages| ==> SendRequest(site, pages[i]).Some?
  {
    if pages == [] then next else NextPageUrl(baseUrl, PageAt(site, pages[|pages| - 1]))
  }

  /** Links are the card hrefs of the visited pages, in visit order and
      document order; every visited page was fetched with status 200; the
      first visited page is the start and each later one is `base_url +`
      the previous page's next href. */
  lemma {:induction false} WalkVisitsChain(site: Site, baseUrl: Url, next: Option<Url>, fuel: nat)
    ensures var w := WalkFrom(site, baseUrl, next, fuel);
            (forall i :: 0 <= i < |w.pages| ==> SendRequest(site, w.pages[i]).Some?)
            && w.links == HrefsOf(site, w.pages)
            && (forall i :: 0 <= i < |w.pages| - 1 ==>
                  Truthy(PageAt(site, w.pages[i]).nextHref)
                  && w.pages[i + 1] == baseUrl + PageAt(site, w.pages[i]).nextHref.value)
    decreases fuel
  {
    var w := WalkFrom(site, baseUrl, next, fuel);
    if next.Some? && fuel > 0 && SendRequest(site, next.value).Some? {
      var page := SendRequest(site, next.value).value;
      var rest := WalkFrom(site, baseUrl, NextPageUrl(baseUrl, page), fuel - 1);
      WalkVisitsChain(site, baseUrl, NextPageUrl(baseUrl, page), fuel - 1);
      assert w.pages == [next.value] + rest.pages;
      assert w.pages[1..] == rest.pages;
      forall i | 0 <= i < |w.pages| - 1
        ensures Truthy(PageAt(site, w.pages[i]).nextHref)
                && w.pages[i + 1] == baseUrl + PageAt(site, w.pages[i]).nextHref.value
      {
        if i > 0 {
          assert w.pages[i] == rest.pages[i - 1] && w.pages[i + 1] == rest.pages[i];
        }
      }
    }
  }

  /** The walk stops exactly where the source's loop does: with no truthy
      next link, or at the first fetch that fails (the links gathered so far
      are kept), or, in the model only, when the fuel is spent. */
  lemma {:induction false} WalkStops(site: Site, baseUrl: Url, next: Option<Url>, fuel: nat)
    ensures var w := WalkFrom(site, baseUrl, next, fuel);
            (forall i :: 0 <= i < |w.pages| ==> SendRequest(site, w.pages[i]).Some?)
            && var after := UrlAfter(site, baseUrl, next, w.pages);
               (w.stop == NoNextPage <==> after.None?)
               && (w.stop.FetchFailed? ==> after == Some(w.stop.url) && SendRequest(site, w.stop.url).None?)
               && (w.stop == OutOfFuel ==> after.Some? && |w.pages| == fuel)
    decreases fuel
  {
    var w := WalkFrom(site, baseUrl, next, fuel);
    if next.Some? && fuel > 0 && SendRequest(site, next.value).Some? {
      var page := SendRequest(site, next.value).value;
      var rest := WalkFrom(site, baseUrl, NextPageUrl(baseUrl, page), fuel - 1);
      WalkStops(site, baseUrl, NextPageUrl(baseUrl, page), fuel - 1);
      assert w.pages == [next.value] + rest.pages;
      if rest.pages != [] {
        assert w.pages[|w.pages| - 1] == rest.pages[|rest.pages| - 1];
      }
    }
  }

  /** A walk that ends within its fuel ends the same way with any more fuel:
      the fuel bound changes nothing about a walk the source completes. */
  lemma {:induction false} WalkFuelIrrelevant(site: Site, baseUrl: Url, next: Option<Url>, fuel: nat, more: nat)
    requires WalkFrom(site, baseUrl, next, fuel).stop != OutOfFuel
    requires fuel <= more
    ensures WalkFrom(site, baseUrl, next, more) == WalkFrom(site, baseUrl, next, fuel)
    decreases fuel
  {
    if next.Some? && fuel > 0 && SendRequest(site, next.value).Some? {
      var page := SendRequest(site, next.value).value;
      WalkFuelIrrelevant(site, baseUrl, NextPageUrl(baseUrl, page), fuel - 1, more - 1);
    }
  }

  /** A page whose next control leads back to itself is never left: no fuel
      is enough, that is, the source's loop does not terminate. */
  lemma {:induction false} SelfLinkedPageNeverStops(site: Site, baseUrl: Url, href: string, fuel: nat)
    requires href != ""
    requires SendRequest(site, baseUrl + href).Some?
    requires SendRequest(site, baseUrl + href).value.nextHref == Some(href)
    ensures WalkFrom(site, baseUrl, Some(baseUrl + href), fuel).stop == OutOfFuel
    decreases fuel
  {
    if fuel > 0 {
      SelfLinkedPageNeverStops(site, baseUrl, href, fuel - 1);
    }
  }

  //
  // Extraction (`scrape_card_data`)
  //

  /** The lambda passed to `soup.find`: `tag.get('data-value', '').startswith('ON')`.
      A div without the attribute never matches, since "" does not start with "ON". */
  predicate IsSiteRefDiv(dataValue: Option<string>)
    ensures IsSiteRefDiv(dataValue) <==>
              dataValue.Some? && |dataValue.value| >= 2 && dataValue.value[0] == 'O' && dataValue.value[1] == 'N'
  {
    StartsWith(dataValue.GetOr(""), SiteRefPrefix)
  }

  /** `soup.find('a', text='See on the map')`: the anchor's `.string` must be
      exactly the text, with no trimming; an anchor without a single string
      child never matches. */
  predicate IsMapAnchor(a: Anchor)
    ensures IsMapAnchor(a) ==> a.str.Some? && |a.str.value| == |MapAnchorText|
    ensures a.str.Some? && a.str.value != MapAnchorText ==> !IsMapAnchor(a)
    ensures a.str == Some(MapAnchorText) ==> IsMapAnchor(a)
  {
    a.str == Some(MapAnchorText)
  }

  predicate IsComplete(item: ContentItem) {
    item.name.Some? && item.value.Some?
  }

  /** `property_info` after the loop: each complete item, in order, sets its
      stripped name to its stripped value. */
  function PropertyInfo(items: seq<ContentItem>): map<string, string>
    decreases |items|
  {
    if items == [] then map[]
    else
      var m := PropertyInfo(items[..|items| - 1]);
      var last := items[|items| - 1];
      if IsComplete(last) then m[Strip(last.name.value) := Strip(last.value.value)] else m
  }

  /** The keys are exactly the stripped names of the complete items. */
  lemma {:induction false} PropertyInfoKeys(items: seq<ContentItem>, key: string)
    ensures key in PropertyInfo(items) <==>
              exists i :: 0 <= i < |items| && IsComplete(items[i]) && Strip(items[i].name.value) == key
    decreases |items|
  {
    if items != [] {
      var init := items[..|items| - 1];
      var last := items[|items| - 1];
      PropertyInfoKeys(init, key);
      if key in PropertyInfo(items) {
        if key in PropertyInfo(init) {
          var i :| 0 <= i < |init| && IsComplete(init[i]) && Strip(init[i].name.value) == key;
          assert items[i] == init[i];
        } else {
          assert IsComplete(last) && Strip(last.name.value) == key;
        }
      } else {
        forall i | 0 <= i < |items| && IsComplete(items[i]) ensures Strip(items[i].name.value) != key {
          if i < |init| {
            assert init[i] == items[i];
          }
        }
      }
    }
  }

  /** Each key holds the stripped value of the last complete item with that
      stripped name: a later duplicate label overwrites an earlier one. */
  lemma {:induction false} PropertyInfoLastWins(items: seq<ContentItem>, i: nat)
    requires i < |items| && IsComplete(items[i])
    requires forall j :: i < j < |items| && IsComplete(items[j]) ==>
               Strip(items[j].name.value) != Strip(items[i].name.value)
    ensures Strip(items[i].name.value) in PropertyInfo(items)
    ensures PropertyInfo(items)[Strip(items[i].name.value)] == Strip(items[i].value.value)
    decreases |items|
  {
    if i < |items| - 1 {
      var init := items[..|items| - 1];
      var last := items[|items| - 1];
      assert init[i] == items[i];
      PropertyInfoLastWins(init, i);
      assert IsComplete(last) ==> Strip(last.name.value) != Strip(items[i].name.value);
    }
  }

  /** The number of items that have an icon-text span. */
  function PresentCount(iconTexts: seq<Option<string>>): (n: nat)
    ensures n <= |iconTexts|
    ensures n == |iconTexts| <==> forall k :: 0 <= k < |iconTexts| ==> iconTexts[k].Some?
    decreases |iconTexts|
  {
    if iconTexts == [] then 0
    else
      assert forall k :: 0 < k < |iconTexts| ==> iconTexts[k] == iconTexts[1..][k - 1];
      (if iconTexts[0].Some? then 1 else 0) + PresentCount(iconTexts[1..])
  }

  /** The `extra_information` comprehension: the unstripped span texts of the
      items that have one, in order, one entry per such item. */
  function ExtraInformation(iconTexts: seq<Option<string>>): (r: seq<string>)
    ensures |r| == PresentCount(iconTexts)
    decreases |iconTexts|
  {
    if iconTexts == [] then []
    else (if iconTexts[0].Some? then [iconTexts[0].value] else []) + ExtraInformation(iconTexts[1..])
  }

  /** Every span text found is kept, and nothing else is. */
  lemma {:induction false} ExtraInformationKeepsEvery(iconTexts: seq<Option<string>>)
    ensures forall s :: s in ExtraInformation(iconTexts) <==> Some(s) in iconTexts
    decreases |iconTexts|
  {
    if iconTexts != [] {
      var rest := iconTexts[1..];
      ExtraInformationKeepsEvery(rest);
      assert iconTexts == [iconTexts[0]] + rest;
      var head := if iconTexts[0].Some? then [iconTexts[0].value] else [];
      assert ExtraInformation(iconTexts) == head + ExtraInformation(rest);
      forall s ensures s in ExtraInformation(iconTexts) <==> Some(s) in iconTexts {
        assert s in ExtraInformation(iconTexts) <==> s in head || s in ExtraInformation(rest);
        assert Some(s) in iconTexts <==> Some(s) == iconTexts[0] || Some(s) in rest;
      }
    }
  }

  /** The comprehension keeps order: the items of a concatenation contribute
      in turn. */
  lemma {:induction false} ExtraInformationAppend(a: seq<Option<string>>, b: seq<Option<string>>)
    ensures ExtraInformation(a + b) == ExtraInformation(a) + ExtraInformation(b)
    decreases |a|
  {
    if a != [] {
      var head := if a[0].Some? then [a[0].value] else [];
      assert (a + b)[0] == a[0] && (a + b)[1..] == a[1..] + b;
      assert ExtraInformation(a + b) == head + ExtraInformation(a[1..] + b);
      assert ExtraInformation(a) == head + ExtraInformation(a[1..]);
      ExtraInformationAppend(a[1..], b);
    } else {
      assert a + b == b;
    }
  }

  /** `scrape_card_data` on a fetched page. */
  function ExtractDocument(page: Page, link: Url, sha256: string -> string): (r: Result<Document, ScrapeError>)
    ensures r == Failure(NoSiteRef) <==> forall i :: 0 <= i < |page.divDataValues| ==> !IsSiteRefDiv(page.divDataValues[i])
    ensures r == Failure(NoMapAnchor) <==>
              (exists i :: 0 <= i < |page.divDataValues| && IsSiteRefDiv(page.divDataValues[i]))
              && forall i :: 0 <= i < |page.anchors| ==> !IsMapAnchor(page.anchors[i])
    ensures r == Failure(NoAddressBlock) <==>
              FindFirst(page.divDataValues, IsSiteRefDiv).Some? && FindFirst(page.anchors, IsMapAnchor).Some?
              && page.anchors[FindFirst(page.anchors, IsMapAnchor).value].enclosingDivText.None?
    ensures r.Success? ==>
              var refAt, anchorAt := FindFirst(page.divDataValues, IsSiteRefDiv), FindFirst(page.anchors, IsMapAnchor);
              refAt.Some? && page.divDataValues[refAt.value] == Some(r.value.siteRef)
              && anchorAt.Some? && page.anchors[anchorAt.value].enclosingDivText.Some?
              && r.value.address == Strip(page.anchors[anchorAt.value].enclosingDivText.value)
    ensures r.Success? ==>
              r.value.id == sha256(link) && r.value.url == link
              && StartsWith(r.value.siteRef, SiteRefPrefix)
              && IsStripped(r.value.address)
              && r.value.propertyInformation == PropertyInfo(page.contentItems)
              && r.value.extraInformation == ExtraInformation(page.iconTexts)
  {
    match FindFirst(page.divDataValues, IsSiteRefDiv)
    case None => Failure(NoSiteRef)
    case Some(r) =>
      var siteRef := page.divDataValues[r].value;
      match FindFirst(page.anchors, IsMapAnchor)
      case None => Failure(NoMapAnchor)
      case Some(a) =>
        if page.anchors[a].enclosingDivText.None? then Failure(NoAddressBlock)
        else Success(Document(sha256(link), link, siteRef, Strip(page.anchors[a].enclosingDivText.value),
                              PropertyInfo(page.contentItems), ExtraInformation(page.iconTexts)))
  }

  /** `scrape_card_data(link)`: `None` when the fetch fails, else the
      extracted document or the `AttributeError` extraction raised. */
  function CardData(site: Site, link: Url, sha256: string -> string): (r: Result<Option<Document>, ScrapeError>)
    ensures r == Success(None) <==> SendRequest(site, link).None?
    ensures r.Success? && r.value.Some? ==> r.value.value.url == link && r.value.value.id == sha256(link)
  {
    match SendRequest(site, link)
    case None => Success(None)
    case Some(page) =>
      match ExtractDocument(page, link, sha256)
      case Failure(e) => Failure(e)
      case Success(d) => Success(Some(d))
  }

  /** On a fetched page, `scrape_card_data` returns exactly the document
      extraction gives, or raises exactly the error extraction raises. */
  lemma CardDataExtracts(site: Site, link: Url, sha256: string -> string)
    requires SendRequest(site, link).Some?
    ensures var r, e := CardData(site, link, sha256), ExtractDocument(PageAt(site, link), link, sha256);
            (r.Failure? <==> e.Failure?)
            && (r.Failure? ==> e == Failure(r.error))
            && (r.Success? ==> r.value.Some? && e == Success(r.value.value))
  {
  }

  //
  // Aggregation (`get_search_data`)
  //

  /** `all_card_data` after the loop over `links`, or the first exception. */
  function Collect(site: Site, links: seq<Url>, sha256: string -> string): (r: Result<seq<Document>, ScrapeError>)
    ensures r.Success? ==> |r.value| <= |links|
    decreases |links|
  {
    if links == [] then Success([])
    else match Collect(site, links[..|links| - 1], sha256)
      case Failure(e) => Failure(e)
      case Success(docs) =>
        match CardData(site, links[|links| - 1], sha256)
        case Failure(e) => Failure(e)
        case Success(None) => Success(docs)
        case Success(Some(d)) => Success(docs + [d])
  }

  /** The links whose fetch succeeds, in order. */
  function FetchedLinks(site: Site, links: seq<Url>): (r: seq<Url>)
    ensures |r| <= |links|
    ensures forall u :: u in r <==> u in links && SendRequest(site, u).Some?
    decreases |links|
  {
    if links == [] then []
    else
      var init := FetchedLinks(site, links[..|links| - 1]);
      var last := links[|links| - 1];
      assert links == links[..|links| - 1] + [last];
      assert forall u :: u in init ==> u in links;
      init + (if SendRequest(site, last).Some? then [last] else [])
  }

  function Urls(docs: seq<Document>): (r: seq<Url>)
    ensures |r| == |docs| && forall i :: 0 <= i < |docs| ==> r[i] == docs[i].url
  {
    seq(|docs|, i requires 0 <= i < |docs| => docs[i].url)
  }

  lemma UrlsAppend(docs: seq<Document>, d: Document)
    ensures Urls(docs + [d]) == Urls(docs) + [d.url]
  {
    assert forall i :: 0 <= i < |docs| ==> (docs + [d])[i] == docs[i];
  }

  /** A collected list of documents drops exactly the links whose fetch
      failed, keeps the others in order, and holds for each the document
      extracted from its link. */
  lemma {:induction false} CollectKeepsFetchedLinks(site: Site, links: seq<Url>, sha256: string -> string)
    requires Collect(site, links, sha256).Success?
    ensures var docs := Collect(site, links, sha256).value;
            Urls(docs) == FetchedLinks(site, links)
            && forall i :: 0 <= i < |docs| ==> CardData(site, docs[i].url, sha256) == Success(Some(docs[i]))
  {
    CollectUrls(site, links, sha256);
    CollectExtracted(site, links, sha256);
  }

  /** The urls of the collected documents are the fetched links, in order. */
  lemma {:induction false} CollectUrls(site: Site, links: seq<Url>, sha256: string -> string)
    requires Collect(site, links, sha256).Success?
    ensures Urls(Collect(site, links, sha256).value) == FetchedLinks(site, links)
    decreases |links|
  {
    if links != [] {
      var init := links[..|links| - 1];
      var last := links[|links| - 1];
      CollectUrls(site, init, sha256);
      var docs := Collect(site, init, sha256).value;
      match CardData(site, last, sha256)
      case Success(None) =>
        assert Collect(site, links, sha256) == Success(docs);
        assert FetchedLinks(site, links) == FetchedLinks(site, init);
      case Success(Some(d)) =>
        assert Collect(site, links, sha256) == Success(docs + [d]);
        assert FetchedLinks(site, links) == FetchedLinks(site, init) + [last];
        assert d.url == last;
        UrlsAppend(docs, d);
    }
  }

  /** Each of `docs` is the document its url's scrape returns. */
  predicate AllExtracted(site: Site, docs: seq<Document>, sha256: string -> string) {
    forall i :: 0 <= i < |docs| ==> CardData(site, docs[i].url, sha256) == Success(Some(docs[i]))
  }

  /** A property of every element survives appending one more that has it. */
  lemma AllAppend<T>(xs: seq<T>, x: T, p: T -> bool)
    requires forall i :: 0 <= i < |xs| ==> p(xs[i])
    requires p(x)
    ensures forall i :: 0 <= i < |xs + [x]| ==> p((xs + [x])[i])
  {
    assert forall i :: 0 <= i < |xs| ==> (xs + [x])[i] == xs[i];
  }

  /** Each collected document is the one its url's scrape returns. */
  lemma {:induction false} CollectExtracted(site: Site, links: seq<Url>, sha256: string -> string)
    requires Collect(site, links, sha256).Success?
    ensures AllExtracted(site, Collect(site, links, sha256).value, sha256)
    decreases |links|
  {
    if links != [] {
      var init := links[..|links| - 1];
      var last := links[|links| - 1];
      CollectExtracted(site, init, sha256);
      var docs := Collect(site, init, sha256).value;
      var data := CardData(site, last, sha256);
      if data.Success? && data.value.Some? {
        var d := data.value.value;
        assert Collect(site, links, sha256) == Success(docs + [d]);
        assert d.url == last;
        AllAppend(docs, d, (e: Document) => CardData(site, e.url, sha256) == Success(Some(e)));
      } else {
        assert Collect(site, links, sha256) == Success(docs);
      }
    }
  }

  /** Collection raises exactly when some fetched link fails extraction, and
      then raises what the first such link raised. */
  lemma CollectRaisesFirst(site: Site, links: seq<Url>, sha256: string -> string)
    ensures Collect(site, links, sha256).Failure? <==>
              exists i :: 0 <= i < |links| && CardData(site, links[i], sha256).Failure?
    ensures Collect(site, links, sha256).Failure? ==>
              exists i :: 0 <= i < |links| && CardData(site, links[i], sha256) == Failure(Collect(site, links, sha256).error)
                          && forall j :: 0 <= j < i ==> CardData(site, links[j], sha256).Success?
  {
    CollectFailsIff(site, links, sha256);
    if Collect(site, links, sha256).Failure? {
      CollectFirstError(site, links, sha256);
    }
  }

  /** Collection fails iff some link's scrape raises. */
  lemma {:induction false} CollectFailsIff(site: Site, links: seq<Url>, sha256: string -> string)
    ensures Collect(site, links, sha256).Failure? <==>
              exists i :: 0 <= i < |links| && CardData(site, links[i], sha256).Failure?
    decreases |links|
  {
    if links != [] {
      var init := links[..|links| - 1];
      var last := links[|links| - 1];
      CollectFailsIff(site, init, sha256);
      if Collect(site, init, sha256).Failure? {
        var i :| 0 <= i < |init| && CardData(site, init[i], sha256).Failure?;
        assert links[i] == init[i];
      } else if CardData(site, last, sha256).Failure? {
        assert Collect(site, links, sha256).Failure?;
        assert CardData(site, links[|links| - 1], sha256).Failure?;
      } else {
        assert Collect(site, links, sha256).Success?;
        forall j | 0 <= j < |links| ensures CardData(site, links[j], sha256).Success? {
          if j < |init| {
            assert links[j] == init[j];
          }
        }
      }
    }
  }

  /** A failed collection raises what the first raising link raised. */
  lemma {:induction false} CollectFirstError(site: Site, links: seq<Url>, sha256: string -> string)
    requires Collect(site, links, sha256).Failure?
    ensures exists i :: 0 <= i < |links| && CardData(site, links[i], sha256) == Failure(Collect(site, links, sha256).error)
                        && forall j :: 0 <= j < i ==> CardData(site, links[j], sha256).Success?
    decreases |links|
  {
    var init := links[..|links| - 1];
    var last := links[|links| - 1];
    if Collect(site, init, sha256).Failure? {
      CollectFirstError(site, init, sha256);
      var i :| 0 <= i < |init| && CardData(site, init[i], sha256) == Failure(Collect(site, init, sha256).error)
               && forall j :: 0 <= j < i ==> CardData(site, init[j], sha256).Success?;
      assert links[i] == init[i];
      assert forall j :: 0 <= j < i ==> links[j] == init[j];
    } else {
      CollectFailsIff(site, init, sha256);
      assert forall j :: 0 <= j < |init| ==> links[j] == init[j];
      assert CardData(site, links[|links| - 1], sha256) == Failure(Collect(site, links, sha256).error);
    }
  }

  /** An exception raised while collecting a prefix is the result for the whole list. */
  lemma {:induction false} CollectFailurePersists(site: Site, links: seq<Url>, n: nat, sha256: string -> string)
    requires n <= |links|
    requires Collect(site, links[..n], sha256).Failure?
    ensures Collect(site, links, sha256) == Collect(site, links[..n], sha256)
    decreases |links| - n
  {
    if n < |links| {
      assert links[..n + 1][..n] == links[..n];
      CollectFailurePersists(site, links, n + 1, sha256);
    } else {
      assert links[..n] == links;
    }
  }

  /** With an injective digest, two collected documents share an id exactly
      when they come from the same link. */
  lemma IdsIdentifyLinks(site: Site, links: seq<Url>, sha256: string -> string, i: nat, j: nat)
    requires forall u, v :: sha256(u) == sha256(v) ==> u == v
    requires Collect(site, links, sha256).Success?
    requires i < |Collect(site, links, sha256).value| && j < |Collect(site, links, sha256).value|
    ensures var docs := Collect(site, links, sha256).value;
            docs[i].id == docs[j].id <==> docs[i].url == docs[j].url
  {
    CollectKeepsFetchedLinks(site, links, sha256);
  }

  /** `get_search_data`: the walk, then the collection over its links. It
      raises exactly when some found link's scrape raises, and a completed
      search names `base_url` unchanged. */
  function SearchData(site: Site, baseUrl: Url, sha256: string -> string, fuel: nat): (r: SearchOutcome)
    ensures r.WalkUnfinished? <==> CardLinks(site, baseUrl, fuel).stop == OutOfFuel
    ensures r.Raised? <==>
              var w := CardLinks(site, baseUrl, fuel);
              w.stop != OutOfFuel && exists i :: 0 <= i < |w.links| && CardData(site, w.links[i], sha256).Failure?
    ensures r.Completed? ==> r.documents.baseUrl == baseUrl
  {
    var w := CardLinks(site, baseUrl, fuel);
    CollectRaisesFirst(site, w.links, sha256);
    if w.stop == OutOfFuel then WalkUnfinished
    else match Collect(site, w.links, sha256)
      case Success(docs) => Completed(SearchDocuments(baseUrl, docs))
      case Failure(e) => Raised(e)
  }

  /** The search result names the base URL unchanged and holds no more
      documents than links were found, each for one of those links, in order. */
  lemma SearchDataResults(site: Site, baseUrl: Url, sha256: string -> string, fuel: nat)
    requires SearchData(site, baseUrl, sha256, fuel).Completed?
    ensures var d := SearchData(site, baseUrl, sha256, fuel).documents;
            var links := CardLinks(site, baseUrl, fuel).links;
            d.baseUrl == baseUrl && |d.results| <= |links|
            && Urls(d.results) == FetchedLinks(site, links)
            && forall i :: 0 <= i < |d.results| ==> d.results[i].url in links
  {
    var links := CardLinks(site, baseUrl, fuel).links;
    CollectKeepsFetchedLinks(site, links, sha256);
    var docs := Collect(site, links, sha256).value;
    forall i | 0 <= i < |docs| ensures docs[i].url in links {
      assert Urls(docs)[i] in FetchedLinks(site, links);
    }
  }

  class NewBuildingSpainScraper {
    const baseUrl: Url
    const headers: map<string, string>

    /** Stores the base URL and a User-Agent drawn once from the pool. */
    constructor (baseUrl: Url, pick: nat)
      ensures this.baseUrl == baseUrl
      ensures headers.Keys == {"User-Agent"} && headers["User-Agent"] in UserAgents
    {
      this.baseUrl := baseUrl;
      headers := map["User-Agent" := GetRandomUserAgent(pick)];
    }

    /** `get_card_links`, visiting at most `fuel` pages; `sleeps` counts the
        `time.sleep(2)` calls, one per parsed page, and `finished` is false
        when the fuel ran out before the walk ended. */
    method GetCardLinks(site: Site, fuel: nat) returns (links: seq<Url>, sleeps: nat, finished: bool)
      ensures var w := CardLinks(site, baseUrl, fuel);
              links == w.links && sleeps == |w.pages| && finished == (w.stop != OutOfFuel)
    {
      links := [];
      sleeps := 0;
      finished := true;
      var nextPageLink := FirstPageUrl(baseUrl);
      var budget := fuel;
      while nextPageLink.Some?
        invariant var whole, rest := CardLinks(site, baseUrl, fuel), WalkFrom(site, baseUrl, nextPageLink, budget);
                  links + rest.links == whole.links && sleeps + |rest.pages| == |whole.pages|
                  && rest.stop == whole.stop
        invariant finished
        decreases budget
      {
        if budget == 0 {
          finished := false;
          break;
        }
        var response := SendRequest(site, nextPageLink.value);
        if response.None? {
          break;
        }
        links := links + response.value.cardHrefs;
        nextPageLink := NextPageUrl(baseUrl, response.value);
        sleeps := sleeps + 1;
        budget := budget - 1;
      }
    }

    /** Fills `property_info` item by item. */
    static method BuildPropertyInfo(items: seq<ContentItem>) returns (propertyInfo: map<string, string>)
      ensures propertyInfo == PropertyInfo(items)
    {
      propertyInfo := map[];
      for i := 0 to |items|
        invariant propertyInfo == PropertyInfo(items[..i])
      {
        assert items[..i + 1][..i] == items[..i];
        var item := items[i];
        if item.name.Some? && item.value.Some? {
          propertyInfo := propertyInfo[Strip(item.name.value) := Strip(item.value.value)];
        }
      }
      assert items[..|items|] == items;
    }

    /** `scrape_card_data`. */
    method ScrapeCardData(site: Site, link: Url, sha256: string -> string) returns (r: Result<Option<Document>, ScrapeError>)
      ensures r == CardData(site, link, sha256)
    {
      var response := SendRequest(site, link);
      if response.None? {
        return Success(None);
      }
      var page := response.value;
      var refAt := FindFirst(page.divDataValues, IsSiteRefDiv);
      if refAt.None? {
        return Failure(NoSiteRef);
      }
      var siteRef := page.divDataValues[refAt.value].value;
      var targetAt := FindFirst(page.anchors, IsMapAnchor);
      if targetAt.None? {
        return Failure(NoMapAnchor);
      }
      var parent := page.anchors[targetAt.value].enclosingDivText;
      if parent.None? {
        return Failure(NoAddressBlock);
      }
      var address := Strip(parent.value);
      var propertyInfo := BuildPropertyInfo(page.contentItems);
      var extraInformation := ExtraInformation(page.iconTexts);
      r := Success(Some(Document(sha256(link), link, siteRef, address, propertyInfo, extraInformation)));
    }

    /** `get_search_data`. */
    method GetSearchData(site: Site, sha256: string -> string, fuel: nat) returns (r: SearchOutcome)
      ensures r == SearchData(site, baseUrl, sha256, fuel)
    {
      var cardLinks, _, finished := GetCardLinks(site, fuel);
      if !finished {
        return WalkUnfinished;
      }
      var allCardData: seq<Document> := [];
      for i := 0 to |cardLinks|
        invariant Collect(site, cardLinks[..i], sha256) == Success(allCardData)
      {
        assert cardLinks[..i + 1][..i] == cardLinks[..i];
        var cardData := ScrapeCardData(site, cardLinks[i], sha256);
        if cardData.Failure? {
          CollectFailurePersists(site, cardLinks, i + 1, sha256);
          return Raised(cardData.error);
        }
        if cardData.value.Some? {
          allCardData := allCardData + [cardData.value.value];
        }
      }
      assert cardLinks[..|cardLinks|] == cardLinks;
      r := Completed(SearchDocuments(baseUrl, allCardData));
    }
  }
}
