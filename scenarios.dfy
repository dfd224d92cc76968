/** A worked crawl over a small fixed site: one index page with two cards
    and no next control, and two listings that both extract. */
module Scenarios {
  import opened Wrappers
  import opened PyStrings
  import opened NewBuildingSpain

  const Base: Url := "https://ex.test/new"
  /** The card hrefs are absolute URLs, which is what `requests.get` needs:
      a scheme-less href would be a `RequestException`. */
  const LinkA: Url := "https://ex.test/a"
  const LinkB: Url := "https://ex.test/b"
  const IndexPage: Page := Page([LinkA, LinkB], None, [], [], [], [])

  function ListingPage(address: string, name: string, value: string): Page {
    Page([], None, [None, Some("ON-1234")],
         [Anchor(Some("Home"), None), Anchor(Some(MapAnchorText), Some(" " + address + "\n"))],
         [ContentItem(Some(name), Some(" " + value)), ContentItem(Some("Garage"), None)],
         [Some(" Pool"), None])
  }

  function ExampleSite(u: Url): Fetch {
    if u == Base then Response(200, IndexPage)
    else if u == LinkA then Response(200, ListingPage("Calle Mayor 1", "Price", "100"))
    else if u == LinkB then Response(200, ListingPage("Calle Sol 2", "Size", "80"))
    else RequestException
  }

  lemma SiteRefFound()
    ensures FindFirst([None, Some("ON-1234")], IsSiteRefDiv) == Some(1)
  {
    var xs: seq<Option<string>> := [None, Some("ON-1234")];
    assert "ON-1234"[..2] == "ON";
    assert xs[1..] == [Some("ON-1234")];
    assert FindFirst(xs[1..], IsSiteRefDiv) == Some(0);
  }

  lemma MapAnchorFound(enclosing: string)
    ensures FindFirst([Anchor(Some("Home"), None), Anchor(Some(MapAnchorText), Some(enclosing))], IsMapAnchor) == Some(1)
  {
    var xs := [Anchor(Some("Home"), None), Anchor(Some(MapAnchorText), Some(enclosing))];
    assert "Home" != MapAnchorText by { assert |"Home"| != |MapAnchorText|; }
    assert xs[1..] == [xs[1]];
    assert FindFirst(xs[1..], IsMapAnchor) == Some(0);
  }

  lemma ListingExtracts(address: string, name: string, value: string, link: Url, sha256: string -> string)
    requires IsStripped(address)
    ensures ExtractDocument(ListingPage(address, name, value), link, sha256).Success?
    ensures ExtractDocument(ListingPage(address, name, value), link, sha256).value.address == address
    ensures ExtractDocument(ListingPage(address, name, value), link, sha256).value.url == link
  {
    var enclosing := " " + address + "\n";
    SiteRefFound();
    MapAnchorFound(enclosing);
    assert AllSpace(" ") && AllSpace("\n");
    StripCharacterised(" ", address, "\n");
  }

  lemma ExampleWalk()
    ensures CardLinks(ExampleSite, Base, 1) == Walk([Base], [LinkA, LinkB], NoNextPage)
  {
    assert SendRequest(ExampleSite, Base) == Some(IndexPage);
    assert NextPageUrl(Base, IndexPage) == None;
  }

  lemma ExampleDocument(address: string, name: string, value: string, link: Url, sha256: string -> string)
    requires IsStripped(address)
    requires ExampleSite(link) == Response(200, ListingPage(address, name, value))
    ensures CardData(ExampleSite, link, sha256).Success? && CardData(ExampleSite, link, sha256).value.Some?
    ensures CardData(ExampleSite, link, sha256).value.value.address == address
    ensures CardData(ExampleSite, link, sha256).value.value.url == link
  {
    ListingExtracts(address, name, value, link, sha256);
  }

  /** One more link at the end of the list, whose card gives a document. */
  lemma CollectSnocDocument(site: Site, init: seq<Url>, last: Url, sha256: string -> string,
                            docs: seq<Document>, d: Document)
    requires Collect(site, init, sha256) == Success(docs)
    requires CardData(site, last, sha256) == Success(Some(d))
    ensures Collect(site, init + [last], sha256) == Success(docs + [d])
  {
    var links := init + [last];
    assert links[..|links| - 1] == init && links[|links| - 1] == last;
  }

  /** One more link at the end of the list, whose card raises. */
  lemma CollectSnocRaises(site: Site, init: seq<Url>, last: Url, sha256: string -> string, e: ScrapeError)
    requires Collect(site, init, sha256).Success?
    requires CardData(site, last, sha256) == Failure(e)
    ensures Collect(site, init + [last], sha256) == Failure(e)
  {
    var links := init + [last];
    assert links[..|links| - 1] == init && links[|links| - 1] == last;
  }

  lemma Pair<T>(a: T, b: T)
    ensures [a] + [b] == [a, b]
  {
  }

  /** Collecting one link whose card gives a document, on any site. */
  lemma CollectOne(site: Site, x: Url, sha256: string -> string, dx: Document)
    requires CardData(site, x, sha256) == Success(Some(dx))
    ensures Collect(site, [x], sha256) == Success([dx])
  {
    assert Collect(site, [], sha256) == Success([]);
    CollectSnocDocument(site, [], x, sha256, [], dx);
    assert [] + [x] == [x];
    assert [] + [dx] == [dx];
  }

  /** Collecting two links that both give a document, on any site. */
  lemma CollectTwo(site: Site, x: Url, y: Url, sha256: string -> string, dx: Document, dy: Document)
    requires CardData(site, x, sha256) == Success(Some(dx))
    requires CardData(site, y, sha256) == Success(Some(dy))
    ensures Collect(site, [x, y], sha256) == Success([dx, dy])
  {
    CollectOne(site, x, sha256, dx);
    CollectSnocDocument(site, [x], y, sha256, [dx], dy);
    Pair(x, y);
    Pair(dx, dy);
  }

  /** Collecting two links where the second one's scrape raises, on any site. */
  lemma CollectSecondRaises(site: Site, x: Url, y: Url, sha256: string -> string, dx: Document, e: ScrapeError)
    requires CardData(site, x, sha256) == Success(Some(dx))
    requires CardData(site, y, sha256) == Failure(e)
    ensures Collect(site, [x, y], sha256) == Failure(e)
  {
    CollectOne(site, x, sha256, dx);
    CollectSnocRaises(site, [x], y, sha256, e);
    Pair(x, y);
  }

  lemma ExampleCollect(sha256: string -> string)
    ensures var r := Collect(ExampleSite, [LinkA, LinkB], sha256);
            r.Success? && |r.value| == 2
            && r.value[0].url == LinkA && r.value[0].address == "Calle Mayor 1"
            && r.value[1].url == LinkB && r.value[1].address == "Calle Sol 2"
  {
    assert IsStripped("Calle Mayor 1") && IsStripped("Calle Sol 2");
    assert ExampleSite(LinkA) == Response(200, ListingPage("Calle Mayor 1", "Price", "100"));
    assert ExampleSite(LinkB) == Response(200, ListingPage("Calle Sol 2", "Size", "80"));
    ExampleDocument("Calle Mayor 1", "Price", "100", LinkA, sha256);
    ExampleDocument("Calle Sol 2", "Size", "80", LinkB, sha256);
    CollectTwo(ExampleSite, LinkA, LinkB, sha256,
               CardData(ExampleSite, LinkA, sha256).value.value, CardData(ExampleSite, LinkB, sha256).value.value);
  }

  /** Both cards become documents, in card order, with their trimmed addresses. */
  lemma TwoCardSearch(sha256: string -> string)
    ensures var r := SearchData(ExampleSite, Base, sha256, 1);
            r.Completed? && r.documents.baseUrl == Base && |r.documents.results| == 2
            && r.documents.results[0].url == LinkA && r.documents.results[0].address == "Calle Mayor 1"
            && r.documents.results[1].url == LinkB && r.documents.results[1].address == "Calle Sol 2"
  {
    ExampleWalk();
    ExampleCollect(sha256);
  }

  /** The same site, but the second listing has no "See on the map" anchor. */
  function BrokenSite(u: Url): Fetch {
    if u == LinkB then Response(200, ListingPage("Calle Sol 2", "Size", "80").(anchors := []))
    else ExampleSite(u)
  }

  lemma BrokenSiteWalk()
    ensures CardLinks(BrokenSite, Base, 1) == Walk([Base], [LinkA, LinkB], NoNextPage)
  {
    assert SendRequest(BrokenSite, Base) == Some(IndexPage);
    assert NextPageUrl(Base, IndexPage) == None;
  }

  lemma BrokenSiteFirstListing(sha256: string -> string)
    ensures CardData(BrokenSite, LinkA, sha256).Success? && CardData(BrokenSite, LinkA, sha256).value.Some?
  {
    assert IsStripped("Calle Mayor 1");
    assert BrokenSite(LinkA) == ExampleSite(LinkA);
    ListingExtracts("Calle Mayor 1", "Price", "100", LinkA, sha256);
  }

  lemma BrokenSiteSecondListing(sha256: string -> string)
    ensures CardData(BrokenSite, LinkB, sha256) == Failure(NoMapAnchor)
  {
    SiteRefFound();
    var page := ListingPage("Calle Sol 2", "Size", "80").(anchors := []);
    assert SendRequest(BrokenSite, LinkB) == Some(page);
    assert ExtractDocument(page, LinkB, sha256) == Failure(NoMapAnchor);
  }

  /** A listing without the map anchor does not shrink the result by one:
      its `AttributeError` ends the whole search. */
  lemma BrokenListingRaises(sha256: string -> string)
    ensures SearchData(BrokenSite, Base, sha256, 1) == Raised(NoMapAnchor)
  {
    BrokenSiteWalk();
    BrokenSiteFirstListing(sha256);
    BrokenSiteSecondListing(sha256);
    CollectSecondRaises(BrokenSite, LinkA, LinkB, sha256, CardData(BrokenSite, LinkA, sha256).value.value, NoMapAnchor);
  }
}
