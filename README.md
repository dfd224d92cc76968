# NewBuildingSpain scraper and Idealista API session, in Dafny

This project models two pieces of the idealista-api-client repository and proves properties about them.

**The NewBuildingSpain scraper** (`src/scraper/newbuildingspain.py`) works in two stages:

1. It walks the paginated listing index. It starts at `base_url` and follows the `pagination__item--next` control, collecting every `card__link` href.
2. It fetches each listing. From each one it extracts a document with these fields: `id` (SHA-256 of the link), `url`, `site_ref`, `address`, `property_information` and `extra_information`.

The model replaces the outside world as follows:

- The site is an oracle (`Site`) from URL to fetch outcome. An outcome is a response with a status code and a page, or a `RequestException`.
- A fetched page (`Page`) is the record of what the scraper's markup queries find in it. Each list is in document order:
  - the card hrefs;
  - the href of the first next control;
  - every `div`'s `data-value`;
  - every `a` with its string and the text of its nearest enclosing `div`;
  - the name and value texts of every contents item;
  - the icon-text span of every `li.item`.
- SHA-256 is a parameter `sha256: string -> string`.

**The Idealista `APISession`** (`src/api/idealista/session.py`) is a class that creates its HTTP session lazily:

- With a stored token, it installs a Bearer `Authorization` header (section 2.1 of RFC 6750).
- With no token but an API key and secret, it first obtains a token through the OAuth client-credentials grant (section 4.4 of RFC 6749). The token request carries a Basic `Authorization` header (section 2 of RFC 7617), encoded in base64 (section 4 of RFC 4648).
- With neither, it raises `ValueError`.

The token endpoint is an oracle (`TokenEndpoint`). `requests.Session` is reduced to its header dictionary (`HttpSession`).

Modules:

- `Wrappers`: `Option` and `Result`.
- `PyStrings`: Python truthiness, `startswith`, f-string formatting, and `str.strip()` with Python's whitespace set.
- `Base64`: the encoder, an inverse decoder, and the ASCII codec.
- `NewBuildingSpain`: the scraper.
- `IdealistaSession`: the session.
- `Scenarios`: the worked crawls.

### Behaviour worth noting

- **Sleeps.** `time.sleep(2)` runs after every parsed index page, the last one included (newbuildingspain.py:69).
- **Missing `ON` reference.** When no `ON`-prefixed `data-value` exists, `site_ref` is not null: `.get` on `None` raises `AttributeError` (newbuildingspain.py:84).
- **Missing map anchor.** When the "See on the map" anchor is missing, the listing is not skipped: `AttributeError` propagates out of `get_search_data` and ends the whole search (newbuildingspain.py:85-86, 39). `Scenarios.BrokenListingRaises` shows this on a two-listing site.
- **Lazy `ValueError`.** The `ValueError` described in `APISession.__init__`'s docstring is raised on the first `session` access, not at construction.

## Model

| member | source | states |
|---|---|---|
| `PyStrings.Strip` | src/scraper/newbuildingspain.py:86 | `str.strip()` returns a string no longer than its input with no Python whitespace at either end |
| `PyStrings.StripCharacterised` | src/scraper/newbuildingspain.py:93 | strip removes exactly the surrounding whitespace: for whitespace runs a, b and a stripped core m, strip(a+m+b) = m |
| `PyStrings.StripIdempotent` | src/scraper/newbuildingspain.py:86 | stripping twice equals stripping once |
| `Base64.CharOf` | src/api/idealista/session.py:69 | each 6-bit value maps to a character of the RFC 4648 alphabet, and `IndexOf` maps it back |
| `Base64.Encode` | src/api/idealista/session.py:69 | `b64encode` output has length 4·⌈n/3⌉ and uses only alphabet characters and `=` |
| `Base64.DecodeEncode` | src/api/idealista/session.py:69 | decoding the encoding of any octet string gives that string back |
| `Base64.EncodeDecode` | src/api/idealista/session.py:69 | the decoder accepts only canonical encodings (zero pad bits, as section 3.5 of RFC 4648 requires): every string it accepts is the encoding of what it decodes to |
| `Base64.AsciiEncode` | src/api/idealista/session.py:69 | `encode('ascii')` succeeds iff every code point is below 128, one octet per character equal to its code |
| `IdealistaSession.BearerValue` | src/api/idealista/session.py:61 | the header value is "Bearer " followed by the token itself, or by "None" when there is no token |
| `IdealistaSession.BasicAuthorization` | src/api/idealista/session.py:68-71 | a header is produced iff `key:secret` is all ASCII; it is "Basic " followed by 4·⌈(n+1)/3⌉ characters, for key and secret of total length n, that base64-decode to exactly the ASCII octets of `key:secret`, whatever the key contains |
| `IdealistaSession.BasicCredentialsRoundTrip` | src/api/idealista/session.py:68-71 | a server splitting the Basic header at the first colon recovers exactly the key and the secret (key without colon) |
| `IdealistaSession.BuildTokenRequest` | src/api/idealista/session.py:67-77 | raises the ASCII error iff `key:secret` has a non-ASCII character; otherwise the request goes to `base_url + "/oauth/token"` with exactly an Authorization header (the `BasicAuthorization` value, so decoding to key and secret) and the form content type, and the form `grant_type=client_credentials`, `scope=read` |
| `IdealistaSession.GetOAuthToken` | src/api/idealista/session.py:63-87 | yields a token iff the request was sent, the reply is not 4xx/5xx, and its JSON object holds a non-empty `access_token` (the token returned). It fails with a `ValueError` iff the credentials are not ASCII, or the request fails, or the reply is 4xx/5xx, not JSON, or a JSON object with a missing or empty token; a non-object JSON reply escapes as `AttributeError` |
| `IdealistaSession.SessionToken` | src/api/idealista/session.py:49-55 | a truthy stored token is used as is; otherwise a truthy key and secret fetch one; `MissingCredentials` is raised iff there is no truthy token and no truthy key/secret pair (empty string counts as absent); any token installed is non-empty |
| `IdealistaSession.APISession.constructor` | src/api/idealista/session.py:8-30 | stores its four arguments, creates no session, never raises |
| `IdealistaSession.APISession.UpdateSessionWithToken` | src/api/idealista/session.py:57-61 | sets `Authorization` to `"Bearer " + token` and leaves every other header unchanged |
| `IdealistaSession.APISession.CreateSession` | src/api/idealista/session.py:43-55 | always stores a fresh session. On success the token is stored and the session holds exactly the Bearer header. On failure the exception is reported, the token is unchanged and the session has no Authorization header |
| `IdealistaSession.APISession.Session` | src/api/idealista/session.py:32-41 | first access behaves as `CreateSession`. Later accesses return the same session object, re-apply the Bearer header when a token is stored, and create nothing |
| `IdealistaSession.RepeatedAccessWithToken` | src/api/idealista/session.py:37-41 | with a non-empty token, two accesses return the same session, whose headers are exactly `Authorization: Bearer <token>` |
| `IdealistaSession.AccessWithKeyAndSecret` | src/api/idealista/session.py:51-53 | with key and secret only, the first access succeeds iff the token fetch does; the fetched token is stored and installed as Bearer header; on failure the fetch's error is raised and nothing is stored |
| `IdealistaSession.RetryWithoutCredentials` | src/api/idealista/session.py:37-55 | as written, without credentials the first access raises `MissingCredentials` and the second returns a session with no Authorization header |
| `IdealistaSession.APISession.CheckedSession` | src/api/idealista/session.py:32-55 | corrected access: keeps the invariant that a stored session carries the stored token's Bearer header; a failed creation stores nothing and re-raises on the next access |
| `IdealistaSession.RetryWithoutCredentialsChecked` | src/api/idealista/session.py:54-55 | with the corrected access, every access without credentials raises `MissingCredentials` |
| `NewBuildingSpain.GetRandomUserAgent` | src/scraper/newbuildingspain.py:18-26 | the chosen User-Agent is a member of the pool |
| `NewBuildingSpain.NewBuildingSpainScraper.constructor` | src/scraper/newbuildingspain.py:10-16 | stores `base_url` and a header map holding only a User-Agent drawn from the pool |
| `NewBuildingSpain.SendRequest` | src/scraper/newbuildingspain.py:108-121 | a page is returned iff the fetch produced a response with status 200, and it is that response's page; any other status or a `RequestException` gives `None` |
| `NewBuildingSpain.FindFirst` | src/scraper/newbuildingspain.py:84-85 | `soup.find` returns the first element satisfying the predicate, or nothing iff none does |
| `NewBuildingSpain.FirstPageUrl` | src/scraper/newbuildingspain.py:54-56 | the loop starts at `base_url` exactly when it is truthy (non-empty) |
| `NewBuildingSpain.NextPageUrl` | src/scraper/newbuildingspain.py:66-68 | there is a next page iff the page has a next control with a non-empty href; its URL is `base_url` followed by that href, by plain concatenation |
| `NewBuildingSpain.WalkFrom` | src/scraper/newbuildingspain.py:56-69 | with no next URL nothing is visited and the walk stops with `NoNextPage`; the first page visited is the pending next URL; at most `fuel` pages are visited, and the bound is reported only when exactly `fuel` pages were visited with a URL still pending |
| `NewBuildingSpain.CardLinks` | src/scraper/newbuildingspain.py:49-72 | an empty `base_url` visits nothing and yields no links; otherwise the first page visited is `base_url` |
| `NewBuildingSpain.WalkVisitsChain` | src/scraper/newbuildingspain.py:53-68 | links are the card hrefs of the visited pages in visit and document order. Every visited page was fetched with status 200. The first page is the start URL. Each later page is `base_url + href` of the previous page's next control, by plain concatenation |
| `NewBuildingSpain.WalkStops` | src/scraper/newbuildingspain.py:56-69 | the walk ends with `NoNextPage` iff there is no truthy next link after the last page (or `base_url` is empty). It ends with `FetchFailed(u)` only when `u` is the next URL and its fetch failed, keeping the links gathered so far. It runs out of fuel only after exactly `fuel` pages with a next URL pending |
| `NewBuildingSpain.WalkFuelIrrelevant` | src/scraper/newbuildingspain.py:56-69 | a walk that ends within its fuel ends identically with any larger fuel |
| `NewBuildingSpain.SelfLinkedPageNeverStops` | src/scraper/newbuildingspain.py:56-68 | a page whose next href leads back to itself exhausts any fuel: the source's loop does not terminate |
| `NewBuildingSpain.NewBuildingSpainScraper.GetCardLinks` | src/scraper/newbuildingspain.py:49-72 | the loop returns the walk's links, sleeps once per parsed page (the last included), and reports whether the walk ended within the fuel |
| `NewBuildingSpain.IsSiteRefDiv` | src/scraper/newbuildingspain.py:84 | a div matches iff it has a `data-value` whose first two characters are "ON"; a div without the attribute never matches |
| `NewBuildingSpain.IsMapAnchor` | src/scraper/newbuildingspain.py:85 | an anchor whose string is exactly "See on the map" matches; one with any other string, or with no single string, does not |
| `NewBuildingSpain.PropertyInfoKeys` | src/scraper/newbuildingspain.py:87-93 | the keys of `property_information` are exactly the stripped names of the items having both a name and a value div |
| `NewBuildingSpain.PropertyInfoLastWins` | src/scraper/newbuildingspain.py:89-93 | each key maps to the stripped value of the last complete item with that stripped name (later duplicates overwrite) |
| `NewBuildingSpain.NewBuildingSpainScraper.BuildPropertyInfo` | src/scraper/newbuildingspain.py:88-93 | the loop builds exactly `PropertyInfo` of the items |
| `NewBuildingSpain.PresentCount` | src/scraper/newbuildingspain.py:95 | the number of items with an icon-text span is at most the number of items, and equal to it iff every item has one |
| `NewBuildingSpain.ExtraInformation` | src/scraper/newbuildingspain.py:94-95 | `extra_information` has exactly one entry per `li.item` that has an icon-text span (`PresentCount`) |
| `NewBuildingSpain.ExtraInformationKeepsEvery` | src/scraper/newbuildingspain.py:95 | a text is in `extra_information` iff some item's icon-text span has exactly that text, unstripped |
| `NewBuildingSpain.ExtraInformationAppend` | src/scraper/newbuildingspain.py:95 | the comprehension keeps order: items of a concatenation contribute in turn |
| `NewBuildingSpain.ExtractDocument` | src/scraper/newbuildingspain.py:83-106 | raises `NoSiteRef` iff no div's `data-value` starts with "ON"; `NoMapAnchor` iff there is such a div but no "See on the map" anchor; `NoAddressBlock` iff the first such anchor has no enclosing div. A document's `id` is `sha256(link)`, its `url` the link, its `site_ref` the `data-value` of the first "ON" div, its address the stripped text of the first map anchor's enclosing div, and its two information fields are `PropertyInfo` and `ExtraInformation` of the page |
| `NewBuildingSpain.CardData` | src/scraper/newbuildingspain.py:74-82 | `scrape_card_data` returns `None` iff the fetch fails; a returned document has the link as `url` and `sha256(link)` as `id` |
| `NewBuildingSpain.CardDataExtracts` | src/scraper/newbuildingspain.py:78-106 | on a fetched page, `scrape_card_data` raises iff extraction raises, and then the same error; otherwise it returns exactly the document extraction gives |
| `NewBuildingSpain.NewBuildingSpainScraper.ScrapeCardData` | src/scraper/newbuildingspain.py:74-106 | the method computes `CardData` |
| `NewBuildingSpain.Collect` | src/scraper/newbuildingspain.py:38-41 | the loop collects no more documents than there are links |
| `NewBuildingSpain.FetchedLinks` | src/scraper/newbuildingspain.py:38-41 | the links kept are no more than the links given, and a URL is kept iff it is one of the given links and its fetch succeeds |
| `NewBuildingSpain.CollectKeepsFetchedLinks` | src/scraper/newbuildingspain.py:38-41 | the collected documents' urls are exactly the links whose fetch succeeded, in link order, each document the one extracted for its link |
| `NewBuildingSpain.CollectRaisesFirst` | src/scraper/newbuildingspain.py:38-41 | collection raises iff some link's scrape raises, and then raises the error of the first such link, all earlier links having succeeded |
| `NewBuildingSpain.CollectFailurePersists` | src/scraper/newbuildingspain.py:38-41 | an exception raised on a prefix of the links is the result for the whole list |
| `NewBuildingSpain.IdsIdentifyLinks` | src/scraper/newbuildingspain.py:96-100 | with an injective digest, two collected documents share an id iff they share a url |
| `NewBuildingSpain.SearchData` | src/scraper/newbuildingspain.py:28-47 | the search is unfinished iff the walk hit its bound; otherwise it raises iff some found link's scrape raises; a completed search names `base_url` unchanged |
| `NewBuildingSpain.SearchDataResults` | src/scraper/newbuildingspain.py:28-47 | a completed search returns `base_url` unchanged. It holds no more documents than links, their urls are exactly the fetched links in order, and each is one of the links |
| `NewBuildingSpain.NewBuildingSpainScraper.GetSearchData` | src/scraper/newbuildingspain.py:28-47 | the method computes `SearchData`: the walk, then the loop over its links that keeps the non-`None` documents or stops at the first exception |
| `Scenarios.TwoCardSearch` | src/scraper/newbuildingspain.py:28-47 | an index page with two cards and no next control, and two good listings, give two documents in card order with the trimmed addresses |
| `Scenarios.BrokenListingRaises` | src/scraper/newbuildingspain.py:84-86 | on that site with the second listing's map anchor removed, the search raises `NoMapAnchor` instead of returning one document |

## Findings

| source | as written | input that shows it | evidently intended | confidence | as-written member | corrected member |
|---|---|---|---|---|---|---|
| src/api/idealista/session.py:43-55 | `_create_session` assigns `self._session` before it raises, and a `requests.Session` is truthy. The next `session` access therefore skips creation and returns that session, with no Authorization header and no exception. The same happens after a failed token fetch | `APISession()` with no token, key or secret, `session` accessed twice | every access without usable credentials raises `ValueError`; a session is handed out only with its Bearer header | high (not executed) | `IdealistaSession.RetryWithoutCredentials` | `IdealistaSession.APISession.CheckedSession` |

## Left out

- HTTP (`requests.get`, `requests.post`, `requests.Session`) is left out. The site and the token endpoint are deterministic oracles.
- The site oracle alone decides which URLs fail. `requests.get` raises a `RequestException` for a URL with no scheme, such as a relative card href; the model does not check URL syntax, so such a URL fails only when the oracle says so. The User-Agent header is stored but the model does not let the server's answer depend on request headers.
- `requests.Session` starts from the library's default headers. The model starts from an empty header map and states only the Authorization entry.
- BeautifulSoup parsing is left out; a page is the record of its query results. A `BeautifulSoup` object is always truthy, so the `if soup` guard at newbuildingspain.py:66 always holds and is not modelled.
- `property_information` is a `map`, which has no order. A Python dict keeps insertion order, and a later duplicate label keeps the position of the first one; the model does not record positions.
- JSON decoding is reduced to three cases: not JSON, an object with an optional string `access_token`, and any other JSON value. An `access_token` that is a non-string JSON value is not modelled.
- SHA-256 and its UTF-8 encoding of the link are the parameter `sha256`.
- `random.choice` is the parameter `pick`.
- `tqdm` progress, `logging`, and the wall-clock effect of `time.sleep` are left out. Sleeps are counted instead.
- NewBuildingSpain.NewBuildingSpainScraper.GetCardLinks: visits at most `fuel` pages, because the source's loop has no bound and never ends on a cyclic next link (`SelfLinkedPageNeverStops`). `WalkFuelIrrelevant` shows that a walk that ends is not affected by the bound.
- NewBuildingSpain.NewBuildingSpainScraper.GetSearchData: returns `WalkUnfinished` when that bound is reached. This covers two source behaviours: a finite chain of pages longer than the fuel, which the source would finish, and a chain that never ends, where the source never returns (`SelfLinkedPageNeverStops`).
- The scraper's `base_url` is a string. The session's `api_key`, `api_secret` and `auth_token` are strings or `None`. The token request is built only from truthy key and secret, as its only caller does.
- `src/api/idealista/client.py` is not part of this model. It only appends an endpoint path to `base_url` and posts through the session.
