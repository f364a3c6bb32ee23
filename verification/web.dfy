/** The selector-list scraper (`scrapeWebsite`, `scrapeAllWebsites`). Each source names a
    container selector and comma-separated lists of field selectors; every matched
    container element yields a record when its title is recall-related. Container selectors
    are tried in a fixed order, and the first that yields a record ends the search.

    The browser and the HTML parser are abstracted: loading a URL gives the elements each
    container selector matches, and an element tells what its first descendant matching a
    field selector holds. */
module WebScraper {
  import opened Wrappers
  import opened Strings
  import opened Seqs
  import Dates
  import Sorting
  import opened Records

  /** `ScrapingSource.selectors`. */
  datatype Selectors = Selectors(
    container: string,
    title: string,
    link: string,
    date: Option<string>,
    description: Option<string>)

  /** `ScrapingSource`. */
  datatype ScrapingSource = ScrapingSource(name: string, url: string, category: string, selectors: Selectors)

  /** A matched container element as `$element.find(selector).first()` sees it: for each
      selector with a match, the text content of the first match, and the `href` attribute
      of the first match when it has one. */
  datatype Element = Element(texts: map<string, string>, hrefs: map<string, string>)

  /** `$(selector)` on the loaded page: the matched elements in document order. */
  type Document = map<string, seq<Element>>

  /** Navigating to a URL and parsing its content, or the error that aborts the source. */
  type Load = string -> Result<Document>

  /** `.text()` of the first match; "" when nothing matches. */
  function TextAt(e: Element, selector: string): string {
    if selector in e.texts then e.texts[selector] else ""
  }

  /** `.attr('href') || ''` of the first match. */
  function HrefAt(e: Element, selector: string): string {
    if selector in e.hrefs then e.hrefs[selector] else ""
  }

  function Matches(doc: Document, selector: string): seq<Element> {
    if selector in doc then doc[selector] else []
  }

  /** `list.split(', ')`. */
  function SelectorList(list: string): (r: seq<string>)
    ensures |r| >= 1 && Join(r, ", ") == list
    ensures forall k | 0 <= k < |r| :: !Contains(r[k], ", ")
  {
    JoinSplit(list, ", ");
    Split(list, ", ")
  }

  /** The trimmed text of the first match of each selector, in order. */
  function TrimmedTexts(e: Element, selectors: seq<string>): (r: seq<string>)
    ensures |r| == |selectors|
    ensures forall j | 0 <= j < |r| :: r[j] == Trim(TextAt(e, selectors[j]))
  {
    seq(|selectors|, j requires 0 <= j < |selectors| => Trim(TextAt(e, selectors[j])))
  }

  /** The first non-empty trimmed text over a selector list, else "": the title and
      description chains. */
  function FirstText(e: Element, selectors: seq<string>): (r: string)
    ensures r == [] <==> forall j | 0 <= j < |selectors| :: Trim(TextAt(e, selectors[j])) == []
    ensures forall j | 0 <= j < |selectors| && Trim(TextAt(e, selectors[j])) != []
                       && (forall m | 0 <= m < j :: Trim(TextAt(e, selectors[m])) == []) ::
              r == Trim(TextAt(e, selectors[j]))
  {
    FirstNonEmpty(TrimmedTexts(e, selectors))
  }

  /** The raw `href` of the first match of each selector, in order. */
  function Hrefs(e: Element, selectors: seq<string>): (r: seq<string>)
    ensures |r| == |selectors|
    ensures forall j | 0 <= j < |r| :: r[j] == HrefAt(e, selectors[j])
  {
    seq(|selectors|, j requires 0 <= j < |selectors| => HrefAt(e, selectors[j]))
  }

  /** The link chain: the first non-empty `href` over the link selectors, untrimmed, and
      failing that the `href` of the element's first anchor. */
  function RawLink(e: Element, selectors: seq<string>): (r: string)
    ensures (forall j | 0 <= j < |selectors| :: HrefAt(e, selectors[j]) == []) ==> r == HrefAt(e, "a")
    ensures forall j | 0 <= j < |selectors| && HrefAt(e, selectors[j]) != []
                       && (forall m | 0 <= m < j :: HrefAt(e, selectors[m]) == []) ::
              r == HrefAt(e, selectors[j])
  {
    OrElse(FirstNonEmpty(Hrefs(e, selectors)), HrefAt(e, "a"))
  }

  // ---------------------------------------------------------------------------------------
  // Link resolution

  /** Where the authority of a URL ends: the first `/`, `?` or `#` at or after `k`. */
  function AuthorityEnd(url: string, k: nat): (e: nat)
    requires k <= |url|
    ensures k <= e <= |url|
    ensures forall m | k <= m < e :: url[m] != '/' && url[m] != '?' && url[m] != '#'
    ensures e == |url| || url[e] == '/' || url[e] == '?' || url[e] == '#'
    decreases |url| - k
  {
    if k == |url| || url[k] == '/' || url[k] == '?' || url[k] == '#' then k else AuthorityEnd(url, k + 1)
  }

  /** `://` starts at `m`. */
  predicate SchemeMarkAt(url: string, m: int) {
    0 <= m && m + 3 <= |url| && url[m..m + 3] == "://"
  }

  /** The position of the first `://` at or after `k`, if any. */
  function SchemeEnd(url: string, k: nat): (r: Option<nat>)
    requires k <= |url|
    ensures r.Some? ==> k <= r.value && SchemeMarkAt(url, r.value)
    ensures r.None? ==> forall m | k <= m :: !SchemeMarkAt(url, m)
    ensures forall m | k <= m && SchemeMarkAt(url, m) :: r.Some? && r.value <= m
    decreases |url| - k
  {
    if k + 3 > |url| then None
    else if url[k..k + 3] == "://" then Some(k)
    else SchemeEnd(url, k + 1)
  }

  /** `new URL(url).origin` for a URL with a scheme and a host: everything before the path.
      A URL without either makes the constructor throw. */
  function Origin(url: string): (r: Option<string>)
    ensures r.Some? ==> r.value <= url && Contains(r.value, "://")
  {
    match SchemeEnd(url, 0)
    case None => None
    case Some(i) =>
      var e := AuthorityEnd(url, i + 3);
      if i == 0 || e == i + 3 then None
      else
        assert url[..e][i..] == url[i..e];
        Some(url[..e])
  }

  /** `link.startsWith('http') ? link : origin + link`. */
  function Resolve(origin: string, link: string): (r: string)
    ensures StartsWith(link, "http") ==> r == link
    ensures !StartsWith(link, "http") ==> r == origin + link
  {
    if StartsWith(link, "http") then link else origin + link
  }

  /** The raw link always survives as the tail of the resolved one. */
  lemma ResolveKeepsLink(origin: string, link: string)
    ensures exists i | 0 <= i <= |Resolve(origin, link)| :: Resolve(origin, link)[i..] == link
  {
    var r := Resolve(origin, link);
    if StartsWith(link, "http") {
      assert r[0..] == link;
    } else {
      assert r[|origin|..] == link;
    }
  }

  /** A keyword of the raw link is still in the resolved link. */
  lemma ResolveKeepsWords(origin: string, link: string, words: seq<string>)
    ensures ContainsAny(link, words) ==> ContainsAny(Resolve(origin, link), words)
  {
    if ContainsAny(link, words) && !StartsWith(link, "http") {
      ContainsAnyAfter(origin, link, words);
    }
  }

  /** Resolving twice changes nothing when the origin itself starts with `http`. */
  lemma ResolveIdempotent(origin: string, link: string)
    requires StartsWith(origin, "http")
    ensures Resolve(origin, Resolve(origin, link)) == Resolve(origin, link)
  {
    if !StartsWith(link, "http") {
      assert (origin + link)[..4] == origin[..4];
    }
  }

  // ---------------------------------------------------------------------------------------
  // One element, one container selector, one source

  const TitleWords: seq<string> := ["recall", "alert", "safety"]
  const LinkWords: seq<string> := ["recall", "alert"]

  /** The keyword gate: a non-empty title that mentions a recall word, or a raw link that does. */
  predicate Relevant(title: string, link: string) {
    title != [] && (MentionsAny(title, TitleWords) || ContainsAny(link, LinkWords))
  }

  /** `(selectors.date || '.date').split(', ')` and its description counterpart: a missing
      or empty selector string falls back to the default. */
  function DateSelectors(s: Selectors): seq<string> {
    SelectorList(OrElse(s.date.GetOr(""), ".date"))
  }

  function DescriptionSelectors(s: Selectors): seq<string> {
    SelectorList(OrElse(s.description.GetOr(""), ".description"))
  }

  /** An empty date or description selector string behaves as a missing one. */
  lemma EmptySelectorFallsBack(s: Selectors)
    ensures s.date == Some("") ==> DateSelectors(s) == DateSelectors(s.(date := None))
    ensures s.description == Some("") ==>
              DescriptionSelectors(s) == DescriptionSelectors(s.(description := None))
  {
  }

  /** The date chain: the first non-empty trimmed date text, kept as written, or today's
      date when no date selector yields any text. */
  function DateText(e: Element, selectors: seq<string>, now: Now): (r: string)
    ensures r != []
    ensures FirstText(e, selectors) != [] ==> r == FirstText(e, selectors)
    ensures FirstText(e, selectors) == [] ==> r == Dates.Format(now.today)
  {
    OrElse(FirstText(e, selectors), Dates.Format(now.today))
  }

  /** `${source.name.toLowerCase()}-scraped-${Date.now()}-${index}`. */
  function WebId(src: ScrapingSource, now: Now, index: nat): string {
    ToLower(src.name) + "-scraped-" + NatToString(now.timestamp) + "-" + NatToString(index)
  }

  /** What a record of source `src` says about itself, whatever element it came from. */
  ghost predicate FromWebSource(src: ScrapingSource, origin: string, rec: Recall) {
    && rec.source == src.name
    && rec.category == Some(src.category)
    && rec.title != [] && !IsSpace(rec.title[0]) && !IsSpace(rec.title[|rec.title| - 1])
    && (MentionsAny(rec.title, TitleWords) || ContainsAny(rec.link, LinkWords))
    && (StartsWith(rec.link, "http") || StartsWith(rec.link, origin))
    && rec.date != []
    && rec.description.Some?
    && rec.manufacturer.None?
  }

  /** The record of an element that passed the gate. */
  function Emit(src: ScrapingSource, now: Now, origin: string, e: Element, index: nat): Recall {
    Basic(WebId(src, now, index), FirstText(e, SelectorList(src.selectors.title)),
          Resolve(origin, RawLink(e, SelectorList(src.selectors.link))),
          DateText(e, DateSelectors(src.selectors), now), src.name,
          FirstText(e, DescriptionSelectors(src.selectors)), src.category)
  }

  /** An emitted record describes its source and passed the gate on its stored fields. */
  lemma EmitFacts(src: ScrapingSource, now: Now, origin: string, e: Element, index: nat)
    requires Relevant(FirstText(e, SelectorList(src.selectors.title)), RawLink(e, SelectorList(src.selectors.link)))
    ensures FromWebSource(src, origin, Emit(src, now, origin, e, index))
  {
    var title := FirstText(e, SelectorList(src.selectors.title));
    var link := RawLink(e, SelectorList(src.selectors.link));
    var rec := Emit(src, now, origin, e, index);
    assert rec.title == title && rec.link == Resolve(origin, link);
    ResolveKeepsWords(origin, link, LinkWords);
    ResolveStarts(origin, link);
    TitleIsTrimmed(e, SelectorList(src.selectors.title));
  }

  /** A resolved link starts with `http` or with the origin. */
  lemma ResolveStarts(origin: string, link: string)
    ensures StartsWith(Resolve(origin, link), "http") || StartsWith(Resolve(origin, link), origin)
  {
    if !StartsWith(link, "http") {
      assert (origin + link)[..|origin|] == origin;
    }
  }

  /** A non-empty text of a chain has no white space at either end. */
  lemma TitleIsTrimmed(e: Element, selectors: seq<string>)
    ensures var t := FirstText(e, selectors); t == [] || (!IsSpace(t[0]) && !IsSpace(t[|t| - 1]))
  {
    var vals := TrimmedTexts(e, selectors);
    var t := FirstText(e, selectors);
    if t != [] {
      var j :| 0 <= j < |vals| && vals[j] == t;
    }
  }

  /** The body of the `each` callback for the element at `index`: its record, if the gate
      lets it through. */
  function Item(src: ScrapingSource, now: Now, origin: string, e: Element, index: nat): (r: seq<Recall>)
    ensures |r| <= 1
    ensures r != [] <==> Relevant(FirstText(e, SelectorList(src.selectors.title)),
                                  RawLink(e, SelectorList(src.selectors.link)))
    ensures r != [] ==> r[0].id == WebId(src, now, index) && FromWebSource(src, origin, r[0])
    ensures r != [] ==>
              && r[0].title == FirstText(e, SelectorList(src.selectors.title))
              && r[0].link == Resolve(origin, RawLink(e, SelectorList(src.selectors.link)))
              && r[0].date == DateText(e, DateSelectors(src.selectors), now)
              && r[0].description == Some(FirstText(e, DescriptionSelectors(src.selectors)))
  {
    if Relevant(FirstText(e, SelectorList(src.selectors.title)), RawLink(e, SelectorList(src.selectors.link))) then
      EmitFacts(src, now, origin, e, index);
      [Emit(src, now, origin, e, index)]
    else []
  }

  /** What each matched element pushes, in document order. */
  function Items(src: ScrapingSource, now: Now, origin: string, elements: seq<Element>): (r: seq<seq<Recall>>)
    ensures |r| == |elements|
    ensures forall i | 0 <= i < |r| :: r[i] == Item(src, now, origin, elements[i], i)
  {
    seq(|elements|, i requires 0 <= i < |elements| => Item(src, now, origin, elements[i], i))
  }

  /** `$(selector).each(...)`: the records of every matched element, in document order. */
  function Scan(src: ScrapingSource, now: Now, origin: string, elements: seq<Element>): (r: seq<Recall>)
    ensures forall k | 0 <= k < |r| :: FromWebSource(src, origin, r[k])
  {
    var parts := Items(src, now, origin, elements);
    FlattenAll(parts, (rec: Recall) => FromWebSource(src, origin, rec));
    Flatten(parts)
  }

  /** An element yields a record exactly when it passes the gate. */
  lemma ScanMembers(src: ScrapingSource, now: Now, origin: string, elements: seq<Element>, rec: Recall)
    ensures rec in Scan(src, now, origin, elements) <==>
              exists i | 0 <= i < |elements| :: rec in Item(src, now, origin, elements[i], i)
  {
    InFlatten(Items(src, now, origin, elements), rec);
  }

  /** The container selectors in the order they are tried. */
  function Containers(src: ScrapingSource): seq<string> {
    [src.selectors.container, "article", ".content", ".main-content", ".recall", ".alert"]
  }

  /** What each container selector would yield on its own. */
  function Yields(src: ScrapingSource, now: Now, origin: string, doc: Document): (r: seq<seq<Recall>>)
    ensures |r| == |Containers(src)|
    ensures forall j | 0 <= j < |r| :: r[j] == Scan(src, now, origin, Matches(doc, Containers(src)[j]))
  {
    var cs := Containers(src);
    seq(|cs|, j requires 0 <= j < |cs| => Scan(src, now, origin, Matches(doc, cs[j])))
  }

  /** `scrapeWebsite(source)`: load the page, then try the container selectors in order and
      keep the records of the first one that yields any. A failed load (or a URL without
      an origin) is caught and gives []. */
  function ScrapeWebsite(src: ScrapingSource, load: Load, now: Now): (r: seq<Recall>)
    ensures load(src.url).Err? || Origin(src.url).None? ==> r == []
    ensures forall k | 0 <= k < |r| ::
              && Origin(src.url).Some?
              && FromWebSource(src, Origin(src.url).value, r[k])
  {
    match load(src.url)
    case Err(_) => []
    case Ok(doc) =>
      match Origin(src.url)
      case None => []
      case Some(origin) =>
        FirstNonEmpty(Yields(src, now, origin, doc))
  }

  /** The selector loop stops at the first container selector that yields a record, and
      yields nothing only when no selector does. */
  lemma FirstContainerWins(src: ScrapingSource, load: Load, now: Now, j: nat)
    requires load(src.url).Ok? && Origin(src.url).Some?
    requires j < |Containers(src)|
    requires var ys := Yields(src, now, Origin(src.url).value, load(src.url).value);
             ys[j] != [] && forall m | 0 <= m < j :: ys[m] == []
    ensures ScrapeWebsite(src, load, now) == Yields(src, now, Origin(src.url).value, load(src.url).value)[j]
  {
  }

  lemma NothingFound(src: ScrapingSource, load: Load, now: Now)
    requires load(src.url).Ok? && Origin(src.url).Some?
    ensures ScrapeWebsite(src, load, now) == [] <==>
              forall j | 0 <= j < |Containers(src)| ::
                Yields(src, now, Origin(src.url).value, load(src.url).value)[j] == []
  {
  }

  // ---------------------------------------------------------------------------------------
  // All sources

  /** What each source contributes, in table order. */
  function PerWebSource(sources: seq<ScrapingSource>, load: Load, now: Now): (r: seq<seq<Recall>>)
    ensures |r| == |sources|
    ensures forall k | 0 <= k < |r| :: r[k] == ScrapeWebsite(sources[k], load, now)
  {
    seq(|sources|, k requires 0 <= k < |sources| => ScrapeWebsite(sources[k], load, now))
  }

  /** `scrapeAllWebsites()` over a table of sources: the concatenation, sorted newest-first.
      The result is a permutation of what the sources produced; the order, and the input
      order among records of the same day, are claimed only when every date is an ISO
      calendar date, since the raw text of a page's date element is kept as written and
      the code compares such texts through `new Date(...)`. */
  function ScrapeAll(sources: seq<ScrapingSource>, load: Load, now: Now): (r: seq<Recall>)
    ensures multiset(r) == multiset(Flatten(PerWebSource(sources, load, now)))
    ensures (forall k | 0 <= k < |r| :: Dates.ParseIso(r[k].date).Some?) ==>
              forall i, j | 0 <= i < j < |r| ::
                Dates.Key(Dates.ParseIso(r[j].date).value) <= Dates.Key(Dates.ParseIso(r[i].date).value)
    ensures (forall k | 0 <= k < |r| :: Dates.ParseIso(r[k].date).Some?) ==>
              forall key :: Sorting.WithKey(r, DateKey, key) ==
                            Sorting.WithKey(Flatten(PerWebSource(sources, load, now)), DateKey, key)
  {
    SortNewestFirst(Flatten(PerWebSource(sources, load, now)))
  }

  /** A record is in the result exactly when some source produced it. */
  lemma ScrapeAllMembers(sources: seq<ScrapingSource>, load: Load, now: Now, rec: Recall)
    ensures rec in ScrapeAll(sources, load, now) <==>
              exists k | 0 <= k < |sources| :: rec in ScrapeWebsite(sources[k], load, now)
  {
    var parts := PerWebSource(sources, load, now);
    SameElements(ScrapeAll(sources, load, now), Flatten(parts), rec);
    InFlatten(parts, rec);
    assert forall k | 0 <= k < |sources| :: parts[k] == ScrapeWebsite(sources[k], load, now);
  }

  /** The selectors every entry of `SCRAPING_SOURCES` shares. */
  const CommonSelectors: Selectors := Selectors(
    "article, .recall-item, .alert-item, .content-item",
    "h1, h2, h3, h4, .title, .headline",
    "a[href*=\"recall\"], a[href*=\"alert\"], a[href*=\"safety\"]",
    Some(".date, .published-date, .timestamp"),
    Some(".description, .summary, .content, p"))

  /** `SCRAPING_SOURCES`. */
  function WebSources(): (r: seq<ScrapingSource>)
    ensures |r| == 4
    ensures forall k | 0 <= k < |r| :: r[k].selectors == CommonSelectors
    ensures forall i, j | 0 <= i < j < |r| :: r[i].name != r[j].name && r[i].category != r[j].category
  {
    // The FDA path is written as two literals: the verifier reads the first character of
    // a short literal directly, but not of one this long.
    [ ScrapingSource("FDA", Https("www.fda.gov", "/safety/" + "recalls-market-withdrawals-safety-alerts"),
                     "Food & Drugs", CommonSelectors),
      ScrapingSource("CPSC", Https("www.cpsc.gov", "/Recalls"), "Consumer Products", CommonSelectors),
      ScrapingSource("NHTSA", Https("www.nhtsa.gov", "/recalls"), "Vehicles", CommonSelectors),
      ScrapingSource("USDA", Https("www.fsis.usda.gov", "/recalls-alerts"), "Food Safety", CommonSelectors) ]
  }

  /** `https://host/path` has the origin `https://host`. */
  lemma HttpsOrigin(host: string, path: string)
    requires host != [] && '/' !in host && '?' !in host && '#' !in host
    requires path != [] && path[0] == '/'
    ensures Origin(Https(host, path)) == Some("https://" + host)
  {
    assert forall m | 0 <= m < |host| :: host[m] in host;
    HttpsSplit(host, path);
    OriginOf("https", host, path);
  }

  /** `Https(host, path)` seen as scheme, `://`, host and path. */
  lemma HttpsSplit(host: string, path: string)
    ensures "https" + "://" + host + path == Https(host, path)
    ensures "https" + "://" + host == "https://" + host
    ensures forall m | 0 <= m < |"https"| :: "https"[m] != ':'
  {
    assert "https" + "://" == "https://";
  }

  /** `scrapeAllWebsites()`. */
  function ScrapeAllWebsites(load: Load, now: Now): (r: seq<Recall>)
    ensures multiset(r) == multiset(Flatten(PerWebSource(WebSources(), load, now)))
    ensures (forall k | 0 <= k < |r| :: Dates.ParseIso(r[k].date).Some?) ==>
              forall i, j | 0 <= i < j < |r| ::
                Dates.Key(Dates.ParseIso(r[j].date).value) <= Dates.Key(Dates.ParseIso(r[i].date).value)
    ensures (forall k | 0 <= k < |r| :: Dates.ParseIso(r[k].date).Some?) ==>
              forall key :: Sorting.WithKey(r, DateKey, key) ==
                            Sorting.WithKey(Flatten(PerWebSource(WebSources(), load, now)), DateKey, key)
  {
    ScrapeAll(WebSources(), load, now)
  }

  /** The origin of a URL whose first `://` is at `i` and whose path starts at `e`. */
  lemma OriginAt(url: string, i: nat, e: nat)
    requires 0 < i && SchemeMarkAt(url, i) && forall m | 0 <= m < i :: !SchemeMarkAt(url, m)
    requires i + 3 < e < |url| && url[e] == '/'
    requires forall m | i + 3 <= m < e :: url[m] != '/' && url[m] != '?' && url[m] != '#'
    ensures Origin(url) == Some(url[..e])
  {
  }

  /** `scheme://host/path` has the origin `scheme://host`. */
  lemma OriginOf(scheme: string, host: string, path: string)
    requires scheme != [] && forall m | 0 <= m < |scheme| :: scheme[m] != ':'
    requires host != [] && forall m | 0 <= m < |host| :: host[m] != '/' && host[m] != '?' && host[m] != '#'
    requires path != [] && path[0] == '/'
    ensures Origin(scheme + "://" + host + path) == Some(scheme + "://" + host)
  {
    var url := scheme + "://" + host + path;
    var i := |scheme|;
    assert url[i..i + 3] == "://";
    forall m | 0 <= m < i
      ensures !SchemeMarkAt(url, m)
    {
      assert url[m] == scheme[m];
      if m + 3 <= |url| {
        assert url[m..m + 3][0] == url[m];
      }
    }
    var e := i + 3 + |host|;
    assert url[e] == '/';
    assert forall m | i + 3 <= m < e :: url[m] == host[m - i - 3];
    OriginAt(url, i, e);
    assert url[..e] == scheme + "://" + host;
  }
}
