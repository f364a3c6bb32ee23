/** The per-source detail scraper (`scrapeSpecificRecalls`). Twenty-five source
    descriptors each say how to pick recall links off a landing page and how to read a
    recall's details off a linked page; around them sit the gate a page must pass, the loop over
    at most three links per source with per-link and per-source failure isolation, and the
    final newest-first sort.

    The browser is an oracle `fetch` from a URL to the loaded page (or an error), and the
    clock is the `Now` read once per run. */
module SpecificScraper {
  import opened Wrappers
  import opened Strings
  import opened Seqs
  import Patterns
  import Dates
  import Sorting
  import opened Records

  /** An `<a>` element: its resolved `href` ("" when it has none) and its text content. */
  datatype Anchor = Anchor(href: string, text: string)

  /** A loaded page as the extractors read it: its anchors, the texts of its `h1`/`h2`/`h3`
      elements, of its `<p>` elements and of its `<strong>`/`<b>` elements, each in document
      order, and the text of its body. */
  datatype Page = Page(
    anchors: seq<Anchor>,
    headings: seq<string>,
    paragraphs: seq<string>,
    body: string,
    bold: seq<string>)

  /** Where a descriptor reads the product name: from a "Product" label, or (NHTSA) from a
      year-make-model token. */
  datatype ProductRule = Labelled | YearMakeModel

  /** Where a descriptor reads the manufacturer: from a "Company" label, a fixed brand name,
      or nowhere (NHTSA emits no manufacturer). */
  datatype MakerRule = FromLabel | Brand(brand: string) | NoMaker

  /** Lower-case fragments that mark a product name or a manufacturer as boilerplate. */
  datatype Denylist = Denylist(products: seq<string>, makers: seq<string>)

  /** One entry of `SPECIFIC_SCRAPING_SOURCES`, its two closures described by data. */
  datatype Descriptor = Descriptor(
    name: string,
    baseUrl: string,
    category: string,
    hrefFragments: seq<string>,
    textKeywords: seq<string>,
    linkCap: nat,
    topicKeywords: seq<string>,
    placeholder: string,
    product: ProductRule,
    maker: MakerRule,
    reasonKeywords: seq<string>,
    denylist: Option<Denylist>)

  type Fetch = string -> Result<Page>

  // ---------------------------------------------------------------------------------------
  // Link discovery (`findRecallLinks`)

  /** An anchor worth following: it has an `href`, and the `href` contains one of the
      fragments (case-sensitively) or the lower-cased text contains one of the keywords. */
  predicate IsRecallLink(d: Descriptor, a: Anchor) {
    a.href != [] && (ContainsAny(a.href, d.hrefFragments) || MentionsAny(a.text, d.textKeywords))
  }

  function HrefOf(a: Anchor): string {
    a.href
  }

  /** How many anchors worth following have the `href` `h`. */
  function LinkCount(d: Descriptor, anchors: seq<Anchor>, h: string): nat {
    if anchors == [] then 0
    else (if anchors[0].href == h && IsRecallLink(d, anchors[0]) then 1 else 0) + LinkCount(d, anchors[1..], h)
  }

  /** The `href`s pushed by the `forEach` over the anchors, repetitions included: in
      document order, each `href` as many times as an anchor worth following carries it. */
  function Candidates(d: Descriptor, anchors: seq<Anchor>): (r: seq<string>)
    ensures forall k | 0 <= k < |r| :: exists a | a in anchors :: a.href == r[k] && IsRecallLink(d, a)
    ensures forall a | a in anchors && IsRecallLink(d, a) :: a.href in r
    ensures IsSubsequence(r, Project(anchors, HrefOf))
    ensures forall h :: multiset(r)[h] == LinkCount(d, anchors, h)
  {
    var kept := Filter(anchors, a => IsRecallLink(d, a));
    var r := Project(kept, HrefOf);
    assert forall k | 0 <= k < |r| :: kept[k] in anchors && r[k] == kept[k].href;
    assert forall a | a in anchors && IsRecallLink(d, a) :: a in kept;
    PushedInOrder(d, anchors);
    forall h ensures multiset(r)[h] == LinkCount(d, anchors, h) {
      PushedCount(d, anchors, h);
    }
    r
  }

  lemma ProjectCons<T, U>(x: T, rest: seq<T>, f: T -> U)
    ensures Project([x] + rest, f) == [f(x)] + Project(rest, f)
  {
  }

  lemma {:induction false} PushedInOrder(d: Descriptor, anchors: seq<Anchor>)
    ensures IsSubsequence(Project(Filter(anchors, a => IsRecallLink(d, a)), HrefOf), Project(anchors, HrefOf))
  {
    if anchors != [] {
      var rest := anchors[1..];
      PushedInOrder(d, rest);
      assert anchors == [anchors[0]] + rest;
      ProjectCons(anchors[0], rest, HrefOf);
      var tail := Project(Filter(rest, a => IsRecallLink(d, a)), HrefOf);
      if IsRecallLink(d, anchors[0]) {
        ProjectCons(anchors[0], Filter(rest, a => IsRecallLink(d, a)), HrefOf);
        assert ([anchors[0].href] + tail)[1..] == tail;
      } else {
        var all := Project(anchors, HrefOf);
        assert all[1..] == Project(rest, HrefOf);
        if tail != [] {
          assert IsSubsequence(tail, all[1..]);
        }
      }
    }
  }

  lemma {:induction false} PushedCount(d: Descriptor, anchors: seq<Anchor>, h: string)
    ensures multiset(Project(Filter(anchors, a => IsRecallLink(d, a)), HrefOf))[h] == LinkCount(d, anchors, h)
  {
    if anchors != [] {
      var rest := anchors[1..];
      PushedCount(d, rest, h);
      if IsRecallLink(d, anchors[0]) {
        ProjectCons(anchors[0], Filter(rest, a => IsRecallLink(d, a)), HrefOf);
      }
    }
  }

  /** `[...new Set(links)].slice(0, cap)`: the first `cap` distinct qualifying `href`s in
      order of first occurrence. */
  function DiscoverLinks(d: Descriptor, p: Page): (r: seq<string>)
    ensures |r| <= d.linkCap
    ensures Distinct(r)
    ensures forall k | 0 <= k < |r| ::
              r[k] != [] && exists a | a in p.anchors :: a.href == r[k] && IsRecallLink(d, a)
    ensures |r| < d.linkCap ==> forall a | a in p.anchors && IsRecallLink(d, a) :: a.href in r
    ensures forall k | 0 <= k < |r| :: r[k] in Candidates(d, p.anchors)
    ensures forall i, j | 0 <= i < j < |r| ::
              FirstIndex(Candidates(d, p.anchors), r[i]) < FirstIndex(Candidates(d, p.anchors), r[j])
    ensures forall i, a | 0 <= i < |r| && a in p.anchors && IsRecallLink(d, a) ::
              FirstIndex(Candidates(d, p.anchors), a.href) < FirstIndex(Candidates(d, p.anchors), r[i])
              ==> a.href in r[..i]
  {
    var c := Candidates(d, p.anchors);
    var u := Dedupe(c);
    var r := Take(u, d.linkCap);
    DiscoverLinksShape(d, p, c, u, r);
    DiscoverLinksFacts(d, p, c, u, r);
    r
  }

  lemma DiscoverLinksShape(d: Descriptor, p: Page, c: seq<string>, u: seq<string>, r: seq<string>)
    requires c == Candidates(d, p.anchors) && u == Dedupe(c) && r == Take(u, d.linkCap)
    ensures |r| <= d.linkCap
    ensures Distinct(r)
    ensures forall k | 0 <= k < |r| ::
              r[k] != [] && exists a | a in p.anchors :: a.href == r[k] && IsRecallLink(d, a)
    ensures forall k | 0 <= k < |r| :: r[k] in c
    ensures forall i, j | 0 <= i < j < |r| :: FirstIndex(c, r[i]) < FirstIndex(c, r[j])
  {
    assert forall k | 0 <= k < |r| :: r[k] == u[k];
  }

  lemma DiscoverLinksFacts(d: Descriptor, p: Page, c: seq<string>, u: seq<string>, r: seq<string>)
    requires c == Candidates(d, p.anchors) && u == Dedupe(c) && r == Take(u, d.linkCap)
    ensures |r| < d.linkCap ==> forall a | a in p.anchors && IsRecallLink(d, a) :: a.href in r
    ensures forall i, a | 0 <= i < |r| && a in p.anchors && IsRecallLink(d, a) ::
              FirstIndex(c, a.href) < FirstIndex(c, r[i]) ==> a.href in r[..i]
  {
    if |r| < d.linkCap {
      assert r == u;
    }
    forall i, a | 0 <= i < |r| && a in p.anchors && IsRecallLink(d, a)
                  && FirstIndex(c, a.href) < FirstIndex(c, r[i])
      ensures a.href in r[..i]
    {
      DedupePrefixEarlier(c, r, i, a.href);
    }
  }

  // ---------------------------------------------------------------------------------------
  // Detail extraction (`extractRecallDetails`)

  /** What `extractRecallDetails` returns. `manufacturer` is absent for NHTSA. */
  datatype Details = Details(
    title: string,
    description: string,
    productName: string,
    recallReason: string,
    manufacturer: Option<string>)

  /** `$('h1, h2, h3').first().text().trim() || placeholder`. */
  function Title(d: Descriptor, p: Page): (r: string)
    ensures p.headings != [] && !AllSpace(p.headings[0]) ==> r == Trim(p.headings[0]) && r != []
    ensures p.headings == [] || AllSpace(p.headings[0]) ==> r == d.placeholder
  {
    OrElse(Trim(FirstOr(p.headings, "")), d.placeholder)
  }

  /** `$('p').map(el => $(el).text().trim())`. */
  function Paragraphs(p: Page): (r: seq<string>)
    ensures |r| == |p.paragraphs|
    ensures forall k | 0 <= k < |r| :: r[k] == Trim(p.paragraphs[k])
  {
    seq(|p.paragraphs|, k requires 0 <= k < |p.paragraphs| => Trim(p.paragraphs[k]))
  }

  /** The paragraph is first among those passing `keep` in `paras`. */
  ghost predicate FirstPassing(paras: seq<string>, keep: string -> bool, i: int) {
    0 <= i < |paras| && keep(paras[i]) && forall k | 0 <= k < i :: !keep(paras[k])
  }

  /** `recallParagraphs[0] || paragraphs[0] || ''`: the first paragraph mentioning one of
      the descriptor's topic keywords, else the first paragraph, else "". */
  function Description(d: Descriptor, paras: seq<string>): (r: string)
    ensures r == [] || r in paras
    ensures forall i | FirstPassing(paras, q => MentionsAny(q, d.topicKeywords), i) && paras[i] != [] ::
              r == paras[i]
    ensures (forall k | 0 <= k < |paras| :: !MentionsAny(paras[k], d.topicKeywords)) ==>
              r == FirstOr(paras, "")
  {
    OrElse(FirstWhere(paras, q => MentionsAny(q, d.topicKeywords)).GetOr(""), FirstOr(paras, ""))
  }

  /** `reasonParagraphs[0] || ''`: the first paragraph mentioning a reason keyword, else "". */
  function Reason(d: Descriptor, paras: seq<string>): (r: string)
    ensures r == [] || (r in paras && MentionsAny(r, d.reasonKeywords))
    ensures forall i | FirstPassing(paras, q => MentionsAny(q, d.reasonKeywords), i) :: r == paras[i]
    ensures (forall k | 0 <= k < |paras| :: !MentionsAny(paras[k], d.reasonKeywords)) ==> r == []
  {
    FirstWhere(paras, q => MentionsAny(q, d.reasonKeywords)).GetOr("")
  }

  /** The value of a label: the trimmed text of the first bold element whose text contains
      `word` (the case-sensitive `strong:contains(word), b:contains(word)`), or when that is
      empty the trimmed group of `/tag[:\s]+([^.\n]+)/i` over the body text, else "". */
  function LabelledValue(p: Page, word: string, tag: string): (r: string)
    ensures r == [] || (!IsSpace(r[0]) && !IsSpace(r[|r| - 1]))
    ensures forall i | FirstPassing(p.bold, b => Contains(b, word), i) && !AllSpace(p.bold[i]) ::
              r == Trim(p.bold[i])
    ensures (forall k | 0 <= k < |p.bold| :: !Contains(p.bold[k], word)) ==>
              match Patterns.LabelValue(p.body, tag)
              case None => r == []
              case Some(v) => r == Trim(v)
  {
    var bolded := Trim(FirstWhere(p.bold, b => Contains(b, word)).GetOr(""));
    if bolded != [] then bolded
    else
      match Patterns.LabelValue(p.body, tag)
      case None => ""
      case Some(v) => Trim(v)
  }

  /** When a bold element contains `word`, and `word` neither starts nor ends with white
      space, the label value is read from the bold text and still contains `word`. */
  lemma BoldLabelContains(p: Page, word: string, tag: string)
    requires exists i | 0 <= i < |p.bold| :: Contains(p.bold[i], word)
    requires word != [] && !IsSpace(word[0]) && !IsSpace(word[|word| - 1])
    ensures Contains(LabelledValue(p, word, tag), word)
  {
    var v := FirstWhere(p.bold, b => Contains(b, word)).value;
    ContainsTrim(v, word);
  }

  /** A denylist that holds the lower case of `word` empties a label read from a bold
      element containing `word`. */
  lemma LabelDenied(p: Page, word: string, tag: string, deny: seq<string>, i: nat)
    requires exists j | 0 <= j < |p.bold| :: Contains(p.bold[j], word)
    requires word != [] && !IsSpace(word[0]) && !IsSpace(word[|word| - 1])
    requires i < |deny| && deny[i] == ToLower(word)
    ensures Screen(LabelledValue(p, word, tag), deny) == []
  {
    BoldLabelContains(p, word, tag);
    MentionsWord(LabelledValue(p, word, tag), word, deny, i);
  }

  /** The denylist step: a non-empty value whose lower case contains a listed fragment
      becomes "". */
  function Screen(v: string, fragments: seq<string>): (r: string)
    ensures r == v || r == []
    ensures r == [] || !MentionsAny(r, fragments)
    ensures v != [] && !MentionsAny(v, fragments) ==> r == v
  {
    if v != [] && MentionsAny(v, fragments) then "" else v
  }

  const VehicleWords: seq<string> := ["vehicle", "model"]

  /** NHTSA's product name: the first `\d{4}[-\s]\w+[-\s]\w+` token of the body text, else
      the first paragraph mentioning vehicle or model, else "". */
  function VehicleInfo(p: Page, paras: seq<string>): (r: string)
    ensures Patterns.VehicleToken(p.body).Some? ==> r == Patterns.VehicleToken(p.body).value
    ensures Patterns.VehicleToken(p.body).None? ==>
              (r == [] || (r in paras && MentionsAny(r, VehicleWords)))
    ensures Patterns.VehicleToken(p.body).None? ==>
              forall i | FirstPassing(paras, q => MentionsAny(q, VehicleWords), i) :: r == paras[i]
  {
    match Patterns.VehicleToken(p.body)
    case Some(v) => v
    case None => FirstWhere(paras, q => MentionsAny(q, VehicleWords)).GetOr("")
  }

  /** The product name a descriptor's strategy reads off a page, before any denylist. */
  function RawProduct(d: Descriptor, p: Page): string {
    match d.product
    case Labelled => LabelledValue(p, "Product", "product")
    case YearMakeModel => VehicleInfo(p, Paragraphs(p))
  }

  /** The product name a descriptor reads off a page, after its denylist: a value that
      mentions a denylisted phrase becomes "", any other value is kept. */
  function ProductName(d: Descriptor, p: Page): (r: string)
    ensures d.denylist.Some? ==> r == [] || !MentionsAny(r, d.denylist.value.products)
    ensures d.denylist.Some? && MentionsAny(RawProduct(d, p), d.denylist.value.products) ==> r == []
    ensures d.denylist.Some? && !MentionsAny(RawProduct(d, p), d.denylist.value.products) ==>
              r == RawProduct(d, p)
    ensures d.product.YearMakeModel? && d.denylist.None? ==> r == VehicleInfo(p, Paragraphs(p))
    ensures d.product.Labelled? && d.denylist.None? ==> r == LabelledValue(p, "Product", "product")
  {
    var raw := RawProduct(d, p);
    match d.denylist
    case None => raw
    case Some(deny) => Screen(raw, deny.products)
  }

  /** The manufacturer a descriptor reads off a page (or its fixed brand), after its denylist. */
  function Manufacturer(d: Descriptor, p: Page): (r: Option<string>)
    ensures d.maker.NoMaker? <==> r.None?
    ensures d.maker.Brand? ==> r == Some(d.maker.brand)
    ensures d.maker.FromLabel? && d.denylist.Some? ==>
              r.value == [] || !MentionsAny(r.value, d.denylist.value.makers)
    ensures d.maker.FromLabel? && d.denylist.Some? ==>
              var v := LabelledValue(p, "Company", "company");
              (MentionsAny(v, d.denylist.value.makers) ==> r == Some("")) &&
              (!MentionsAny(v, d.denylist.value.makers) ==> r == Some(v))
    ensures d.maker.FromLabel? && d.denylist.None? ==> r == Some(LabelledValue(p, "Company", "company"))
  {
    match d.maker
    case NoMaker => None
    case Brand(b) => Some(b)
    case FromLabel =>
      var raw := LabelledValue(p, "Company", "company");
      match d.denylist
      case None => Some(raw)
      case Some(deny) => Some(Screen(raw, deny.makers))
  }

  /** `extractRecallDetails($, url)`. */
  function Extract(d: Descriptor, p: Page): (r: Details)
    ensures d.placeholder != [] ==> r.title != []
    ensures r.description == [] || r.description in Paragraphs(p)
    ensures r.recallReason == [] || MentionsAny(r.recallReason, d.reasonKeywords)
    ensures d.maker.Brand? ==> r.manufacturer == Some(d.maker.brand)
    ensures d.maker.NoMaker? <==> r.manufacturer.None?
  {
    var paras := Paragraphs(p);
    Details(Title(d, p), Description(d, paras), ProductName(d, p), Reason(d, paras), Manufacturer(d, p))
  }

  // ---------------------------------------------------------------------------------------
  // The page gate and the per-source loop (`scrapeSpecificRecalls`)

  const Blocked: seq<string> := ["robot or human", "javascript:void", "page not found"]

  /** The gate a scraped page must pass to be emitted. */
  predicate Accept(x: Details) {
    |x.title| > 5 && !MentionsAny(x.title, Blocked) && |x.description| > 20
  }

  /** `${source.name.toLowerCase()}-specific-${Date.now()}-${i}`. */
  function RecordId(d: Descriptor, now: Now, i: nat): string {
    ToLower(d.name) + "-specific-" + NatToString(now.timestamp) + "-" + NatToString(i)
  }

  /** The record pushed for an accepted page. */
  function Emit(d: Descriptor, now: Now, i: nat, url: string, x: Details): Recall {
    Recall(RecordId(d, now, i), x.title, url, Dates.Format(now.today), d.name,
           Some(x.description), Some(d.category), Some(x.productName), Some(x.recallReason),
           None, None, None, x.manufacturer)
  }

  /** What the record of source `d` says about itself, whichever page it came from. */
  ghost predicate FromSource(d: Descriptor, now: Now, rec: Recall) {
    && rec.source == d.name
    && rec.category == Some(d.category)
    && rec.date == Dates.Format(now.today)
    && |rec.title| > 5
    && !MentionsAny(rec.title, Blocked)
    && rec.description.Some? && |rec.description.value| > 20
  }

  /** One pass of the inner loop: load link `i` and keep it if it passes the gate; a failed
      load (the inner `catch`) adds nothing. */
  function Candidate(d: Descriptor, fetch: Fetch, now: Now, links: seq<string>, i: nat): (r: seq<Recall>)
    requires i < |links|
    ensures |r| <= 1
    ensures r != [] <==> fetch(links[i]).Ok? && Accept(Extract(d, fetch(links[i]).value))
    ensures r != [] ==> r[0].link == links[i] && r[0].id == RecordId(d, now, i) && FromSource(d, now, r[0])
    ensures r != [] ==>
              var x := Extract(d, fetch(links[i]).value);
              && r[0].title == x.title
              && r[0].description == Some(x.description)
              && r[0].productName == Some(x.productName)
              && r[0].recallReason == Some(x.recallReason)
              && r[0].manufacturer == x.manufacturer
  {
    match fetch(links[i])
    case Err(_) => []
    case Ok(page) =>
      var x := Extract(d, page);
      if Accept(x) then [Emit(d, now, i, links[i], x)] else []
  }

  /** How many links the loop visits: `Math.min(recallLinks.length, 3)`. */
  function Visits(links: seq<string>): nat {
    if |links| < 3 then |links| else 3
  }

  /** What each iteration of `for (let i = 0; i < Math.min(links.length, 3); i++)` pushes. */
  function Attempts(d: Descriptor, fetch: Fetch, now: Now, links: seq<string>): (r: seq<seq<Recall>>)
    ensures |r| == Visits(links) <= |links|
    ensures forall j | 0 <= j < |r| :: r[j] == Candidate(d, fetch, now, links, j)
  {
    seq(Visits(links), j requires 0 <= j < Visits(links) => Candidate(d, fetch, now, links, j))
  }

  /** One iteration of the outer loop: load the landing page (a failure there is caught by
      the outer `catch` and adds nothing), discover the links, and visit at most three. */
  function ScrapeSource(d: Descriptor, fetch: Fetch, now: Now): (r: seq<Recall>)
    ensures |r| <= 3
    ensures fetch(d.baseUrl).Err? ==> r == []
    ensures forall k | 0 <= k < |r| :: FromSource(d, now, r[k])
  {
    match fetch(d.baseUrl)
    case Err(_) => []
    case Ok(home) =>
      var links := DiscoverLinks(d, home);
      var parts := Attempts(d, fetch, now, links);
      AttemptsFacts(d, now, parts);
      Flatten(parts)
  }

  lemma AttemptsFacts(d: Descriptor, now: Now, parts: seq<seq<Recall>>)
    requires |parts| <= 3
    requires forall j | 0 <= j < |parts| :: |parts[j]| <= 1
    requires forall j | 0 <= j < |parts| :: parts[j] != [] ==> FromSource(d, now, parts[j][0])
    ensures |Flatten(parts)| <= 3
    ensures forall k | 0 <= k < |Flatten(parts)| :: FromSource(d, now, Flatten(parts)[k])
  {
    FlattenLength(parts);
    SumLengthsAtMost(parts, 1);
    FlattenAll(parts, rec => FromSource(d, now, rec));
  }

  /** A record comes out of a source exactly when the landing page loaded and one of the
      first three discovered links loaded and passed the gate. */
  lemma ScrapeSourceMembers(d: Descriptor, fetch: Fetch, now: Now, rec: Recall)
    ensures rec in ScrapeSource(d, fetch, now) <==>
      && fetch(d.baseUrl).Ok?
      && var links := DiscoverLinks(d, fetch(d.baseUrl).value);
         exists j | 0 <= j < Visits(links) :: rec in Candidate(d, fetch, now, links, j)
  {
    if fetch(d.baseUrl).Ok? {
      var links := DiscoverLinks(d, fetch(d.baseUrl).value);
      InFlatten(Attempts(d, fetch, now, links), rec);
    }
  }

  /** Each source contributes at most as many records as its link cap allows. */
  lemma ScrapeSourceWithinCap(d: Descriptor, fetch: Fetch, now: Now)
    ensures |ScrapeSource(d, fetch, now)| <= d.linkCap
  {
    if fetch(d.baseUrl).Ok? {
      var links := DiscoverLinks(d, fetch(d.baseUrl).value);
      var parts := Attempts(d, fetch, now, links);
      assert ScrapeSource(d, fetch, now) == Flatten(parts);
      FlattenLength(parts);
      SumLengthsAtMost(parts, 1);
    }
  }
}
