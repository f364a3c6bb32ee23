/** `scrapeSpecificRecalls` as a whole: every source in table order, each in its own
    `try`, the records concatenated and sorted newest-first; and what the twenty-five
    descriptors make of a page. The run is stated over any table of descriptors and then
    applied to `SPECIFIC_SCRAPING_SOURCES`. */
module SpecificRun {
  import opened Wrappers
  import opened Strings
  import opened Seqs
  import Dates
  import Sorting
  import opened Records
  import opened SpecificScraper
  import opened SpecificSources

  /** What each source of the table contributes, in table order. */
  function PerSource(sources: seq<Descriptor>, fetch: Fetch, now: Now): (r: seq<seq<Recall>>)
    ensures |r| == |sources|
    ensures forall k | 0 <= k < |r| :: r[k] == ScrapeSource(sources[k], fetch, now)
  {
    seq(|sources|, k requires 0 <= k < |sources| => ScrapeSource(sources[k], fetch, now))
  }

  /** The outer loop over a table of sources followed by the newest-first sort. Every
      record of a run is dated today, so the sort keeps the loop's order: sources in table
      order, and each source's records in link order. */
  function ScrapeAll(sources: seq<Descriptor>, fetch: Fetch, now: Now): (r: seq<Recall>)
    ensures r == Flatten(PerSource(sources, fetch, now))
    ensures |r| <= 3 * |sources|
    ensures forall k | 0 <= k < |r| :: r[k].date == Dates.Format(now.today)
  {
    var parts := PerSource(sources, fetch, now);
    FlattenLength(parts);
    SumLengthsAtMost(parts, 3);
    SameDay(sources, fetch, now);
    Dates.ParseFormat(now.today);
    Sorting.SortEqualKeys(Flatten(parts), DateKey, Dates.Key(now.today));
    SortNewestFirst(Flatten(parts))
  }

  /** Every record of a run carries the run's date. */
  lemma SameDay(sources: seq<Descriptor>, fetch: Fetch, now: Now)
    ensures forall i | 0 <= i < |Flatten(PerSource(sources, fetch, now))| ::
              Flatten(PerSource(sources, fetch, now))[i].date == Dates.Format(now.today)
  {
    FlattenAll(PerSource(sources, fetch, now), (rec: Recall) => rec.date == Dates.Format(now.today));
  }

  /** A record is in the result exactly when some source of the table produced it. */
  lemma ScrapeAllMembers(sources: seq<Descriptor>, fetch: Fetch, now: Now, rec: Recall)
    ensures rec in ScrapeAll(sources, fetch, now) <==>
              exists k | 0 <= k < |sources| :: rec in ScrapeSource(sources[k], fetch, now)
  {
    InFlatten(PerSource(sources, fetch, now), rec);
  }

  /** No two sources of the table share a name. */
  ghost predicate NamesDistinct(sources: seq<Descriptor>) {
    forall i, j | 0 <= i < j < |sources| :: sources[i].name != sources[j].name
  }

  /** Failure isolation: the records of the result that name source `k` are exactly what
      that source alone produces, in order; what other sources do (fail, time out, return
      nothing) changes nothing about them. */
  lemma SourceIsolation(sources: seq<Descriptor>, fetch: Fetch, now: Now, k: nat)
    requires k < |sources| && NamesDistinct(sources)
    ensures Filter(ScrapeAll(sources, fetch, now), (rec: Recall) => rec.source == sources[k].name)
            == ScrapeSource(sources[k], fetch, now)
  {
    var p := (rec: Recall) => rec.source == sources[k].name;
    var parts := PerSource(sources, fetch, now);
    FilterFlatten(parts, p);
    var kept := seq(|parts|, j requires 0 <= j < |parts| => Filter(parts[j], p));
    forall j | 0 <= j < |parts|
      ensures kept[j] == (if j == k then parts[k] else [])
    {
      if j == k {
        FilterKeepsAll(parts[j], p);
      } else {
        assert sources[j].name != sources[k].name;
        FilterNone(parts[j], p);
      }
    }
    FlattenSingle(kept, k);
  }

  /** A source whose landing page fails to load has no record in the result. */
  lemma FailedSourceAbsent(sources: seq<Descriptor>, fetch: Fetch, now: Now, k: nat)
    requires k < |sources| && NamesDistinct(sources)
    requires fetch(sources[k].baseUrl).Err?
    ensures forall rec | rec in ScrapeAll(sources, fetch, now) :: rec.source != sources[k].name
  {
    SourceIsolation(sources, fetch, now, k);
  }

  // ---------------------------------------------------------------------------------------
  // The run over `SPECIFIC_SCRAPING_SOURCES`

  /** `scrapeSpecificRecalls()`. */
  function ScrapeSpecificRecalls(fetch: Fetch, now: Now): (r: seq<Recall>)
    ensures |r| <= 75
    ensures forall k | 0 <= k < |r| :: r[k].date == Dates.Format(now.today)
  {
    ScrapeAll(Registry(), fetch, now)
  }

  /** Every source of the table keeps its own records apart from the others'. */
  lemma RegistryIsolation(fetch: Fetch, now: Now, k: nat)
    requires k < |Registry()|
    ensures Filter(ScrapeSpecificRecalls(fetch, now), (rec: Recall) => rec.source == Registry()[k].name)
            == ScrapeSource(Registry()[k], fetch, now)
  {
    SpecificSources.NamesDistinct();
    SourceIsolation(Registry(), fetch, now, k);
  }

  // ---------------------------------------------------------------------------------------
  // What the descriptors make of a page

  /** The title of every source is never empty: its placeholder has more than five characters. */
  lemma TitleNeverEmpty(k: nat, p: Page)
    requires k < |Registry()|
    ensures Extract(Registry()[k], p).title != []
  {
    PlaceholdersLongEnough();
  }

  /** A brand source reports its own name as the manufacturer, whatever the page. */
  lemma BrandIgnoresPage(k: nat, p: Page)
    requires k < |Registry()| && IsBrandIndex(k)
    ensures Extract(Registry()[k], p).manufacturer == Some(Registry()[k].name)
  {
    BrandSources();
    BrandIsName();
  }

  /** FDA's manufacturer is always present, when non-empty it never mentions "company", and
      a "Company" label value that mentions no denylisted phrase is kept. */
  lemma FdaMakerNeverCompany(p: Page)
    ensures Extract(FdaSource(), p).manufacturer.Some?
    ensures var m := Extract(FdaSource(), p).manufacturer.value;
            m == [] || !Contains(ToLower(m), "company")
    ensures var v := LabelledValue(p, "Company", "company");
            !MentionsAny(v, FdaDenylist.makers) ==> Extract(FdaSource(), p).manufacturer == Some(v)
  {
    assert FdaDenylist.makers[2] == "company";
  }

  /** A bold element labelled "Company" is itself what FDA's denylist rejects, so such a
      page always gives FDA an empty manufacturer. */
  lemma FdaBoldCompanyDenied(p: Page)
    requires exists i | 0 <= i < |p.bold| :: Contains(p.bold[i], "Company")
    ensures Extract(FdaSource(), p).manufacturer == Some("")
  {
    assert ToLower("Company") == "company";
    LabelDenied(p, "Company", "company", FdaDenylist.makers, 2);
  }

  /** FDA's product name is never one of the denylisted boilerplate phrases: a label value
      that mentions one becomes "", and a label value that mentions none of them is kept. */
  lemma FdaProductScreened(p: Page)
    ensures var r := Extract(FdaSource(), p).productName;
            r == [] || !MentionsAny(r, FdaDenylist.products)
    ensures var v := LabelledValue(p, "Product", "product");
            !MentionsAny(v, FdaDenylist.products) ==> Extract(FdaSource(), p).productName == v
    ensures var v := LabelledValue(p, "Product", "product");
            MentionsAny(v, FdaDenylist.products) ==> Extract(FdaSource(), p).productName == []
  {
  }

  /** NHTSA reads a year-make-model product name, emits no manufacturer, and also accepts
      "defect" as a recall reason. */
  lemma NhtsaDetails(p: Page)
    ensures Extract(NhtsaSource(), p).productName == VehicleInfo(p, Paragraphs(p))
    ensures Extract(NhtsaSource(), p).manufacturer.None?
    ensures forall q | q in Paragraphs(p) && Contains(ToLower(q), "defect") ::
              MentionsAny(q, NhtsaSource().reasonKeywords)
  {
    assert NhtsaSource().reasonKeywords[3] == "defect";
  }
}
