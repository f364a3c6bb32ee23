/** The feed normaliser (`fetchRSSFeed`, `fetchAllFeeds`): every item of a parsed feed
    becomes one record, with documented defaults for whatever the item lacks; the records
    of all feeds are concatenated and sorted newest-first.

    The feed parser is an oracle from a URL to the feed's items (or the error that aborts
    the feed), and `parseISO` followed by the local calendar date is an oracle from a
    `pubDate` to a calendar date, `None` when it gives an invalid date. */
module FeedParser {
  import opened Wrappers
  import opened Strings
  import opened Seqs
  import Dates
  import Sorting
  import opened Records

  /** `FeedSource`. */
  datatype FeedSource = FeedSource(name: string, url: string, category: string)

  /** The fields of an `rss-parser` item the normaliser reads; each may be missing. */
  datatype FeedItem = FeedItem(
    title: Option<string>,
    link: Option<string>,
    pubDate: Option<string>,
    description: Option<string>,
    contentSnippet: Option<string>)

  type FetchFeed = string -> Result<seq<FeedItem>>
  type ParseDate = string -> Option<Dates.CalendarDate>

  /** `x || fallback` for an optional string: a missing or empty value gives the fallback. */
  function Or(x: Option<string>, fallback: string): (r: string)
    ensures x.Some? && x.value != [] ==> r == x.value
    ensures x.None? || x.value == [] ==> r == fallback
  {
    OrElse(x.GetOr(""), fallback)
  }

  /** The item's date: its `pubDate` as `yyyy-MM-dd` when present and valid, otherwise
      today's date (the `RangeError` of formatting an invalid date is caught). */
  function ItemDate(item: FeedItem, parse: ParseDate, now: Now): (r: string)
    ensures Dates.ParseIso(r).Some?
    ensures item.pubDate.Some? && item.pubDate.value != [] && parse(item.pubDate.value).Some? ==>
              Dates.ParseIso(r) == parse(item.pubDate.value)
    ensures item.pubDate.None? || item.pubDate.value == [] || parse(item.pubDate.value).None? ==>
              Dates.ParseIso(r) == Some(now.today)
  {
    var day :=
      if item.pubDate.Some? && item.pubDate.value != [] && parse(item.pubDate.value).Some?
      then parse(item.pubDate.value).value
      else now.today;
    Dates.ParseFormat(day);
    Dates.Format(day)
  }

  /** `${source.name.toLowerCase()}-${Date.now()}-${index}`. */
  function FeedId(src: FeedSource, now: Now, index: nat): string {
    ToLower(src.name) + "-" + NatToString(now.timestamp) + "-" + NatToString(index)
  }

  /** The callback of `feed.items.map`. */
  function Normalise(src: FeedSource, parse: ParseDate, now: Now, item: FeedItem, index: nat): (r: Recall)
    ensures r.id == FeedId(src, now, index)
    ensures r.title != []
    ensures r.source == src.name && r.category == Some(src.category)
    ensures Dates.ParseIso(r.date).Some?
    ensures r.description.Some?
  {
    Basic(FeedId(src, now, index), Or(item.title, "No Title"), Or(item.link, ""),
          ItemDate(item, parse, now), src.name,
          Or(item.description, Or(item.contentSnippet, "")), src.category)
  }

  /** `fetchRSSFeed(source)`: one record per item, in item order; a feed that cannot be
      fetched or parsed gives []. No item is ever dropped, whatever its fields. */
  function FetchRssFeed(src: FeedSource, fetch: FetchFeed, parse: ParseDate, now: Now): (r: seq<Recall>)
    ensures fetch(src.url).Err? ==> r == []
    ensures fetch(src.url).Ok? ==> |r| == |fetch(src.url).value|
    ensures forall i | 0 <= i < |r| ::
              && r[i].id == FeedId(src, now, i)
              && r[i].source == src.name && r[i].category == Some(src.category)
              && r[i].title != [] && Dates.ParseIso(r[i].date).Some?
  {
    match fetch(src.url)
    case Err(_) => []
    case Ok(items) => seq(|items|, i requires 0 <= i < |items| => Normalise(src, parse, now, items[i], i))
  }

  /** Each record keeps what its item says: the title and link when present, the
      description, else the content snippet, else "". */
  lemma ItemFields(src: FeedSource, fetch: FetchFeed, parse: ParseDate, now: Now, i: nat)
    requires fetch(src.url).Ok? && i < |fetch(src.url).value|
    ensures var item := fetch(src.url).value[i];
            var rec := FetchRssFeed(src, fetch, parse, now)[i];
            && (item.title.Some? && item.title.value != [] ==> rec.title == item.title.value)
            && (item.title.None? || item.title.value == [] ==> rec.title == "No Title")
            && rec.link == item.link.GetOr("")
            && (item.description.Some? && item.description.value != [] ==>
                  rec.description == item.description)
            && (item.description.None? || item.description.value == [] ==>
                  rec.description == Some(item.contentSnippet.GetOr("")))
  {
  }

  /** Records of one feed have pairwise distinct ids. */
  lemma FeedIdsDistinct(src: FeedSource, fetch: FetchFeed, parse: ParseDate, now: Now)
    ensures Distinct(Ids(FetchRssFeed(src, fetch, parse, now)))
  {
    var r := FetchRssFeed(src, fetch, parse, now);
    forall i, j | 0 <= i < j < |r|
      ensures r[i].id != r[j].id
    {
      FeedIdInjective(src, now, i, j);
    }
  }

  /** Ids built from different indices differ. */
  lemma FeedIdInjective(src: FeedSource, now: Now, i: nat, j: nat)
    requires i != j
    ensures FeedId(src, now, i) != FeedId(src, now, j)
  {
    var prefix := ToLower(src.name) + "-" + NatToString(now.timestamp) + "-";
    if FeedId(src, now, i) == FeedId(src, now, j) {
      assert FeedId(src, now, i)[|prefix|..] == NatToString(i);
      assert FeedId(src, now, j)[|prefix|..] == NatToString(j);
      NatToStringInjective(i, j);
    }
  }

  /** What each feed contributes, in table order. */
  function PerFeed(sources: seq<FeedSource>, fetch: FetchFeed, parse: ParseDate, now: Now): (r: seq<seq<Recall>>)
    ensures |r| == |sources|
    ensures forall k | 0 <= k < |r| :: r[k] == FetchRssFeed(sources[k], fetch, parse, now)
  {
    seq(|sources|, k requires 0 <= k < |sources| => FetchRssFeed(sources[k], fetch, parse, now))
  }

  /** `fetchAllFeeds()` over a table of feeds: every feed's records, sorted newest-first.
      Every feed date is an ISO date, so the order is total on dates, and records of equal
      date keep their feed order and item order. */
  function FetchAll(sources: seq<FeedSource>, fetch: FetchFeed, parse: ParseDate, now: Now): (r: seq<Recall>)
    ensures multiset(r) == multiset(Flatten(PerFeed(sources, fetch, parse, now)))
    ensures forall k | 0 <= k < |r| :: Dates.ParseIso(r[k].date).Some?
    ensures forall i, j | 0 <= i < j < |r| ::
              Dates.Key(Dates.ParseIso(r[j].date).value) <= Dates.Key(Dates.ParseIso(r[i].date).value)
  {
    var all := Flatten(PerFeed(sources, fetch, parse, now));
    FeedDatesValid(sources, fetch, parse, now);
    var r := SortNewestFirst(all);
    PermutationAll(all, r, (rec: Recall) => Dates.ParseIso(rec.date).Some?);
    IsoDescending(r);
    r
  }

  /** Records of the same date keep their feed order and, within a feed, item order. */
  lemma FetchAllStable(sources: seq<FeedSource>, fetch: FetchFeed, parse: ParseDate, now: Now, key: int)
    ensures Sorting.WithKey(FetchAll(sources, fetch, parse, now), DateKey, key) ==
            Sorting.WithKey(Flatten(PerFeed(sources, fetch, parse, now)), DateKey, key)
  {
  }

  lemma FeedDatesValid(sources: seq<FeedSource>, fetch: FetchFeed, parse: ParseDate, now: Now)
    ensures forall i | 0 <= i < |Flatten(PerFeed(sources, fetch, parse, now))| ::
              Dates.ParseIso(Flatten(PerFeed(sources, fetch, parse, now))[i].date).Some?
  {
    FlattenAll(PerFeed(sources, fetch, parse, now), (rec: Recall) => Dates.ParseIso(rec.date).Some?);
  }

  /** A record is in the result exactly when some feed produced it; a failing feed adds
      nothing and stops nothing. */
  lemma FetchAllMembers(sources: seq<FeedSource>, fetch: FetchFeed, parse: ParseDate, now: Now, rec: Recall)
    ensures rec in FetchAll(sources, fetch, parse, now) <==>
              exists k | 0 <= k < |sources| :: rec in FetchRssFeed(sources[k], fetch, parse, now)
  {
    var parts := PerFeed(sources, fetch, parse, now);
    assert rec in FetchAll(sources, fetch, parse, now) <==> rec in multiset(Flatten(parts));
    InFlatten(parts, rec);
  }

  /** `FEED_SOURCES`. */
  function FeedSources(): (r: seq<FeedSource>)
    ensures |r| == 2
    ensures forall k | 0 <= k < |r| :: r[k].category == "News"
    ensures forall i, j | 0 <= i < j < |r| :: r[i].name != r[j].name && r[i].url != r[j].url
  {
    [ FeedSource("Test Feed 1", "https://feeds.bbci.co.uk/news/rss.xml", "News"),
      FeedSource("Test Feed 2", "https://feeds.npr.org/1001/rss.xml", "News") ]
  }

  /** `fetchAllFeeds()`. */
  function FetchAllFeeds(fetch: FetchFeed, parse: ParseDate, now: Now): (r: seq<Recall>)
    ensures multiset(r) == multiset(Flatten(PerFeed(FeedSources(), fetch, parse, now)))
    ensures IsoNewestFirst(r)
    ensures forall key :: Sorting.WithKey(r, DateKey, key) ==
                          Sorting.WithKey(Flatten(PerFeed(FeedSources(), fetch, parse, now)), DateKey, key)
  {
    FetchAll(FeedSources(), fetch, parse, now)
  }
}
