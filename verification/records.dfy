/** The normalised recall record shared by every producer, and the newest-first sort
    that ends every merge (`sort((a, b) => new Date(b.date) - new Date(a.date))`,
    stable as section 22.1.3.27 of ECMAScript 2019 requires). */
module Records {
  import opened Wrappers
  import opened Strings
  import opened Seqs
  import Dates
  import Sorting

  /** `SpecificRecallItem`, which extends `RecallItem`: the feed and the list scraper leave
      the six extra fields absent; `description` and `category` are optional in the type. */
  datatype Recall = Recall(
    id: string,
    title: string,
    link: string,
    date: string,
    source: string,
    description: Option<string>,
    category: Option<string>,
    productName: Option<string>,
    recallReason: Option<string>,
    affectedModels: Option<string>,
    recallDate: Option<string>,
    actionRequired: Option<string>,
    manufacturer: Option<string>)

  /** The clock, read once per run: `Date.now()` and today's calendar date, from which
      `new Date().toISOString().split('T')[0]` is formatted. */
  datatype Now = Now(timestamp: nat, today: Dates.CalendarDate)

  /** A `RecallItem` without the extended fields. */
  function Basic(id: string, title: string, link: string, date: string, source: string,
                 description: string, category: string): (r: Recall)
    ensures r.productName.None? && r.manufacturer.None? && r.recallReason.None?
  {
    Recall(id, title, link, date, source, Some(description), Some(category),
           None, None, None, None, None, None)
  }

  /** The sort key of a record: its date's (year, month, day) key when the date is an ISO
      calendar date. Other text is ranked below every date; no claim is made about that. */
  function DateKey(r: Recall): int {
    match Dates.ParseIso(r.date)
    case Some(d) => Dates.Key(d)
    case None => -1
  }

  /** `sort((a, b) => new Date(b.date).getTime() - new Date(a.date).getTime())` over
      ISO dates: a stable sort, newest first. */
  function SortNewestFirst(s: seq<Recall>): (r: seq<Recall>)
    ensures multiset(r) == multiset(s) && |r| == |s|
    ensures Sorting.Descending(r, DateKey)
    ensures forall k :: Sorting.WithKey(r, DateKey, k) == Sorting.WithKey(s, DateKey, k)
  {
    Sorting.SortIsStable(s, DateKey);
    Sorting.SortDesc(s, DateKey)
  }

  /** Every record carries an ISO date and the dates never increase along `r`. */
  ghost predicate IsoNewestFirst(r: seq<Recall>) {
    && (forall k | 0 <= k < |r| :: Dates.ParseIso(r[k].date).Some?)
    && forall i, j | 0 <= i < j < |r| ::
         Dates.Key(Dates.ParseIso(r[j].date).value) <= Dates.Key(Dates.ParseIso(r[i].date).value)
  }

  /** Over records that all carry ISO dates, newest-first by `DateKey` is newest-first by date. */
  lemma IsoDescending(r: seq<Recall>)
    requires forall k | 0 <= k < |r| :: Dates.ParseIso(r[k].date).Some?
    requires Sorting.Descending(r, DateKey)
    ensures forall i, j | 0 <= i < j < |r| ::
              Dates.Key(Dates.ParseIso(r[j].date).value) <= Dates.Key(Dates.ParseIso(r[i].date).value)
  {
    forall i, j | 0 <= i < j < |r|
      ensures Dates.Key(Dates.ParseIso(r[j].date).value) <= Dates.Key(Dates.ParseIso(r[i].date).value)
    {
      assert DateKey(r[i]) >= DateKey(r[j]);
    }
  }

  function Id(r: Recall): string {
    r.id
  }

  /** The ids of a sequence of records. */
  function Ids(s: seq<Recall>): (r: seq<string>)
    ensures r == Project(s, Id)
  {
    Project(s, Id)
  }
}
