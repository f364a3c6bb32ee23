/** The search box and the two drop-down filters of the recall list page, and the lists
    of values the drop-downs offer. Each handler starts again from the full list of
    recalls, so each is a pure function of that list and its own input. */
module ClientFilters {
  import opened Wrappers
  import opened Strings
  import opened Seqs
  import opened Records

  /** The search test: the lower-cased query occurs in the lower-cased title or in the
      lower-cased description; a record without description matches on its title only. */
  predicate Matches(rec: Recall, query: string) {
    || Contains(ToLower(rec.title), ToLower(query))
    || (rec.description.Some? && Contains(ToLower(rec.description.value), ToLower(query)))
  }

  /** `handleSearch(query)`: a query that is blank after `trim` shows every recall; any
      other query, untrimmed, keeps the recalls that match it, each as often as it occurs, in
      their order. */
  function Search(recalls: seq<Recall>, query: string): (r: seq<Recall>)
    ensures AllSpace(query) ==> r == recalls
    ensures !AllSpace(query) ==> forall rec :: rec in r <==> rec in recalls && Matches(rec, query)
    ensures !AllSpace(query) ==> forall rec ::
              multiset(r)[rec] == if Matches(rec, query) then multiset(recalls)[rec] else 0
    ensures IsSubsequence(r, recalls)
  {
    if Trim(query) == [] then
      SubsequenceRefl(recalls);
      recalls
    else
      FilterIsSubsequence(recalls, (rec: Recall) => Matches(rec, query));
      FilterMultiset(recalls, (rec: Recall) => Matches(rec, query));
      Filter(recalls, (rec: Recall) => Matches(rec, query))
  }

  /** `handleFilterBySource(source)`: '' shows every recall, any other value keeps the
      recalls of exactly that source, in their order. */
  function BySource(recalls: seq<Recall>, source: string): (r: seq<Recall>)
    ensures source == [] ==> r == recalls
    ensures source != [] ==> forall rec :: rec in r <==> rec in recalls && rec.source == source
    ensures source != [] ==> forall rec ::
              multiset(r)[rec] == if rec.source == source then multiset(recalls)[rec] else 0
    ensures IsSubsequence(r, recalls)
  {
    if source == [] then
      SubsequenceRefl(recalls);
      recalls
    else
      FilterIsSubsequence(recalls, (rec: Recall) => rec.source == source);
      FilterMultiset(recalls, (rec: Recall) => rec.source == source);
      Filter(recalls, (rec: Recall) => rec.source == source)
  }

  /** `handleFilterByCategory(category)`: '' shows every recall, any other value keeps the
      recalls of exactly that category; a recall without category never matches. */
  function ByCategory(recalls: seq<Recall>, category: string): (r: seq<Recall>)
    ensures category == [] ==> r == recalls
    ensures category != [] ==> forall rec :: rec in r <==> rec in recalls && rec.category == Some(category)
    ensures category != [] ==> forall rec ::
              multiset(r)[rec] == if rec.category == Some(category) then multiset(recalls)[rec] else 0
    ensures IsSubsequence(r, recalls)
  {
    if category == [] then
      SubsequenceRefl(recalls);
      recalls
    else
      FilterIsSubsequence(recalls, (rec: Recall) => rec.category == Some(category));
      FilterMultiset(recalls, (rec: Recall) => rec.category == Some(category));
      Filter(recalls, (rec: Recall) => rec.category == Some(category))
  }

  /** Searching the result of a search for the same query changes nothing. */
  lemma SearchIdempotent(recalls: seq<Recall>, query: string)
    ensures Search(Search(recalls, query), query) == Search(recalls, query)
  {
    if Trim(query) != [] {
      FilterIdempotent(recalls, (rec: Recall) => Matches(rec, query));
    }
  }

  /** Filtering by the same source twice changes nothing the second time. */
  lemma BySourceIdempotent(recalls: seq<Recall>, source: string)
    ensures BySource(BySource(recalls, source), source) == BySource(recalls, source)
  {
    if source != [] {
      FilterIdempotent(recalls, (rec: Recall) => rec.source == source);
    }
  }

  /** Filtering by the same category twice changes nothing the second time. */
  lemma ByCategoryIdempotent(recalls: seq<Recall>, category: string)
    ensures ByCategory(ByCategory(recalls, category), category) == ByCategory(recalls, category)
  {
    if category != [] {
      FilterIdempotent(recalls, (rec: Recall) => rec.category == Some(category));
    }
  }

  function Source(rec: Recall): string {
    rec.source
  }

  /** `[...new Set(recalls.map(recall => recall.source))]`: every source once, in order of
      first occurrence. */
  function Sources(recalls: seq<Recall>): (r: seq<string>)
    ensures Distinct(r)
    ensures forall x :: x in r <==> x in Project(recalls, Source)
    ensures forall i, j | 0 <= i < j < |r| ::
              FirstIndex(Project(recalls, Source), r[i]) < FirstIndex(Project(recalls, Source), r[j])
  {
    Dedupe(Project(recalls, Source))
  }

  /** A source is offered exactly when some recall has it. */
  lemma SourcesMembers(recalls: seq<Recall>, x: string)
    ensures x in Sources(recalls) <==> exists rec | rec in recalls :: rec.source == x
  {
    var all := Project(recalls, Source);
    if x in all {
      var k :| 0 <= k < |all| && all[k] == x;
      assert recalls[k] in recalls;
    }
    if exists rec | rec in recalls :: rec.source == x {
      var rec :| rec in recalls && rec.source == x;
      var k :| 0 <= k < |recalls| && recalls[k] == rec;
      assert all[k] == x;
    }
  }

  /** A record's category as `recall.category` reads in JavaScript, a missing one as "". */
  function CategoryText(rec: Recall): string {
    rec.category.GetOr("")
  }

  /** `Boolean` on a string: true exactly for a non-empty one. */
  predicate Truthy(c: string) {
    c != []
  }

  /** `recalls.map(recall => recall.category).filter(Boolean)`: the categories that are
      present and non-empty, in record order and as often as they occur. */
  function PresentCategories(recalls: seq<Recall>): (r: seq<string>)
    ensures forall x :: x in r <==> x != [] && exists rec | rec in recalls :: rec.category == Some(x)
    ensures r == Filter(Project(recalls, CategoryText), Truthy)
  {
    if recalls == [] then []
    else
      var rest := PresentCategories(recalls[1..]);
      var c := recalls[0].category;
      PresentCategoriesStep(recalls, rest);
      var all := Project(recalls, CategoryText);
      assert all[0] == CategoryText(recalls[0]) && all[1..] == Project(recalls[1..], CategoryText);
      if c.Some? && c.value != [] then [c.value] + rest else rest
  }

  /** The kept categories follow record order, and each non-empty category is kept as
      often as records carry it. */
  lemma PresentCategoriesOrder(recalls: seq<Recall>)
    ensures IsSubsequence(PresentCategories(recalls), Project(recalls, CategoryText))
    ensures forall x :: multiset(PresentCategories(recalls))[x] ==
                        if x != [] then multiset(Project(recalls, CategoryText))[x] else 0
  {
    FilterIsSubsequence(Project(recalls, CategoryText), Truthy);
    FilterMultiset(Project(recalls, CategoryText), Truthy);
  }

  lemma PresentCategoriesStep(recalls: seq<Recall>, rest: seq<string>)
    requires recalls != []
    requires forall x :: x in rest <==> x != [] && exists rec | rec in recalls[1..] :: rec.category == Some(x)
    ensures forall x :: (exists rec | rec in recalls :: rec.category == Some(x)) <==>
              recalls[0].category == Some(x) || exists rec | rec in recalls[1..] :: rec.category == Some(x)
  {
    forall x ensures (exists rec | rec in recalls :: rec.category == Some(x)) <==>
                     recalls[0].category == Some(x) || exists rec | rec in recalls[1..] :: rec.category == Some(x)
    {
      if exists rec | rec in recalls :: rec.category == Some(x) {
        var rec :| rec in recalls && rec.category == Some(x);
        var k :| 0 <= k < |recalls| && recalls[k] == rec;
        if k > 0 {
          assert recalls[1..][k - 1] == rec;
        }
      }
      if exists rec | rec in recalls[1..] :: rec.category == Some(x) {
        var rec :| rec in recalls[1..] && rec.category == Some(x);
        assert rec in recalls;
      }
    }
  }

  /** `[...new Set(...filter(Boolean))]`: every non-empty category once, in order of first
      occurrence. */
  function Categories(recalls: seq<Recall>): (r: seq<string>)
    ensures Distinct(r)
    ensures forall x :: x in r <==> x in PresentCategories(recalls)
    ensures forall x :: x in r <==> x != [] && exists rec | rec in recalls :: rec.category == Some(x)
    ensures forall i, j | 0 <= i < j < |r| ::
              FirstIndex(PresentCategories(recalls), r[i]) < FirstIndex(PresentCategories(recalls), r[j])
  {
    Dedupe(PresentCategories(recalls))
  }
}
