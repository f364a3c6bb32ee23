/** `generateBulkRecalls`: a fixed walk over the product and government tables that draws
    models, reasons, counts and ages from `Math.random`, numbers every record from one
    counter, and sorts the result newest-first.

    `Math.random` is an oracle: its k-th call (from 0) returns `rand(k)`, a real in [0, 1).
    The walk is written as functions over a generator state that carries the records so
    far, the next value of `recallId` and the number of random draws made. */
module BulkGenerator {
  import opened Wrappers
  import opened Strings
  import opened Seqs
  import Dates
  import Sorting
  import opened Records
  import opened BulkTables

  type Unit = x: real | 0.0 <= x < 1.0

  /** `Math.random`, by call number. */
  type Random = nat -> Unit

  /** `Math.floor(u * n)`: a uniform index below `n`. */
  function Below(u: Unit, n: nat): (r: nat)
    requires n > 0
    ensures r < n
    ensures r as real <= u * n as real < r as real + 1.0
  {
    var x := u * n as real;
    MulStrict(u, 1.0, n as real);
    x.Floor
  }

  /** Multiplying by a positive real keeps a strict order. */
  lemma MulStrict(a: real, b: real, c: real)
    requires a < b && c > 0.0
    ensures a * c < b * c
  {
    assert b * c - a * c == (b - a) * c;
  }

  /** The state of the walk: records pushed so far, `recallId`, and random draws made. */
  datatype Gen = Gen(out: seq<Recall>, next: nat, draws: nat)

  /** `date` is an ISO date among the `n` days ending today. */
  predicate Within(date: string, today: Dates.CalendarDate, n: nat) {
    && Dates.ParseIso(date).Some?
    && Dates.DayNumber(today) - n < Dates.DayNumber(Dates.ParseIso(date).value) <= Dates.DayNumber(today)
  }

  /** `date.setDate(date.getDate() - daysAgo)` followed by `toISOString().split('T')[0]`. */
  function DaysBefore(today: Dates.CalendarDate, daysAgo: nat, span: nat): (r: string)
    requires daysAgo < span && Dates.DayNumber(today) >= daysAgo
    ensures Within(r, today, span)
  {
    var d := Dates.SubtractDays(today, daysAgo);
    Dates.ParseFormat(d);
    Dates.Format(d)
  }

  /** A number as template-literal text, sign included. */
  function IntText(i: int): string {
    if i < 0 then "-" + NatToString(-i) else NatToString(i)
  }

  /** The description of a product record. */
  function ProductDescription(w: Wording, manufacturer: string, model: string, reason: string, units: nat, year: int): (r: string)
    ensures StartsWith(r, manufacturer + w.recallFor + model)
  {
    manufacturer + w.recallFor + model + w.dueTo + ToLower(reason) + w.affects + NatToString(units)
    + w.between + IntText(year - 2) + w.and + IntText(year) + w.contact + manufacturer + w.service
  }

  /** The description of a government record. */
  function GovDescription(w: Wording, source: string, reason: string): (r: string)
    ensures StartsWith(r, w.alertThe + source + w.regarding)
  {
    w.alertThe + source + w.regarding + ToLower(reason) + w.checkThe + source + w.website
  }

  /** A day far enough from the start of the calendar that the walk can step 729 days back. */
  type Today = d: Dates.CalendarDate | Dates.DayNumber(d) >= 729 witness Dates.Date(2, 1, 1)

  /** What the walk promises about the record of a manufacturer `p` of category `key`. */
  ghost predicate ProductShaped(t: Tables, rec: Recall, key: string, p: Product, today: Today) {
    && rec.manufacturer == Some(p.manufacturer)
    && rec.affectedModels.Some? && rec.affectedModels.value in p.models
    && rec.productName == Some(p.manufacturer + " " + rec.affectedModels.value)
    && rec.recallReason.Some? && rec.recallReason.value in t.reasons
    && rec.title == rec.productName.value + " Recall: " + FirstWords(rec.recallReason.value, 3)
    && rec.source == RouteIn(t.working, key, p.manufacturer)
    && rec.category == Some(Capitalise(key))
    && rec.link == LinkIn(t.links, p.manufacturer, rec.source)
    && rec.recallDate == Some(rec.date) && Within(rec.date, today, 730)
  }

  /** `title` is `<source> Safety Alert: ` followed by the first four words of a listed reason. */
  ghost predicate AlertTitle(title: string, source: string, reasons: seq<string>) {
    exists j | 0 <= j < |reasons| :: title == source + " Safety Alert: " + FirstWords(reasons[j], 4)
  }

  /** The placeholders of a government record. */
  function MultipleProducts(): string { "Multiple Products" }
  function VariousMakers(): string { "Various Manufacturers" }
  function MultipleModels(): string { "Multiple Models" }

  /** What the walk promises about a record of government source `source`. */
  ghost predicate GovShaped(t: Tables, rec: Recall, source: string, today: Today) {
    && rec.source == source
    && rec.productName == Some(MultipleProducts())
    && rec.manufacturer == Some(VariousMakers())
    && rec.affectedModels == Some(MultipleModels())
    && rec.category == Some(GovCategory(source))
    && AlertTitle(rec.title, source, t.reasons)
    && rec.recallReason.Some? && rec.recallReason.value in t.reasons
    && rec.link == LinkIn(t.links, source, source)
    && rec.recallDate == Some(rec.date) && Within(rec.date, today, 365)
  }

  /** One iteration of the inner product loop, as record number `id` whose draws start at
      call `k`: model, reason, age and unit count, in that order. An empty model list would
      make the model `undefined`: the templates then read "undefined", and the code's
      `affectedModels` would be missing where this gives `Some("undefined")`. No table entry
      has an empty model list (`BulkTables.ProductDataFacts`), so this case never arises. */
  function ProductRecall(t: Tables, key: string, p: Product, rand: Random, today: Today, id: nat, k: nat): (r: Recall)
    ensures r.id == "bulk-" + NatToString(id)
    ensures Within(r.date, today, 730)
  {
    var model := if p.models == [] then "undefined" else p.models[Below(rand(k), |p.models|)];
    var reason := t.reasons[Below(rand(k + 1), |t.reasons|)];
    var daysAgo := Below(rand(k + 2), 730);
    var units := Below(rand(k + 3), 50000) + 1000;
    var date := DaysBefore(today, daysAgo, 730);
    var source := RouteIn(t.working, key, p.manufacturer);
    Recall(
      "bulk-" + NatToString(id),
      p.manufacturer + " " + model + " Recall: " + FirstWords(reason, 3),
      LinkIn(t.links, p.manufacturer, source),
      date,
      source,
      Some(ProductDescription(t.wording, p.manufacturer, model, reason, units, Dates.ParseIso(date).value.year)),
      Some(Capitalise(key)),
      Some(p.manufacturer + " " + model),
      Some(reason),
      Some(model),
      Some(date),
      Some("Contact manufacturer for repair or replacement"),
      Some(p.manufacturer))
  }

  /** A product record names a model of its maker, builds title and product name from the
      model and a listed reason, is filed and linked by the routing rules, and is dated
      within the last 730 days, with `recallDate` equal to `date`. */
  lemma ProductRecallShaped(t: Tables, key: string, p: Product, rand: Random, today: Today, id: nat, k: nat)
    requires p.models != []
    ensures ProductShaped(t, ProductRecall(t, key, p, rand, today, id, k), key, p, today)
  {
  }

  /** The four draws of one iteration of the government loop. */
  datatype GovPick = GovPick(daysAgo: nat, titleReason: string, descReason: string, reason: string)

  /** Age, title reason, description reason and recall reason, drawn in that order from
      call `k` on. */
  function GovDraws(t: Tables, rand: Random, k: nat): (r: GovPick)
    ensures r.daysAgo < 365
    ensures r.titleReason in t.reasons && r.descReason in t.reasons && r.reason in t.reasons
  {
    GovPick(Below(rand(k), 365),
            t.reasons[Below(rand(k + 1), |t.reasons|)],
            t.reasons[Below(rand(k + 2), |t.reasons|)],
            t.reasons[Below(rand(k + 3), |t.reasons|)])
  }

  /** One iteration of the government loop, as record number `id` whose draws start at
      call `k`. */
  function GovRecall(t: Tables, source: string, rand: Random, today: Today, id: nat, k: nat): (r: Recall)
    ensures r.id == "gov-" + NatToString(id)
    ensures Within(r.date, today, 365)
  {
    var pick := GovDraws(t, rand, k);
    var date := DaysBefore(today, pick.daysAgo, 365);
    Recall(
      "gov-" + NatToString(id),
      source + " Safety Alert: " + FirstWords(pick.titleReason, 4),
      LinkIn(t.links, source, source),
      date,
      source,
      Some(GovDescription(t.wording, source, pick.descReason)),
      Some(GovCategory(source)),
      Some(MultipleProducts()),
      Some(pick.reason),
      Some(MultipleModels()),
      Some(date),
      Some("Check government website for specific details"),
      Some(VariousMakers()))
  }

  /** A government record carries its source, a title from a listed reason, the fixed
      placeholders, its source's category and link, and a date within the last 365 days. */
  lemma GovRecallShaped(t: Tables, source: string, rand: Random, today: Today, id: nat, k: nat)
    ensures GovShaped(t, GovRecall(t, source, rand, today, id, k), source, today)
  {
    var pick := GovDraws(t, rand, k);
    var j :| 0 <= j < |t.reasons| && t.reasons[j] == pick.titleReason;
    assert AlertTitle(GovRecall(t, source, rand, today, id, k).title, source, t.reasons);
  }

  lemma WithinWider(date: string, today: Dates.CalendarDate, n: nat, m: nat)
    requires Within(date, today, n) && n <= m
    ensures Within(date, today, m)
  {
  }

  /** The id of the record pushed `n`-th, counting from 1. */
  predicate IdOf(id: string, n: nat) {
    id == "bulk-" + NatToString(n) || id == "gov-" + NatToString(n)
  }

  /** `recallId` is one more than the number of records, and each record carries its own
      position as its number. */
  ghost predicate Numbered(g: Gen) {
    && g.next == |g.out| + 1
    && forall i | 0 <= i < |g.out| :: IdOf(g.out[i].id, i + 1)
  }

  /** `r` is `g` with records pushed, each numbered from `recallId` on. */
  ghost predicate Grows(g: Gen, r: Gen) {
    && |g.out| <= |r.out| && r.out[..|g.out|] == g.out
    && r.next == g.next + (|r.out| - |g.out|)
  }

  /** Pushing records numbered from `recallId` on keeps a walk numbered. */
  lemma GrowsNumbered(g: Gen, r: Gen)
    requires Grows(g, r)
    requires forall i | |g.out| <= i < |r.out| :: IdOf(r.out[i].id, g.next + (i - |g.out|))
    ensures Numbered(g) ==> Numbered(r)
  {
    if Numbered(g) {
      forall i | 0 <= i < |g.out| ensures IdOf(r.out[i].id, i + 1) {
        assert r.out[i] == r.out[..|g.out|][i];
      }
    }
  }

  lemma GrowsTrans(a: Gen, b: Gen, c: Gen)
    requires Grows(a, b) && Grows(b, c)
    ensures Grows(a, c)
    ensures forall i | 0 <= i < |b.out| :: c.out[i] == b.out[i]
  {
    assert c.out[..|a.out|] == c.out[..|b.out|][..|a.out|];
    forall i | 0 <= i < |b.out| ensures c.out[i] == b.out[i] {
      assert c.out[i] == c.out[..|b.out|][i];
    }
  }

  /** "bulk-" and "gov-" ids never coincide. */
  lemma BulkNotGov(x: string, y: string)
    ensures "bulk-" + x != "gov-" + y
  {
    assert ("bulk-" + x)[0] == 'b';
    assert ("gov-" + y)[0] == 'g';
  }

  /** Two ids of the walk name the same number only if they are for the same position. */
  lemma IdOfInjective(id: string, a: nat, b: nat)
    requires IdOf(id, a) && IdOf(id, b)
    ensures a == b
  {
    BulkNotGov(NatToString(a), NatToString(b));
    BulkNotGov(NatToString(b), NatToString(a));
    var bulk := "bulk-";
    var gov := "gov-";
    if id == bulk + NatToString(a) {
      assert id[|bulk|..] == NatToString(a) && id[|bulk|..] == NatToString(b);
      NatToStringInjective(a, b);
    } else {
      assert id[|gov|..] == NatToString(a) && id[|gov|..] == NatToString(b);
      NatToStringInjective(a, b);
    }
  }

  /** The records of a numbered walk have pairwise distinct ids. */
  lemma NumberedDistinct(g: Gen)
    requires Numbered(g)
    ensures Distinct(Ids(g.out))
  {
    forall i, j | 0 <= i < j < |g.out| ensures g.out[i].id != g.out[j].id {
      if g.out[i].id == g.out[j].id {
        IdOfInjective(g.out[i].id, i + 1, j + 1);
      }
    }
  }

  /** How the walk makes a product record: from the category key, the manufacturer, the
      record's number and the number of the record's first draw. */
  type ProductMaker = (string, Product, nat, nat) -> Recall

  /** How the walk makes a government record: from the source, the record's number and
      the number of the record's first draw. */
  type GovMaker = (string, nat, nat) -> Recall

  /** One `for (let i = 0; i < n; i++)` loop of the walk: a draw for `n`, which is `least`
      to `least + 7`, then `n` records, the `j`-th numbered `recallId + j` and making four
      draws of its own. */
  function Loop(make: (nat, nat) -> Recall, least: nat, rand: Random, g: Gen): (r: Gen)
    ensures Grows(g, r) && least <= |r.out| - |g.out| <= least + 7
    ensures r.draws == g.draws + 1 + 4 * (|r.out| - |g.out|)
    ensures forall i | |g.out| <= i < |r.out| ::
              r.out[i] == make(g.next + (i - |g.out|), g.draws + 1 + 4 * (i - |g.out|))
  {
    var n := Below(rand(g.draws), 8) + least;
    var made := seq(n, j requires 0 <= j < n => make(g.next + j, g.draws + 1 + 4 * j));
    var r := Gen(g.out + made, g.next + n, g.draws + 1 + 4 * n);
    assert r.out[..|g.out|] == g.out;
    r
  }

  /** A loop whose records carry the number they are made with keeps the walk numbered. */
  lemma LoopNumbered(make: (nat, nat) -> Recall, least: nat, rand: Random, g: Gen)
    requires forall a: nat, k: nat :: IdOf(make(a, k).id, a)
    ensures Numbered(g) ==> Numbered(Loop(make, least, rand, g))
  {
    var r := Loop(make, least, rand, g);
    forall i | |g.out| <= i < |r.out| ensures IdOf(r.out[i].id, g.next + (i - |g.out|)) {
      assert r.out[i] == make(g.next + (i - |g.out|), g.draws + 1 + 4 * (i - |g.out|));
    }
    GrowsNumbered(g, r);
  }

  /** The maker of one manufacturer's loop. */
  function ForMaker(make: ProductMaker, key: string, p: Product): (nat, nat) -> Recall {
    (a: nat, k: nat) => make(key, p, a, k)
  }

  /** The maker of one government source's loop. */
  function ForSource(make: GovMaker, source: string): (nat, nat) -> Recall {
    (a: nat, k: nat) => make(source, a, k)
  }

  /** The loops over the manufacturers of one category, `ps` in table order. */
  function ForProducts(make: ProductMaker, key: string, ps: seq<Product>, rand: Random, g: Gen): (r: Gen)
    ensures Grows(g, r) && 8 * |ps| <= |r.out| - |g.out| <= 15 * |ps|
    decreases |ps|
  {
    if ps == [] then g
    else
      var g1 := Loop(ForMaker(make, key, ps[0]), 8, rand, g);
      var r := ForProducts(make, key, ps[1..], rand, g1);
      GrowsTrans(g, g1, r);
      r
  }

  /** The loops over every category of `cats`, in table order. */
  function ForCategories(make: ProductMaker, cats: seq<Category>, rand: Random, g: Gen): (r: Gen)
    ensures Grows(g, r) && 8 * ProductCount(cats) <= |r.out| - |g.out| <= 15 * ProductCount(cats)
    decreases |cats|
  {
    if cats == [] then g
    else
      var g1 := ForProducts(make, cats[0].key, cats[0].products, rand, g);
      var r := ForCategories(make, cats[1..], rand, g1);
      GrowsTrans(g, g1, r);
      r
  }

  /** The loops over the government sources from position `from` on, 5 to 12 records
      each. */
  function ForGovs(make: GovMaker, govs: seq<string>, from: nat, rand: Random, g: Gen): (r: Gen)
    requires from <= |govs|
    ensures Grows(g, r) && 5 * (|govs| - from) <= |r.out| - |g.out| <= 12 * (|govs| - from)
    decreases |govs| - from
  {
    if from == |govs| then g
    else
      var g1 := Loop(ForSource(make, govs[from]), 5, rand, g);
      var r := ForGovs(make, govs, from + 1, rand, g1);
      GrowsTrans(g, g1, r);
      r
  }

  /** The whole walk, from no records, `recallId = 1` and no draws: the product tables
      first, then the government sources. */
  function Walk(pm: ProductMaker, gm: GovMaker, cats: seq<Category>, govs: seq<string>, rand: Random): (r: Gen)
    ensures 8 * ProductCount(cats) + 5 * |govs| <= |r.out| <= 15 * ProductCount(cats) + 12 * |govs|
  {
    var g := ForCategories(pm, cats, rand, Gen([], 1, 0));
    ForGovs(gm, govs, 0, rand, g)
  }

  /** Makers that number every record with the number they are given. */
  ghost predicate NumbersProducts(make: ProductMaker) {
    forall key, p, a: nat, k: nat :: IdOf(make(key, p, a, k).id, a)
  }

  ghost predicate NumbersGovs(make: GovMaker) {
    forall s, a: nat, k: nat :: IdOf(make(s, a, k).id, a)
  }

  lemma {:induction false} ForProductsNumbered(make: ProductMaker, key: string, ps: seq<Product>, rand: Random, g: Gen)
    requires NumbersProducts(make) && Numbered(g)
    ensures Numbered(ForProducts(make, key, ps, rand, g))
    decreases |ps|
  {
    if ps != [] {
      var m := ForMaker(make, key, ps[0]);
      LoopNumbered(m, 8, rand, g);
      ForProductsNumbered(make, key, ps[1..], rand, Loop(m, 8, rand, g));
    }
  }

  lemma {:induction false} ForCategoriesNumbered(make: ProductMaker, cats: seq<Category>, rand: Random, g: Gen)
    requires NumbersProducts(make) && Numbered(g)
    ensures Numbered(ForCategories(make, cats, rand, g))
    decreases |cats|
  {
    if cats != [] {
      ForProductsNumbered(make, cats[0].key, cats[0].products, rand, g);
      ForCategoriesNumbered(make, cats[1..], rand, ForProducts(make, cats[0].key, cats[0].products, rand, g));
    }
  }

  lemma {:induction false} ForGovsNumbered(make: GovMaker, govs: seq<string>, from: nat, rand: Random, g: Gen)
    requires from <= |govs|
    requires NumbersGovs(make) && Numbered(g)
    ensures Numbered(ForGovs(make, govs, from, rand, g))
    decreases |govs| - from
  {
    if from < |govs| {
      var m := ForSource(make, govs[from]);
      LoopNumbered(m, 5, rand, g);
      ForGovsNumbered(make, govs, from + 1, rand, Loop(m, 5, rand, g));
    }
  }

  /** Every record of a walk with numbering makers carries its own position: the ids are
      `bulk-1`, `bulk-2`, ... then `gov-...`, one counter for both. */
  lemma WalkNumbered(pm: ProductMaker, gm: GovMaker, cats: seq<Category>, govs: seq<string>, rand: Random)
    requires NumbersProducts(pm) && NumbersGovs(gm)
    ensures Numbered(Walk(pm, gm, cats, govs, rand))
  {
    var g := Gen([], 1, 0);
    ForCategoriesNumbered(pm, cats, rand, g);
    ForGovsNumbered(gm, govs, 0, rand, ForCategories(pm, cats, rand, g));
  }

  /** `rec` was made for a manufacturer of `cats`, under its category's key. */
  ghost predicate ProductMade(make: ProductMaker, cats: seq<Category>, rec: Recall) {
    exists c, q, a: nat, k: nat | c in cats && q in c.products :: rec == make(c.key, q, a, k)
  }

  /** `rec` was made for a source of `govs`. */
  ghost predicate GovMade(make: GovMaker, govs: seq<string>, rec: Recall) {
    exists s, a: nat, k: nat | s in govs :: rec == make(s, a, k)
  }

  /** Which manufacturer, number and draw made record `i` of the loops over `ps`. */
  lemma {:induction false} ForProductsOrigin(make: ProductMaker, key: string, ps: seq<Product>, rand: Random, g: Gen, i: nat)
      returns (q: Product, a: nat, k: nat)
    requires |g.out| <= i < |ForProducts(make, key, ps, rand, g).out|
    ensures q in ps && ForProducts(make, key, ps, rand, g).out[i] == make(key, q, a, k)
    decreases |ps|
  {
    var g1 := Loop(ForMaker(make, key, ps[0]), 8, rand, g);
    var r := ForProducts(make, key, ps, rand, g);
    assert r == ForProducts(make, key, ps[1..], rand, g1);
    GrowsTrans(g, g1, r);
    if i < |g1.out| {
      q := ps[0];
      a, k := LoopOrigin(make, key, q, rand, g, i);
    } else {
      q, a, k := ForProductsOrigin(make, key, ps[1..], rand, g1, i);
    }
  }

  /** Which number and draw made record `i` of one manufacturer's loop. */
  lemma LoopOrigin(make: ProductMaker, key: string, q: Product, rand: Random, g: Gen, i: nat)
      returns (a: nat, k: nat)
    requires |g.out| <= i < |Loop(ForMaker(make, key, q), 8, rand, g).out|
    ensures Loop(ForMaker(make, key, q), 8, rand, g).out[i] == make(key, q, a, k)
  {
    a, k := g.next + (i - |g.out|), g.draws + 1 + 4 * (i - |g.out|);
    assert ForMaker(make, key, q)(a, k) == make(key, q, a, k);
  }

  /** Which category, manufacturer, number and draw made record `i` of the loops over
      `cats`. */
  lemma {:induction false} ForCategoriesOrigin(make: ProductMaker, cats: seq<Category>, rand: Random, g: Gen, i: nat)
      returns (c: Category, q: Product, a: nat, k: nat)
    requires |g.out| <= i < |ForCategories(make, cats, rand, g).out|
    ensures c in cats && q in c.products && ForCategories(make, cats, rand, g).out[i] == make(c.key, q, a, k)
    decreases |cats|
  {
    var g1 := ForProducts(make, cats[0].key, cats[0].products, rand, g);
    var r := ForCategories(make, cats, rand, g);
    assert r == ForCategories(make, cats[1..], rand, g1);
    GrowsTrans(g, g1, r);
    if i < |g1.out| {
      c := cats[0];
      q, a, k := ForProductsOrigin(make, c.key, c.products, rand, g, i);
    } else {
      c, q, a, k := ForCategoriesOrigin(make, cats[1..], rand, g1, i);
    }
  }

  /** Which source (by position), number and draw made record `i` of the loops over `govs`
      from `from` on. */
  lemma {:induction false} ForGovsOrigin(make: GovMaker, govs: seq<string>, from: nat, rand: Random, g: Gen, i: nat)
      returns (j: nat, a: nat, k: nat)
    requires from <= |govs| && |g.out| <= i < |ForGovs(make, govs, from, rand, g).out|
    ensures from <= j < |govs| && ForGovs(make, govs, from, rand, g).out[i] == make(govs[j], a, k)
    decreases |govs| - from
  {
    var m := ForSource(make, govs[from]);
    var g1 := Loop(m, 5, rand, g);
    var r := ForGovs(make, govs, from, rand, g);
    assert r == ForGovs(make, govs, from + 1, rand, g1);
    GrowsTrans(g, g1, r);
    if i < |g1.out| {
      j, a, k := from, g.next + (i - |g.out|), g.draws + 1 + 4 * (i - |g.out|);
      assert g1.out[i] == m(a, k);
      assert m(a, k) == make(govs[from], a, k);
    } else {
      j, a, k := ForGovsOrigin(make, govs, from + 1, rand, g1, i);
    }
  }

  /** Every record of the walk was made for a manufacturer of the product tables or for a
      government source: the walk adds nothing else. */
  lemma WalkMade(pm: ProductMaker, gm: GovMaker, cats: seq<Category>, govs: seq<string>, rand: Random)
    ensures var r := Walk(pm, gm, cats, govs, rand);
            forall i | 0 <= i < |r.out| :: ProductMade(pm, cats, r.out[i]) || GovMade(gm, govs, r.out[i])
  {
    var g := Gen([], 1, 0);
    var g1 := ForCategories(pm, cats, rand, g);
    var r := Walk(pm, gm, cats, govs, rand);
    GrowsTrans(g, g1, r);
    forall i | 0 <= i < |r.out| ensures ProductMade(pm, cats, r.out[i]) || GovMade(gm, govs, r.out[i]) {
      if i < |g1.out| {
        var c, q, a, k := ForCategoriesOrigin(pm, cats, rand, g, i);
        assert r.out[i] == pm(c.key, q, a, k);
      } else {
        var j, a, k := ForGovsOrigin(gm, govs, 0, rand, g1, i);
        assert r.out[i] == gm(govs[j], a, k);
      }
    }
  }

  /** The maker of `generateBulkRecalls`' product records. */
  function Products(t: Tables, rand: Random, today: Today): ProductMaker {
    (key: string, p: Product, a: nat, k: nat) => ProductRecall(t, key, p, rand, today, a, k)
  }

  /** The maker of `generateBulkRecalls`' government records. */
  function Alerts(t: Tables, rand: Random, today: Today): GovMaker {
    (source: string, a: nat, k: nat) => GovRecall(t, source, rand, today, a, k)
  }

  lemma MakersNumber(t: Tables, rand: Random, today: Today)
    ensures NumbersProducts(Products(t, rand, today)) && NumbersGovs(Alerts(t, rand, today))
  {
    forall key, p, a: nat, k: nat ensures IdOf(Products(t, rand, today)(key, p, a, k).id, a) {
      assert Products(t, rand, today)(key, p, a, k) == ProductRecall(t, key, p, rand, today, a, k);
    }
    forall s, a: nat, k: nat ensures IdOf(Alerts(t, rand, today)(s, a, k).id, a) {
      assert Alerts(t, rand, today)(s, a, k) == GovRecall(t, s, rand, today, a, k);
    }
  }

  /** The records of the walk, as made by `generateBulkRecalls`. */
  function BulkWalk(t: Tables, cats: seq<Category>, govs: seq<string>, rand: Random, today: Today): (r: Gen)
    ensures 8 * ProductCount(cats) + 5 * |govs| <= |r.out| <= 15 * ProductCount(cats) + 12 * |govs|
  {
    Walk(Products(t, rand, today), Alerts(t, rand, today), cats, govs, rand)
  }

  /** Every record of `s` is dated among the `n` days ending today. */
  ghost predicate AllWithin(s: seq<Recall>, today: Dates.CalendarDate, n: nat) {
    forall k | 0 <= k < |s| :: Within(s[k].date, today, n)
  }

  /** Every record of the walk is dated among the last 730 days. */
  lemma BulkWalkDated(t: Tables, cats: seq<Category>, govs: seq<string>, rand: Random, today: Today)
    ensures AllWithin(BulkWalk(t, cats, govs, rand, today).out, today, 730)
  {
    var pm, gm := Products(t, rand, today), Alerts(t, rand, today);
    var w := BulkWalk(t, cats, govs, rand, today);
    WalkMade(pm, gm, cats, govs, rand);
    forall i | 0 <= i < |w.out| ensures Within(w.out[i].date, today, 730) {
      if ProductMade(pm, cats, w.out[i]) {
        var c, q, a: nat, k: nat :| c in cats && q in c.products && w.out[i] == pm(c.key, q, a, k);
        assert pm(c.key, q, a, k) == ProductRecall(t, c.key, q, rand, today, a, k);
      } else {
        var s, a: nat, k: nat :| s in govs && w.out[i] == gm(s, a, k);
        assert gm(s, a, k) == GovRecall(t, s, rand, today, a, k);
        WithinWider(w.out[i].date, today, 365, 730);
      }
    }
  }

  /** `generateBulkRecalls` over given tables: the walk's records sorted newest-first. The
      count is 8 to 15 per manufacturer plus 5 to 12 per government source, every date is
      among the last 730 days, and the dates never increase along the result. */
  function GenerateWith(t: Tables, cats: seq<Category>, govs: seq<string>, rand: Random, today: Today): (r: seq<Recall>)
    ensures multiset(r) == multiset(BulkWalk(t, cats, govs, rand, today).out)
    ensures 8 * ProductCount(cats) + 5 * |govs| <= |r| <= 15 * ProductCount(cats) + 12 * |govs|
    ensures AllWithin(r, today, 730) && IsoNewestFirst(r)
    ensures forall key :: Sorting.WithKey(r, DateKey, key) ==
                          Sorting.WithKey(BulkWalk(t, cats, govs, rand, today).out, DateKey, key)
  {
    var w := BulkWalk(t, cats, govs, rand, today);
    BulkWalkDated(t, cats, govs, rand, today);
    SortKeepsWithin(w.out, today, 730);
    SortNewestFirst(w.out)
  }

  /** Sorting dated records keeps them dated, and newest-first by `DateKey` is then
      newest-first by date. */
  lemma SortKeepsWithin(s: seq<Recall>, today: Dates.CalendarDate, n: nat)
    requires AllWithin(s, today, n)
    ensures AllWithin(SortNewestFirst(s), today, n) && IsoNewestFirst(SortNewestFirst(s))
  {
    var r := SortNewestFirst(s);
    PermutationAll(s, r, (rec: Recall) => Within(rec.date, today, n));
    IsoDescending(r);
  }

  /** Every record has its own id: one counter numbers both kinds. */
  lemma GenerateIdsDistinct(t: Tables, cats: seq<Category>, govs: seq<string>, rand: Random, today: Today)
    ensures Distinct(Ids(GenerateWith(t, cats, govs, rand, today)))
  {
    var w := BulkWalk(t, cats, govs, rand, today);
    MakersNumber(t, rand, today);
    WalkNumbered(Products(t, rand, today), Alerts(t, rand, today), cats, govs, rand);
    NumberedDistinct(w);
    Sorting.PermutationKeepsDistinct(w.out, GenerateWith(t, cats, govs, rand, today), Id);
  }

  /** `rec` is a product record of a manufacturer of `cats` or an alert of a source of
      `govs`. */
  ghost predicate BulkShaped(t: Tables, cats: seq<Category>, govs: seq<string>, rec: Recall, today: Today) {
    || (exists c, q | c in cats && q in c.products :: ProductShaped(t, rec, c.key, q, today))
    || (exists s | s in govs :: GovShaped(t, rec, s, today))
  }

  /** Each record of the walk is shaped after the manufacturer or source it was made for. */
  lemma BulkWalkShaped(t: Tables, cats: seq<Category>, govs: seq<string>, rand: Random, today: Today)
    requires ModelsPresent(cats)
    ensures var w := BulkWalk(t, cats, govs, rand, today);
            forall i | 0 <= i < |w.out| :: BulkShaped(t, cats, govs, w.out[i], today)
  {
    var pm, gm := Products(t, rand, today), Alerts(t, rand, today);
    var w := BulkWalk(t, cats, govs, rand, today);
    WalkMade(pm, gm, cats, govs, rand);
    forall i | 0 <= i < |w.out| ensures BulkShaped(t, cats, govs, w.out[i], today) {
      if ProductMade(pm, cats, w.out[i]) {
        var c, q, a: nat, k: nat :| c in cats && q in c.products && w.out[i] == pm(c.key, q, a, k);
        assert pm(c.key, q, a, k) == ProductRecall(t, c.key, q, rand, today, a, k);
        var ci :| 0 <= ci < |cats| && cats[ci] == c;
        var qi :| 0 <= qi < |c.products| && c.products[qi] == q;
        assert q.models != [];
        ProductRecallShaped(t, c.key, q, rand, today, a, k);
      } else {
        var s, a: nat, k: nat :| s in govs && w.out[i] == gm(s, a, k);
        assert gm(s, a, k) == GovRecall(t, s, rand, today, a, k);
        GovRecallShaped(t, s, rand, today, a, k);
      }
    }
  }

  /** Every generated record is shaped after a manufacturer or a source of the tables. */
  lemma GenerateShaped(t: Tables, cats: seq<Category>, govs: seq<string>, rand: Random, today: Today)
    requires ModelsPresent(cats)
    ensures var r := GenerateWith(t, cats, govs, rand, today);
            forall k | 0 <= k < |r| :: BulkShaped(t, cats, govs, r[k], today)
  {
    var w := BulkWalk(t, cats, govs, rand, today);
    BulkWalkShaped(t, cats, govs, rand, today);
    PermutationAll(w.out, GenerateWith(t, cats, govs, rand, today), (rec: Recall) => BulkShaped(t, cats, govs, rec, today));
  }

  /** A record shaped after the tables links to an `https://` address when every table
      link is one. */
  lemma ShapedLinkHttps(t: Tables, cats: seq<Category>, govs: seq<string>, rec: Recall, today: Today)
    requires BulkShaped(t, cats, govs, rec, today)
    requires forall k | k in t.links :: StartsWith(t.links[k], "https://")
    ensures StartsWith(rec.link, "https://")
  {
    if exists c, q | c in cats && q in c.products :: ProductShaped(t, rec, c.key, q, today) {
      var c, q :| c in cats && q in c.products && ProductShaped(t, rec, c.key, q, today);
      LinkInHttps(t.links, q.manufacturer, rec.source);
    } else {
      var src :| src in govs && GovShaped(t, rec, src, today);
      LinkInHttps(t.links, src, src);
    }
  }

  /** Every generated link is an `https://` address when every table link is one. */
  lemma GenerateLinks(t: Tables, cats: seq<Category>, govs: seq<string>, rand: Random, today: Today)
    requires ModelsPresent(cats)
    requires forall k | k in t.links :: StartsWith(t.links[k], "https://")
    ensures var r := GenerateWith(t, cats, govs, rand, today);
            forall k | 0 <= k < |r| :: StartsWith(r[k].link, "https://")
  {
    var r := GenerateWith(t, cats, govs, rand, today);
    GenerateShaped(t, cats, govs, rand, today);
    forall k | 0 <= k < |r| ensures StartsWith(r[k].link, "https://") {
      ShapedLinkHttps(t, cats, govs, r[k], today);
    }
  }

  /** `generateBulkRecalls()`: the walk over the tables of `bulk-scraper.ts`. With the 37
      manufacturers of `ProductDataFacts` and the 9 government sources, `GenerateWith`
      bounds the count to 341..663. */
  function GenerateBulkRecalls(rand: Random, today: Today): seq<Recall> {
    GenerateWith(Fixed(Templates()), ProductData(), GovernmentSources, rand, today)
  }
}
