# Recall scraping pipeline — a Dafny model

This project models the decision logic of a product-recall aggregator. Five producers and
consumers of one record type, `RecallItem` (with its extended form `SpecificRecallItem`), are
modelled:

- **Specific scraper** (`SpecificScraper`, `SpecificSources`, `SpecificRun`). A table of 25
  source descriptors. Each descriptor discovers recall links on a landing page, and each
  linked page is read into a title, description, product name, reason and manufacturer. A
  gate decides which pages become records. The loop visits at most three links per source and
  isolates failures, and the result is sorted newest-first.
- **Selector-list scraper** (`WebScraper`). Fallback chains over `', '`-separated selector
  lists. Links are resolved against the page's origin and pass a keyword gate. The loop over
  container selectors stops at the first one that yields a record. The sources are merged and
  sorted.
- **Feed normaliser** (`FeedParser`). Each feed item maps to one record, with documented
  defaults. The feeds are merged and sorted.
- **Bulk generator** (`BulkTables`, `BulkGenerator`). A fixed walk over product and
  government tables. It covers link lookup with a two-level fallback, routing of categories
  to sources, one id counter, record construction, and a 730/365-day date window.
- **Client filters** (`ClientFilters`). The search box, the source and category filters,
  and the lists of distinct sources and categories offered by the page.

Shared modules hold the string functions of the ECMAScript library that the code uses
(`Strings`), sequence helpers (`Seqs`), a stable descending sort (`Sorting`), ISO 8601
calendar dates in the `YYYY-MM-DD` form of section 5.2.1.1 of ISO 8601:2004 (`Dates`), the
record type and the newest-first sort (`Records`), and the two regular expressions the
extractors use, written as leftmost-match scanners (`Patterns`).

Everything outside the process becomes a parameter:

- a loaded page is a `Page` or `Document` value, and the browser is an oracle from URL to
  page or error;
- a parsed feed is an oracle from URL to its items or an error;
- `parseISO` is an oracle from a `pubDate` to a calendar date;
- the clock is a `Now` value, holding the timestamp used in ids and today's date;
- `Math.random` is an oracle giving the real in [0, 1) returned by its k-th call.

The sort every producer ends with is `Array.prototype.sort`. It is stable under
section 22.1.3.27 of ECMAScript 2019, and here it is a stable insertion sort on the
(year, month, day) key. `Dates.IsoOrderAgrees` proves that comparing the ISO strings
gives the same order as comparing the keys.

Where the documentation and the code disagree, the model follows the code:

- The extracted title is the trimmed text of the first `h1`/`h2`/`h3` only. When that
  heading is blank, the placeholder is used even if a later heading has text.
- Only the FDA descriptor has denylists. The other 24 sources keep whatever the label gives.
- A feed item without a link gets the link `""`, which is not an absolute URL.
- The selector-list scraper keeps a date text exactly as written. It substitutes today's
  date only when no date selector yields any text. The merged sort is therefore claimed to
  be newest-first only when every date is an ISO date.
- FDA reads its manufacturer from the bold element labelled "Company". That text always
  contains "Company", which the FDA manufacturer denylist rejects. So a page with such a
  label always gives FDA an empty manufacturer (`SpecificRun.FdaBoldCompanyDenied`).

## Model

| member | source | states |
|---|---|---|
| Strings.Trim | src/app/page.tsx:34 | `trim` removes the white space at both ends and nothing else; the result is empty exactly when the input is all white space |
| Strings.ToLowerFacts | src/app/page.tsx:40 | lower-casing leaves no ASCII capital, changes no other character, turns each capital into its small letter, and a second pass changes nothing |
| Strings.Split | src/lib/web-scraper.ts:110 | `split` gives at least one piece; no piece contains the separator; the first piece runs up to the first occurrence of the separator, or is the whole string when there is none |
| Strings.JoinSplit | src/lib/web-scraper.ts:110 | joining the separator-free pieces of `split` with the same separator gives the original string back |
| Strings.FirstWords | src/lib/bulk-scraper.ts:171 | the first n space-separated words: for n > 0, the prefix of the text that stops at its n-th space or at its end, holding n - 1 spaces unless the text has fewer; for n = 0, "" |
| Strings.DigitsValueOfNatToString | src/lib/bulk-scraper.ts:170 | reading back the decimal rendering of the counter gives the counter |
| Strings.NatToStringInjective | src/lib/bulk-scraper.ts:170 | distinct counter values render to distinct strings |
| Seqs.Filter | src/app/page.tsx:39-42 | `filter` keeps every element that passes and only such elements |
| Seqs.FilterMultiset | src/app/page.tsx:39-42 | `filter` keeps each passing element exactly as often as it occurs and drops every other |
| Seqs.FilterIsSubsequence | src/app/page.tsx:39-42 | `filter` keeps the relative order of what it keeps |
| Seqs.FilterIdempotent | src/app/page.tsx:52 | filtering twice with the same test is filtering once |
| Seqs.Dedupe | src/app/page.tsx:66 | `[...new Set(xs)]` holds each element of `xs` exactly once, in order of first occurrence |
| Seqs.FirstWhere | src/lib/specific-scraper.ts:231-234 | `find` gives nothing exactly when no element passes, else the first element that passes |
| Seqs.FirstNonEmpty | src/lib/web-scraper.ts:112-115 | a break-on-first-value loop gives the first non-empty value, and "" exactly when every value is empty |
| Seqs.InFlatten | src/lib/web-scraper.ts:192 | an element of the concatenation comes from some part, and every element of every part is in it |
| Sorting.SortIsStable | lib/rss-parser.ts:86 | the sort returns a permutation in descending key order in which equal keys keep their input order |
| Sorting.SortEqualKeys | src/lib/specific-scraper.ts:1764 | when all keys are equal the sort changes nothing |
| Sorting.PermutationKeepsDistinct | src/lib/bulk-scraper.ts:221 | rearranging records with distinct ids keeps the ids distinct |
| Dates.Format | lib/rss-parser.ts:51 | `yyyy-MM-dd` is ten characters with dashes at positions 4 and 7 |
| Dates.ParseFormat | lib/rss-parser.ts:51 | every formatted date parses back as itself |
| Dates.FormatParse | lib/rss-parser.ts:51 | every string that parses as a date is the formatting of that date |
| Dates.IsoOrderAgrees | lib/rss-parser.ts:86 | comparing two ISO date strings agrees with comparing their (year, month, day) keys |
| Dates.KeyIsChronological | lib/rss-parser.ts:86 | the (year, month, day) key order is the order of the day numbers |
| Dates.SubtractDays | src/lib/bulk-scraper.ts:166-167 | `setDate(getDate() - n)` gives the date n days earlier |
| Records.SortNewestFirst | lib/rss-parser.ts:86 | the newest-first sort is a permutation, descending by date, stable among equal dates |
| Records.IsoDescending | lib/rss-parser.ts:86 | over ISO dates the newest-first order is descending by calendar date |
| Patterns.FirstLabelMatch | src/lib/specific-scraper.ts:67 | the scan finds the leftmost match of `product[:\s]+([^.\n]+)`, with the longest separator run at that start |
| Patterns.LabelValue | src/lib/specific-scraper.ts:67 | the group is absent exactly when the expression matches nowhere; otherwise it is the non-empty value run of the leftmost match |
| Patterns.FirstVehicleMatch | src/lib/specific-scraper.ts:227 | the scan finds the leftmost match of `\d{4}[-\s]\w+[-\s]\w+` |
| Patterns.VehicleToken | src/lib/specific-scraper.ts:227 | the token is absent exactly when the expression matches nowhere; otherwise it is the leftmost match, starting with four digits |
| Patterns.VehicleTokenShape | src/lib/specific-scraper.ts:227 | every match is at least eight characters long and starts with four digits |
| SpecificScraper.Candidates | src/lib/specific-scraper.ts:24-40 | an href is pushed exactly for the anchors that have one and match a fragment of the href or a keyword of the lower-cased text; the pushed hrefs keep document order, and each occurs as often as a qualifying anchor carries it |
| SpecificScraper.DiscoverLinks | src/lib/specific-scraper.ts:41 | at most the cap of links, distinct, non-empty and qualifying, in first-occurrence order; no earlier candidate is skipped; all candidates are kept when fewer than the cap |
| SpecificScraper.Title | src/lib/specific-scraper.ts:46 | the trimmed first heading when it is not blank, else the source's placeholder |
| SpecificScraper.Description | src/lib/specific-scraper.ts:53-61 | the first paragraph with a topic keyword, else the first paragraph, else "" |
| SpecificScraper.Reason | src/lib/specific-scraper.ts:101-107 | the first paragraph with a reason keyword, else "" |
| SpecificScraper.LabelledValue | src/lib/specific-scraper.ts:64-69 | the trimmed first bold text containing the label, else the trimmed regex group of the body text, else "" |
| SpecificScraper.BoldLabelContains | src/lib/specific-scraper.ts:64 | a value read from a bold element labelled `word` still contains `word` |
| SpecificScraper.Screen | src/lib/specific-scraper.ts:72-80 | a denylisted value becomes "", anything else is kept |
| SpecificScraper.LabelDenied | src/lib/specific-scraper.ts:90-97 | a denylist holding the lower case of the label empties any value read from a bold element with that label |
| SpecificScraper.VehicleInfo | src/lib/specific-scraper.ts:226-236 | the year-make-model token of the body, else the first paragraph mentioning vehicle or model, else "" |
| SpecificScraper.ProductName | src/lib/specific-scraper.ts:63-80 | the label value, or NHTSA's vehicle info; with a denylist, a value that mentions a denylisted phrase becomes "" and any other value is kept |
| SpecificScraper.Manufacturer | src/lib/specific-scraper.ts:82-97 | absent exactly for NHTSA, the fixed brand for brand sources, else the "Company" label value; with a denylist, that value becomes "" when it mentions a denylisted phrase and is kept otherwise |
| SpecificScraper.Extract | src/lib/specific-scraper.ts:44-117 | the title is non-empty whenever the placeholder is, the description is "" or a paragraph, the reason is "" or mentions a reason keyword, and brand sources report their brand |
| SpecificScraper.Candidate | src/lib/specific-scraper.ts:1718-1750 | a link gives one record exactly when it loads and passes the title and description gate; the record carries that link, the id for index i, the source's name, category and today's date, and the title, description, product name, reason and manufacturer extracted from the page |
| SpecificScraper.ScrapeSource | src/lib/specific-scraper.ts:1697-1761 | a source gives at most three records, none when its landing page fails, each carrying the source's name, category and date and passing the gate |
| SpecificScraper.ScrapeSourceMembers | src/lib/specific-scraper.ts:1710-1752 | a record comes out of a source exactly when the landing page loaded and one of the visited links produced it; a failed link stops nothing |
| SpecificScraper.ScrapeSourceWithinCap | src/lib/specific-scraper.ts:1718 | a source never gives more records than its link cap |
| SpecificSources.Registry | src/lib/specific-scraper.ts:14-1692 | the table holds 25 descriptors |
| SpecificSources.PlaceholdersLongEnough | src/lib/specific-scraper.ts:1733 | every placeholder title is longer than five characters |
| SpecificSources.LinkCaps | src/lib/specific-scraper.ts:41 | FDA, CPSC, NHTSA and USDA keep five links and every later source three |
| SpecificSources.Strategies | src/lib/specific-scraper.ts:72-97 | only FDA has denylists; only NHTSA reads a year-make-model token and has no manufacturer |
| SpecificSources.BrandSources | src/lib/specific-scraper.ts:504 | the sources with a fixed manufacturer are exactly the twelve brand sources |
| SpecificSources.BrandIsName | src/lib/specific-scraper.ts:504 | each brand source's fixed manufacturer is its own name |
| SpecificSources.NamesDistinct | src/lib/specific-scraper.ts:14-1692 | no two descriptors share a name |
| SpecificRun.ScrapeAll | src/lib/specific-scraper.ts:1694-1764 | the run is the sources' records in table order, at most three per source, all dated today |
| SpecificRun.SameDay | src/lib/specific-scraper.ts:1742 | every record of a run carries the run's date |
| SpecificRun.ScrapeAllMembers | src/lib/specific-scraper.ts:1697-1761 | a record is in the run exactly when some source produced it |
| SpecificRun.SourceIsolation | src/lib/specific-scraper.ts:1759-1761 | the records naming a source are exactly that source's own records, in order, whatever the other sources do |
| SpecificRun.FailedSourceAbsent | src/lib/specific-scraper.ts:1759-1761 | a source whose landing page fails has no record in the run |
| SpecificRun.ScrapeSpecificRecalls | src/lib/specific-scraper.ts:1694-1764 | a run over the 25 sources gives at most 75 records, all dated today |
| SpecificRun.RegistryIsolation | src/lib/specific-scraper.ts:1759-1761 | each of the 25 sources keeps its records apart from the others' |
| SpecificRun.TitleNeverEmpty | src/lib/specific-scraper.ts:110 | no source ever extracts an empty title |
| SpecificRun.BrandIgnoresPage | src/lib/specific-scraper.ts:504 | a brand source reports its own name as manufacturer, whatever the page |
| SpecificRun.FdaMakerNeverCompany | src/lib/specific-scraper.ts:90-97 | FDA's manufacturer is present, when non-empty it never mentions "company", and a "Company" label value without a denylisted phrase is kept |
| SpecificRun.FdaBoldCompanyDenied | src/lib/specific-scraper.ts:83-97 | a page with a bold "Company" label gives FDA an empty manufacturer |
| SpecificRun.FdaProductScreened | src/lib/specific-scraper.ts:72-80 | FDA's product name never mentions a denylisted phrase: a label value with one becomes "", a label value without one is kept |
| SpecificRun.NhtsaDetails | src/lib/specific-scraper.ts:226-254 | NHTSA's product name is its vehicle info, it has no manufacturer, and "defect" counts as a reason |
| WebScraper.SelectorList | src/lib/web-scraper.ts:110 | a selector list has at least one selector, none containing `", "`, and re-joins to the original text |
| WebScraper.FirstText | src/lib/web-scraper.ts:110-115 | the first non-empty trimmed text over the list, and "" exactly when every selector gives none |
| WebScraper.RawLink | src/lib/web-scraper.ts:118-130 | the first non-empty `href` over the link selectors, else the first anchor's |
| WebScraper.Origin | src/lib/web-scraper.ts:132 | an origin is a prefix of its URL and contains `://` |
| WebScraper.OriginOf | src/lib/web-scraper.ts:132 | the origin of `scheme://host/path` is `scheme://host` |
| WebScraper.HttpsOrigin | src/lib/web-scraper.ts:132 | an `https://` URL whose host has no `/`, `?` or `#` and whose path starts with `/` has the origin `https://host` |
| WebScraper.ResolveKeepsLink | src/lib/web-scraper.ts:132 | the raw link is always a suffix of the resolved one |
| WebScraper.ResolveKeepsWords | src/lib/web-scraper.ts:132 | a keyword of the raw link survives resolution |
| WebScraper.ResolveIdempotent | src/lib/web-scraper.ts:132 | resolving twice is resolving once when the origin starts with `http` |
| WebScraper.ResolveStarts | src/lib/web-scraper.ts:132 | a resolved link starts with `http` or with the origin |
| WebScraper.DateText | src/lib/web-scraper.ts:135-143 | the first date text as written, else today's date; never empty |
| WebScraper.TitleIsTrimmed | src/lib/web-scraper.ts:113 | a non-empty chain text has no white space at either end |
| WebScraper.EmitFacts | src/lib/web-scraper.ts:153-167 | a record that passed the gate carries its source's name and category, a trimmed title that passed the keyword test and a resolved link |
| WebScraper.Item | src/lib/web-scraper.ts:106-168 | an element gives one record exactly when its title is non-empty and the title or the raw link has a recall keyword; the record holds the first non-empty title text, the resolved first non-empty link, the date text as written (else today) and the first non-empty description text |
| WebScraper.EmptySelectorFallsBack | src/lib/web-scraper.ts:135-146 | an empty date or description selector string falls back to `.date` or `.description`, as a missing one does |
| WebScraper.Scan | src/lib/web-scraper.ts:106-169 | every record of a container selector describes its source |
| WebScraper.ScanMembers | src/lib/web-scraper.ts:106-169 | a record comes out of a scan exactly when some element produced it |
| WebScraper.ScrapeWebsite | src/lib/web-scraper.ts:69-184 | a failed load gives []; otherwise every record describes its source (the origin is checked before the loop, see "Left out") |
| WebScraper.FirstContainerWins | src/lib/web-scraper.ts:105-173 | the result is exactly the yield of the first container selector that yields anything |
| WebScraper.NothingFound | src/lib/web-scraper.ts:172 | a loaded source gives nothing exactly when no container selector yields anything |
| WebScraper.ScrapeAll | src/lib/web-scraper.ts:186-199 | the merge is a permutation of the sources' records, and, whenever every date is an ISO date, newest-first with records of the same day in source and document order |
| WebScraper.ScrapeAllMembers | src/lib/web-scraper.ts:189-196 | a record is in the merge exactly when some source produced it |
| WebScraper.WebSources | src/lib/web-scraper.ts:18-67 | the table holds four sources with distinct names and categories, all sharing one selector set |
| WebScraper.ScrapeAllWebsites | src/lib/web-scraper.ts:186-199 | the run over the four sources is a permutation of what they produce, and, whenever every date is an ISO date, newest-first and stable among records of the same day |
| FeedParser.Or | lib/rss-parser.ts:59 | an optional string gives itself when present and non-empty, else the fallback |
| FeedParser.ItemDate | lib/rss-parser.ts:47-55 | the item date is the parsed `pubDate` when it parses, otherwise today; it is always an ISO date |
| FeedParser.Normalise | lib/rss-parser.ts:57-65 | a record with the index id, a non-empty title, the feed's name and category, an ISO date and a description |
| FeedParser.FetchRssFeed | lib/rss-parser.ts:42-71 | a failed feed gives []; otherwise one record per item in item order, none dropped |
| FeedParser.ItemFields | lib/rss-parser.ts:59-63 | the title or "No Title", the link or "", and the description, else the snippet, else "" |
| FeedParser.FeedIdInjective | lib/rss-parser.ts:58 | ids built from different indices differ |
| FeedParser.FeedIdsDistinct | lib/rss-parser.ts:58 | the records of one feed have distinct ids |
| FeedParser.FetchAll | lib/rss-parser.ts:73-87 | the merge is a permutation of every feed's records, sorted newest-first by date |
| FeedParser.FetchAllStable | lib/rss-parser.ts:86 | records of the same date keep their feed order and item order |
| FeedParser.FetchAllMembers | lib/rss-parser.ts:76-83 | a record is in the merge exactly when some feed produced it; a failing feed stops nothing |
| FeedParser.FeedSources | lib/rss-parser.ts:20-31 | the table holds two feeds with distinct names and URLs, both in the News category |
| FeedParser.FetchAllFeeds | lib/rss-parser.ts:73-87 | the run over the two feeds is a permutation of what they produce, every date ISO and newest-first, records of the same date in feed and item order |
| BulkTables.ProductData | src/lib/bulk-scraper.ts:4-52 | the product table has five categories |
| BulkTables.ProductDataFacts | src/lib/bulk-scraper.ts:4-52 | the product table lists 37 manufacturers, each with at least one model |
| BulkTables.RealRecallLink | src/lib/bulk-scraper.ts:93-130 | every link returned is an `https://` URL |
| BulkTables.RealRecallLinkChoice | src/lib/bulk-scraper.ts:121-129 | the manufacturer's entry wins, then the source's, then CPSC's page |
| BulkTables.LinkInHttps | src/lib/bulk-scraper.ts:121-129 | a table of `https://` entries only gives `https://` links |
| BulkTables.LinksAreHttps | src/lib/bulk-scraper.ts:94-119 | every table entry is an `https://` URL |
| BulkTables.RouteCases | src/lib/bulk-scraper.ts:150-162 | working vehicle, electronics and toy makers are their own source; otherwise vehicles go to NHTSA, food to FDA, the rest to CPSC |
| BulkTables.TableKeys | src/lib/bulk-scraper.ts:94-119 | the link table's keys are exactly the working manufacturers and the government sources |
| BulkTables.RoutedLinkKnown | src/lib/bulk-scraper.ts:173 | a routed record's link is its manufacturer's entry, else its source's, never the CPSC fallback |
| BulkTables.CapitaliseLower | src/lib/bulk-scraper.ts:176 | capitalising changes only letter case |
| BulkGenerator.Below | src/lib/bulk-scraper.ts:142 | `Math.floor(u * n)` is below n and is the floor of `u * n` |
| BulkGenerator.DaysBefore | src/lib/bulk-scraper.ts:165-167 | a date `daysAgo` days back is an ISO date within the window |
| BulkGenerator.ProductDescription | src/lib/bulk-scraper.ts:172 | the description opens with the manufacturer's voluntary recall of the model |
| BulkGenerator.GovDescription | src/lib/bulk-scraper.ts:202 | the description opens with the source's safety alert |
| BulkGenerator.ProductRecall | src/lib/bulk-scraper.ts:144-185 | a product record has the id `bulk-n` and a date within 730 days |
| BulkGenerator.ProductRecallShaped | src/lib/bulk-scraper.ts:169-183 | a product record names a model of its maker, a listed reason, the routed source and its link, the capitalised category, and a recall date equal to its date |
| BulkGenerator.GovDraws | src/lib/bulk-scraper.ts:195-209 | the age is below 365 and the three reasons are listed ones |
| BulkGenerator.GovRecall | src/lib/bulk-scraper.ts:194-216 | a government record has the id `gov-n` and a date within 365 days |
| BulkGenerator.GovRecallShaped | src/lib/bulk-scraper.ts:199-212 | a government record carries its source, an alert title from a listed reason, the fixed placeholders, its category and link, and a recall date equal to its date |
| BulkGenerator.Loop | src/lib/bulk-scraper.ts:142-144 | an inner loop adds `least` to `least + 7` records, the j-th made with counter value `recallId + j` and its own draws |
| BulkGenerator.LoopNumbered | src/lib/bulk-scraper.ts:170 | a loop keeps every record carrying its own position in the counter |
| BulkGenerator.ForProducts | src/lib/bulk-scraper.ts:138-187 | each manufacturer adds 8 to 15 records |
| BulkGenerator.ForCategories | src/lib/bulk-scraper.ts:137-188 | the product loops add 8 to 15 records per manufacturer of the table |
| BulkGenerator.ForGovs | src/lib/bulk-scraper.ts:191-217 | each government source adds 5 to 12 records |
| BulkGenerator.Walk | src/lib/bulk-scraper.ts:132-217 | the walk makes 8 to 15 records per manufacturer plus 5 to 12 per government source |
| BulkGenerator.WalkNumbered | src/lib/bulk-scraper.ts:134 | record i of the walk carries the id number i + 1, and the counter ends one past the count |
| BulkGenerator.NumberedDistinct | src/lib/bulk-scraper.ts:200 | records numbered from one counter have distinct ids |
| BulkGenerator.ForProductsOrigin | src/lib/bulk-scraper.ts:138-187 | every record of a category's loops was made for one of its manufacturers |
| BulkGenerator.ForCategoriesOrigin | src/lib/bulk-scraper.ts:137-188 | every product record was made for a manufacturer of a category of the table |
| BulkGenerator.ForGovsOrigin | src/lib/bulk-scraper.ts:191-217 | every government record was made for a source of the table |
| BulkGenerator.WalkMade | src/lib/bulk-scraper.ts:137-217 | the walk makes nothing but product and government records of its tables |
| BulkGenerator.MakersNumber | src/lib/bulk-scraper.ts:170 | both record makers stamp the counter value into the id |
| BulkGenerator.BulkWalk | src/lib/bulk-scraper.ts:132-217 | the generator's walk makes 8 to 15 records per manufacturer plus 5 to 12 per source |
| BulkGenerator.BulkWalkDated | src/lib/bulk-scraper.ts:165-167 | every record of the walk is dated within the last 730 days |
| BulkGenerator.GenerateWith | src/lib/bulk-scraper.ts:132-222 | the result is a permutation of the walk, with 8 to 15 records per manufacturer plus 5 to 12 per source, dated within 730 days, newest-first, and records of the same date in walk order |
| BulkGenerator.SortKeepsWithin | src/lib/bulk-scraper.ts:221 | sorting keeps the date window and orders by calendar date |
| BulkGenerator.GenerateIdsDistinct | src/lib/bulk-scraper.ts:134 | every generated record has its own id |
| BulkGenerator.BulkWalkShaped | src/lib/bulk-scraper.ts:169-212 | each record of the walk is shaped after the manufacturer or source it was made for |
| BulkGenerator.GenerateShaped | src/lib/bulk-scraper.ts:169-221 | each generated record is shaped after a manufacturer or a source of the tables |
| BulkGenerator.ShapedLinkHttps | src/lib/bulk-scraper.ts:173 | a record shaped after `https://` tables links to an `https://` address |
| BulkGenerator.GenerateLinks | src/lib/bulk-scraper.ts:203 | every generated link is `https://` when every table entry is |
| ClientFilters.Search | src/app/page.tsx:33-44 | a blank query shows everything; otherwise exactly the matching recalls, each as often as it occurs, in order |
| ClientFilters.BySource | src/app/page.tsx:46-54 | "" shows everything; otherwise exactly the recalls of that source, each as often as it occurs, in order |
| ClientFilters.ByCategory | src/app/page.tsx:56-64 | "" shows everything; otherwise exactly the recalls of that category, each as often as it occurs, in order |
| ClientFilters.SearchIdempotent | src/app/page.tsx:39-42 | searching a search result for the same query changes nothing |
| ClientFilters.BySourceIdempotent | src/app/page.tsx:52 | filtering by the same source twice changes nothing |
| ClientFilters.ByCategoryIdempotent | src/app/page.tsx:62 | filtering by the same category twice changes nothing |
| ClientFilters.Sources | src/app/page.tsx:66 | each source once, in order of first occurrence |
| ClientFilters.SourcesMembers | src/app/page.tsx:66 | a source is offered exactly when some recall has it |
| ClientFilters.PresentCategories | src/app/page.tsx:67 | the categories kept by `filter(Boolean)` are exactly the non-empty categories of some recall, and the result is the categories in record order with the missing and empty ones dropped |
| ClientFilters.PresentCategoriesOrder | src/app/page.tsx:67 | the kept categories follow record order, each non-empty category as often as records carry it |
| ClientFilters.Categories | src/app/page.tsx:67 | each non-empty category once, in order of first occurrence, and nothing else |

## Left out

- Browser automation is left out: launching, navigation, `page.evaluate`, `networkidle2`, timeouts and settle delays. A load is an oracle from URL to page or error. `browser.close()` on error paths is a resource matter with no effect on the records.
- HTML and feed parsing are left out. `cheerio` and the `rss-parser` library are replaced by the `Page`, `Document`/`Element` and `FeedItem` values. A page's anchors, headings, paragraphs, bold texts and body text are inputs.
- `Date.now()` and `new Date()` are one `Now` value per run. The source reads the clock anew for each record, so ids and dates within a run could differ in the last digits. The model does not represent that.
- `toISOString` gives the UTC date, while date-fns `format` gives the local date. Both are `Now.today` here; time zones are not modelled.
- date-fns `parseISO` is an oracle. Comparing free-text dates with `new Date(s).getTime()` is modelled only for ISO dates. Other date texts get the key -1, and no order among them is claimed.
- `Math.random` is an oracle of reals in [0, 1), indexed by call number. The draw order is the code's.
- `Strings.ToLower`: lower-cases ASCII letters only. The Unicode case mapping of `toLowerCase` and `toUpperCase` beyond ASCII is left out, because strings are sequences of characters with no Unicode tables.
- Strings are sequences of `char`. UTF-16 surrogate pairs are not distinguished.
- `WebScraper.Origin`: takes everything before the path of a `scheme://host...` URL and does not validate the scheme or the host. So it gives an origin for some URLs on which the WHATWG URL parser throws, such as a host with a space in it. It gives none for URLs without `://` or with an empty host, such as `file:///x`, where the URL standard gives the opaque origin `"null"` instead of throwing. Default-port removal, host lower-casing and the other normalisations of the URL standard are left out.
- `WebScraper.ScrapeWebsite`: computes the origin of the source URL once, before the container loop, and gives [] when there is none. The code evaluates `new URL(source.url)` only while resolving a link that does not start with `http`, so a source URL without an origin whose links are all absolute still yields records there. Each of the four fixed source URLs is `https://` followed by a host free of `/`, `?` and `#` and a path starting with `/`, which has an origin (`WebScraper.HttpsOrigin`), so the fixed table is not affected.
- `Dates`: calendar dates with years 0000 to 9999 only, the range of the four-digit form.
- `BulkGenerator.GenerateWith`: `today` is at least 729 days after 0000-01-01, so the 730-day window stays inside the calendar. The source has no such bound.
- `BulkGenerator.GenerateBulkRecalls` has no contract of its own. The tables are large string literals, so the properties are stated and proved for `GenerateWith` over any tables. With the fixed tables they apply directly: `ProductDataFacts` gives 37 manufacturers and there are 9 government sources, so the count is 341 to 663.
- The fixed sentence fragments of the two descriptions are kept as a `Wording` value (`Templates()`) inside the tables, not inlined.
- `MANUFACTURER_SOURCES` and `RETAILER_SOURCES` (src/lib/bulk-scraper.ts:81-90) are declared but never used, so they are not modelled.
- The link table is a `map`. JavaScript object keys such as `constructor`, inherited from the prototype, are not looked up.
- `data-storage.ts`, the API routes, the scripts, the layout, the sitemap, the rendering components and `feeds/*.ts` are not part of this model.
- Console logging is left out everywhere.
