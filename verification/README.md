# Listing-ingestion pipeline, modelled in Dafny

This project models the listing-ingestion pipeline of a real-estate
intelligence back end and the small deterministic pieces around it, and
proves properties of the model.

The pipeline has two scrapers of the same listing index:

- `LopesScraper` (services/lopes_scraper.py, requests and BeautifulSoup);
- `MassCollector` (services/collector.py, Playwright).

Each walks pages 1..n of the index, reads every listing card into raw
fields and normalises them:

- the regional price text becomes a number;
- the feature bullets are classified by keyword and their numbers read;
- the address is split into neighbourhood and city.

A price watchdog then keeps, per listing link, an append-only price
timeline and labels each sighting NEW, UNCHANGED or PRICE_CHANGED. The two
scrapers share the skeleton but differ in their number readers and their
watchdog. `Twins` proves where they agree and exhibits the inputs on which
they do not:

- "2 a 3 quartos" is 2 for one and 23 for the other;
- an "80 m²" bullet gives an area to one and none to the other;
- a listing without a link is tracked by one and not the other.

Around the pipeline are modelled:

- the scheduler's upsert-by-link store, its change counters and status report;
- the SEO helpers: slugs, title tag and meta description, the schema.org
  `RealEstateListing` JSON-LD object, and grouping listings by building name;
- the OSINT radar's search queries and search-hit parsing;
- the WhatsApp number clean-up;
- on the front end, the filter panel's state transitions, the listing filter,
  the card's button and the unlock dialog's price tiers.

## How the code is modelled

**Imperative parts are imperative Dafny.** These are the scrapers' watchdog
state and page loops, the scheduler's store, the grouping loop, the query
loop and the change counters. The watchdog and the store are fields of a
`class`, updated by methods with `modifies` clauses. The save also changes
the caller's own list: a dict it appends is the stored record itself, so
it is stamped and takes later merges. A position in the store stands for
that object's identity, and the save returns the caller's list as it
leaves it (`SavedBatch`). A `KeyError` that ends a loop partway, such as
the log line of a property without a title, is a `raised` result, and
the state is what the loop had changed before it. Every loop and method
is proved equal to a specification function: `RunPages`, `RunCards`, `Save`,
`Grouping`, `Dork`, `WithStatus`. The properties the source promises are
then proved as lemmas about those functions.

**Pure parts are functions and lemmas.** These are parsing, slugs, the
JSON-LD object, the radar's parsing, the filter panel and the dialog.

**Boundaries are parameters.**

- The HTML parser is abstracted: a card is the record of the strings the
  scraper reads from it.
- A page request is a function from URL to a response or a failure.
- Timestamps come from a `clock(page, index)` parameter.
- The regular-expression engine of the building-name extraction is a
  `search` parameter.
- The language model behind the meta description is an outcome parameter:
  no model, a reply, or a failure.
- Python's `str()` of a non-string JSON value is a `show` parameter.

**Prices are exact `real`s.**

**Python's string built-ins are written out** in `Text` and `Numbers`:

- `lower()` on ASCII and Latin-1;
- `isspace()`, `strip()`, `split()`, `replace()` and `in`;
- `isdigit()`, which also accepts the superscript and subscript digits;
- `float()` and `int()` on digit strings;
- `re.findall(r'\d+')`.

The regular-expression class `\d` is taken as the ASCII digits.

Where the code and its documented behaviour disagree, the model follows the
code:

- `build_json_ld` gives the bare site prefix, not `''`, as the URL of a
  listing without a slug (services/seo/schema.py:21). `Schema.Url` states
  this.
- The collector's watchdog has no empty-link guard, so `''` is a key like any
  other (services/collector.py:241-253).

## Model

| member | source | states |
|---|---|---|
| Pages.PageUrl | services/lopes_scraper.py:49-53 | every page URL starts with the base URL and the listing filters |
| Pages.PageUrlPages | services/lopes_scraper.py:49-53 | page 1 is exactly the base URL and the filters, and a later page n adds "&pagina=n" |
| Pages.PageUrlInjective | services/collector.py:51-56 | distinct pages are requested under distinct URLs |
| LopesScraper.ResolveSpec | services/lopes_scraper.py:100-102 | a resolved link is empty exactly when the href is; a non-empty one starts with "http"; an absolute one is unchanged; resolving twice is resolving once |
| LopesScraper.Photo | services/lopes_scraper.py:121-126 | an image contributes at most one photo |
| LopesScraper.PhotosConcat | services/lopes_scraper.py:119-127 | photos keep document order: the photos of two runs of images are the photos of each, concatenated |
| LopesScraper.PhotosOne | services/lopes_scraper.py:122-126 | an image gives a photo exactly when its `src` (else `data-src`) is non-empty and not a `data:image` URI; the photo is an absolute URL |
| LopesScraper.Lines | services/lopes_scraper.py:139-140 | no line of the card's text is empty |
| LopesScraper.StrippedKeeps | services/lopes_scraper.py:140 | every line that is not blank is kept, stripped |
| LopesScraper.StrippedFrom | services/lopes_scraper.py:140 | every kept line is the stripped form of an input line |
| LopesScraper.ExtractedFields | services/lopes_scraper.py:99-160 | the price text is "0" or the first paragraph containing "R$"; the address and description are "" or lines meeting their heuristics (comma, no "R$", length strictly between 10 and 100; longer than 50, no "R$", unequal to title, price text and address); details are non-empty `li` texts; the link is "" exactly when the href is, else absolute |
| Text.FirstWhereFirst | services/lopes_scraper.py:143-147 | a search loop with `break` returns the first element that satisfies the test |
| Text.FirstWhereNone | services/lopes_scraper.py:151-159 | when no element satisfies the test, the search loop leaves the default |
| Text.FirstWhereSatisfies | services/lopes_scraper.py:109-115 | the search result is the default or an element that satisfies the test |
| Text.NonEmpty | services/lopes_scraper.py:130-136 | the kept bullets are non-empty and come from the input |
| Text.NonEmptyKeeps | services/lopes_scraper.py:130-136 | every non-empty `li` text is kept |
| Text.NonEmptyConcat | services/lopes_scraper.py:130-136 | the kept texts of two runs of `li` elements are those of the first followed by those of the second, so document order is kept |
| LopesScraper.CleanPrice | services/lopes_scraper.py:171-172 | the cleaned price text holds only ASCII digits and '.' |
| LopesScraper.ParsePrice | services/lopes_scraper.py:169-175 | the price is never negative |
| LopesScraper.CleanPriceKeeps | services/lopes_scraper.py:171 | removing "R$" before the character filter changes nothing |
| LopesScraper.RemoveGrouping | services/lopes_scraper.py:172 | deleting '.' from thousands-grouped digits, a comma and decimals leaves the digits, the comma and the decimals |
| LopesScraper.CommaToPoint | services/lopes_scraper.py:172 | turning the one comma between two digit strings into '.' gives digits, '.', digits |
| LopesScraper.CleanRegional | services/lopes_scraper.py:171-172 | the cleaning of grouped digits, a comma and decimals is the ungrouped digits, '.', the decimals |
| LopesScraper.ParsePriceRegional | services/lopes_scraper.py:169-175 | a regional price ("R$ 1.500.000,50") is the exact decimal of its ungrouped digits and decimals |
| LopesScraper.ParsePriceWhole | services/lopes_scraper.py:169-175 | a price without a comma is the integer its digits spell; the periods only group thousands |
| LopesScraper.ParsePriceTwoCommas | services/lopes_scraper.py:172-175 | two commas become two periods, `float()` raises, and the price is 0.0 |
| LopesScraper.BulletValue | services/lopes_scraper.py:188-219 | a bullet with a digit stores the maximal run of digits starting at its first digit |
| LopesScraper.BulletWithoutDigits | services/lopes_scraper.py:190-191 | a bullet without digits writes no field |
| LopesScraper.Process | services/lopes_scraper.py:164-280 | processing an item keeps the map free of the empty link |
| LopesScraper.ProcessWithoutLink | services/lopes_scraper.py:260-279 | an item without a link is NEW with an empty price history, and the map is left alone |
| LopesScraper.SelectCards | services/lopes_scraper.py:64-69 | the cards are those of `a.lead-button`, else `div.property-card`, else `article`; none only when all three are empty |
| LopesScraper.ReadableKeeps | services/lopes_scraper.py:73-81 | a card on which extraction raises skips only itself: every readable card is processed, at its own time |
| LopesScraper.RunCards | services/lopes_scraper.py:73-81 | the card loop keeps the map free of the empty link and with non-empty timelines |
| LopesScraper.RunCardsNext | services/lopes_scraper.py:73-81 | card j extends the run of the cards before it by one listing, or by nothing when it is unreadable |
| LopesScraper.RunPages | services/lopes_scraper.py:49-88 | the page loop keeps the map free of the empty link and with non-empty timelines |
| LopesScraper.RunPagesNext | services/lopes_scraper.py:49-88 | page n extends the run of pages 1..n-1 by its cards' listings, or by nothing when its request fails |
| LopesScraper.RunPagesFromCards | services/lopes_scraper.py:49-88 | the loop returns one listing per readable card of the pages that loaded, in page and card order, each the normalisation of its item at its stamp time |
| LopesScraper.RunPagesSnapshots | services/lopes_scraper.py:49-88 | timelines only grow; every returned listing without a link is NEW with an empty history; every other carries a prefix of its link's final timeline that ends at the price it was seen at |
| LopesScraper.Scraper.constructor | services/lopes_scraper.py:40 | the price map starts empty and the scraper's own readers are installed |
| LopesScraper.Scraper.ProcessItem | services/lopes_scraper.py:164-280 | `_process_item` returns the listing, and leaves the map, that `Process` gives |
| LopesScraper.Scraper.Track | services/lopes_scraper.py:259-279 | the tracking step returns the listing, and leaves the map, of the link-guarded sighting |
| LopesScraper.Scraper.ScrapeCards | services/lopes_scraper.py:73-81 | the card loop returns the listings, and leaves the map, of `RunCards` |
| LopesScraper.Scraper.ScrapeInventory | services/lopes_scraper.py:42-91 | `scrape_inventory(max_pages)` returns the listings, and leaves the map, of `RunPages` over pages 1..max_pages (none when max_pages < 1) |
| Details.Apply | services/lopes_scraper.py:184-221 | one bullet changes at most the field it is classified as (area > quarto/dorm > banh > vaga), and only when its number reads |
| Details.ParseDetails | services/collector.py:174-202 | the bullet loop computes the in-order fold of `Apply` from all fields None |
| Details.FoldNoWriter | services/lopes_scraper.py:179-221 | a field that no bullet writes stays None |
| Details.FoldLastWriter | services/collector.py:174-202 | a field holds the value of the last bullet that writes it |
| Listing.SplitAddress | services/lopes_scraper.py:223-246 | the address is kept as given and the state is always "BA"; an empty address gives an empty neighbourhood and the city "Salvador" |
| Listing.SplitAddressNoComma | services/lopes_scraper.py:228-234 | a non-empty address without a comma is all neighbourhood (stripped), with the city "Salvador" |
| Listing.SplitAddressLastTwo | services/collector.py:209-213 | with a comma, the neighbourhood is the stripped second-to-last piece and the city the stripped last piece |
| Listing.SplitAddressWithComma | services/lopes_scraper.py:228-232 | with a comma, the city is the stripped text after the last comma and the neighbourhood the stripped text before it back to the previous comma; neither holds a comma |
| Ingest.NormalizedAppend | services/collector.py:136-138 | normalising two batches is normalising each, concatenated |
| PriceWatch.Observe | services/collector.py:240-253 | every tracked timeline stays non-empty |
| PriceWatch.ObserveSpec | services/collector.py:240-253 | the listing is tracked afterwards and no other changes; NEW exactly when it was untracked; UNCHANGED exactly when its timeline did not move; otherwise one point (price, time) is appended; the returned history is the timeline and ends at the observed price |
| PriceWatch.ObserveGuarded | services/lopes_scraper.py:259-279 | with a link, the sighting is the unguarded one; without one, it is NEW and the map is unchanged; the empty link never enters the map |
| PriceWatch.TrackedGrows | services/collector.py:253 | a returned history stays a prefix of its link's timeline as the map grows |
| PriceWatch.ObserveTidy | services/collector.py:242-251 | a sighting keeps timelines free of consecutive equal prices |
| PriceWatch.ObserveAll | services/collector.py:240-253 | a run of sightings keeps every timeline non-empty |
| PriceWatch.ObserveAllAppendOnly | services/collector.py:246 | timelines never shrink: each earlier timeline is a prefix of the later one |
| PriceWatch.ObserveAllLatest | services/collector.py:242-251 | after a run, a listing's latest price is the price of its last sighting |
| PriceWatch.ObserveAllUnseen | services/collector.py:240-253 | a listing never sighted keeps its timeline, or stays untracked |
| PriceWatch.ObserveAllTidy | services/collector.py:242-251 | a run never records the same price twice in a row |
| PriceWatch.ObserveAllExample | services/collector.py:242-251 | prices 100, 100, 200 leave the timeline [100 at the first time, 200 at the third] |
| PriceWatch.RepeatIsUnchanged | services/lopes_scraper.py:261-270 | a second sighting at the same price is UNCHANGED and adds no point |
| PriceWatch.See | services/collector.py:240-253 | a sighting under either policy keeps timelines non-empty |
| PriceWatch.Sight | services/lopes_scraper.py:259-279 | a sighting keeps the map well-formed for its policy |
| PriceWatch.AccountedGrows | services/collector.py:253 | a listing accounted for in a map stays so in any map that grows from it |
| PriceWatch.SightAccounted | services/lopes_scraper.py:259-279 | a sighting only grows timelines, keeps its record, and accounts for the listing it returns |
| PriceWatch.RunRecords | services/collector.py:136-138 | a run keeps the map well-formed for its policy |
| PriceWatch.RunRecordsAppend | services/collector.py:51-145 | a run over two batches is the run over the first continued over the second |
| PriceWatch.RunRecordsListings | services/collector.py:136-138 | a run returns one listing per record, in order, carrying that record |
| PriceWatch.RunRecordsAccounted | services/collector.py:240-253 | a run only grows timelines, and every listing it returns is accounted for in the final map |
| PriceWatch.RunRecordsObserveAll | services/collector.py:240-253 | tracking every listing, a run's final map is the map of its sightings in order |
| MassCollector.CleanPrice | services/collector.py:160-162 | the cleaned price text holds only `isdigit()` characters and '.' |
| MassCollector.ParsePrice | services/collector.py:157-165 | the price is never negative |
| MassCollector.AreaRejectsSuperscript | services/collector.py:177-184 | an area bullet with a superscript digit, as in "m²", never yields an area |
| MassCollector.CountReadsAllDigits | services/collector.py:186-202 | a count is all the bullet's digits read as one number; no digits, or a superscript digit, gives none |
| MassCollector.Process | services/collector.py:152-254 | processing an item keeps every timeline non-empty |
| MassCollector.ProcessWithoutLink | services/collector.py:241-253 | an item without a link is tracked under '' and carries its timeline; it is NEW exactly when '' was untracked |
| MassCollector.RunItems | services/collector.py:136-138 | the item loop keeps every timeline non-empty |
| MassCollector.RunItemsNext | services/collector.py:136-138 | item j extends the run of the items before it by one listing |
| MassCollector.RunPages | services/collector.py:51-145 | the page loop keeps every timeline non-empty |
| MassCollector.RunPagesNext | services/collector.py:51-145 | page n extends the run of pages 1..n-1 by its items' listings, or by nothing when it raises |
| MassCollector.RunPagesFromItems | services/collector.py:51-145 | one listing per item of the pages that loaded, in page and item order |
| MassCollector.RunPagesTracked | services/collector.py:240-253 | every returned listing, the linkless one included, carries a prefix of its link's final timeline ending at its price; timelines only grow; the final map is the in-order run of the sightings |
| MassCollector.Collector.constructor | services/collector.py:36 | the price map starts empty and the collector's own readers are installed |
| MassCollector.Collector.ProcessItem | services/collector.py:152-254 | `_process_item` returns the listing, and leaves the map, that `Process` gives |
| MassCollector.Collector.Track | services/collector.py:240-253 | the tracking step returns the listing, and leaves the map, of the unguarded sighting |
| MassCollector.Collector.CollectItems | services/collector.py:136-138 | the item loop returns the listings, and leaves the map, of `RunItems` |
| MassCollector.Collector.ScrapeInventory | services/collector.py:39-150 | `scrape_inventory(max_pages)` returns the listings, and leaves the map, of `RunPages` over pages 1..max_pages |
| Twins.LopesCleanIsMap | services/lopes_scraper.py:171-172 | the Lopes cleaning works character by character |
| Twins.CollectorCleanIsMap | services/collector.py:160-162 | the collector's cleaning, strip aside, works character by character |
| Twins.CollectorClean | services/collector.py:160-162 | the collector's cleaned text is its per-character map of the raw text |
| Twins.KeepStrip | services/collector.py:160-162 | the `strip()` before the character filter makes no difference |
| Twins.PricesAgree | services/collector.py:157-165 | on text without superscript or subscript digits, both scrapers read the same price |
| Twins.CollectorCleanKeeps | services/collector.py:162 | the collector's cleaning keeps every superscript or subscript digit |
| Twins.CollectorPriceSuperscript | services/collector.py:162-165 | a superscript digit anywhere in the price text makes the collector's price 0.0 |
| Twins.LopesCountOfRun | services/lopes_scraper.py:199-201 | Lopes reads the run that starts at the bullet's first digit |
| Twins.CollectorDigits | services/collector.py:188 | the collector reads the digits of the whole bullet |
| Twins.CountsAgreeOnOneRun | services/collector.py:186-202 | a bullet whose digits form one run gets the same count from both scrapers |
| Twins.LopesRange | services/lopes_scraper.py:199-201 | a range bullet read the Lopes way gives the first digit |
| Twins.CollectorRange | services/collector.py:188 | a range bullet read the collector's way gives both digits |
| Twins.CountsDifferOnRange | services/collector.py:186-190 | "2 a 3 quartos": Lopes stores 2, the collector 23 |
| Twins.AreasDifferOnSuperscript | services/collector.py:177-184 | "80 m²": Lopes stores 80, the collector no area |
| Twins.TrackersDifferWithoutLink | services/collector.py:241-253 | without a link, Lopes reports NEW with an empty history and leaves its map alone; the collector files the listing under '' |
| Twins.TrackersAgreeWithLink | services/lopes_scraper.py:259-279 | with a link, the two trackers return the same listing and map |
| Scheduler.FindLink | services/scheduler.py:89 | the index of the first record with the link, or None exactly when no record has it |
| Scheduler.Upsert | services/scheduler.py:87-101 | every record keeps a link |
| Scheduler.Save | services/scheduler.py:80-103 | every record keeps a link |
| Scheduler.UpsertExisting | services/scheduler.py:89-95 | a stored link merges the property into the first record with it: its other keys kept, every key of the property taken, `updated_at` set to the batch time; nothing is added |
| Scheduler.UpsertFresh | services/scheduler.py:96-100 | a new link appends the property with `created_at` = `updated_at` = the batch time |
| Scheduler.UpsertLinks | services/scheduler.py:87-101 | an upsert keeps every record's link and adds the property's; distinct links stay distinct |
| Scheduler.SaveLinks | services/scheduler.py:87-101 | after a batch every saved link is present, no other link appears, records keep positions and links, and distinct links stay distinct |
| Scheduler.DistinctCount | services/scheduler.py:87-101 | with distinct links, a store has as many records as links |
| Scheduler.SaveGrowth | services/scheduler.py:87-101 | the store grows by exactly the number of distinct batch links it did not hold |
| Scheduler.SaveUntouched | services/scheduler.py:87-101 | records whose link the batch does not carry are untouched |
| Scheduler.UpsertOthers | services/scheduler.py:87-101 | an upsert changes only records with the property's link and appends at most its created record |
| Scheduler.SaveUpdated | services/scheduler.py:89-99 | every record whose link the batch carries has the batch time as `updated_at` |
| Scheduler.UpsertStamps | services/scheduler.py:89-99 | after an upsert the record with the property's link has the batch time as `updated_at` |
| Scheduler.SaveAppends | services/scheduler.py:96-100 | records the batch adds come after the old ones, were created at the batch time, and carry a batch link |
| Scheduler.UpsertKeepsKeys | services/scheduler.py:93-94 | an upsert never removes a key or changes a link |
| Scheduler.SaveSplit | services/scheduler.py:87-100 | saving a batch in two parts is saving the first part, then the second |
| Scheduler.AppendedStays | services/scheduler.py:96-100 | a dict the save appends keeps its index and link in the store to the end of the batch |
| Scheduler.AliasInStore | services/scheduler.py:96-100 | where the save appends the caller's dict itself, the store ends with a record of that dict's link at that index |
| Scheduler.SavedDict | services/scheduler.py:93-100 | each of the caller's dicts keeps its link after the save |
| Scheduler.AliasOfFresh | services/scheduler.py:89-100 | the dict itself is appended exactly when its link is neither stored nor carried by an earlier dict of the batch |
| Scheduler.AliasStep | services/scheduler.py:89-100 | dict k is appended at the end of the store so far exactly when its link is not found there |
| Scheduler.SavedBatch | services/scheduler.py:87-100 | the caller's list after the save has the same length and every dict keeps its link |
| Scheduler.Read | services/scheduler.py:93-100 | the read-back list has one dict per property, and a dict that was merged, not appended, is the caller's dict unchanged |
| Scheduler.ReadIsSaved | services/scheduler.py:87-100 | reading every dict back from the saved store (the record it became, or itself) gives `SavedBatch` |
| Scheduler.ReadBack | services/scheduler.py:87-100 | the read-back loop returns `Read` of the store, the batch and where each dict was appended |
| Scheduler.SavedBatchStamped | services/scheduler.py:96-100 | an appended dict is stamped in place: it is a record of the store, with `created_at` and the batch time as `updated_at` |
| Scheduler.SavedBatchMergedLater | services/scheduler.py:89-95 | a later dict with the same link is merged into the caller's earlier dict: the last such dict's keys, except `updated_at`, end up in it |
| Scheduler.AppendedFirst | services/scheduler.py:89 | until a later dict with its link is saved, the record appended for a dict is the first the search finds |
| Scheduler.TailUntouched | services/scheduler.py:87-95 | a record whose link no later dict carries keeps its state to the end of the batch |
| Scheduler.DuplicateLinkRecount | services/scheduler.py:69-72 | with two dicts of one link, the first NEW and the second not, the first dict ends with the second's status, so `_detect_changes` on the caller's list counts no NEW property where the list held one |
| Scheduler.CountIsCardinality | services/scheduler.py:109-119 | the count of a status is the number of positions that carry it |
| Scheduler.CountsBounded | services/scheduler.py:112-119 | no property counts as both NEW and PRICE_CHANGED, so the two counts never exceed the batch |
| Scheduler.DetectChanges | services/scheduler.py:105-122 | the loop raises exactly when some NEW property lacks `title` or `priceText` or some PRICE_CHANGED property lacks `title` (the keys its log line reads); otherwise the counters are the numbers of properties with status NEW and with status PRICE_CHANGED |
| Scheduler.FirstUntitled | services/scheduler.py:86-101 | the first property without a `title`: every earlier one has it, and it lacks it |
| Scheduler.Handled | services/scheduler.py:86-101 | the save stops only just after a property without a title, every earlier property has one, and a batch whose properties all have titles is handled whole |
| Scheduler.HandledAt | services/scheduler.py:86-101 | a loop that upserts up to and including the first untitled property has handled `Handled` properties, and stopped early exactly when some property lacks a title |
| Scheduler.PropertyScheduler.constructor | services/scheduler.py:23-32 | not running, no last run, an empty store, the given interval |
| Scheduler.PropertyScheduler.FindExisting | services/scheduler.py:89 | the search returns `FindLink` on the store |
| Scheduler.PropertyScheduler.UpsertBatch | services/scheduler.py:86-101 | the loop upserts the properties in order until one without a title has been upserted (the KeyError of its log line); the store is `Save` of the handled prefix, `raised` holds exactly when a title is missing, and the other fields are unchanged |
| Scheduler.PropertyScheduler.SaveToDatabase | services/scheduler.py:80-103 | the store becomes `Save` of the handled properties (the whole batch when every property has a title) and grows by their new distinct links; it raises exactly when a title is missing; the caller's list becomes `SavedBatch` of the handled properties followed by the untouched rest; the other fields are unchanged |
| Scheduler.PropertyScheduler.Stop | services/scheduler.py:124-129 | `is_running` becomes false and nothing else changes |
| Scheduler.PropertyScheduler.Status | services/scheduler.py:137-147 | is_running, last_run and interval_hours are reported as held; total_properties is the store's size; next_run is one interval after last_run when set, else the waiting text |
| Aggregator.FirstCapture | services/seo/aggregator.py:33-38 | None exactly when no pattern matches |
| Aggregator.FirstCaptureFirst | services/seo/aggregator.py:33-36 | the capture is that of the first pattern that matches |
| Aggregator.ExtractOrder | services/seo/aggregator.py:22-38 | the name is the stripped capture of edifício, else mansão, else condomínio; None when none matches |
| Aggregator.NameOf | services/seo/aggregator.py:46-49 | a listing is named only by a non-empty building name |
| Aggregator.Members | services/seo/aggregator.py:45-57 | a group's members are drawn from the listings |
| Aggregator.GroupingSpec | services/seo/aggregator.py:44-57 | a key has a group exactly when some listing has that key; the group holds every such listing in input order under the first one's name |
| Aggregator.MembersKeyed | services/seo/aggregator.py:49-57 | every member has the group's key, so a listing is in at most one group and an unnamed one in none |
| Aggregator.FirstNameIsFirst | services/seo/aggregator.py:52-56 | the group name is the spelling of the first listing with its key |
| Aggregator.FirstNameAbsent | services/seo/aggregator.py:49-57 | without a first name, no listing has the key |
| Aggregator.GroupProperties | services/seo/aggregator.py:40-61 | a key is returned exactly when more than two listings have it, with all of them in input order under the first-seen spelling of the name |
| Metadata.FoldChar | services/seo/metadata.py:26 | one character transliterates to at most one ASCII character; ASCII is kept |
| Metadata.Ascii | services/seo/metadata.py:26 | the transliteration is ASCII |
| Metadata.AsciiNoop | services/seo/metadata.py:26 | ASCII text transliterates to itself |
| Metadata.Collapse | services/seo/metadata.py:28 | the result has no "--" and only '-' and non-separator input characters; it is empty exactly when the input is, and starts with '-' exactly when the input starts with a separator |
| Metadata.CollapseKeepsWords | services/seo/metadata.py:28 | the non-separator characters of the input are kept, in order, and no other is added |
| Metadata.CollapseRun | services/seo/metadata.py:28 | a whole run of '-' and whitespace before a word becomes a single '-' |
| Metadata.CollapseNoop | services/seo/metadata.py:28 | text without whitespace and without "--" is its own collapse |
| Metadata.StripDashesSlug | services/seo/metadata.py:28 | stripping '-' from slug characters without "--" leaves a slug |
| Metadata.SlugifyKeepsWords | services/seo/metadata.py:22-28 | the slug's characters other than '-' and whitespace are exactly those of the filtered text, in order: only separators are collapsed or stripped |
| Metadata.SlugifyIsSlug | services/seo/metadata.py:22-28 | `_slugify` output has only lower-case letters, digits, '_' and '-', no '-' at either end and no "--" |
| Metadata.SlugNoop | services/seo/metadata.py:22-28 | `_slugify` leaves a slug unchanged |
| Metadata.FilterNoop | services/seo/metadata.py:26-27 | transliteration, the character filter and lower-casing leave slug characters alone |
| Metadata.SlugifyIdempotent | services/seo/metadata.py:22-28 | `_slugify` applied to its own output returns it unchanged |
| Metadata.Highlight | services/seo/metadata.py:42-46 | the keyword is one of "Vista Mar", "Alto Padrão", "Exclusivo" |
| Metadata.HighlightPriority | services/seo/metadata.py:42-46 | "Vista Mar" exactly when the lower-cased title contains "mar"; "Alto Padrão" exactly when it contains "luxo" but not "mar"; "Exclusivo" otherwise |
| Metadata.SeoSlug | services/seo/metadata.py:50-54 | the slug built from type, bedrooms, neighbourhood and keyword is a valid slug |
| Metadata.SeoTitleDefaults | services/seo/metadata.py:35-48 | without type, location and title the title tag is "Imovel em Salvador - Exclusivo \| Bahia Satellite" |
| Metadata.SeoTitleShape | services/seo/metadata.py:48 | the title tag starts with the type and " em " and ends with " \| Bahia Satellite" |
| Metadata.Truncate | services/seo/metadata.py:84-85 | at most 160 characters; a short text is unchanged; a longer one is its first 157 characters and "..." |
| Metadata.MetaDescription | services/seo/metadata.py:65-89 | a model reply gives a description of at most 160 characters |
| Metadata.ReplyDescription | services/seo/metadata.py:81-86 | a reply is stripped; a stripped reply of at most 160 characters is kept as it is, a longer one becomes its first 157 characters and "..." |
| Metadata.GenerateSeoData | services/seo/metadata.py:59-63 | the result has exactly the keys seo_title, seo_slug and meta_description |
| Metadata.SeoDataValues | services/seo/metadata.py:50-63 | the seo_slug value is a slug and a fixed point of `_slugify`; a model reply gives a meta_description of at most 160 characters |
| Schema.FixedParts | services/seo/schema.py:16-28 | @context is "https://schema.org", @type "RealEstateListing", and the address Salvador/BA/BR whatever the listing |
| Schema.NameAndDescription | services/seo/schema.py:19-20 | name is seo_title, else title, else None; description is meta_description, else description, else None |
| Schema.Url | services/seo/schema.py:21 | the URL is the site prefix followed by the slug, or the bare prefix without one |
| Schema.Images | services/seo/schema.py:22 | image is the listing's `images`, else []; a listing with only `photos` gets [] |
| Schema.Offers | services/seo/schema.py:13-34 | the offer's price is str(price): "0" when the price is absent (the int default), the decimal digits of an int price, the text of a string price; the currency is "BRL" |
| Schema.OptionalMembers | services/seo/schema.py:37-46 | numberOfRooms exactly when `bedrooms` is a key, None values included; floorSize with unitCode "MTK" exactly when `area` is a key |
| StealthRadar.DorkKeyword | services/stealth_radar.py:30 | a query is `site:instagram.com "Salvador" "` + keyword + `"`, and the keyword can be read back from it |
| StealthRadar.DorkInjective | services/stealth_radar.py:30 | different keywords give different queries |
| StealthRadar.GenerateDorks | services/stealth_radar.py:23-32 | one query per keyword, in the keywords' order |
| StealthRadar.ParseHit | services/stealth_radar.py:62-93 | None exactly when the URL lacks "instagram.com/" or the URL, title or description is missing (the exception handler); otherwise a lead with source "Instagram OSINT", the username, the URL as profile_url, the title and description, the keyword detected in title + description and the given time |
| StealthRadar.FirstPiecePrefix | services/stealth_radar.py:75 | the first piece of a split is a prefix of the text |
| StealthRadar.FirstPieceFree | services/stealth_radar.py:75 | the first piece of a split on one character holds no such character |
| StealthRadar.TakeUntil | services/stealth_radar.py:75 | the text up to the first stop character: a prefix free of stop characters, followed by one or by the end |
| StealthRadar.FirstPieceCut | services/stealth_radar.py:75 | taking the first piece of a split on one character is cutting at its first occurrence |
| StealthRadar.TakeUntilTwice | services/stealth_radar.py:75 | cutting at one set of characters, then at another, is cutting at either |
| StealthRadar.SecondPiece | services/stealth_radar.py:73-74 | a URL with the marker splits into more than one piece, so "unknown" is never used; the second piece is the first piece of the text after the marker |
| StealthRadar.CutName | services/stealth_radar.py:75 | cutting at '/' and then at '?' is cutting at the first of either |
| StealthRadar.Username | services/stealth_radar.py:72-77 | the username is a prefix of the text after "instagram.com/" with neither '/' nor '?'; without a second marker it runs up to the first '/' or '?' |
| StealthRadar.KeywordNone | services/stealth_radar.py:87 | the keyword is "Unknown" exactly when no keyword occurs in title + description, ignoring case |
| StealthRadar.KeywordFirst | services/stealth_radar.py:87 | otherwise it is the first keyword, in list order, that occurs |
| StealthRadar.UnknownIsNoKeyword | services/stealth_radar.py:16 | "Unknown" is not a keyword, so it always means that none matched |
| Validator.CleanNumberDigits | services/validator.py:21-23 | the number is the input's digits in order, kept as is when they start with "55", else behind "55"; it always starts with "55" |
| Validator.CleanNumberIdempotent | services/validator.py:21-23 | cleaning a cleaned number changes nothing |
| Validator.CleanNumberNoDigits | services/validator.py:21-23 | an input without digits gives "55" |
| Validator.SendUrl | services/validator.py:25 | the URL is "https://api.whatsapp.com/send?phone=" followed by the cleaned number |
| Filters.ChangeProfile | components/Filters.tsx:16-27 | the profile and its range are set; neighbourhoods and bedrooms are kept |
| Filters.ProfilesTile | components/Filters.tsx:17-24 | the four profile ranges are proper intervals that tile 0..15,000,000 in order |
| Filters.RemoveAll | components/Filters.tsx:33 | every occurrence of the name is removed and every other name kept |
| Filters.ToggleNeighborhood | components/Filters.tsx:29-38 | a toggle changes only the neighbourhoods |
| Filters.ToggleFlips | components/Filters.tsx:29-38 | a toggle flips whether the name is selected and keeps every other name as it was |
| Filters.ToggleTwice | components/Filters.tsx:29-38 | toggling an unselected name twice restores the state |
| Filters.RemoveLast | components/Filters.tsx:33-35 | removing a name appended to a list without it gives the list back |
| Filters.ChangeBedrooms | components/Filters.tsx:40-45 | only bedrooms changes; it becomes null exactly when it was already that count |
| Filters.BedroomsTwice | components/Filters.tsx:40-45 | choosing the same count twice restores the state when nothing or that count was selected; from another count it ends with nothing selected |
| Filters.ClearFilters | components/Filters.tsx:48-55 | the cleared state has no active filter |
| Filters.ActiveIffNotCleared | components/Filters.tsx:48-63 | no filter is active exactly when the state is the cleared one |
| Filters.SlideMax | components/Filters.tsx:126-130 | the slider sets only the upper bound, keeps the lower one, and resets the profile to "all" |
| App.FilterProperties | App.tsx:101-110 | every kept property comes from the list and matches |
| App.FilterIsSubsequence | App.tsx:101-110 | the filtered list is an order-preserving subsequence |
| App.FilterKeepsMatches | App.tsx:101-110 | a property is shown exactly when it is in the list and matches |
| App.ShownMeets | App.tsx:103-106 | a shown property lies in the price range inclusive, is in a selected neighbourhood when any is selected, has at least 5 bedrooms under "5", and exactly the count otherwise |
| App.ClearedShowsPriceBand | App.tsx:101-110 | after clearing, exactly the properties priced 0..5,000,000 are shown |
| App.CardMatchesModal | App.tsx:456 | the card reads "Solicitar Acesso" exactly when the dialog it opens is the luxury one, else "Desbloquear Detalhes" |
| UnlockModal.TierOfPrice | components/ui/UnlockModal.tsx:18-50 | luxury exactly at prices from 1,500,000; economy exactly at prices up to 500,000; standard strictly between |
| UnlockModal.TierWording | components/ui/UnlockModal.tsx:21-50 | each tier's title and button text, and the lock icon only for luxury |
| UnlockModal.Render | components/ui/UnlockModal.tsx:67 | nothing while closed; otherwise the tier's configuration |
| Text.Lower | services/lopes_scraper.py:185 | `lower()` keeps the length and lower-cases each character |
| Text.Keep | services/collector.py:162 | the kept characters pass the test and come from the text |
| Text.KeepAll | services/validator.py:21 | a filter that every character passes changes nothing |
| Text.KeepNone | services/validator.py:21 | a filter no character passes gives the empty string |
| Text.ContainsIff | services/lopes_scraper.py:145 | `sub in s` exactly when `sub` occurs at some index |
| Text.FindIndexFirst | services/stealth_radar.py:73 | the split point is the first occurrence |
| Text.SplitOn | services/lopes_scraper.py:229 | a split has at least one piece |
| Text.SplitPartsFree | services/lopes_scraper.py:229 | no piece of a split holds the separator |
| Text.JoinSplit | services/collector.py:210 | joining the pieces with the separator gives the text back |
| Text.SplitCount | services/lopes_scraper.py:229-233 | a split has more than one piece exactly when the separator occurs |
| Text.Strip | services/lopes_scraper.py:231-234 | the stripped text neither starts nor ends with whitespace |
| Text.StripIdempotent | services/collector.py:212-215 | stripping twice is stripping once |
| Numbers.NatToStringRoundTrip | services/seo/metadata.py:53 | reading back the rendering of a number gives the number |
| Numbers.ParseInt | services/collector.py:188 | `int()` of `isdigit()` characters succeeds exactly on a non-empty ASCII-digit string |
| Numbers.ParseFloatWhole | services/lopes_scraper.py:173 | a digit string reads as the integer it spells |
| Numbers.ParseFloatDecimal | services/lopes_scraper.py:173 | digits, '.', digits read as the exact decimal |
| Numbers.ParseFloatTwoPeriods | services/lopes_scraper.py:173-175 | a second period makes `float()` fail |
| Numbers.ParseFloatRejectsNonAscii | services/collector.py:182-184 | a superscript or subscript digit makes `float()` fail |
| Numbers.FirstDigitRun | services/lopes_scraper.py:190-191 | `re.findall(r'\d+')` finds nothing exactly when there is no digit, else a non-empty digit run |
| Numbers.FirstDigitRunAt | services/lopes_scraper.py:190-192 | the first run is the maximal run starting at the first digit |
| Numbers.AllDigits | services/collector.py:188 | the joined characters all pass `isdigit()` |

## Left out

- Network, browser and parser I/O: requests, BeautifulSoup tree walking, Playwright, `googlesearch.search` and the front end's `fetch`. A card is an abstract record and a page request a function from URL to a page or a failure.
- The in-browser JavaScript extraction of the collector (services/collector.py:69-132). The model starts from the raw items it returns.
- Time and randomness: `sleep` pacing, `random.choice` of the user agent, `datetime.now()` and `time.strftime`. Timestamps are parameters.
- IEEE floats: prices and areas are exact reals. Python's `str()` of a number or list is an uninterpreted `show` function.
- Unicode beyond Latin-1. `lower()` is modelled on ASCII and Latin-1 capitals. NFKD transliteration in `_slugify` is modelled by a Latin-1 table; its compatibility decompositions of Latin-1 symbols (such as '½' or 'ª') are dropped rather than spelled out. `isdigit()` covers the ASCII, superscript and subscript digits only.
- The regular-expression engine of `extract_building_name`: the three patterns are an ordered list and matching is a `search` parameter.
- LLM calls (services/seo/metadata.py:72-83, services/seo/aggregator.py:63-86): an outcome parameter.
- Aliasing of `price_history`: the Python list returned with a listing is the tracker's own list and keeps growing afterwards. The model returns a value snapshot and proves it stays a prefix of the link's final timeline.
- Dictionary iteration order of `group_properties`' result and of the JSON-LD object: both are modelled without order (a map, a record).
- The `KeyError` that `_save_to_database` raises on a property without `link`: modelled as a precondition (`Linked`). The `KeyError`s of the log lines (a missing `title` in `_save_to_database`, a missing `title` or `priceText` in `_detect_changes`) are modelled as a `raised` result; the exception itself and its propagation out of `_run_scraping` are not.
- `run_radar`, `start`, `run_scheduler_forever` and `_run_scraping`: network, infinite loops and timing. What `_run_scraping` does with the list it saves (counting changes on it afterwards) is stated by `DuplicateLinkRecount` on `SavedBatch`.
- Logging, JSX rendering, icons, colours, `Intl.NumberFormat`, `window.open` and the WhatsApp hand-off of the unlock dialog.
- The fields of a front-end `Property` that the filter and the card do not read.
- StealthRadar.Username: the username is fully characterised (all text up to the first '/' or '?') only when the text after the marker holds no second "instagram.com/"; otherwise only its prefix and character properties are stated.
- Filters.BedroomsTwice: choosing a count twice restores the state only from null or from that count; from another count the result is null, as the code does.
- Metadata.SeoSlug: states that the slug is valid, not its exact text for given inputs; concrete literal inputs are not evaluated.
- Scheduler.PropertyScheduler.Status: `last_run` and `next_run` are whole seconds, not ISO-8601 text.
