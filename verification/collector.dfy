/**
 * The Playwright twin of the scraper. The in-browser extraction hands back
 * ready-made raw items; what is modelled is the per-item normalisation, with
 * its own price and bullet readings, the unguarded price watchdog, and the
 * page loop.
 */
module MassCollector {
  import opened Wrappers
  import opened Text
  import opened Numbers
  import opened Listing
  import opened Details
  import opened PriceWatch
  import opened Ingest
  import opened Pages

  /**
   * One page visit: the items the in-browser extraction returned, or an
   * exception (navigation failure, no `a.lead-button` within the timeout,
   * a script error).
   */
  datatype Visit = Loaded(items: seq<RawItem>) | PageFailed

  predicate IsDigitOrPeriod(c: char)
  {
    IsPyDigit(c) || c == '.'
  }

  /** Drop "R$", delete '.', turn ',' into '.', strip, keep the str.isdigit() characters and '.'. */
  function CleanPrice(text: string): (s: string)
    ensures forall i :: 0 <= i < |s| ==> IsDigitOrPeriod(s[i])
  {
    Keep(Strip(SubstChar(RemoveChar(Replace(text, "R$", ""), '.'), ',', '.')), IsDigitOrPeriod)
  }

  /** The collector's price; 0.0 when the cleaned text is empty or float() raises. */
  function ParsePrice(text: string): (price: real)
    ensures price >= 0.0
  {
    var s := CleanPrice(text);
    if s == "" then 0.0 else ParseFloat(s).GetOr(0.0)
  }

  /** float() of every digit and period of the bullet, concatenated. */
  function AreaOf(bullet: string): Option<real>
  {
    var s := Keep(bullet, IsDigitOrPeriod);
    if s == "" then None else ParseFloat(s)
  }

  /** int() of every digit of the bullet, concatenated; int('') raises. */
  function CountOf(bullet: string): Option<int>
  {
    ParseInt(AllDigits(bullet))
  }

  const READERS := Readers(AreaOf, CountOf)

  /** An area bullet with a superscript digit, as in "m²", never yields an area. */
  lemma AreaRejectsSuperscript(bullet: string, k: int)
    requires 0 <= k < |bullet| && IsPyDigit(bullet[k]) && !IsAsciiDigit(bullet[k])
    ensures AreaOf(bullet) == None
    ensures !Writes(bullet, Area, READERS)
  {
    var s := Keep(bullet, IsDigitOrPeriod);
    KeepKeeps(bullet, IsDigitOrPeriod, bullet[k]);
    var i :| 0 <= i < |s| && s[i] == bullet[k];
    ParseFloatRejectsNonAscii(s, i);
  }

  /** A count is all the bullet's digits read as one number; none, or a superscript, gives no value. */
  lemma CountReadsAllDigits(bullet: string)
    ensures CountOf(bullet).Some? <==> AllDigits(bullet) != [] && AllAsciiDigits(AllDigits(bullet))
    ensures CountOf(bullet).Some? ==> CountOf(bullet).value == DigitsValue(AllDigits(bullet))
  {
  }

  /** The collector's own readers of price text and bullets. */
  const PARSERS := Parsers(ParsePrice, READERS)

  /** `_process_item` on a map: normalise the item with `parsers`, then sight it; every link is tracked. */
  function Process(db: PriceDb, item: RawItem, collectedAt: string, parsers: Parsers): (r: (Listing, PriceDb))
    requires WellFormed(db)
    ensures WellFormed(r.1)
  {
    Sight(db, Normalize(item, collectedAt, parsers), TrackAll)
  }

  /** A listing without a link is tracked too, under the empty link, and carries its timeline. */
  lemma ProcessWithoutLink(db: PriceDb, item: RawItem, collectedAt: string, parsers: Parsers)
    requires WellFormed(db) && item.link == ""
    ensures var (l, db') := Process(db, item, collectedAt, parsers);
      "" in db' && Tracked(l, db') && (l.status == New <==> "" !in db)
  {
    ObserveSpec(db, "", Normalize(item, collectedAt, parsers).price, collectedAt);
  }

  /** The items of one loaded page, each with the time it is stamped at: `clock(page, j)` for the item at index j. */
  function Stamp(items: seq<RawItem>, page: nat, clock: (nat, nat) -> string): (r: seq<(RawItem, string)>)
    ensures |r| == |items|
    ensures forall j :: 0 <= j < |items| ==> r[j] == (items[j], clock(page, j))
  {
    seq(|items|, j requires 0 <= j < |items| => (items[j], clock(page, j)))
  }

  /** The records of one loaded page, sighted in order. */
  function RunItems(db: PriceDb, items: seq<RawItem>, page: nat, clock: (nat, nat) -> string, parsers: Parsers): (r: Run)
    requires WellFormed(db)
    ensures WellFormed(r.db)
  {
    RunRecords(db, Normalized(Stamp(items, page, clock), parsers), TrackAll)
  }

  /** Item j continues the run of the items before it. */
  lemma RunItemsNext(db: PriceDb, items: seq<RawItem>, page: nat, clock: (nat, nat) -> string, parsers: Parsers, j: int)
    requires WellFormed(db) && 0 <= j < |items|
    ensures var prev := RunItems(db, items[..j], page, clock, parsers);
      var step := Process(prev.db, items[j], clock(page, j), parsers);
      RunItems(db, items[..j + 1], page, clock, parsers) == Run(prev.results + [step.0], step.1)
  {
    var done := Stamp(items[..j], page, clock);
    var next := [(items[j], clock(page, j))];
    assert Stamp(items[..j + 1], page, clock) == done + next;
    NormalizedAppend(done, next, parsers);
    var records := Normalized(done, parsers) + [Normalize(items[j], clock(page, j), parsers)];
    assert records[..|done|] == Normalized(done, parsers);
  }

  /** The stamped items of pages 1 to n that loaded, in page order. */
  function Harvest(visit: string -> Visit, clock: (nat, nat) -> string, n: nat): seq<(RawItem, string)>
  {
    if n == 0 then []
    else
      Harvest(visit, clock, n - 1) + match visit(PageUrl(n))
        case PageFailed => []
        case Loaded(items) => Stamp(items, n, clock)
  }

  /** `scrape_inventory` over pages 1 to n: the harvested records sighted in order. */
  function RunPages(db: PriceDb, visit: string -> Visit, clock: (nat, nat) -> string, n: nat, parsers: Parsers): (r: Run)
    requires WellFormed(db)
    ensures WellFormed(r.db)
  {
    RunRecords(db, Normalized(Harvest(visit, clock, n), parsers), TrackAll)
  }

  /** Page n continues the run of pages 1 to n - 1, or adds nothing when it fails. */
  lemma RunPagesNext(db: PriceDb, visit: string -> Visit, clock: (nat, nat) -> string, n: nat, parsers: Parsers)
    requires WellFormed(db) && n >= 1
    ensures var prev := RunPages(db, visit, clock, n - 1, parsers);
      RunPages(db, visit, clock, n, parsers) == match visit(PageUrl(n))
        case PageFailed => prev
        case Loaded(items) =>
          var page := RunItems(prev.db, items, n, clock, parsers);
          Run(prev.results + page.results, page.db)
  {
    var done := Harvest(visit, clock, n - 1);
    match visit(PageUrl(n))
    case PageFailed =>
      assert Harvest(visit, clock, n) == done;
    case Loaded(items) =>
      var more := Stamp(items, n, clock);
      assert Harvest(visit, clock, n) == done + more;
      NormalizedAppend(done, more, parsers);
      RunRecordsAppend(db, Normalized(done, parsers), Normalized(more, parsers), TrackAll);
  }

  /**
   * The loop returns one listing per item of the pages that loaded, in page
   * order and item order: the i-th listing is the normalisation of the i-th
   * harvested item at the time it was stamped.
   */
  lemma RunPagesFromItems(db: PriceDb, visit: string -> Visit, clock: (nat, nat) -> string, n: nat, parsers: Parsers)
    requires WellFormed(db)
    ensures |RunPages(db, visit, clock, n, parsers).results| == |Harvest(visit, clock, n)|
    ensures forall i :: 0 <= i < |Harvest(visit, clock, n)| ==>
      RunPages(db, visit, clock, n, parsers).results[i].record
        == Normalize(Harvest(visit, clock, n)[i].0, Harvest(visit, clock, n)[i].1, parsers)
  {
    RunRecordsListings(db, Normalized(Harvest(visit, clock, n), parsers), TrackAll);
  }

  /**
   * Every listing the loop returns, the one without a link included, carries
   * a prefix of its link's final timeline that ends at the price it was seen
   * at; the timelines of the map it started from only grew; and the final
   * map is the map of the run's sightings in order.
   */
  lemma RunPagesTracked(db: PriceDb, visit: string -> Visit, clock: (nat, nat) -> string, n: nat, parsers: Parsers)
    requires WellFormed(db)
    ensures Grows(db, RunPages(db, visit, clock, n, parsers).db)
    ensures forall l :: l in RunPages(db, visit, clock, n, parsers).results ==> Tracked(l, RunPages(db, visit, clock, n, parsers).db)
    ensures RunPages(db, visit, clock, n, parsers).db == ObserveAll(db, Sightings(Normalized(Harvest(visit, clock, n), parsers)))
  {
    var records := Normalized(Harvest(visit, clock, n), parsers);
    RunRecordsAccounted(db, records, TrackAll);
    RunRecordsObserveAll(db, records);
  }

  class Collector {
    /** Link to price timeline; it lives as long as the collector object. */
    var priceHistoryDb: PriceDb

    /** The readers of price text and bullets; the constructor installs the collector's own. */
    const parsers: Parsers

    ghost predicate Valid()
      reads this
    {
      WellFormed(priceHistoryDb)
    }

    constructor ()
      ensures Valid() && priceHistoryDb == map[] && parsers == PARSERS
    {
      parsers := PARSERS;
      priceHistoryDb := map[];
    }

    /** `_process_item`: normalise the item, then classify it and update its timeline. */
    method ProcessItem(item: RawItem, collectedAt: string) returns (listing: Listing)
      requires Valid()
      modifies this
      ensures Valid()
      ensures (listing, priceHistoryDb) == Process(old(priceHistoryDb), item, collectedAt, parsers)
    {
      var price := parsers.price(item.priceText);
      var features := ParseDetails(item.details, parsers.bullets);
      var record := Record(
        item.title, price, item.priceText, SplitAddress(item.location), features, PROPERTY_TYPE,
        item.photos, item.description, item.link, collectedAt, SOURCE);
      listing := Track(record);
    }

    /** The price-tracking half of `_process_item`: classify the record and update its timeline. */
    method Track(record: Record) returns (listing: Listing)
      requires Valid()
      modifies this
      ensures Valid()
      ensures (listing, priceHistoryDb) == Sight(old(priceHistoryDb), record, TrackAll)
    {
      var price, collectedAt := record.price, record.collectedAt;
      var id := record.link;
      var status: Status;
      if id in priceHistoryDb {
        var timeline := priceHistoryDb[id];
        if price != timeline[|timeline| - 1].price {
          status := PriceChanged;
          priceHistoryDb := priceHistoryDb[id := timeline + [PricePoint(price, collectedAt)]];
        } else {
          status := Unchanged;
        }
      } else {
        status := New;
        priceHistoryDb := priceHistoryDb[id := [PricePoint(price, collectedAt)]];
      }
      listing := Listing(record, status, priceHistoryDb[id]);
    }

    /** The item loop of one page that loaded. */
    method CollectItems(items: seq<RawItem>, page: nat, clock: (nat, nat) -> string) returns (found: seq<Listing>)
      requires Valid()
      modifies this
      ensures Valid()
      ensures var run := RunItems(old(priceHistoryDb), items, page, clock, parsers);
        found == run.results && priceHistoryDb == run.db
    {
      ghost var db0 := priceHistoryDb;
      found := [];
      var j := 0;
      while j < |items|
        invariant 0 <= j <= |items|
        invariant Valid()
        invariant var run := RunItems(db0, items[..j], page, clock, parsers);
          found == run.results && priceHistoryDb == run.db
      {
        var listing := ProcessItem(items[j], clock(page, j));
        found := found + [listing];
        RunItemsNext(db0, items, page, clock, parsers, j);
        j := j + 1;
      }
      assert items[..j] == items;
    }

    /** `scrape_inventory`: pages 1 to maxPages in order; a page that raises is skipped. */
    method ScrapeInventory(maxPages: int, visit: string -> Visit, clock: (nat, nat) -> string) returns (results: seq<Listing>)
      requires Valid()
      modifies this
      ensures Valid()
      ensures var run := RunPages(old(priceHistoryDb), visit, clock, if maxPages < 0 then 0 else maxPages, parsers);
        results == run.results && priceHistoryDb == run.db
    {
      ghost var db0 := priceHistoryDb;
      results := [];
      var page := 1;
      while page <= maxPages
        invariant 1 <= page <= if maxPages < 1 then 1 else maxPages + 1
        invariant Valid()
        invariant var run := RunPages(db0, visit, clock, page - 1, parsers);
          results == run.results && priceHistoryDb == run.db
      {
        RunPagesNext(db0, visit, clock, page, parsers);
        var outcome := visit(PageUrl(page));
        if outcome.Loaded? {
          var found := CollectItems(outcome.items, page, clock);
          results := results + found;
        }
        page := page + 1;
      }
      assert page - 1 == if maxPages < 0 then 0 else maxPages;
    }
  }
}
