/**
 * The requests + BeautifulSoup scraper: a page loop over the listing index,
 * field selection from each card, normalisation of the raw fields, and a
 * price watchdog that tracks only listings with a link.
 *
 * The HTML parser is abstracted: a card is the record of the strings the
 * scraper reads from it, and a page request either yields the cards of the
 * three selectors or fails.
 */
module LopesScraper {
  import opened Wrappers
  import opened Text
  import opened Numbers
  import opened Listing
  import opened Details
  import opened PriceWatch
  import opened Ingest
  import opened Pages

  const ORIGIN := "https://www.lopes.com.br"

  /** The `src` and `data-src` attributes of an image, "" when absent. */
  datatype Img = Img(src: string, dataSrc: string)

  /**
   * What the scraper reads from a card: its href ("" when absent), the
   * stripped text of its first h2 and first h3 (None when the tag is absent),
   * the stripped text of each `p` and each `li`, its images, and its text
   * with elements separated by newlines. Unreadable stands for a card on
   * which extraction raises.
   */
  datatype Card =
    | Card(
        href: string,
        h2: Option<string>,
        h3: Option<string>,
        paragraphs: seq<string>,
        images: seq<Img>,
        listItems: seq<string>,
        text: string)
    | Unreadable

  /** The cards a page offers to the three selectors: `a.lead-button`, `div.property-card`, `article`. */
  datatype Doc = Doc(leadButtons: seq<Card>, propertyCards: seq<Card>, articles: seq<Card>)

  /** A page request: the parsed page, or a request exception (connection, timeout, HTTP error status). */
  datatype Response = Fetched(doc: Doc) | RequestFailed

  // ---------------------------------------------------------------- cards

  /** A link or image source that does not start with "http" is taken relative to the site; "" stays "". */
  function Resolve(src: string): string
  {
    if src != "" && !StartsWith(src, "http") then ORIGIN + src else src
  }

  lemma ResolveSpec(src: string)
    ensures Resolve(src) == "" <==> src == ""
    ensures src != "" ==> StartsWith(Resolve(src), "http")
    ensures StartsWith(src, "http") ==> Resolve(src) == src
    ensures Resolve(Resolve(src)) == Resolve(src)
  {
    if src != "" && !StartsWith(src, "http") {
      assert (ORIGIN + src)[..4] == "http";
    }
  }

  /** `img.get('src', '') or img.get('data-src', '')`. */
  function Source(img: Img): string
  {
    if img.src != "" then img.src else img.dataSrc
  }

  predicate UsableSource(src: string)
  {
    src != "" && !Contains(src, "data:image")
  }

  /** The photo an image contributes: its resolved source when usable, else none. */
  function Photo(img: Img): (r: seq<string>)
    ensures |r| <= 1
  {
    if UsableSource(Source(img)) then [Resolve(Source(img))] else []
  }

  /** The photo URLs of a card: usable sources, resolved, in document order. */
  function Photos(imgs: seq<Img>): seq<string>
  {
    if imgs == [] then [] else Photo(imgs[0]) + Photos(imgs[1..])
  }

  /** Photos keep document order: the photos of two runs of images are the photos of each, concatenated. */
  lemma {:induction false} PhotosConcat(a: seq<Img>, b: seq<Img>)
    ensures Photos(a + b) == Photos(a) + Photos(b)
  {
    if a == [] {
      assert a + b == b;
    } else {
      assert (a + b)[0] == a[0];
      assert (a + b)[1..] == a[1..] + b;
      PhotosConcat(a[1..], b);
    }
  }

  /** One image yields one photo exactly when its source is usable, and that photo is an absolute URL. */
  lemma PhotosOne(img: Img)
    ensures UsableSource(Source(img)) ==> Photos([img]) == [Resolve(Source(img))]
    ensures UsableSource(Source(img)) ==> StartsWith(Photos([img])[0], "http")
    ensures !UsableSource(Source(img)) ==> Photos([img]) == []
  {
    assert [img][1..] == [];
    ResolveSpec(Source(img));
  }

  /** `[line.strip() for line in text.split('\n') if line.strip()]`. */
  function Lines(text: string): (lines: seq<string>)
    ensures forall i :: 0 <= i < |lines| ==> lines[i] != ""
  {
    StrippedNonBlank(SplitOn(text, "\n"))
  }

  function StrippedNonBlank(xs: seq<string>): (r: seq<string>)
    ensures forall i :: 0 <= i < |r| ==> r[i] != ""
  {
    if xs == [] then []
    else (if Strip(xs[0]) != "" then [Strip(xs[0])] else []) + StrippedNonBlank(xs[1..])
  }

  /** Every line that is not blank is kept, stripped. */
  lemma {:induction false} StrippedKeeps(xs: seq<string>, j: int)
    requires 0 <= j < |xs| && Strip(xs[j]) != ""
    ensures Strip(xs[j]) in StrippedNonBlank(xs)
  {
    var head, rest := if Strip(xs[0]) != "" then [Strip(xs[0])] else [], StrippedNonBlank(xs[1..]);
    assert StrippedNonBlank(xs) == head + rest;
    if j > 0 {
      assert xs[1..][j - 1] == xs[j];
      StrippedKeeps(xs[1..], j - 1);
      assert Strip(xs[j]) in rest;
    }
  }

  /** Every kept line is the stripped form of an input line. */
  lemma {:induction false} StrippedFrom(xs: seq<string>, line: string) returns (j: int)
    requires line in StrippedNonBlank(xs)
    ensures 0 <= j < |xs| && Strip(xs[j]) == line
  {
    var head, rest := if Strip(xs[0]) != "" then [Strip(xs[0])] else [], StrippedNonBlank(xs[1..]);
    assert StrippedNonBlank(xs) == head + rest;
    if line in head {
      j := 0;
    } else {
      assert line in rest;
      var k := StrippedFrom(xs[1..], line);
      j := k + 1;
      assert xs[j] == xs[1..][k];
    }
  }

  /** The address heuristic: a comma, no "R$", and a length strictly between 10 and 100. */
  predicate IsAddressLine(line: string)
  {
    Contains(line, ",") && !Contains(line, "R$") && 10 < |line| < 100
  }

  /** The description heuristic: longer than 50, no "R$", and none of title, price text or address. */
  predicate IsDescriptionLine(line: string, title: string, priceText: string, location: string)
  {
    |line| > 50 && line != title && line != priceText && line != location && !Contains(line, "R$")
  }

  predicate HasCurrency(text: string)
  {
    Contains(text, "R$")
  }

  /** `card.find('h2') or card.find('h3')`, else "Sem Título". */
  function Title(c: Card): string
    requires c.Card?
  {
    match c.h2
    case Some(t) => t
    case None => c.h3.GetOr(NO_TITLE)
  }

  /** `_extract_property_data`: the raw fields of a card. */
  function ExtractPropertyData(c: Card): RawItem
    requires c.Card?
  {
    var title := Title(c);
    var priceText := FirstWhere(c.paragraphs, HasCurrency, "0");
    var lines := Lines(c.text);
    var location := FirstWhere(lines, IsAddressLine, "");
    var description := FirstWhere(lines, line => IsDescriptionLine(line, title, priceText, location), "");
    RawItem(title, priceText, Resolve(c.href), Photos(c.images), NonEmpty(c.listItems), location, description)
  }

  /**
   * What each extracted field is: the price text is "0" or a paragraph with
   * "R$"; the address and description are "" or lines of the card that
   * satisfy their heuristics; the details are non-empty bullets; the link is
   * "" exactly when the card has no href, and absolute otherwise.
   */
  lemma ExtractedFields(c: Card)
    requires c.Card?
    ensures var item := ExtractPropertyData(c);
      && (item.priceText == "0" || (item.priceText in c.paragraphs && Contains(item.priceText, "R$")))
      && (item.location == "" || (item.location in Lines(c.text) && IsAddressLine(item.location)))
      && (item.description == "" || (item.description in Lines(c.text)
            && IsDescriptionLine(item.description, item.title, item.priceText, item.location)))
      && (forall i :: 0 <= i < |item.details| ==> item.details[i] != "" && item.details[i] in c.listItems)
      && (item.link == "" <==> c.href == "")
      && (item.link != "" ==> StartsWith(item.link, "http"))
  {
    var item := ExtractPropertyData(c);
    var lines := Lines(c.text);
    FirstWhereSatisfies(c.paragraphs, HasCurrency, "0");
    FirstWhereSatisfies(lines, IsAddressLine, "");
    FirstWhereSatisfies(lines, line => IsDescriptionLine(line, item.title, item.priceText, item.location), "");
    ResolveSpec(c.href);
  }

  // ---------------------------------------------------------------- normalisation

  predicate IsPriceChar(c: char)
  {
    IsAsciiDigit(c) || c == ',' || c == '.'
  }

  /** Drop "R$", keep digits, ',' and '.', delete every '.', turn ',' into '.'. */
  function CleanPrice(text: string): (s: string)
    ensures forall i :: 0 <= i < |s| ==> IsAsciiDigit(s[i]) || s[i] == '.'
  {
    SubstChar(RemoveChar(Keep(Replace(text, "R$", ""), IsPriceChar), '.'), ',', '.')
  }

  /** The price of `_process_item`; 0.0 when the cleaned text is empty or float() raises. */
  function ParsePrice(text: string): (price: real)
    ensures price >= 0.0
  {
    var s := CleanPrice(text);
    if s == "" then 0.0 else ParseFloat(s).GetOr(0.0)
  }

  /** Removing "R$" first makes no difference to what the cleaning keeps. */
  lemma CleanPriceKeeps(text: string)
    ensures CleanPrice(text) == SubstChar(RemoveChar(Keep(text, IsPriceChar), '.'), ',', '.')
  {
    KeepReplace(text, "R$", IsPriceChar);
  }

  /** Deleting the periods of the grouped digits leaves digits, the comma and the decimals. */
  lemma RemoveGrouping(whole: string, decimals: string)
    requires forall i :: 0 <= i < |whole| ==> IsAsciiDigit(whole[i]) || whole[i] == '.'
    requires AllAsciiDigits(decimals)
    ensures AllAsciiDigits(RemoveChar(whole, '.'))
    ensures RemoveChar(whole + "," + decimals, '.') == RemoveChar(whole, '.') + "," + decimals
  {
    var a := RemoveChar(whole, '.');
    assert AllAsciiDigits(a) by {
      forall i | 0 <= i < |a| ensures IsAsciiDigit(a[i]) {
        var k :| 0 <= k < |whole| && whole[k] == a[i];
      }
    }
    RemoveCharConcat(whole + ",", decimals, '.');
    RemoveCharConcat(whole, ",", '.');
    assert '.' !in decimals by {
      forall i | 0 <= i < |decimals| ensures decimals[i] != '.' { assert IsAsciiDigit(decimals[i]); }
    }
    RemoveCharNoop(decimals, '.');
    assert RemoveChar(",", '.') == ",";
  }

  /** Turning the one comma between two digit strings into a period. */
  lemma CommaToPoint(a: string, decimals: string)
    requires AllAsciiDigits(a) && AllAsciiDigits(decimals)
    ensures SubstChar(a + "," + decimals, ',', '.') == a + "." + decimals
  {
    SubstCharConcat(a + ",", decimals, ',', '.');
    SubstCharConcat(a, ",", ',', '.');
    assert ',' !in a by {
      forall i | 0 <= i < |a| ensures a[i] != ',' { assert IsAsciiDigit(a[i]); }
    }
    assert ',' !in decimals by {
      forall i | 0 <= i < |decimals| ensures decimals[i] != ',' { assert IsAsciiDigit(decimals[i]); }
    }
    SubstCharNoop(a, ',', '.');
    SubstCharNoop(decimals, ',', '.');
  }

  /** Deleting the periods of the grouped digits and turning the comma into a period. */
  lemma CleanRegional(whole: string, decimals: string)
    requires forall i :: 0 <= i < |whole| ==> IsAsciiDigit(whole[i]) || whole[i] == '.'
    requires AllAsciiDigits(decimals)
    ensures AllAsciiDigits(RemoveChar(whole, '.'))
    ensures SubstChar(RemoveChar(whole + "," + decimals, '.'), ',', '.') == RemoveChar(whole, '.') + "." + decimals
  {
    RemoveGrouping(whole, decimals);
    CommaToPoint(RemoveChar(whole, '.'), decimals);
  }

  /**
   * A regional price: whatever surrounds it, if the digits and separators of
   * the text are thousands-grouped digits, a comma and decimals, the price is
   * the grouped number with its decimals.
   */
  lemma ParsePriceRegional(text: string, whole: string, decimals: string)
    requires Keep(text, IsPriceChar) == whole + "," + decimals
    requires forall i :: 0 <= i < |whole| ==> IsAsciiDigit(whole[i]) || whole[i] == '.'
    requires AllAsciiDigits(decimals)
    requires RemoveChar(whole, '.') != [] || decimals != []
    ensures AllAsciiDigits(RemoveChar(whole, '.'))
    ensures ParsePrice(text) == Decimal(DigitsValue(RemoveChar(whole, '.')), DigitsValue(decimals), |decimals|)
  {
    CleanPriceKeeps(text);
    CleanRegional(whole, decimals);
    ParseFloatDecimal(RemoveChar(whole, '.'), decimals);
  }

  /** A price without a comma is the number its digits spell; the periods only group thousands. */
  lemma ParsePriceWhole(text: string)
    requires ',' !in Keep(text, IsPriceChar)
    requires RemoveChar(Keep(text, IsPriceChar), '.') != []
    ensures AllAsciiDigits(RemoveChar(Keep(text, IsPriceChar), '.'))
    ensures ParsePrice(text) == DigitsValue(RemoveChar(Keep(text, IsPriceChar), '.')) as real
  {
    CleanPriceKeeps(text);
    var k := Keep(text, IsPriceChar);
    var a := RemoveChar(k, '.');
    assert AllAsciiDigits(a) by {
      forall i | 0 <= i < |a| ensures IsAsciiDigit(a[i]) {
        assert a[i] in k && a[i] != '.';
      }
    }
    assert ',' !in a;
    SubstCharNoop(a, ',', '.');
    ParseFloatWhole(a);
  }

  /** Two commas become two periods, float() raises, and the price falls back to 0.0. */
  lemma ParsePriceTwoCommas(text: string, i: int, j: int)
    requires 0 <= i < j < |Keep(text, IsPriceChar)|
    requires Keep(text, IsPriceChar)[i] == ',' && Keep(text, IsPriceChar)[j] == ','
    ensures ParsePrice(text) == 0.0
  {
    CleanPriceKeeps(text);
    var k := Keep(text, IsPriceChar);
    var r := RemoveChar(k, '.');
    RemoveCharAt(k, '.', i);
    RemoveCharAt(k, '.', j);
    RemoveCharBefore(k, '.', i, j);
    var p, q := |RemoveChar(k[..i], '.')|, |RemoveChar(k[..j], '.')|;
    var s := SubstChar(r, ',', '.');
    assert s[p] == '.' && s[q] == '.';
    ParseFloatTwoPeriods(s, p, q);
  }

  /** The number a Lopes bullet carries: its first run of digits. */
  function AreaOf(bullet: string): Option<real>
  {
    match FirstDigitRun(bullet)
    case Some(run) => Some(DigitsValue(run) as real)
    case None => None
  }

  function CountOf(bullet: string): Option<int>
  {
    match FirstDigitRun(bullet)
    case Some(run) => Some(DigitsValue(run))
    case None => None
  }

  const READERS := Readers(AreaOf, CountOf)

  /**
   * A Lopes bullet stores a value exactly when it has a digit, and the value
   * is the maximal digit run starting at its first digit.
   */
  lemma BulletValue(bullet: string, k: Kind, i: int)
    requires 0 <= i < |bullet| && IsAsciiDigit(bullet[i])
    requires forall j :: 0 <= j < i ==> !IsAsciiDigit(bullet[j])
    ensures Value(bullet, k, READERS) == Some(DigitsValue(DigitPrefix(bullet[i..])) as real)
  {
    FirstDigitRunAt(bullet, i);
  }

  /** A bullet without digits stores nothing. */
  lemma BulletWithoutDigits(bullet: string, k: Kind)
    requires forall j :: 0 <= j < |bullet| ==> !IsAsciiDigit(bullet[j])
    ensures !Writes(bullet, k, READERS)
  {
  }

  /** The scraper's own readers of price text and bullets. */
  const PARSERS := Parsers(ParsePrice, READERS)

  // ---------------------------------------------------------------- tracking

  /**
   * `_process_item` on a map: normalise the item with `parsers`, then sight
   * it, tracking only listings with a link.
   */
  function Process(db: PriceDb, item: RawItem, collectedAt: string, parsers: Parsers): (r: (Listing, PriceDb))
    requires Keyed(db, LinkedOnly)
    ensures Keyed(r.1, LinkedOnly)
  {
    Sight(db, Normalize(item, collectedAt, parsers), LinkedOnly)
  }

  /** A listing without a link is reported new, with an empty history, and leaves the map alone. */
  lemma ProcessWithoutLink(db: PriceDb, item: RawItem, collectedAt: string, parsers: Parsers)
    requires Keyed(db, LinkedOnly) && item.link == ""
    ensures Process(db, item, collectedAt, parsers) == (Listing(Normalize(item, collectedAt, parsers), New, []), db)
  {
  }

  // ---------------------------------------------------------------- page loop

  /** The first selector that finds cards: `a.lead-button`, then `div.property-card`, then `article`. */
  function SelectCards(doc: Doc): (cards: seq<Card>)
    ensures cards == [] <==> doc.leadButtons == [] && doc.propertyCards == [] && doc.articles == []
  {
    if doc.leadButtons != [] then doc.leadButtons
    else if doc.propertyCards != [] then doc.propertyCards
    else doc.articles
  }

  /**
   * The raw items of the readable cards of one page, in order, each with the
   * time it is stamped at: `clock(page, j)` for the card at index j.
   */
  function Readable(cards: seq<Card>, page: nat, clock: (nat, nat) -> string): seq<(RawItem, string)>
  {
    if cards == [] then []
    else
      var j := |cards| - 1;
      Readable(cards[..j], page, clock) + (if cards[j].Card? then [(ExtractPropertyData(cards[j]), clock(page, j))] else [])
  }

  /** An unreadable card skips only itself: every readable card is processed, at its own time. */
  lemma {:induction false} ReadableKeeps(cards: seq<Card>, page: nat, clock: (nat, nat) -> string, j: int)
    requires 0 <= j < |cards| && cards[j].Card?
    ensures (ExtractPropertyData(cards[j]), clock(page, j)) in Readable(cards, page, clock)
  {
    if j < |cards| - 1 {
      ReadableKeeps(cards[..|cards| - 1], page, clock, j);
    }
  }

  /** The records of the readable cards of one page, sighted in order. */
  function RunCards(db: PriceDb, cards: seq<Card>, page: nat, clock: (nat, nat) -> string, parsers: Parsers): (r: Run)
    requires Keyed(db, LinkedOnly)
    ensures Keyed(r.db, LinkedOnly)
  {
    RunRecords(db, Normalized(Readable(cards, page, clock), parsers), LinkedOnly)
  }

  /** Card j continues the run of the cards before it, or adds nothing when it is unreadable. */
  lemma RunCardsNext(db: PriceDb, cards: seq<Card>, page: nat, clock: (nat, nat) -> string, parsers: Parsers, j: int)
    requires Keyed(db, LinkedOnly) && 0 <= j < |cards|
    ensures var prev := RunCards(db, cards[..j], page, clock, parsers);
      RunCards(db, cards[..j + 1], page, clock, parsers) ==
        if cards[j].Card? then
          var step := Process(prev.db, ExtractPropertyData(cards[j]), clock(page, j), parsers);
          Run(prev.results + [step.0], step.1)
        else prev
  {
    var done := Readable(cards[..j], page, clock);
    assert cards[..j + 1][..j] == cards[..j];
    if cards[j].Card? {
      var item := ExtractPropertyData(cards[j]);
      var next := [(item, clock(page, j))];
      assert Readable(cards[..j + 1], page, clock) == done + next;
      NormalizedAppend(done, next, parsers);
      var records := Normalized(done, parsers) + [Normalize(item, clock(page, j), parsers)];
      assert records[..|done|] == Normalized(done, parsers);
    } else {
      assert Readable(cards[..j + 1], page, clock) == done;
    }
  }

  /** The stamped raw items of the readable cards of pages 1 to n whose request succeeded, in page order. */
  function Harvest(fetch: string -> Response, clock: (nat, nat) -> string, n: nat): seq<(RawItem, string)>
  {
    if n == 0 then []
    else
      Harvest(fetch, clock, n - 1) + match fetch(PageUrl(n))
        case RequestFailed => []
        case Fetched(doc) => Readable(SelectCards(doc), n, clock)
  }

  /** `scrape_inventory` over pages 1 to n: the harvested records sighted in order. */
  function RunPages(db: PriceDb, fetch: string -> Response, clock: (nat, nat) -> string, n: nat, parsers: Parsers): (r: Run)
    requires Keyed(db, LinkedOnly)
    ensures Keyed(r.db, LinkedOnly)
  {
    RunRecords(db, Normalized(Harvest(fetch, clock, n), parsers), LinkedOnly)
  }

  /** Page n continues the run of pages 1 to n - 1, or adds nothing when its request fails. */
  lemma RunPagesNext(db: PriceDb, fetch: string -> Response, clock: (nat, nat) -> string, n: nat, parsers: Parsers)
    requires Keyed(db, LinkedOnly) && n >= 1
    ensures var prev := RunPages(db, fetch, clock, n - 1, parsers);
      RunPages(db, fetch, clock, n, parsers) == match fetch(PageUrl(n))
        case RequestFailed => prev
        case Fetched(doc) =>
          var page := RunCards(prev.db, SelectCards(doc), n, clock, parsers);
          Run(prev.results + page.results, page.db)
  {
    var done := Harvest(fetch, clock, n - 1);
    match fetch(PageUrl(n))
    case RequestFailed =>
      assert Harvest(fetch, clock, n) == done;
    case Fetched(doc) =>
      var more := Readable(SelectCards(doc), n, clock);
      assert Harvest(fetch, clock, n) == done + more;
      NormalizedAppend(done, more, parsers);
      RunRecordsAppend(db, Normalized(done, parsers), Normalized(more, parsers), LinkedOnly);
  }

  /**
   * The loop returns one listing per readable card of the pages that loaded,
   * in page order and card order: the i-th listing is the normalisation of
   * the i-th harvested item at the time it was stamped.
   */
  lemma RunPagesFromCards(db: PriceDb, fetch: string -> Response, clock: (nat, nat) -> string, n: nat, parsers: Parsers)
    requires Keyed(db, LinkedOnly)
    ensures |RunPages(db, fetch, clock, n, parsers).results| == |Harvest(fetch, clock, n)|
    ensures forall i :: 0 <= i < |Harvest(fetch, clock, n)| ==>
      RunPages(db, fetch, clock, n, parsers).results[i].record
        == Normalize(Harvest(fetch, clock, n)[i].0, Harvest(fetch, clock, n)[i].1, parsers)
  {
    RunRecordsListings(db, Normalized(Harvest(fetch, clock, n), parsers), LinkedOnly);
  }

  /**
   * Every listing the loop returns is accounted for in the final map: one
   * without a link is new with an empty history, any other carries a prefix
   * of its link's final timeline that ends at the price it was seen at; the
   * timelines of the map it started from only grew.
   */
  lemma RunPagesSnapshots(db: PriceDb, fetch: string -> Response, clock: (nat, nat) -> string, n: nat, parsers: Parsers)
    requires Keyed(db, LinkedOnly)
    ensures Grows(db, RunPages(db, fetch, clock, n, parsers).db)
    ensures forall l :: l in RunPages(db, fetch, clock, n, parsers).results ==>
      Accounted(l, RunPages(db, fetch, clock, n, parsers).db, LinkedOnly)
  {
    RunRecordsAccounted(db, Normalized(Harvest(fetch, clock, n), parsers), LinkedOnly);
  }

  // ---------------------------------------------------------------- the scraper object

  class Scraper {
    /** Link to price timeline; it lives as long as the scraper object. */
    var priceHistoryDb: PriceDb

    /** The readers of price text and bullets; the constructor installs the scraper's own. */
    const parsers: Parsers

    ghost predicate Valid()
      reads this
    {
      Keyed(priceHistoryDb, LinkedOnly)
    }

    constructor ()
      ensures Valid() && priceHistoryDb == map[] && parsers == PARSERS
    {
      parsers := PARSERS;
      priceHistoryDb := map[];
    }

    /** `_process_item`: normalise the item, then classify it and update its timeline. */
    method ProcessItem(item: RawItem, collectedAt: string) returns (listing: Listing)
      requires Valid()
      modifies this
      ensures Valid()
      ensures (listing, priceHistoryDb) == Process(old(priceHistoryDb), item, collectedAt, parsers)
    {
      var price := parsers.price(item.priceText);
      var features := ParseDetails(item.details, parsers.bullets);
      var record := Record(
        item.title, price, item.priceText, SplitAddress(item.location), features, PROPERTY_TYPE,
        item.photos, item.description, item.link, collectedAt, SOURCE);
      listing := Track(record);
    }

    /** The price-tracking half of `_process_item`: classify the record and update its timeline. */
    method Track(record: Record) returns (listing: Listing)
      requires Valid()
      modifies this
      ensures Valid()
      ensures (listing, priceHistoryDb) == Sight(old(priceHistoryDb), record, LinkedOnly)
    {
      var price, collectedAt := record.price, record.collectedAt;
      var id := record.link;
      var status: Status;
      if id != "" && id in priceHistoryDb {
        var timeline := priceHistoryDb[id];
        if price != timeline[|timeline| - 1].price {
          status := PriceChanged;
          priceHistoryDb := priceHistoryDb[id := timeline + [PricePoint(price, collectedAt)]];
        } else {
          status := Unchanged;
        }
      } else {
        status := New;
        if id != "" {
          priceHistoryDb := priceHistoryDb[id := [PricePoint(price, collectedAt)]];
        }
      }
      var history := if id in priceHistoryDb then priceHistoryDb[id] else [];
      listing := Listing(record, status, history);
    }

    /** The card loop of one page that loaded: an unreadable card skips only itself. */
    method ScrapeCards(cards: seq<Card>, page: nat, clock: (nat, nat) -> string) returns (found: seq<Listing>)
      requires Valid()
      modifies this
      ensures Valid()
      ensures var run := RunCards(old(priceHistoryDb), cards, page, clock, parsers);
        found == run.results && priceHistoryDb == run.db
    {
      ghost var db0 := priceHistoryDb;
      found := [];
      var j := 0;
      while j < |cards|
        invariant 0 <= j <= |cards|
        invariant Valid()
        invariant var run := RunCards(db0, cards[..j], page, clock, parsers);
          found == run.results && priceHistoryDb == run.db
      {
        if cards[j].Card? {
          var item := ExtractPropertyData(cards[j]);
          var listing := ProcessItem(item, clock(page, j));
          found := found + [listing];
          RunCardsNext(db0, cards, page, clock, parsers, j);
        } else {
          RunCardsNext(db0, cards, page, clock, parsers, j);
        }
        j := j + 1;
      }
      assert cards[..j] == cards;
    }

    /** `scrape_inventory`: pages 1 to maxPages in order; a failed request skips its page. */
    method ScrapeInventory(maxPages: int, fetch: string -> Response, clock: (nat, nat) -> string) returns (results: seq<Listing>)
      requires Valid()
      modifies this
      ensures Valid()
      ensures var run := RunPages(old(priceHistoryDb), fetch, clock, if maxPages < 0 then 0 else maxPages, parsers);
        results == run.results && priceHistoryDb == run.db
    {
      ghost var db0 := priceHistoryDb;
      results := [];
      var page := 1;
      while page <= maxPages
        invariant 1 <= page <= if maxPages < 1 then 1 else maxPages + 1
        invariant Valid()
        invariant var run := RunPages(db0, fetch, clock, page - 1, parsers);
          results == run.results && priceHistoryDb == run.db
      {
        RunPagesNext(db0, fetch, clock, page, parsers);
        var response := fetch(PageUrl(page));
        if response.Fetched? {
          var found := ScrapeCards(SelectCards(response.doc), page, clock);
          results := results + found;
        }
        page := page + 1;
      }
      ghost var pages: nat := if maxPages < 0 then 0 else maxPages;
      assert page - 1 == pages;
      assert RunPages(db0, fetch, clock, page - 1, parsers) == RunPages(db0, fetch, clock, pages, parsers);
    }
  }
}
