/**
 * The records that flow through the ingestion pipeline (a card's raw fields,
 * the normalised listing, its price timeline) and the address split that both
 * scrapers share.
 */
module Listing {
  import opened Wrappers
  import opened Text

  const DEFAULT_CITY := "Salvador"
  const STATE := "BA"
  const PROPERTY_TYPE := "Apartamento"
  const SOURCE := "Lopes"
  const NO_TITLE := "Sem Título"

  /** The watchdog's verdict on one sighting of a listing. */
  datatype Status = New | Unchanged | PriceChanged

  /** One entry of a price timeline. */
  datatype PricePoint = PricePoint(price: real, date: string)

  datatype Location = Location(address: string, neighborhood: string, city: string, state: string)

  /** The numeric details read from a card's bullets; None is Python's None. */
  datatype Features = Features(area: Option<real>, bedrooms: Option<int>, bathrooms: Option<int>, parking: Option<int>)

  /** The raw fields extracted from one card. */
  datatype RawItem = RawItem(
    title: string,
    priceText: string,
    link: string,
    photos: seq<string>,
    details: seq<string>,
    location: string,
    description: string)

  /** The normalised fields of a listing, before the watchdog adds status and price history. */
  datatype Record = Record(
    title: string,
    price: real,
    priceText: string,
    location: Location,
    features: Features,
    kind: string,
    photos: seq<string>,
    description: string,
    link: string,
    collectedAt: string,
    source: string)

  datatype Listing = Listing(record: Record, status: Status, priceHistory: seq<PricePoint>)

  /** The last `,`-separated piece of `text` is `city` and the one before it is `neighborhood`. */
  ghost predicate AddressTail(text: string, head: string, neighborhood: string, city: string)
  {
    && text == head + neighborhood + "," + city
    && ',' !in neighborhood && ',' !in city
    && (head == "" || head[|head| - 1] == ',')
  }

  /**
   * The address split of `_process_item`: city "Salvador" unless the address
   * has a comma, state always "BA".
   */
  function SplitAddress(text: string): (loc: Location)
    ensures loc.address == text && loc.state == STATE
    ensures text == "" ==> loc.neighborhood == "" && loc.city == DEFAULT_CITY
  {
    if text == "" then Location(text, "", DEFAULT_CITY, STATE)
    else
      var parts := SplitOn(text, ",");
      if |parts| >= 2 then Location(text, Strip(parts[|parts| - 2]), Strip(parts[|parts| - 1]), STATE)
      else Location(text, Strip(parts[0]), DEFAULT_CITY, STATE)
  }

  lemma {:induction false} JoinAppend(xs: seq<string>, ys: seq<string>, sep: string)
    requires xs != [] && ys != []
    ensures Join(xs + ys, sep) == Join(xs, sep) + sep + Join(ys, sep)
  {
    if |xs| == 1 {
      assert (xs + ys)[1..] == ys;
    } else {
      assert (xs + ys)[1..] == xs[1..] + ys;
      JoinAppend(xs[1..], ys, sep);
    }
  }

  /** Without a comma the whole stripped address is the neighbourhood and the city keeps its default. */
  lemma SplitAddressNoComma(text: string)
    requires text != "" && ',' !in text
    ensures SplitAddress(text).neighborhood == Strip(text)
    ensures SplitAddress(text).city == DEFAULT_CITY
  {
    ContainsChar(text, ',');
    NoSeparatorNoSplit(text, ",");
  }

  /** A join of at least two parts: everything before the last two parts, then those two. */
  lemma JoinLastTwo(parts: seq<string>, sep: string) returns (head: string)
    requires |parts| >= 2
    ensures Join(parts, sep) == head + parts[|parts| - 2] + sep + parts[|parts| - 1]
    ensures head == "" || head == Join(parts[..|parts| - 2], sep) + sep
  {
    var n := |parts|;
    var nb, ct := parts[n - 2], parts[n - 1];
    assert parts == parts[..n - 2] + [nb, ct];
    assert [nb, ct][1..] == [ct];
    assert Join([nb, ct], sep) == nb + sep + ct;
    if n == 2 {
      head := "";
    } else {
      head := Join(parts[..n - 2], sep) + sep;
      JoinAppend(parts[..n - 2], [nb, ct], sep);
    }
  }

  /** The last two pieces of a split on ',' with everything before them. */
  lemma LastTwoParts(text: string) returns (head: string, nb: string, ct: string)
    requires ',' in text
    ensures |SplitOn(text, ",")| >= 2
    ensures nb == SplitOn(text, ",")[|SplitOn(text, ",")| - 2]
    ensures ct == SplitOn(text, ",")[|SplitOn(text, ",")| - 1]
    ensures AddressTail(text, head, nb, ct)
  {
    var parts := SplitOn(text, ",");
    ContainsChar(text, ',');
    SplitCount(text, ",");
    SplitPartsFree(text, ",");
    JoinSplit(text, ",");
    var n := |parts|;
    nb, ct := parts[n - 2], parts[n - 1];
    ContainsChar(nb, ',');
    ContainsChar(ct, ',');
    head := JoinLastTwo(parts, ",");
  }

  /** With a comma the address is split on its last two pieces. */
  lemma SplitAddressLastTwo(text: string)
    requires ',' in text
    ensures var parts := SplitOn(text, ",");
      && |parts| >= 2
      && SplitAddress(text).neighborhood == Strip(parts[|parts| - 2])
      && SplitAddress(text).city == Strip(parts[|parts| - 1])
  {
    ContainsChar(text, ',');
    SplitCount(text, ",");
  }

  /**
   * With a comma the city is the stripped text after the last comma and the
   * neighbourhood the stripped text between the last two commas (or from the
   * start); neither holds a comma.
   */
  lemma SplitAddressWithComma(text: string)
    requires ',' in text
    ensures exists head, nb, ct ::
      && AddressTail(text, head, nb, ct)
      && SplitAddress(text).neighborhood == Strip(nb)
      && SplitAddress(text).city == Strip(ct)
    ensures ',' !in SplitAddress(text).neighborhood && ',' !in SplitAddress(text).city
  {
    var head, nb, ct := LastTwoParts(text);
    SplitAddressLastTwo(text);
    var loc := SplitAddress(text);
    assert AddressTail(text, head, nb, ct) && loc.neighborhood == Strip(nb) && loc.city == Strip(ct);
    if ',' in Strip(nb) { StripSubset(nb, ','); }
    if ',' in Strip(ct) { StripSubset(ct, ','); }
  }
}
