/**
 * The schema.org `RealEstateListing` JSON-LD object built for a listing.
 *
 * A listing is a dictionary of JSON-like values. The object built from it
 * is a record, one field per JSON member; the two members that are only
 * present for some listings are optional fields. Python's `str()` of a
 * value that is not a string, an int or None (a float price, a list) is a
 * parameter `show`; its exact text is not part of the model.
 */
module Schema {
  import opened Wrappers
  import opened Text
  import opened Numbers

  datatype Json =
    | Null
    | Str(text: string)
    | Int(whole: int)
    | Number(value: real)
    | Array(items: seq<Json>)
    | Object(fields: map<string, Json>)

  type Dict = map<string, Json>

  /** `d.get(key, default)`. */
  function Get(d: Dict, key: string, default: Json): Json
  {
    if key in d then d[key] else default
  }

  /** Python's `str(v)`, with the formatting of floats and containers left to `show`. */
  function Show(v: Json, show: Json -> string): string
  {
    match v
    case Str(s) => s
    case Int(n) => IntToString(n)
    case Null => "None"
    case _ => show(v)
  }

  const CONTEXT := "https://schema.org"
  const SITE := "https://bahiasatellite.com/imoveis/"
  const CURRENCY := "BRL"
  const IN_STOCK := "https://schema.org/InStock"

  /** The unit code of square metre in UN/ECE Recommendation 20. */
  const SQUARE_METRE := "MTK"

  /** A `PostalAddress`. */
  datatype PostalAddress = PostalAddress(locality: string, region: string, country: string)

  /** The address every listing gets: Salvador, Bahia, Brazil. */
  const SALVADOR := PostalAddress("Salvador", "BA", "BR")

  /** An `Offer`: the price as text. */
  datatype Offer = Offer(price: string, currency: string, availability: string)

  /** A `QuantitativeValue`. */
  datatype QuantitativeValue = QuantitativeValue(value: Json, unitCode: string)

  /** The JSON-LD object; `@context` and `@type` are its first two fields. */
  datatype JsonLd = JsonLd(
    context: string,
    kind: string,
    name: Json,
    description: Json,
    url: string,
    image: Json,
    address: PostalAddress,
    offers: Offer,
    numberOfRooms: Option<Json>,
    floorSize: Option<QuantitativeValue>)

  /** `build_json_ld`: the literal object, then "numberOfRooms" and "floorSize" when the listing has those keys. */
  function BuildJsonLd(data: Dict, show: Json -> string): (r: JsonLd)
  {
    JsonLd(
      CONTEXT,
      "RealEstateListing",
      Get(data, "seo_title", Get(data, "title", Null)),
      Get(data, "meta_description", Get(data, "description", Null)),
      SITE + Show(Get(data, "seo_slug", Str("")), show),
      Get(data, "images", Array([])),
      SALVADOR,
      Offer(Show(Get(data, "price", Int(0)), show), CURRENCY, IN_STOCK),
      if "bedrooms" in data then Some(data["bedrooms"]) else None,
      if "area" in data then Some(QuantitativeValue(data["area"], SQUARE_METRE)) else None)
  }

  /** The context, type and address are the same for every listing, whatever its location. */
  lemma FixedParts(data: Dict, other: Dict, show: Json -> string)
    ensures BuildJsonLd(data, show).context == "https://schema.org"
    ensures BuildJsonLd(data, show).kind == "RealEstateListing"
    ensures BuildJsonLd(data, show).address == PostalAddress("Salvador", "BA", "BR")
    ensures BuildJsonLd(data, show).address == BuildJsonLd(other, show).address
  {
  }

  /** The name prefers the SEO title and the description the meta description; a missing pair gives None. */
  lemma NameAndDescription(data: Dict, show: Json -> string)
    ensures var r := BuildJsonLd(data, show);
      && ("seo_title" in data ==> r.name == data["seo_title"])
      && ("seo_title" !in data && "title" in data ==> r.name == data["title"])
      && ("seo_title" !in data && "title" !in data ==> r.name == Null)
      && ("meta_description" in data ==> r.description == data["meta_description"])
      && ("meta_description" !in data && "description" in data ==> r.description == data["description"])
      && ("meta_description" !in data && "description" !in data ==> r.description == Null)
  {
  }

  /** The URL is the site prefix followed by the slug, or the bare prefix without one. */
  lemma Url(data: Dict, show: Json -> string)
    ensures var u := BuildJsonLd(data, show).url;
      && StartsWith(u, SITE)
      && ("seo_slug" !in data ==> u == SITE)
      && ("seo_slug" in data && data["seo_slug"].Str? ==> u[|SITE|..] == data["seo_slug"].text)
  {
  }

  /** Images come only from "images": a listing that has only "photos", as a scraped one does, gets none. */
  lemma Images(data: Dict, show: Json -> string)
    ensures "images" in data ==> BuildJsonLd(data, show).image == data["images"]
    ensures "images" !in data ==> BuildJsonLd(data, show).image == Array([])
  {
  }

  /** The offer: the price as text (0 when missing) in Brazilian reais. */
  lemma Offers(data: Dict, show: Json -> string)
    ensures var o := BuildJsonLd(data, show).offers;
      && o.currency == "BRL"
      && ("price" in data ==> o.price == Show(data["price"], show))
      && ("price" !in data ==> o.price == "0")
      && ("price" in data && data["price"].Int? ==> o.price == IntToString(data["price"].whole))
  {
  }

  /** The optional members are present exactly when the listing has the key, and copy its value, None included. */
  lemma OptionalMembers(data: Dict, show: Json -> string)
    ensures var r := BuildJsonLd(data, show);
      && (r.numberOfRooms.Some? <==> "bedrooms" in data)
      && ("bedrooms" in data ==> r.numberOfRooms.value == data["bedrooms"])
      && (r.floorSize.Some? <==> "area" in data)
      && ("area" in data ==> r.floorSize.value == QuantitativeValue(data["area"], "MTK"))
  {
  }
}
