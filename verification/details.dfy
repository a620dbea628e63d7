/**
 * The feature-bullet parser both scrapers share: each bullet is lower-cased,
 * classified by keyword in a fixed priority order, and the number read from
 * it overwrites one field. The scrapers differ only in how they read the
 * number, so the reading is a parameter.
 */
module Details {
  import opened Wrappers
  import opened Text
  import opened Listing

  datatype Kind = Area | Bedrooms | Bathrooms | Parking

  /** Keyword classification, in priority order: area, bedrooms, bathrooms, parking. */
  function Classify(bullet: string): Option<Kind>
  {
    var l := Lower(bullet);
    if Contains(l, "m²") || Contains(l, "área") then Some(Area)
    else if Contains(l, "quarto") || Contains(l, "dorm") then Some(Bedrooms)
    else if Contains(l, "banh") then Some(Bathrooms)
    else if Contains(l, "vaga") then Some(Parking)
    else None
  }

  /** How a scraper reads the number out of a bullet; None when reading fails. */
  datatype Readers = Readers(area: string -> Option<real>, count: string -> Option<int>)

  const NoFeatures := Features(None, None, None, None)

  /** Field `k` of `f`, with counts widened to reals so that every field has one type. */
  function Get(f: Features, k: Kind): Option<real>
  {
    match k
    case Area => f.area
    case Bedrooms => AsReal(f.bedrooms)
    case Bathrooms => AsReal(f.bathrooms)
    case Parking => AsReal(f.parking)
  }

  function AsReal(n: Option<int>): Option<real>
  {
    match n case Some(v) => Some(v as real) case None => None
  }

  /** The value bullet `d` would store in field `k`. */
  function Value(d: string, k: Kind, rd: Readers): Option<real>
  {
    if k == Area then rd.area(d) else AsReal(rd.count(d))
  }

  /** Bullet `d` is classified as `k` and its number reads successfully. */
  predicate Writes(d: string, k: Kind, rd: Readers)
  {
    Classify(d) == Some(k) && Value(d, k, rd).Some?
  }

  /** One bullet: at most the field it is classified as changes, and only when its number reads. */
  function Apply(f: Features, d: string, rd: Readers): (g: Features)
    ensures forall k :: Get(g, k) == if Writes(d, k, rd) then Value(d, k, rd) else Get(f, k)
  {
    match Classify(d)
    case None => f
    case Some(Area) => (match rd.area(d) case Some(v) => f.(area := Some(v)) case None => f)
    case Some(Bedrooms) => (match rd.count(d) case Some(n) => f.(bedrooms := Some(n)) case None => f)
    case Some(Bathrooms) => (match rd.count(d) case Some(n) => f.(bathrooms := Some(n)) case None => f)
    case Some(Parking) => (match rd.count(d) case Some(n) => f.(parking := Some(n)) case None => f)
  }

  /** The bullets applied in order, starting from all fields None. */
  function Fold(ds: seq<string>, rd: Readers): Features
  {
    if ds == [] then NoFeatures else Apply(Fold(ds[..|ds| - 1], rd), ds[|ds| - 1], rd)
  }

  /** The parsing loop of `_process_item` over the card's bullets. */
  method ParseDetails(details: seq<string>, rd: Readers) returns (f: Features)
    ensures f == Fold(details, rd)
  {
    f := NoFeatures;
    var i := 0;
    while i < |details|
      invariant 0 <= i <= |details|
      invariant f == Fold(details[..i], rd)
    {
      assert details[..i + 1][..i] == details[..i];
      f := Apply(f, details[i], rd);
      i := i + 1;
    }
    assert details[..i] == details;
  }

  /** A field no bullet writes stays None. */
  lemma {:induction false} FoldNoWriter(ds: seq<string>, rd: Readers, k: Kind)
    requires forall i :: 0 <= i < |ds| ==> !Writes(ds[i], k, rd)
    ensures Get(Fold(ds, rd), k) == None
  {
    if ds != [] {
      FoldNoWriter(ds[..|ds| - 1], rd, k);
    }
  }

  /** A field holds the value of the last bullet that writes it: later bullets win. */
  lemma {:induction false} FoldLastWriter(ds: seq<string>, rd: Readers, k: Kind, i: int)
    requires 0 <= i < |ds| && Writes(ds[i], k, rd)
    requires forall j :: i < j < |ds| ==> !Writes(ds[j], k, rd)
    ensures Get(Fold(ds, rd), k) == Value(ds[i], k, rd)
  {
    if i < |ds| - 1 {
      FoldLastWriter(ds[..|ds| - 1], rd, k, i);
    }
  }
}
