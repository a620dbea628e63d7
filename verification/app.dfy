/**
 * The front end's client-side listing filter and the property card's
 * button, which uses the same luxury threshold as the unlock dialog.
 */
module App {
  import opened Wrappers
  import opened Filters
  import UnlockModal

  /** The fields of a front-end property that the filter and the card read. */
  datatype Property = Property(id: string, title: string, neighborhood: string, price: real, bedrooms: int)

  /** The bedrooms filter: none, "5+" for five, or exactly the count otherwise. */
  predicate MatchesBedrooms(p: Property, bedrooms: Option<int>)
  {
    match bedrooms
    case None => true
    case Some(n) => if n == 5 then p.bedrooms >= 5 else p.bedrooms == n
  }

  /** The predicate of `filteredProperties`. */
  predicate Matches(p: Property, f: FilterState)
  {
    && p.price >= f.priceRange.lo && p.price <= f.priceRange.hi
    && (|f.neighborhoods| == 0 || p.neighborhood in f.neighborhoods)
    && MatchesBedrooms(p, f.bedrooms)
  }

  /** `filteredProperties`: the properties that match, in their order. */
  function FilterProperties(properties: seq<Property>, f: FilterState): (r: seq<Property>)
    ensures |r| <= |properties|
    ensures forall i :: 0 <= i < |r| ==> Matches(r[i], f) && r[i] in properties
  {
    if properties == [] then []
    else (if Matches(properties[0], f) then [properties[0]] else []) + FilterProperties(properties[1..], f)
  }

  /** `xs` is `ys` with some elements left out, the rest in the same order. */
  ghost predicate SubsequenceOf<T>(xs: seq<T>, ys: seq<T>)
    decreases |ys|
  {
    if xs == [] then true
    else if ys == [] then false
    else (xs[0] == ys[0] && SubsequenceOf(xs[1..], ys[1..])) || SubsequenceOf(xs, ys[1..])
  }

  /** The filtered list keeps the input's order. */
  lemma {:induction false} FilterIsSubsequence(properties: seq<Property>, f: FilterState)
    ensures SubsequenceOf(FilterProperties(properties, f), properties)
  {
    if properties != [] {
      FilterIsSubsequence(properties[1..], f);
      var r := FilterProperties(properties, f);
      var rest := FilterProperties(properties[1..], f);
      if Matches(properties[0], f) {
        assert r == [properties[0]] + rest;
        assert r[0] == properties[0] && r[1..] == rest;
      } else {
        assert r == rest;
      }
    }
  }

  /** A property is shown exactly when it is in the list and matches. */
  lemma {:induction false} FilterKeepsMatches(properties: seq<Property>, f: FilterState, p: Property)
    ensures p in FilterProperties(properties, f) <==> p in properties && Matches(p, f)
  {
    if properties != [] {
      FilterKeepsMatches(properties[1..], f, p);
    }
  }

  /** What each filter demands of a property that is shown. */
  lemma ShownMeets(properties: seq<Property>, f: FilterState, p: Property)
    requires p in FilterProperties(properties, f)
    ensures f.priceRange.lo <= p.price <= f.priceRange.hi
    ensures |f.neighborhoods| > 0 ==> p.neighborhood in f.neighborhoods
    ensures f.bedrooms == Some(5) ==> p.bedrooms >= 5
    ensures f.bedrooms.Some? && f.bedrooms != Some(5) ==> p.bedrooms == f.bedrooms.value
  {
  }

  /** After "clear", the filter only bounds the price, to between 0 and 5,000,000. */
  lemma ClearedShowsPriceBand(properties: seq<Property>, p: Property)
    ensures p in FilterProperties(properties, CLEARED) <==> p in properties && 0.0 <= p.price <= 5000000.0
  {
    FilterKeepsMatches(properties, CLEARED, p);
  }

  /** The card's button label. */
  function CardButton(price: real): string
  {
    if price >= 1500000.0 then "Solicitar Acesso" else "Desbloquear Detalhes"
  }

  /** The card asks to request access exactly when the dialog it opens is the luxury one. */
  lemma CardMatchesModal(price: real)
    ensures CardButton(price) == "Solicitar Acesso" <==> UnlockModal.GetModalConfig(price).tier == UnlockModal.Luxury
    ensures CardButton(price) == "Desbloquear Detalhes" <==> UnlockModal.GetModalConfig(price).tier != UnlockModal.Luxury
  {
  }
}
