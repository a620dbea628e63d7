/**
 * The listing filter panel's state and its transitions. Each handler of the
 * panel computes the next state from the previous one; here each is a
 * function from the old state to the new one.
 */
module Filters {
  import opened Wrappers

  datatype Profile = All | Economic | Standard | Luxury | UltraLuxury

  /** A closed price interval `[lo, hi]`. */
  datatype Range = Range(lo: real, hi: real)

  datatype FilterState = FilterState(
    priceRange: Range,
    neighborhoods: seq<string>,
    profile: Profile,
    bedrooms: Option<int>)

  /** The range of the "all" profile, and the slider's upper end. */
  const DEFAULT_RANGE := Range(0.0, 5000000.0)

  /** The state the "clear" button sets. */
  const CLEARED := FilterState(DEFAULT_RANGE, [], All, None)

  /** The price range each investment profile selects. */
  function ProfileRange(profile: Profile): Range
  {
    match profile
    case Economic => Range(0.0, 350000.0)
    case Standard => Range(350000.0, 900000.0)
    case Luxury => Range(900000.0, 2500000.0)
    case UltraLuxury => Range(2500000.0, 15000000.0)
    case All => DEFAULT_RANGE
  }

  /** `handleProfileChange`: the profile and its range; neighbourhoods and bedrooms stay. */
  function ChangeProfile(prev: FilterState, profile: Profile): (r: FilterState)
    ensures r.profile == profile && r.priceRange == ProfileRange(profile)
    ensures r.neighborhoods == prev.neighborhoods && r.bedrooms == prev.bedrooms
  {
    prev.(profile := profile, priceRange := ProfileRange(profile))
  }

  /**
   * The four profiles tile the prices from 0 to 15,000,000 in increasing
   * order, each sharing its upper end with the next one's lower end; every
   * range is a proper interval.
   */
  lemma ProfilesTile()
    ensures forall p :: ProfileRange(p).lo < ProfileRange(p).hi
    ensures ProfileRange(Economic).lo == 0.0
    ensures ProfileRange(Economic).hi == ProfileRange(Standard).lo
    ensures ProfileRange(Standard).hi == ProfileRange(Luxury).lo
    ensures ProfileRange(Luxury).hi == ProfileRange(UltraLuxury).lo
    ensures ProfileRange(UltraLuxury).hi == 15000000.0
  {
  }

  /** `current.filter(n => n !== name)`. */
  function RemoveAll(names: seq<string>, name: string): (r: seq<string>)
    ensures name !in r
    ensures forall n :: n != name ==> (n in r <==> n in names)
    ensures |r| <= |names|
  {
    if names == [] then []
    else (if names[0] != name then [names[0]] else []) + RemoveAll(names[1..], name)
  }

  /** `toggleNeighborhood`: every occurrence removed when the name is selected, else appended at the end. */
  function ToggleNeighborhood(prev: FilterState, name: string): (r: FilterState)
    ensures r.priceRange == prev.priceRange && r.profile == prev.profile && r.bedrooms == prev.bedrooms
  {
    var current := prev.neighborhoods;
    if name in current then prev.(neighborhoods := RemoveAll(current, name))
    else prev.(neighborhoods := current + [name])
  }

  /** A toggle flips whether the name is selected and leaves every other name as it was. */
  lemma ToggleFlips(prev: FilterState, name: string)
    ensures name in ToggleNeighborhood(prev, name).neighborhoods <==> name !in prev.neighborhoods
    ensures forall n :: n != name ==>
      (n in ToggleNeighborhood(prev, name).neighborhoods <==> n in prev.neighborhoods)
  {
  }

  /** Toggling a name that is not selected twice gives the list back. */
  lemma ToggleTwice(prev: FilterState, name: string)
    requires name !in prev.neighborhoods
    ensures ToggleNeighborhood(ToggleNeighborhood(prev, name), name) == prev
  {
    var added := prev.neighborhoods + [name];
    assert added[..|prev.neighborhoods|] == prev.neighborhoods;
    RemoveLast(prev.neighborhoods, name);
  }

  /** Removing a name appended to a list without it gives the list back. */
  lemma {:induction false} RemoveLast(names: seq<string>, name: string)
    requires name !in names
    ensures RemoveAll(names + [name], name) == names
  {
    if names == [] {
      assert RemoveAll([name], name) == [];
    } else {
      assert (names + [name])[1..] == names[1..] + [name];
      RemoveLast(names[1..], name);
    }
  }

  /** `handleBedroomChange`: choosing the selected count clears it, another count selects it. */
  function ChangeBedrooms(prev: FilterState, n: int): (r: FilterState)
    ensures r.priceRange == prev.priceRange && r.neighborhoods == prev.neighborhoods && r.profile == prev.profile
    ensures r.bedrooms == None <==> prev.bedrooms == Some(n)
  {
    prev.(bedrooms := if prev.bedrooms == Some(n) then None else Some(n))
  }

  /**
   * Choosing the same count twice gives the original selection back when
   * nothing or that count was selected; from another count it ends with
   * nothing selected.
   */
  lemma BedroomsTwice(prev: FilterState, n: int)
    ensures prev.bedrooms == None || prev.bedrooms == Some(n) ==> ChangeBedrooms(ChangeBedrooms(prev, n), n) == prev
    ensures prev.bedrooms.Some? && prev.bedrooms != Some(n) ==> ChangeBedrooms(ChangeBedrooms(prev, n), n).bedrooms == None
  {
  }

  /** `hasActiveFilters`. */
  predicate HasActiveFilters(f: FilterState)
  {
    f.profile != All || |f.neighborhoods| > 0 || f.bedrooms != None
    || f.priceRange.lo != 0.0 || f.priceRange.hi != 5000000.0
  }

  /** `handleClearFilters`: whatever the previous state, the cleared one, which has no active filter. */
  function ClearFilters(prev: FilterState): (r: FilterState)
    ensures !HasActiveFilters(r)
  {
    CLEARED
  }

  /** The clear button is shown exactly when the state differs from the one it sets. */
  lemma ActiveIffNotCleared(f: FilterState)
    ensures !HasActiveFilters(f) <==> f == CLEARED
  {
  }

  /** The slider: a new upper bound, the same lower bound, and the profile back to "all". */
  function SlideMax(prev: FilterState, value: int): (r: FilterState)
    ensures r.priceRange.lo == prev.priceRange.lo && r.priceRange.hi == value as real
    ensures r.profile == All
    ensures r.neighborhoods == prev.neighborhoods && r.bedrooms == prev.bedrooms
  {
    prev.(priceRange := Range(prev.priceRange.lo, value as real), profile := All)
  }
}
