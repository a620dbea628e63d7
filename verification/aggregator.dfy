/**
 * The entity aggregator: a building name is read from a listing's title by
 * the first of three patterns that matches, and listings are grouped by the
 * case-folded name; only groups of more than two listings are kept.
 *
 * The regular-expression engine is a parameter: `search(p, title)` is the
 * first capture group of pattern `p` in `title`, or None when the pattern
 * does not match.
 */
module Aggregator {
  import opened Wrappers
  import opened Text

  /** The three title patterns: "Edf."/"Edifício", "Mansão", "Condomínio". */
  datatype Pattern = Edificio | Mansao | Condominio

  const PATTERNS := [Edificio, Mansao, Condominio]

  /** The minimum group size is exceeded by this many members: groups need more than two. */
  const MIN_GROUP := 2

  type Search = (Pattern, string) -> Option<string>

  /** The capture of the first pattern of `patterns` that matches. */
  function FirstCapture(patterns: seq<Pattern>, title: string, search: Search): (r: Option<string>)
    ensures r.None? <==> forall i :: 0 <= i < |patterns| ==> search(patterns[i], title).None?
  {
    if patterns == [] then None
    else match search(patterns[0], title)
      case Some(capture) => Some(capture)
      case None =>
        assert forall i :: 1 <= i < |patterns| ==> patterns[1..][i - 1] == patterns[i];
        FirstCapture(patterns[1..], title, search)
  }

  /** The capture is that of a pattern that matches after none of the ones before it did. */
  lemma {:induction false} FirstCaptureFirst(patterns: seq<Pattern>, title: string, search: Search, i: int)
    requires 0 <= i < |patterns| && search(patterns[i], title).Some?
    requires forall j :: 0 <= j < i ==> search(patterns[j], title).None?
    ensures FirstCapture(patterns, title, search) == search(patterns[i], title)
  {
    if i > 0 {
      assert forall j :: 0 <= j < i - 1 ==> patterns[1..][j] == patterns[j + 1];
      FirstCaptureFirst(patterns[1..], title, search, i - 1);
    }
  }

  /** `extract_building_name`: the capture of the edifício pattern, else mansão, else condomínio, stripped. */
  function ExtractBuildingName(title: string, search: Search): (r: Option<string>)
  {
    match FirstCapture(PATTERNS, title, search)
    case Some(capture) => Some(Strip(capture))
    case None => None
  }

  /** The building name is the stripped capture of the first pattern, in the fixed order, that matches. */
  lemma ExtractOrder(title: string, search: Search)
    ensures ExtractBuildingName(title, search).None? <==>
      search(Edificio, title).None? && search(Mansao, title).None? && search(Condominio, title).None?
    ensures search(Edificio, title).Some? ==>
      ExtractBuildingName(title, search) == Some(Strip(search(Edificio, title).value))
    ensures search(Edificio, title).None? && search(Mansao, title).Some? ==>
      ExtractBuildingName(title, search) == Some(Strip(search(Mansao, title).value))
    ensures search(Edificio, title).None? && search(Mansao, title).None? && search(Condominio, title).Some? ==>
      ExtractBuildingName(title, search) == Some(Strip(search(Condominio, title).value))
  {
    assert PATTERNS[0] == Edificio && PATTERNS[1] == Mansao && PATTERNS[2] == Condominio;
    if search(Edificio, title).Some? {
      FirstCaptureFirst(PATTERNS, title, search, 0);
    } else if search(Mansao, title).Some? {
      FirstCaptureFirst(PATTERNS, title, search, 1);
    } else if search(Condominio, title).Some? {
      FirstCaptureFirst(PATTERNS, title, search, 2);
    }
  }

  /** A group: the first-seen spelling of its name and its listings in input order. */
  datatype Group<P> = Group(name: string, members: seq<P>)

  /** The name a listing is grouped under: a non-empty extracted building name (Python treats '' as false). */
  function NameOf<P>(p: P, titleOf: P -> string, search: Search): (r: Option<string>)
    ensures r.Some? ==> r.value != ""
  {
    var n := ExtractBuildingName(titleOf(p), search);
    if n.Some? && n.value != "" then n else None
  }

  /** The group key of a building name: lower-cased, then stripped. */
  function Key(name: string): string
  {
    Strip(Lower(name))
  }

  /**
   * How listings are named and keyed. The grouping below is stated for any
   * naming; `group_properties` uses `Names(titleOf, search)`.
   */
  datatype Naming<-P> = Naming(name: P -> Option<string>, keyFor: string -> string)

  function Names<P>(titleOf: P -> string, search: Search): Naming<P>
  {
    Naming(p => NameOf(p, titleOf, search), Key)
  }

  /** The group key of a listing, if it has a name. */
  function KeyOf<P>(p: P, nm: Naming<P>): Option<string>
  {
    match nm.name(p)
    case Some(n) => Some(nm.keyFor(n))
    case None => None
  }

  /** The listings with key `k`, in input order. */
  function Members<P>(props: seq<P>, k: string, nm: Naming<P>): (r: seq<P>)
    ensures |r| <= |props|
    ensures forall j :: 0 <= j < |r| ==> r[j] in props
  {
    if props == [] then []
    else Members(props[..|props| - 1], k, nm) + (if KeyOf(props[|props| - 1], nm) == Some(k) then [props[|props| - 1]] else [])
  }

  /** The name of the first listing with key `k`. */
  function FirstName<P>(props: seq<P>, k: string, nm: Naming<P>): Option<string>
  {
    if props == [] then None
    else
      var f := FirstName(props[..|props| - 1], k, nm);
      if f.Some? then f
      else if KeyOf(props[|props| - 1], nm) == Some(k) then nm.name(props[|props| - 1])
      else None
  }

  /** One listing of the grouping loop. */
  function AddTo<P>(groups: map<string, Group<P>>, p: P, nm: Naming<P>): map<string, Group<P>>
  {
    match nm.name(p)
    case None => groups
    case Some(n) =>
      var key := nm.keyFor(n);
      var g := if key in groups then groups[key] else Group(n, []);
      groups[key := g.(members := g.members + [p])]
  }

  /** The groups before the size filter. */
  function Grouping<P>(props: seq<P>, nm: Naming<P>): map<string, Group<P>>
  {
    if props == [] then map[] else AddTo(Grouping(props[..|props| - 1], nm), props[|props| - 1], nm)
  }

  /**
   * What the grouping is: a key has a group exactly when some listing has
   * that key; the group holds every listing with that key in input order,
   * under the name of the first of them.
   */
  lemma {:induction false} GroupingSpec<P>(props: seq<P>, nm: Naming<P>)
    ensures var g := Grouping(props, nm);
      forall k :: (k in g <==> Members(props, k, nm) != [])
        && (FirstName(props, k, nm).Some? <==> Members(props, k, nm) != [])
        && (k in g ==> g[k] == Group(FirstName(props, k, nm).value, Members(props, k, nm)))
  {
    if props != [] {
      GroupingSpec(props[..|props| - 1], nm);
    }
  }

  /** Every member of a group has that group's key, so a listing is in at most one group, and one without a name in none. */
  lemma {:induction false} MembersKeyed<P>(props: seq<P>, k: string, nm: Naming<P>)
    ensures forall j :: 0 <= j < |Members(props, k, nm)| ==> KeyOf(Members(props, k, nm)[j], nm) == Some(k)
  {
    if props != [] {
      var init, last := props[..|props| - 1], props[|props| - 1];
      MembersKeyed(init, k, nm);
      var a := Members(init, k, nm);
      if KeyOf(last, nm) == Some(k) {
        var m := a + [last];
        assert Members(props, k, nm) == m;
        assert forall j :: 0 <= j < |m| ==> m[j] == if j < |a| then a[j] else last;
        assert forall j :: 0 <= j < |m| ==> KeyOf(m[j], nm) == Some(k);
      } else {
        assert Members(props, k, nm) == a;
      }
    }
  }

  /** The group's name is the name of the first listing with its key. */
  lemma {:induction false} FirstNameIsFirst<P>(props: seq<P>, k: string, nm: Naming<P>)
    requires FirstName(props, k, nm).Some?
    ensures exists i ::
      && 0 <= i < |props| && KeyOf(props[i], nm) == Some(k) && nm.name(props[i]) == FirstName(props, k, nm)
      && (forall j :: 0 <= j < i ==> KeyOf(props[j], nm) != Some(k))
  {
    var init := props[..|props| - 1];
    if FirstName(init, k, nm).Some? {
      FirstNameIsFirst(init, k, nm);
      var i :| 0 <= i < |init| && KeyOf(init[i], nm) == Some(k) && nm.name(init[i]) == FirstName(init, k, nm)
        && (forall j :: 0 <= j < i ==> KeyOf(init[j], nm) != Some(k));
      assert props[i] == init[i];
      assert forall j :: 0 <= j < i ==> props[j] == init[j];
    } else {
      FirstNameAbsent(init, k, nm);
      assert forall j :: 0 <= j < |init| ==> props[j] == init[j];
    }
  }

  /** Without a first name, no listing has the key. */
  lemma {:induction false} FirstNameAbsent<P>(props: seq<P>, k: string, nm: Naming<P>)
    requires FirstName(props, k, nm).None?
    ensures forall j :: 0 <= j < |props| ==> KeyOf(props[j], nm) != Some(k)
  {
    if props != [] {
      var init := props[..|props| - 1];
      FirstNameAbsent(init, k, nm);
      assert forall j :: 0 <= j < |init| ==> props[j] == init[j];
    }
  }

  lemma GroupingNext<P>(props: seq<P>, i: int, nm: Naming<P>)
    requires 0 <= i < |props|
    ensures Grouping(props[..i + 1], nm) == AddTo(Grouping(props[..i], nm), props[i], nm)
  {
    assert props[..i + 1][..i] == props[..i];
  }

  /** The loop's update, written as `group_properties` does it: create the group if absent, then append. */
  lemma AddToNamed<P>(groups: map<string, Group<P>>, p: P, nm: Naming<P>, n: string, key: string)
    requires nm.name(p) == Some(n) && nm.keyFor(n) == key
    ensures var created := if key in groups then groups else groups[key := Group(n, [])];
      AddTo(groups, p, nm) == created[key := created[key].(members := created[key].members + [p])]
  {
    var g := if key in groups then groups[key] else Group(n, []);
    var created := if key in groups then groups else groups[key := Group(n, [])];
    assert created[key := g.(members := g.members + [p])] == groups[key := g.(members := g.members + [p])];
  }

  /** The groups of more than two listings, stated in terms of the listings. */
  lemma Filtered<P>(props: seq<P>, nm: Naming<P>)
    ensures var groups := Grouping(props, nm);
      var valid := map k | k in groups && |groups[k].members| > MIN_GROUP :: groups[k];
      forall k :: (k in valid <==> |Members(props, k, nm)| > MIN_GROUP)
        && (k in valid ==> (FirstName(props, k, nm).Some? && valid[k] == Group(FirstName(props, k, nm).value, Members(props, k, nm))))
  {
    GroupingSpec(props, nm);
  }

  /**
   * `group_properties`: listings grouped by building key, groups of more than
   * two returned, each with its listings in input order under the first-seen
   * spelling of the name.
   */
  method GroupProperties<P>(properties: seq<P>, titleOf: P -> string, search: Search) returns (valid: map<string, Group<P>>)
    ensures var nm := Names(titleOf, search);
      forall k :: (k in valid <==> |Members(properties, k, nm)| > MIN_GROUP)
        && (k in valid ==> (FirstName(properties, k, nm).Some? && valid[k] == Group(FirstName(properties, k, nm).value, Members(properties, k, nm))))
  {
    ghost var nm := Names(titleOf, search);
    var groups: map<string, Group<P>> := map[];
    for i := 0 to |properties|
      invariant groups == Grouping(properties[..i], nm)
    {
      var prop := properties[i];
      GroupingNext(properties, i, nm);
      var buildingName := ExtractBuildingName(titleOf(prop), search);
      if buildingName.Some? && buildingName.value != "" {
        var key := Strip(Lower(buildingName.value));
        AddToNamed(groups, prop, nm, buildingName.value, key);
        if key !in groups {
          groups := groups[key := Group(buildingName.value, [])];
        }
        groups := groups[key := groups[key].(members := groups[key].members + [prop])];
      } else {
        assert nm.name(prop) == None;
      }
    }
    assert properties[..|properties|] == properties;
    Filtered(properties, nm);
    valid := map k | k in groups && |groups[k].members| > MIN_GROUP :: groups[k];
  }
}
