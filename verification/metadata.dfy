/**
 * The SEO metadata generator: a URL slug, a title tag and a meta description
 * for a listing.
 *
 * `_slugify` transliterates to ASCII (NFKD, then dropping what is not ASCII),
 * removes what is not a word character, whitespace or '-', lower-cases,
 * collapses every run of '-' and whitespace into one '-' and strips '-' from
 * both ends. The language model behind the meta description is a parameter:
 * its reply, or its failure.
 */
module Metadata {
  import opened Wrappers
  import opened Text
  import opened Numbers

  /**
   * NFKD followed by `encode('ascii', 'ignore')`, for one character: ASCII is
   * kept, the accented Latin-1 letters lose their accent, everything else is
   * dropped.
   */
  function FoldChar(c: char): (r: string)
    ensures |r| <= 1 && forall i :: 0 <= i < |r| ==> r[i] < '\U{80}'
    ensures c < '\U{80}' ==> r == [c]
  {
    if c < '\U{80}' then [c]
    else if '\U{C0}' <= c <= '\U{C5}' then "A"
    else if c == '\U{C7}' then "C"
    else if '\U{C8}' <= c <= '\U{CB}' then "E"
    else if '\U{CC}' <= c <= '\U{CF}' then "I"
    else if c == '\U{D1}' then "N"
    else if '\U{D2}' <= c <= '\U{D6}' then "O"
    else if '\U{D9}' <= c <= '\U{DC}' then "U"
    else if c == '\U{DD}' then "Y"
    else if '\U{E0}' <= c <= '\U{E5}' then "a"
    else if c == '\U{E7}' then "c"
    else if '\U{E8}' <= c <= '\U{EB}' then "e"
    else if '\U{EC}' <= c <= '\U{EF}' then "i"
    else if c == '\U{F1}' then "n"
    else if '\U{F2}' <= c <= '\U{F6}' then "o"
    else if '\U{F9}' <= c <= '\U{FC}' then "u"
    else if c == '\U{FD}' || c == '\U{FF}' then "y"
    else ""
  }

  /** The ASCII transliteration of a text. */
  function Ascii(s: string): (r: string)
    ensures forall i :: 0 <= i < |r| ==> r[i] < '\U{80}'
  {
    if s == [] then [] else FoldChar(s[0]) + Ascii(s[1..])
  }

  /** An ASCII text transliterates to itself. */
  lemma {:induction false} AsciiNoop(s: string)
    requires forall i :: 0 <= i < |s| ==> s[i] < '\U{80}'
    ensures Ascii(s) == s
  {
    if s != [] {
      AsciiNoop(s[1..]);
    }
  }

  /** The regular-expression class \w on ASCII: letters, digits and '_'. */
  predicate IsWord(c: char)
  {
    'a' <= c <= 'z' || 'A' <= c <= 'Z' || '0' <= c <= '9' || c == '_'
  }

  /** What `[^\w\s-]` does not remove. */
  predicate Kept(c: char)
  {
    IsWord(c) || IsSpace(c) || c == '-'
  }

  /** What `[-\s]+` matches. */
  predicate IsSeparator(c: char)
  {
    c == '-' || IsSpace(c)
  }

  predicate IsDash(c: char)
  {
    c == '-'
  }

  /** No two '-' in a row. */
  ghost predicate NoDoubleDash(s: string)
  {
    forall i, j :: 0 <= i && j == i + 1 && j < |s| ==> !(s[i] == '-' && s[j] == '-')
  }

  /** `re.sub(r'[-\s]+', '-', s)`: every maximal run of separators becomes one '-'. */
  function Collapse(s: string): (r: string)
    ensures forall i :: 0 <= i < |r| ==> r[i] == '-' || (r[i] in s && !IsSeparator(r[i]))
    ensures r != [] <==> s != []
    ensures r != [] ==> (r[0] == '-' <==> IsSeparator(s[0]))
    ensures NoDoubleDash(r)
    decreases |s|
  {
    if s == [] then []
    else if IsSeparator(s[0]) then
      var rest := TrimStart(s, IsSeparator);
      assert rest != [] ==> !IsSeparator(rest[0]);
      "-" + Collapse(rest)
    else [s[0]] + Collapse(s[1..])
  }

  /** A text without whitespace and without "--" is its own collapse. */
  lemma {:induction false} CollapseNoop(s: string)
    requires forall i :: 0 <= i < |s| ==> !IsSpace(s[i])
    requires NoDoubleDash(s)
    ensures Collapse(s) == s
  {
    if s != [] {
      CollapseNoop(s[1..]);
      if s[0] == '-' {
        TrimStartNoop(s[1..], IsSeparator);
        assert TrimStart(s, IsSeparator) == s[1..];
      }
    }
  }

  /** What `[-\s]+` does not match. */
  predicate NotSeparator(c: char)
  {
    !IsSeparator(c)
  }

  /** Collapsing keeps every character that is not a separator, in order, and adds none. */
  lemma {:induction false} CollapseKeepsWords(s: string)
    ensures Keep(Collapse(s), NotSeparator) == Keep(s, NotSeparator)
    decreases |s|
  {
    if s != [] {
      if IsSeparator(s[0]) {
        var rest := TrimStart(s, IsSeparator);
        var m := |s| - |rest|;
        assert m > 0;
        assert s == s[..m] + rest;
        KeepConcat(s[..m], rest, NotSeparator);
        KeepNone(s[..m], NotSeparator);
        CollapseKeepsWords(rest);
        KeepConcat("-", Collapse(rest), NotSeparator);
        KeepNone("-", NotSeparator);
      } else {
        CollapseKeepsWords(s[1..]);
        var c := Collapse(s);
        assert c[0] == s[0] && c[1..] == Collapse(s[1..]);
      }
    }
  }

  /** Stripping a run of separators from its front leaves the text after the run. */
  lemma {:induction false} TrimStartRun(r: string, w: string)
    requires forall i :: 0 <= i < |r| ==> IsSeparator(r[i])
    requires w != [] ==> !IsSeparator(w[0])
    ensures TrimStart(r + w, IsSeparator) == w
  {
    if r == [] {
      assert r + w == w;
      TrimStartNoop(w, IsSeparator);
    } else {
      assert (r + w)[1..] == r[1..] + w;
      TrimStartRun(r[1..], w);
    }
  }

  /** A whole run of '-' and whitespace before a word becomes a single '-'. */
  lemma CollapseRun(r: string, w: string)
    requires r != [] && forall i :: 0 <= i < |r| ==> IsSeparator(r[i])
    requires w != [] ==> !IsSeparator(w[0])
    ensures Collapse(r + w) == "-" + Collapse(w)
  {
    TrimStartRun(r, w);
    assert (r + w)[0] == r[0];
  }

  /** The first three steps of `_slugify`: transliterate, drop what `[^\w\s-]` matches, lower-case. */
  function Filtered(text: string): string
  {
    Lower(Keep(Ascii(text), Kept))
  }

  /** `s.strip('-')`. */
  function StripDashes(s: string): string
  {
    TrimEnd(TrimStart(s, IsDash), IsDash)
  }

  /** `_slugify`. */
  function Slugify(text: string): string
  {
    StripDashes(Collapse(Filtered(text)))
  }

  /** The characters a slug is made of. */
  predicate IsSlugChar(c: char)
  {
    'a' <= c <= 'z' || '0' <= c <= '9' || c == '_' || c == '-'
  }

  /** A slug: lower-case letters, digits, '_' and '-' only, no '-' at either end, no "--". */
  ghost predicate IsSlug(s: string)
  {
    && (forall i :: 0 <= i < |s| ==> IsSlugChar(s[i]))
    && (s != [] ==> s[0] != '-' && s[|s| - 1] != '-')
    && NoDoubleDash(s)
  }

  /** Before collapsing, every character is a slug character or whitespace. */
  lemma LoweredChars(text: string)
    ensures var l := Filtered(text);
      forall i :: 0 <= i < |l| ==> (IsSlugChar(l[i]) && l[i] != '-') || IsSeparator(l[i])
  {
    var a := Ascii(text);
    var k := Keep(a, Kept);
    var l := Lower(k);
    forall i | 0 <= i < |l|
      ensures (IsSlugChar(l[i]) && l[i] != '-') || IsSeparator(l[i])
    {
      assert k[i] in a;
      assert k[i] < '\U{80}';
      assert l[i] == LowerChar(k[i]);
    }
  }

  /** Cutting a slice out of a text keeps its characters and adds no "--". */
  lemma SliceKeeps(s: string, lo: int, hi: int)
    requires 0 <= lo <= hi <= |s|
    requires forall i :: 0 <= i < |s| ==> IsSlugChar(s[i])
    requires NoDoubleDash(s)
    ensures forall i :: 0 <= i < hi - lo ==> IsSlugChar(s[lo..hi][i])
    ensures NoDoubleDash(s[lo..hi])
  {
    var t := s[lo..hi];
    assert forall i :: 0 <= i < |t| ==> t[i] == s[lo + i];
  }

  /** Stripping '-' from a text of slug characters without "--" leaves a slug. */
  lemma StripDashesSlug(c: string)
    requires forall i :: 0 <= i < |c| ==> IsSlugChar(c[i])
    requires NoDoubleDash(c)
    ensures IsSlug(StripDashes(c))
  {
    var t := TrimStart(c, IsDash);
    SliceKeeps(c, |c| - |t|, |c|);
    var r := TrimEnd(t, IsDash);
    SliceKeeps(t, 0, |r|);
  }

  /** Dropping leading '-' drops no word character. */
  lemma DashStartKeepsWords(c: string)
    ensures Keep(TrimStart(c, IsDash), NotSeparator) == Keep(c, NotSeparator)
  {
    var t := TrimStart(c, IsDash);
    var m := |c| - |t|;
    assert c == c[..m] + t;
    KeepConcat(c[..m], t, NotSeparator);
    KeepNone(c[..m], NotSeparator);
  }

  /** Dropping trailing '-' drops no word character. */
  lemma DashEndKeepsWords(t: string)
    ensures Keep(TrimEnd(t, IsDash), NotSeparator) == Keep(t, NotSeparator)
  {
    var r := TrimEnd(t, IsDash);
    assert t == r + t[|r|..];
    KeepConcat(r, t[|r|..], NotSeparator);
    KeepNone(t[|r|..], NotSeparator);
  }

  /**
   * `_slugify` keeps the word characters of the filtered text, in order:
   * only separators are collapsed or stripped.
   */
  lemma SlugifyKeepsWords(text: string)
    ensures Keep(Slugify(text), NotSeparator) == Keep(Filtered(text), NotSeparator)
  {
    var c := Collapse(Filtered(text));
    CollapseKeepsWords(Filtered(text));
    DashStartKeepsWords(c);
    DashEndKeepsWords(TrimStart(c, IsDash));
  }

  /** Whatever the text, `_slugify` returns a slug. */
  lemma SlugifyIsSlug(text: string)
    ensures IsSlug(Slugify(text))
  {
    LoweredChars(text);
    var c := Collapse(Filtered(text));
    assert forall i :: 0 <= i < |c| ==> IsSlugChar(c[i]);
    StripDashesSlug(c);
  }

  lemma LowerNoop(s: string)
    requires forall i :: 0 <= i < |s| ==> IsSlugChar(s[i])
    ensures Lower(s) == s
  {
    assert forall i :: 0 <= i < |s| ==> LowerChar(s[i]) == s[i];
  }

  /** `_slugify` leaves a slug as it is, so it is idempotent. */
  lemma SlugNoop(s: string)
    requires IsSlug(s)
    ensures Slugify(s) == s
  {
    FilterNoop(s);
    CollapseNoop(s);
    TrimStartNoop(s, IsDash);
    TrimEndNoop(s, IsDash);
    assert StripDashes(s) == s;
  }

  /** Transliteration, the character filter and lower-casing leave slug characters alone. */
  lemma FilterNoop(s: string)
    requires forall i :: 0 <= i < |s| ==> IsSlugChar(s[i])
    ensures Filtered(s) == s
  {
    AsciiNoop(s);
    KeepAll(s, Kept);
    LowerNoop(s);
  }

  lemma SlugifyIdempotent(text: string)
    ensures Slugify(Slugify(text)) == Slugify(text)
  {
    SlugifyIsSlug(text);
    SlugNoop(Slugify(text));
  }

  /** The title keyword, as `generate_seo_data` picks it from the lower-cased title. */
  function Highlight(title: string): (r: string)
    ensures r in {"Vista Mar", "Alto Padrão", "Exclusivo"}
  {
    var t := Lower(title);
    if Contains(t, "mar") then "Vista Mar"
    else if Contains(t, "luxo") then "Alto Padrão"
    else "Exclusivo"
  }

  /** "mar" wins over "luxo"; "luxo" is used only without "mar"; "Exclusivo" only without either. */
  lemma HighlightPriority(title: string)
    ensures Highlight(title) == "Vista Mar" <==> Contains(Lower(title), "mar")
    ensures Highlight(title) == "Alto Padrão" <==> !Contains(Lower(title), "mar") && Contains(Lower(title), "luxo")
    ensures Highlight(title) == "Exclusivo" <==> !Contains(Lower(title), "mar") && !Contains(Lower(title), "luxo")
  {
  }

  /** A bedrooms value as Python formats it: an integer, or `None` stored under the key. */
  datatype Count = Rooms(n: int) | NoCount

  function CountText(c: Count): string
  {
    match c
    case Rooms(n) => IntToString(n)
    case NoCount => "None"
  }

  /**
   * The keys `generate_seo_data` reads. A `None` field is a missing key;
   * `neighborhood` is missing when the location or its key is.
   */
  datatype PropertyData = PropertyData(
    kind: Option<string>,
    neighborhood: Option<string>,
    bedrooms: Option<Count>,
    title: Option<string>)

  const BRAND := " | Bahia Satellite"

  /** The title tag: "{type} em {neighborhood} - {keyword} | Bahia Satellite". */
  function SeoTitle(data: PropertyData): (r: string)
  {
    data.kind.GetOr("Imovel") + " em " + data.neighborhood.GetOr("Salvador") + " - "
      + Highlight(data.title.GetOr("")) + BRAND
  }

  /** The slug: "{type}-{bedrooms}-quartos-{neighborhood}-{keyword slug}", slugified. */
  function SeoSlug(data: PropertyData): (r: string)
    ensures IsSlug(r)
  {
    var base := data.kind.GetOr("Imovel") + "-" + CountText(data.bedrooms.GetOr(Rooms(0))) + "-quartos-"
      + data.neighborhood.GetOr("Salvador") + "-" + Slugify(Highlight(data.title.GetOr("")));
    SlugifyIsSlug(base);
    Slugify(base)
  }

  /** The title tag of a listing without type, location or title. */
  lemma SeoTitleDefaults(data: PropertyData)
    requires data.kind.None? && data.neighborhood.None? && data.title.None?
    ensures SeoTitle(data) == "Imovel" + " em " + "Salvador" + " - " + "Exclusivo" + BRAND
  {
    assert !Contains(Lower(""), "mar") && !Contains(Lower(""), "luxo");
  }

  /** The title tag starts with the type and " em ", and ends with the keyword and the brand. */
  lemma SeoTitleShape(data: PropertyData)
    ensures var t := SeoTitle(data);
      && |t| >= |BRAND|
      && t[|t| - |BRAND|..] == BRAND
      && t[..|data.kind.GetOr("Imovel")| + 4] == data.kind.GetOr("Imovel") + " em "
  {
  }

  /** What the language model did: no model configured, a reply, or an exception. */
  datatype ModelOutcome = NoModel | Reply(text: string) | Failed

  /** Python's `str(x)` of an optional value: the text, or "None". */
  function Show(s: Option<string>): string
  {
    match s
    case Some(t) => t
    case None => "None"
  }

  const MAX_DESCRIPTION := 160
  const CUT_DESCRIPTION := 157

  /** A reply longer than 160 characters is cut to 157 and "..." is appended. */
  function Truncate(text: string): (r: string)
    ensures |r| <= MAX_DESCRIPTION
    ensures |text| <= MAX_DESCRIPTION ==> r == text
    ensures |text| > MAX_DESCRIPTION ==>
      |r| == MAX_DESCRIPTION && r[..CUT_DESCRIPTION] == text[..CUT_DESCRIPTION] && r[CUT_DESCRIPTION..] == "..."
  {
    if |text| > MAX_DESCRIPTION then text[..CUT_DESCRIPTION] + "..." else text
  }

  /** `_generate_meta_description`. */
  function MetaDescription(data: PropertyData, outcome: ModelOutcome): (r: string)
    ensures outcome.Reply? ==> |r| <= MAX_DESCRIPTION
  {
    match outcome
    case NoModel => "Confira este " + Show(data.kind) + " em " + Show(data.neighborhood) + ". Oportunidade única."
    case Reply(text) => Truncate(Strip(text))
    case Failed => "Imóvel incrível em " + Show(data.neighborhood) + ". Saiba mais."
  }

  /**
   * A model reply is stripped; a stripped reply of at most 160 characters is
   * the description as it is, a longer one keeps its first 157 characters
   * followed by "...".
   */
  lemma ReplyDescription(data: PropertyData, text: string)
    ensures var r := MetaDescription(data, Reply(text));
      var t := Strip(text);
      && (|t| <= MAX_DESCRIPTION ==> r == t)
      && (|t| > MAX_DESCRIPTION ==> |r| == MAX_DESCRIPTION && r[..CUT_DESCRIPTION] == t[..CUT_DESCRIPTION] && r[CUT_DESCRIPTION..] == "...")
  {
  }

  /** `generate_seo_data`: the three keys and nothing else. */
  function GenerateSeoData(data: PropertyData, outcome: ModelOutcome): (r: map<string, string>)
    ensures r.Keys == {"seo_title", "seo_slug", "meta_description"}
  {
    map["seo_title" := SeoTitle(data), "seo_slug" := SeoSlug(data), "meta_description" := MetaDescription(data, outcome)]
  }

  /** The slug under "seo_slug" is a slug and a fixed point of `_slugify`; a model reply is at most 160 characters. */
  lemma SeoDataValues(data: PropertyData, outcome: ModelOutcome)
    ensures var r := GenerateSeoData(data, outcome);
      IsSlug(r["seo_slug"]) && Slugify(r["seo_slug"]) == r["seo_slug"]
      && (outcome.Reply? ==> |r["meta_description"]| <= MAX_DESCRIPTION)
  {
    SlugNoop(SeoSlug(data));
  }
}
