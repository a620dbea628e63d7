/**
 * The OSINT radar: one search query ("dork") per profession keyword, and
 * the parsing of one search hit into a lead. The search engine, the pause
 * between queries and the clock are not part of the model; the time a lead
 * is found is a parameter.
 */
module StealthRadar {
  import opened Wrappers
  import opened Text

  const KEYWORDS_ELITE := ["Médico", "Advogado", "CEO", "Sócio", "Diretor", "Empresário", "Cirurgião"]
  const TARGET_SITE := "site:instagram.com"
  const LOCATION := "Salvador"

  /** What every query starts with: the site filter and the quoted city, then an opening quote. */
  const DORK_PREFIX := TARGET_SITE + " \"" + LOCATION + "\" \""

  /** The query for one keyword: `site:instagram.com "Salvador" "<keyword>"`. */
  function Dork(keyword: string): string
  {
    DORK_PREFIX + keyword + "\""
  }

  /** The keyword can be read back from its query, so different keywords give different queries. */
  lemma DorkKeyword(keyword: string)
    ensures var d := Dork(keyword);
      && StartsWith(d, DORK_PREFIX)
      && |d| == |DORK_PREFIX| + |keyword| + 1
      && d[|d| - 1] == '"'
      && d[|DORK_PREFIX|..|d| - 1] == keyword
  {
    var d := Dork(keyword);
    assert d[..|DORK_PREFIX|] == DORK_PREFIX;
    assert d[|DORK_PREFIX|..|d| - 1] == keyword;
  }

  lemma DorkInjective(a: string, b: string)
    requires Dork(a) == Dork(b)
    ensures a == b
  {
    DorkKeyword(a);
    DorkKeyword(b);
  }

  /** `generate_dorks`: one query per keyword, in the keywords' order. */
  method GenerateDorks() returns (dorks: seq<string>)
    ensures |dorks| == |KEYWORDS_ELITE|
    ensures forall i :: 0 <= i < |dorks| ==> dorks[i] == Dork(KEYWORDS_ELITE[i])
  {
    dorks := [];
    for i := 0 to |KEYWORDS_ELITE|
      invariant |dorks| == i
      invariant forall j :: 0 <= j < i ==> dorks[j] == Dork(KEYWORDS_ELITE[j])
    {
      var keyword := KEYWORDS_ELITE[i];
      var dork := TARGET_SITE + " \"" + LOCATION + "\" \"" + keyword + "\"";
      dorks := dorks + [dork];
    }
  }

  /**
   * A search hit. A field is None when the search library gives no text for
   * it (Python's `None`), on which `_parse_result`'s string operations raise.
   */
  datatype SearchResult = SearchResult(url: Option<string>, title: Option<string>, description: Option<string>)

  /** A lead built from a hit. */
  datatype Lead = Lead(
    source: string,
    username: string,
    profileUrl: string,
    snippetTitle: string,
    snippetDescription: string,
    detectedKeyword: string,
    foundAt: string)

  const MARKER := "instagram.com/"
  const SOURCE := "Instagram OSINT"
  const UNKNOWN := "Unknown"

  /** The keyword occurs in the text, ignoring case. */
  predicate Mentions(text: string, keyword: string)
  {
    Contains(Lower(text), Lower(keyword))
  }

  /** `next(k for k in keywords if k.lower() in text.lower())`, or "Unknown". */
  function DetectKeyword(keywords: seq<string>, text: string): string
  {
    if keywords == [] then UNKNOWN
    else if Mentions(text, keywords[0]) then keywords[0]
    else DetectKeyword(keywords[1..], text)
  }

  /** `_parse_result`, with the radar's keyword list. */
  function ParseResult(result: SearchResult, foundAt: string): Option<Lead>
  {
    ParseHit(result, KEYWORDS_ELITE, foundAt)
  }

  /**
   * `_parse_result` for a keyword list: None for a hit outside Instagram, and
   * None for a hit with a missing field, because the `in` test or the
   * `title + description` concatenation raises and the handler returns None;
   * otherwise the lead, with the username read from the URL.
   */
  function ParseHit(result: SearchResult, keywords: seq<string>, foundAt: string): (lead: Option<Lead>)
    ensures lead.None? <==>
      result.url.None? || !Contains(result.url.value, MARKER) || result.title.None? || result.description.None?
    ensures lead.Some? ==>
      && lead.value.source == "Instagram OSINT"
      && lead.value.username == UserName(result.url.value)
      && lead.value.profileUrl == result.url.value
      && lead.value.snippetTitle == result.title.value
      && lead.value.snippetDescription == result.description.value
      && lead.value.detectedKeyword == DetectKeyword(keywords, result.title.value + result.description.value)
      && lead.value.foundAt == foundAt
  {
    match (result.url, result.title, result.description)
    case (Some(url), Some(title), Some(description)) =>
      if !Contains(url, MARKER) then None
      else Some(Lead(SOURCE, UserName(url), url, title, description, DetectKeyword(keywords, title + description), foundAt))
    case _ => None
  }

  /** The username of an Instagram URL: the second piece of a split on "instagram.com/", cut at '/' and then at '?'. */
  function UserName(url: string): string
  {
    var parts := SplitOn(url, MARKER);
    if |parts| > 1 then SplitOn(SplitOn(parts[1], "/")[0], "?")[0] else "unknown"
  }

  /** The first piece of a split is a prefix of the text. */
  lemma FirstPiecePrefix(s: string, sep: string)
    requires |sep| > 0
    ensures StartsWith(s, SplitOn(s, sep)[0])
  {
  }

  /** The first piece of a split on one character holds no such character. */
  lemma FirstPieceFree(s: string, c: char)
    ensures c !in SplitOn(s, [c])[0]
  {
    SplitPartsFree(s, [c]);
    ContainsChar(SplitOn(s, [c])[0], c);
  }

  /** The text up to (not including) the first character in `stops`. */
  function TakeUntil(s: string, stops: set<char>): (r: string)
    ensures StartsWith(s, r)
    ensures forall i :: 0 <= i < |r| ==> r[i] !in stops
    ensures |r| < |s| ==> s[|r|] in stops
  {
    if s == [] || s[0] in stops then [] else [s[0]] + TakeUntil(s[1..], stops)
  }

  /** A prefix with no stop character, followed by one or by the end, is what TakeUntil returns. */
  lemma {:induction false} TakeUntilAt(s: string, stops: set<char>, i: int)
    requires 0 <= i <= |s|
    requires forall j :: 0 <= j < i ==> s[j] !in stops
    requires i < |s| ==> s[i] in stops
    ensures TakeUntil(s, stops) == s[..i]
  {
    if i > 0 {
      TakeUntilAt(s[1..], stops, i - 1);
      assert [s[0]] + s[1..][..i - 1] == s[..i];
    }
  }

  /** Splitting on one character and taking the first piece is cutting at the first occurrence. */
  lemma FirstPieceCut(s: string, c: char)
    ensures SplitOn(s, [c])[0] == TakeUntil(s, {c})
  {
    FindIndexContains(s, [c]);
    ContainsChar(s, [c][0]);
    match FindIndex(s, [c])
    case None =>
      assert forall j :: 0 <= j < |s| ==> s[j] != c;
      TakeUntilAt(s, {c}, |s|);
    case Some(i) =>
      FindIndexFirst(s, [c], i);
      assert s[i] == s[i..i + 1][0];
      forall j | 0 <= j < i
        ensures s[j] != c
      {
        assert !OccursAt(s, [c], j);
        assert s[j..j + 1] == [s[j]];
      }
      TakeUntilAt(s, {c}, i);
  }

  /** Cutting at one set of characters and then at another is cutting at either. */
  lemma {:induction false} TakeUntilTwice(s: string, p: set<char>, q: set<char>)
    ensures TakeUntil(TakeUntil(s, p), q) == TakeUntil(s, p + q)
  {
    if s != [] && s[0] !in p {
      TakeUntilTwice(s[1..], p, q);
      assert TakeUntil(s, p)[1..] == TakeUntil(s[1..], p);
    }
  }

  /** The characters that end a username. */
  const NAME_END := {'/', '?'}

  lemma PrefixTrans(a: string, b: string, c: string)
    requires StartsWith(a, b) && StartsWith(b, c)
    ensures StartsWith(a, c)
  {
    assert a[..|c|] == a[..|b|][..|c|];
  }

  /** The text after the first "instagram.com/" of an Instagram URL. */
  function AfterMarker(url: string): string
    requires Contains(url, MARKER)
  {
    FindIndexContains(url, MARKER);
    url[FindIndex(url, MARKER).value + |MARKER|..]
  }

  /** The URL's second piece is the first piece of the text after the marker. */
  lemma SecondPiece(url: string)
    requires Contains(url, MARKER)
    ensures |SplitOn(url, MARKER)| > 1
    ensures SplitOn(url, MARKER)[1] == SplitOn(AfterMarker(url), MARKER)[0]
  {
    SplitCount(url, MARKER);
    FindIndexContains(url, MARKER);
  }

  /** Cutting at '/' and then at '?' is cutting at the first of either. */
  lemma CutName(piece: string)
    ensures SplitOn(SplitOn(piece, "/")[0], "?")[0] == TakeUntil(piece, NAME_END)
  {
    var slash := SplitOn(piece, "/")[0];
    FirstPieceCut(piece, '/');
    FirstPieceCut(slash, '?');
    TakeUntilTwice(piece, {'/'}, {'?'});
    assert {'/'} + {'?'} == NAME_END;
  }

  /**
   * The username is a prefix of the text after the first "instagram.com/",
   * with no '/' and no '?'; the "unknown" fallback never happens. When that
   * text holds no second "instagram.com/", the username is all of it up to
   * the first '/' or '?'.
   */
  lemma Username(url: string)
    requires Contains(url, MARKER)
    ensures StartsWith(AfterMarker(url), UserName(url))
    ensures '/' !in UserName(url) && '?' !in UserName(url)
    ensures !Contains(AfterMarker(url), MARKER) ==> UserName(url) == TakeUntil(AfterMarker(url), NAME_END)
  {
    var rest := AfterMarker(url);
    SecondPiece(url);
    var piece := SplitOn(url, MARKER)[1];
    CutName(piece);
    FirstPiecePrefix(rest, MARKER);
    PrefixTrans(rest, piece, TakeUntil(piece, NAME_END));
    if !Contains(rest, MARKER) {
      NoSeparatorNoSplit(rest, MARKER);
    }
  }

  /** The detected keyword is "Unknown" exactly when no keyword occurs in the text, ignoring case. */
  lemma {:induction false} KeywordNone(keywords: seq<string>, text: string)
    requires UNKNOWN !in keywords
    ensures DetectKeyword(keywords, text) == UNKNOWN <==> forall i :: 0 <= i < |keywords| ==> !Mentions(text, keywords[i])
  {
    if keywords != [] {
      assert forall i :: 1 <= i < |keywords| ==> keywords[1..][i - 1] == keywords[i];
      KeywordNone(keywords[1..], text);
    }
  }

  /** Otherwise it is the first keyword, in list order, that occurs in the text ignoring case. */
  lemma {:induction false} KeywordFirst(keywords: seq<string>, text: string, i: int)
    requires 0 <= i < |keywords| && Mentions(text, keywords[i])
    requires forall j :: 0 <= j < i ==> !Mentions(text, keywords[j])
    ensures DetectKeyword(keywords, text) == keywords[i]
  {
    if i > 0 {
      assert forall j :: 0 <= j < i - 1 ==> keywords[1..][j] == keywords[j + 1];
      KeywordFirst(keywords[1..], text, i - 1);
    }
  }

  /** "Unknown" is not one of the keywords, so it always means that none matched. */
  lemma UnknownIsNoKeyword()
    ensures UNKNOWN !in KEYWORDS_ELITE
  {
    assert forall i :: 0 <= i < |KEYWORDS_ELITE| ==> KEYWORDS_ELITE[i][0] != 'U';
  }
}
