/**
 * The two scrapers side by side. They read the same kind of card into the
 * same kind of record, but their number readers and their trackers differ:
 * where the readers agree, and the inputs on which they do not.
 */
module Twins {
  import opened Wrappers
  import opened Text
  import opened Numbers
  import opened Listing
  import opened Details
  import opened PriceWatch
  import opened Ingest
  import LopesScraper
  import MassCollector

  // ---------------------------------------------------------------- character maps

  /** Every character of `s` replaced by the string `f` gives it, in order. */
  function FlatMap(s: string, f: char -> string): (r: string)
  {
    if s == [] then [] else f(s[0]) + FlatMap(s[1..], f)
  }

  lemma {:induction false} FlatMapConcat(a: string, b: string, f: char -> string)
    ensures FlatMap(a + b, f) == FlatMap(a, f) + FlatMap(b, f)
  {
    if a != [] {
      assert (a + b)[0] == a[0];
      assert (a + b)[1..] == a[1..] + b;
      FlatMapConcat(a[1..], b, f);
    } else {
      assert a + b == b;
    }
  }

  /** Dropping beforehand characters that map to nothing changes nothing. */
  lemma {:induction false} FlatMapKeep(s: string, p: char -> bool, f: char -> string)
    requires forall i :: 0 <= i < |s| ==> p(s[i]) || f(s[i]) == ""
    ensures FlatMap(Keep(s, p), f) == FlatMap(s, f)
  {
    if s != [] {
      FlatMapKeep(s[1..], p, f);
      var h := if p(s[0]) then [s[0]] else [];
      FlatMapConcat(h, Keep(s[1..], p), f);
      if p(s[0]) {
        assert FlatMap(h, f) == f(s[0]) + FlatMap([], f);
      }
    }
  }

  /** Two maps that agree on the characters of `s` map `s` alike. */
  lemma {:induction false} FlatMapAgree(s: string, f: char -> string, g: char -> string)
    requires forall i :: 0 <= i < |s| ==> f(s[i]) == g(s[i])
    ensures FlatMap(s, f) == FlatMap(s, g)
  {
    if s != [] { FlatMapAgree(s[1..], f, g); }
  }

  /** A character that maps to itself survives the map. */
  lemma {:induction false} FlatMapKeeps(s: string, f: char -> string, k: int)
    requires 0 <= k < |s| && f(s[k]) == [s[k]]
    ensures s[k] in FlatMap(s, f)
  {
    if k > 0 {
      FlatMapKeeps(s[1..], f, k - 1);
    } else {
      assert FlatMap(s, f)[0] == s[0];
    }
  }

  /** Leading characters the filter rejects do not show. */
  lemma KeepAfterRejected(a: string, b: string, p: char -> bool)
    requires forall i :: 0 <= i < |a| ==> !p(a[i])
    ensures Keep(a + b, p) == Keep(b, p)
  {
    KeepConcat(a, b, p);
    KeepNone(a, p);
  }

  /** Filtering with a predicate that rejects whitespace sees through lstrip(). */
  lemma KeepTrimStart(s: string, p: char -> bool)
    requires forall c :: IsSpace(c) ==> !p(c)
    ensures Keep(TrimStart(s, IsSpace), p) == Keep(s, p)
  {
    var t := TrimStart(s, IsSpace);
    var pre := s[..|s| - |t|];
    assert s == pre + t;
    forall i | 0 <= i < |pre|
      ensures !p(pre[i])
    {
      assert pre[i] == s[i];
      assert IsSpace(s[i]);
    }
    KeepAfterRejected(pre, t, p);
  }

  /** Filtering with a predicate that rejects whitespace sees through rstrip(). */
  lemma KeepTrimEnd(t: string, p: char -> bool)
    requires forall c :: IsSpace(c) ==> !p(c)
    ensures Keep(TrimEnd(t, IsSpace), p) == Keep(t, p)
  {
    var r := TrimEnd(t, IsSpace);
    assert t == r + t[|r|..];
    assert forall i :: 0 <= i < |t| - |r| ==> IsSpace(t[|r|..][i]);
    KeepConcat(r, t[|r|..], p);
    KeepNone(t[|r|..], p);
  }

  /** Filtering with a predicate that rejects whitespace sees through strip(). */
  lemma KeepStrip(s: string, p: char -> bool)
    requires forall c :: IsSpace(c) ==> !p(c)
    ensures Keep(Strip(s), p) == Keep(s, p)
  {
    KeepTrimStart(s, p);
    KeepTrimEnd(TrimStart(s, IsSpace), p);
  }

  // ---------------------------------------------------------------- prices

  /** A superscript or subscript digit: str.isdigit() accepts it, float() and the regex \d do not. */
  predicate IsExoticDigit(c: char)
  {
    IsPyDigit(c) && !IsAsciiDigit(c)
  }

  /** What the Lopes price cleaning makes of one character. */
  function LopesPriceChar(c: char): string
  {
    if IsAsciiDigit(c) then [c] else if c == ',' then "." else ""
  }

  /** What the collector's price cleaning makes of one character. */
  function CollectorPriceChar(c: char): string
  {
    if IsPyDigit(c) then [c] else if c == ',' then "." else ""
  }

  lemma LopesCleanChar(c: char)
    ensures SubstChar(RemoveChar(Keep([c], LopesScraper.IsPriceChar), '.'), ',', '.') == LopesPriceChar(c)
  {
    assert [c][1..] == [];
  }

  /** The Lopes cleaning works character by character. */
  lemma {:induction false} LopesCleanIsMap(s: string)
    ensures SubstChar(RemoveChar(Keep(s, LopesScraper.IsPriceChar), '.'), ',', '.') == FlatMap(s, LopesPriceChar)
  {
    if s != [] {
      LopesCleanIsMap(s[1..]);
      assert s == [s[0]] + s[1..];
      KeepConcat([s[0]], s[1..], LopesScraper.IsPriceChar);
      var k, rest := Keep([s[0]], LopesScraper.IsPriceChar), Keep(s[1..], LopesScraper.IsPriceChar);
      RemoveCharConcat(k, rest, '.');
      SubstCharConcat(RemoveChar(k, '.'), RemoveChar(rest, '.'), ',', '.');
      LopesCleanChar(s[0]);
    }
  }

  lemma CollectorCleanChar(c: char)
    ensures Keep(SubstChar(RemoveChar([c], '.'), ',', '.'), MassCollector.IsDigitOrPeriod) == CollectorPriceChar(c)
  {
    assert [c][1..] == [];
  }

  /** The collector's cleaning, strip aside, works character by character. */
  lemma {:induction false} CollectorCleanIsMap(s: string)
    ensures Keep(SubstChar(RemoveChar(s, '.'), ',', '.'), MassCollector.IsDigitOrPeriod) == FlatMap(s, CollectorPriceChar)
  {
    if s != [] {
      CollectorCleanIsMap(s[1..]);
      assert s == [s[0]] + s[1..];
      RemoveCharConcat([s[0]], s[1..], '.');
      var m, rest := RemoveChar([s[0]], '.'), RemoveChar(s[1..], '.');
      SubstCharConcat(m, rest, ',', '.');
      KeepConcat(SubstChar(m, ',', '.'), SubstChar(rest, ',', '.'), MassCollector.IsDigitOrPeriod);
      CollectorCleanChar(s[0]);
    }
  }

  predicate Counted(c: char)
  {
    IsPyDigit(c) || c == ','
  }

  /** Removing "R$" first makes no difference to the collector's character map. */
  lemma CollectorMapReplace(text: string)
    ensures FlatMap(Replace(text, "R$", ""), CollectorPriceChar) == FlatMap(text, CollectorPriceChar)
  {
    var u := Replace(text, "R$", "");
    FlatMapKeep(u, Counted, CollectorPriceChar);
    KeepReplace(text, "R$", Counted);
    FlatMapKeep(text, Counted, CollectorPriceChar);
  }

  /** The collector's cleaned price text is its per-character map of the raw text. */
  lemma CollectorClean(text: string)
    ensures MassCollector.CleanPrice(text) == FlatMap(text, CollectorPriceChar)
  {
    var u := Replace(text, "R$", "");
    KeepStrip(SubstChar(RemoveChar(u, '.'), ',', '.'), MassCollector.IsDigitOrPeriod);
    CollectorCleanIsMap(u);
    CollectorMapReplace(text);
  }

  /**
   * On text without superscript or subscript digits, the two scrapers read
   * the same price, although they clean it in different orders.
   */
  lemma PricesAgree(text: string)
    requires forall i :: 0 <= i < |text| ==> !IsExoticDigit(text[i])
    ensures LopesScraper.ParsePrice(text) == MassCollector.ParsePrice(text)
  {
    LopesScraper.CleanPriceKeeps(text);
    LopesCleanIsMap(text);
    CollectorClean(text);
    FlatMapAgree(text, LopesPriceChar, CollectorPriceChar);
  }

  /** The collector's cleaning keeps every superscript or subscript digit of the text. */
  lemma CollectorCleanKeeps(text: string, k: int) returns (i: int)
    requires 0 <= k < |text| && IsExoticDigit(text[k])
    ensures 0 <= i < |MassCollector.CleanPrice(text)| && MassCollector.CleanPrice(text)[i] == text[k]
  {
    CollectorClean(text);
    FlatMapKeeps(text, CollectorPriceChar, k);
    var s := MassCollector.CleanPrice(text);
    i :| 0 <= i < |s| && s[i] == text[k];
  }

  /** A superscript digit anywhere in the price text, as in "R$ 500 m²", makes the collector's price 0.0. */
  lemma CollectorPriceSuperscript(text: string, k: int)
    requires 0 <= k < |text| && IsExoticDigit(text[k])
    ensures MassCollector.ParsePrice(text) == 0.0
  {
    var i := CollectorCleanKeeps(text, k);
    ParseFloatRejectsNonAscii(MassCollector.CleanPrice(text), i);
  }

  // ---------------------------------------------------------------- bullets

  /** The leading digit run of digits followed by a non-digit is those digits. */
  lemma DigitPrefixOfRun(run: string, rest: string)
    requires AllAsciiDigits(run)
    requires rest != [] ==> !IsAsciiDigit(rest[0])
    ensures DigitPrefix(run + rest) == run
  {
    var s := run + rest;
    assert forall j :: 0 <= j < |run| ==> s[j] == run[j];
    assert |run| < |s| ==> s[|run|] == rest[0];
  }

  /** The first digit of a bullet is where its run starts. */
  lemma FirstDigitRunOfRun(before: string, run: string, after: string)
    requires run != [] && AllAsciiDigits(run)
    requires forall i :: 0 <= i < |before| ==> !IsAsciiDigit(before[i])
    ensures FirstDigitRun(before + run + after) == Some(DigitPrefix(run + after))
  {
    var b := before + run + after;
    assert b[|before|] == run[0];
    assert forall j :: 0 <= j < |before| ==> b[j] == before[j];
    FirstDigitRunAt(b, |before|);
    assert b[|before|..] == run + after;
  }

  /** Lopes reads the run that starts at the bullet's first digit. */
  lemma LopesCountOfRun(before: string, run: string, after: string)
    requires run != [] && AllAsciiDigits(run)
    requires forall i :: 0 <= i < |before| ==> !IsAsciiDigit(before[i])
    requires after != [] ==> !IsAsciiDigit(after[0])
    ensures LopesScraper.CountOf(before + run + after) == Some(DigitsValue(run))
  {
    FirstDigitRunOfRun(before, run, after);
    DigitPrefixOfRun(run, after);
  }

  /** The collector reads the digits of the whole bullet. */
  lemma CollectorDigits(before: string, run: string, after: string)
    requires AllAsciiDigits(run)
    requires forall i :: 0 <= i < |before| ==> !IsPyDigit(before[i])
    requires forall i :: 0 <= i < |after| ==> !IsPyDigit(after[i])
    ensures AllDigits(before + run + after) == run
  {
    KeepConcat(before + run, after, IsPyDigit);
    KeepAfterRejected(before, run, IsPyDigit);
    KeepNone(after, IsPyDigit);
    KeepAll(run, IsPyDigit);
  }

  /**
   * A bullet whose digits form one run, with no superscript around it, gets
   * the same count from both scrapers: the number that run spells.
   */
  lemma CountsAgreeOnOneRun(before: string, run: string, after: string)
    requires run != [] && AllAsciiDigits(run)
    requires forall i :: 0 <= i < |before| ==> !IsPyDigit(before[i])
    requires forall i :: 0 <= i < |after| ==> !IsPyDigit(after[i])
    ensures LopesScraper.CountOf(before + run + after) == Some(DigitsValue(run))
    ensures MassCollector.CountOf(before + run + after) == Some(DigitsValue(run))
  {
    assert after != [] ==> !IsPyDigit(after[0]);
    assert forall i :: 0 <= i < |before| ==> !IsAsciiDigit(before[i]);
    LopesCountOfRun(before, run, after);
    CollectorDigits(before, run, after);
  }

  /** A range bullet read the Lopes way: the first digit. */
  lemma LopesRange(x: char, mid: string, y: char, tail: string)
    requires IsAsciiDigit(x) && mid != [] && !IsAsciiDigit(mid[0])
    ensures LopesScraper.CountOf([x] + mid + [y] + tail) == Some(DigitValue(x))
  {
    assert [x] + mid + [y] + tail == [] + [x] + (mid + [y] + tail);
    LopesCountOfRun([], [x], mid + [y] + tail);
    assert DigitsValue([x]) == DigitValue(x) by { assert [x][..0] == []; }
  }

  /** A range bullet read the collector's way: both digits, concatenated. */
  lemma CollectorRange(x: char, mid: string, y: char, tail: string)
    requires IsAsciiDigit(x) && IsAsciiDigit(y)
    requires forall i :: 0 <= i < |mid| ==> !IsPyDigit(mid[i])
    requires forall i :: 0 <= i < |tail| ==> !IsPyDigit(tail[i])
    ensures AllDigits([x] + mid + [y] + tail) == [x, y]
  {
    CollectorDigits([], [x], mid);
    CollectorDigits([], [y], tail);
    assert [] + [x] + mid == [x] + mid;
    assert [] + [y] + tail == [y] + tail;
    assert [x] + mid + [y] + tail == ([x] + mid) + ([y] + tail);
    KeepConcat([x] + mid, [y] + tail, IsPyDigit);
  }

  /**
   * A range bullet, digit, words, digit, words, as in "2 a 3 quartos": Lopes
   * reads the first digit (2), the collector both digits as one number (23).
   */
  lemma CountsDifferOnRange(x: char, mid: string, y: char, tail: string)
    requires IsAsciiDigit(x) && IsAsciiDigit(y)
    requires mid != [] && forall i :: 0 <= i < |mid| ==> !IsPyDigit(mid[i])
    requires forall i :: 0 <= i < |tail| ==> !IsPyDigit(tail[i])
    ensures LopesScraper.CountOf([x] + mid + [y] + tail) == Some(DigitValue(x))
    ensures MassCollector.CountOf([x] + mid + [y] + tail) == Some(10 * DigitValue(x) + DigitValue(y))
  {
    assert !IsPyDigit(mid[0]);
    LopesRange(x, mid, y, tail);
    CollectorRange(x, mid, y, tail);
    assert DigitsValue([x, y]) == 10 * DigitValue(x) + DigitValue(y) by {
      assert [x, y][..1] == [x];
      assert [x][..0] == [];
      assert DigitsValue([x]) == DigitValue(x);
    }
  }

  /**
   * An area bullet with digits and a superscript digit, as in "80 m²": Lopes
   * stores its first digit run, the collector stores nothing.
   */
  lemma AreasDifferOnSuperscript(bullet: string, i: int, k: int)
    requires 0 <= i < |bullet| && IsAsciiDigit(bullet[i])
    requires forall j :: 0 <= j < i ==> !IsAsciiDigit(bullet[j])
    requires 0 <= k < |bullet| && IsExoticDigit(bullet[k])
    ensures Value(bullet, Area, LopesScraper.READERS) == Some(DigitsValue(DigitPrefix(bullet[i..])) as real)
    ensures Value(bullet, Area, MassCollector.READERS) == None
  {
    LopesScraper.BulletValue(bullet, Area, i);
    MassCollector.AreaRejectsSuperscript(bullet, k);
  }

  // ---------------------------------------------------------------- tracking

  /**
   * A listing without a link: Lopes reports it new and leaves its map alone,
   * the collector files it under the empty link.
   */
  lemma TrackersDifferWithoutLink(db: PriceDb, item: RawItem, collectedAt: string, parsers: Parsers)
    requires Keyed(db, LinkedOnly) && item.link == ""
    ensures var (l, db') := LopesScraper.Process(db, item, collectedAt, parsers);
      db' == db && l.status == New && l.priceHistory == []
    ensures var (l, db') := MassCollector.Process(db, item, collectedAt, parsers);
      db' == db["" := [PricePoint(l.record.price, collectedAt)]] && l.status == New
      && l.priceHistory == db'[""]
  {
    LopesScraper.ProcessWithoutLink(db, item, collectedAt, parsers);
    MassCollector.ProcessWithoutLink(db, item, collectedAt, parsers);
  }

  /** With a link, the two trackers agree on the listing and on the new map. */
  lemma TrackersAgreeWithLink(db: PriceDb, item: RawItem, collectedAt: string, parsers: Parsers)
    requires Keyed(db, LinkedOnly) && item.link != ""
    ensures LopesScraper.Process(db, item, collectedAt, parsers) == MassCollector.Process(db, item, collectedAt, parsers)
  {
  }
}
