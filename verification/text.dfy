/**
 * Strings as sequences of Unicode scalar values, with the semantics of the
 * Python built-ins the services use: str.isspace, str.lower, str.strip,
 * str.startswith, the `in` operator on strings, str.split, str.join and
 * str.replace.
 */
module Text {
  import opened Wrappers

  /** str.isspace(): the characters str.strip() removes and the regular expression class \s matches. */
  predicate IsSpace(c: char)
  {
    c == ' ' || ('\t' <= c <= '\r') || ('\U{1C}' <= c <= '\U{1F}') || c == '\U{85}' || c == '\U{A0}'
    || c == '\U{1680}' || ('\U{2000}' <= c <= '\U{200A}') || c == '\U{2028}' || c == '\U{2029}'
    || c == '\U{202F}' || c == '\U{205F}' || c == '\U{3000}'
  }

  /** str.lower() on one character, for the ASCII and Latin-1 capitals. */
  function LowerChar(c: char): (r: char)
    ensures 'A' <= c <= 'Z' ==> 'a' <= r <= 'z'
    ensures !('A' <= c <= 'Z') && c < '\U{80}' ==> r == c
  {
    if 'A' <= c <= 'Z' || ('\U{C0}' <= c <= '\U{DE}' && c != '\U{D7}') then (c as int + 32) as char else c
  }

  function Lower(s: string): (r: string)
    ensures |r| == |s|
    ensures forall i :: 0 <= i < |s| ==> r[i] == LowerChar(s[i])
  {
    if s == [] then [] else [LowerChar(s[0])] + Lower(s[1..])
  }

  lemma {:induction false} LowerConcat(a: string, b: string)
    ensures Lower(a + b) == Lower(a) + Lower(b)
  {
    var l, r := Lower(a + b), Lower(a) + Lower(b);
    assert |l| == |r|;
    forall i | 0 <= i < |l| ensures l[i] == r[i] {
      if i < |a| { assert (a + b)[i] == a[i]; } else { assert (a + b)[i] == b[i - |a|]; }
    }
  }

  /** The characters of `s` that satisfy `p`, in order: Python's `''.join(c for c in s if p(c))`. */
  function Keep(s: string, p: char -> bool): (r: string)
    ensures |r| <= |s|
    ensures forall i :: 0 <= i < |r| ==> p(r[i]) && r[i] in s
  {
    if s == [] then [] else (if p(s[0]) then [s[0]] else []) + Keep(s[1..], p)
  }

  lemma {:induction false} KeepConcat(a: string, b: string, p: char -> bool)
    ensures Keep(a + b, p) == Keep(a, p) + Keep(b, p)
  {
    if a == [] {
      assert a + b == b;
    } else {
      assert (a + b)[0] == a[0];
      assert (a + b)[1..] == a[1..] + b;
      KeepConcat(a[1..], b, p);
      var h := if p(a[0]) then [a[0]] else [];
      calc {
        Keep(a + b, p);
        h + Keep(a[1..] + b, p);
        h + (Keep(a[1..], p) + Keep(b, p));
        (h + Keep(a[1..], p)) + Keep(b, p);
        Keep(a, p) + Keep(b, p);
      }
    }
  }

  /** Every character of `s` that satisfies `p` survives the filter. */
  lemma {:induction false} KeepKeeps(s: string, p: char -> bool, c: char)
    requires c in s && p(c)
    ensures c in Keep(s, p)
  {
    if s[0] != c { KeepKeeps(s[1..], p, c); }
  }

  /** A filter that every character already passes changes nothing. */
  lemma {:induction false} KeepAll(s: string, p: char -> bool)
    requires forall i :: 0 <= i < |s| ==> p(s[i])
    ensures Keep(s, p) == s
  {
    if s != [] { KeepAll(s[1..], p); }
  }

  /** `s.replace(c, '')` for a one-character pattern. */
  function RemoveChar(s: string, c: char): (r: string)
    ensures c !in r
    ensures |r| <= |s| && forall i :: 0 <= i < |r| ==> r[i] in s
  {
    if s == [] then [] else (if s[0] == c then [] else [s[0]]) + RemoveChar(s[1..], c)
  }

  lemma {:induction false} RemoveCharConcat(a: string, b: string, c: char)
    ensures RemoveChar(a + b, c) == RemoveChar(a, c) + RemoveChar(b, c)
  {
    if a == [] {
      assert a + b == b;
    } else {
      assert (a + b)[0] == a[0];
      assert (a + b)[1..] == a[1..] + b;
      RemoveCharConcat(a[1..], b, c);
    }
  }

  /** A character that is not removed reappears at the position given by the removal of what precedes it. */
  lemma RemoveCharAt(s: string, c: char, i: int)
    requires 0 <= i < |s| && s[i] != c
    ensures |RemoveChar(s[..i], c)| < |RemoveChar(s, c)|
    ensures RemoveChar(s, c)[|RemoveChar(s[..i], c)|] == s[i]
  {
    assert s == s[..i] + ([s[i]] + s[i + 1..]);
    RemoveCharConcat(s[..i], [s[i]] + s[i + 1..], c);
    RemoveCharConcat([s[i]], s[i + 1..], c);
  }

  lemma RemoveCharBefore(s: string, c: char, i: int, j: int)
    requires 0 <= i < j <= |s| && s[i] != c
    ensures |RemoveChar(s[..i], c)| < |RemoveChar(s[..j], c)|
  {
    assert s[..j] == s[..i] + ([s[i]] + s[i + 1..j]);
    RemoveCharConcat(s[..i], [s[i]] + s[i + 1..j], c);
    RemoveCharConcat([s[i]], s[i + 1..j], c);
  }

  /** Removing a character that does not occur changes nothing. */
  lemma {:induction false} RemoveCharNoop(s: string, c: char)
    requires c !in s
    ensures RemoveChar(s, c) == s
  {
    if s != [] { RemoveCharNoop(s[1..], c); }
  }

  /** `s.replace(c, d)` for one-character pattern and replacement. */
  function SubstChar(s: string, c: char, d: char): (r: string)
    ensures |r| == |s|
    ensures forall i :: 0 <= i < |s| ==> r[i] == (if s[i] == c then d else s[i])
  {
    if s == [] then [] else [if s[0] == c then d else s[0]] + SubstChar(s[1..], c, d)
  }

  lemma SubstCharConcat(a: string, b: string, c: char, d: char)
    ensures SubstChar(a + b, c, d) == SubstChar(a, c, d) + SubstChar(b, c, d)
  {
  }

  /** Substituting a character that does not occur changes nothing. */
  lemma SubstCharNoop(s: string, c: char, d: char)
    requires c !in s
    ensures SubstChar(s, c, d) == s
  {
  }

  /** `s.startswith(p)`. */
  predicate StartsWith(s: string, p: string)
  {
    |p| <= |s| && s[..|p|] == p
  }

  /** `sub` occurs in `s` starting at index `i`. */
  predicate OccursAt(s: string, sub: string, i: int)
  {
    0 <= i && i + |sub| <= |s| && s[i..i + |sub|] == sub
  }

  /** Python's `sub in s`. */
  predicate Contains(s: string, sub: string)
    decreases |s|
  {
    |sub| <= |s| && (s[..|sub|] == sub || Contains(s[1..], sub))
  }

  lemma {:induction false} ContainsIff(s: string, sub: string)
    ensures Contains(s, sub) <==> exists i :: OccursAt(s, sub, i)
    decreases |s|
  {
    if |sub| <= |s| {
      if s[..|sub|] == sub {
        assert OccursAt(s, sub, 0);
        return;
      }
      ContainsIff(s[1..], sub);
      if Contains(s[1..], sub) {
        var i :| OccursAt(s[1..], sub, i);
        assert s[1..][i..i + |sub|] == s[i + 1..i + 1 + |sub|];
        assert OccursAt(s, sub, i + 1);
      } else {
        forall i | 0 <= i ensures !OccursAt(s, sub, i) {
          if i == 0 {
            assert s[0..|sub|] == s[..|sub|];
          } else if i + |sub| <= |s| {
            assert s[1..][i - 1..i - 1 + |sub|] == s[i..i + |sub|];
            assert !OccursAt(s[1..], sub, i - 1);
          }
        }
      }
    }
  }

  lemma OccursContains(s: string, sub: string, i: int)
    requires OccursAt(s, sub, i)
    ensures Contains(s, sub)
  {
    ContainsIff(s, sub);
  }

  /** A pattern whose first character does not occur in `s` does not occur in `s`. */
  lemma {:induction false} FirstCharAbsent(s: string, sub: string)
    requires |sub| > 0 && sub[0] !in s
    ensures !Contains(s, sub)
    decreases |s|
  {
    if |sub| <= |s| {
      assert s[..|sub|][0] == s[0];
      FirstCharAbsent(s[1..], sub);
    }
  }

  /** A one-character pattern occurs exactly when the character does. */
  lemma ContainsChar(s: string, c: char)
    ensures Contains(s, [c]) <==> c in s
  {
    ContainsIff(s, [c]);
    if c in s {
      var i :| 0 <= i < |s| && s[i] == c;
      assert OccursAt(s, [c], i);
    }
    if Contains(s, [c]) {
      var i :| OccursAt(s, [c], i);
      assert s[i] == s[i..i + 1][0];
    }
  }

  /** The index of the first occurrence of `sub` in `s` (Python's str.find, with None for -1). */
  function FindIndex(s: string, sub: string): (r: Option<nat>)
    ensures r.Some? ==> r.value + |sub| <= |s|
    decreases |s|
  {
    if |s| < |sub| then None
    else if s[..|sub|] == sub then Some(0)
    else match FindIndex(s[1..], sub)
      case None => None
      case Some(i) => Some(i + 1)
  }

  lemma {:induction false} FindIndexContains(s: string, sub: string)
    ensures FindIndex(s, sub).Some? <==> Contains(s, sub)
    decreases |s|
  {
    if |s| >= |sub| && s[..|sub|] != sub {
      FindIndexContains(s[1..], sub);
    }
  }

  /** FindIndex gives the first occurrence. */
  lemma {:induction false} FindIndexFirst(s: string, sub: string, i: nat)
    requires FindIndex(s, sub) == Some(i)
    ensures OccursAt(s, sub, i)
    ensures forall j :: 0 <= j < i ==> !OccursAt(s, sub, j)
    decreases |s|
  {
    if s[..|sub|] != sub {
      assert FindIndex(s[1..], sub) == Some(i - 1);
      FindIndexFirst(s[1..], sub, i - 1);
      assert s[1..][i - 1..i - 1 + |sub|] == s[i..i + |sub|];
      forall j | 0 <= j < i ensures !OccursAt(s, sub, j) {
        if j == 0 {
          assert s[0..|sub|] == s[..|sub|];
        } else if j + |sub| <= |s| {
          assert s[1..][j - 1..j - 1 + |sub|] == s[j..j + |sub|];
          assert !OccursAt(s[1..], sub, j - 1);
        }
      }
    }
  }

  /** The prefix before the first occurrence holds no occurrence. */
  lemma PrefixBeforeFirst(s: string, sub: string, i: nat)
    requires |sub| > 0 && FindIndex(s, sub) == Some(i)
    ensures !Contains(s[..i], sub)
  {
    FindIndexFirst(s, sub, i);
    ContainsIff(s[..i], sub);
    forall j | 0 <= j ensures !OccursAt(s[..i], sub, j) {
      if j + |sub| <= i {
        assert s[..i][j..j + |sub|] == s[j..j + |sub|];
        assert !OccursAt(s, sub, j);
      }
    }
  }

  /** A text without the separator does not split. */
  lemma NoSeparatorNoSplit(s: string, sep: string)
    requires |sep| > 0 && !Contains(s, sep)
    ensures SplitOn(s, sep) == [s]
  {
    FindIndexContains(s, sep);
  }

  /** Python's `s.split(sep)` for a non-empty separator. */
  function SplitOn(s: string, sep: string): (parts: seq<string>)
    requires |sep| > 0
    ensures |parts| >= 1
    decreases |s|
  {
    match FindIndex(s, sep)
    case None => [s]
    case Some(i) => [s[..i]] + SplitOn(s[i + |sep|..], sep)
  }

  /** Python's `sep.join(parts)`. */
  function Join(parts: seq<string>, sep: string): string
  {
    if |parts| == 0 then ""
    else if |parts| == 1 then parts[0]
    else parts[0] + sep + Join(parts[1..], sep)
  }

  /** No piece of a split holds the separator. */
  lemma {:induction false} SplitPartsFree(s: string, sep: string)
    requires |sep| > 0
    ensures forall k :: 0 <= k < |SplitOn(s, sep)| ==> !Contains(SplitOn(s, sep)[k], sep)
    decreases |s|
  {
    match FindIndex(s, sep)
    case None =>
      FindIndexContains(s, sep);
    case Some(i) =>
      PrefixBeforeFirst(s, sep, i);
      SplitPartsFree(s[i + |sep|..], sep);
  }

  /** Joining the pieces of a split with the same separator gives back the text. */
  lemma {:induction false} JoinSplit(s: string, sep: string)
    requires |sep| > 0
    ensures Join(SplitOn(s, sep), sep) == s
    decreases |s|
  {
    match FindIndex(s, sep)
    case None =>
    case Some(i) =>
      FindIndexFirst(s, sep, i);
      var rest := s[i + |sep|..];
      var tail := SplitOn(rest, sep);
      var parts := [s[..i]] + tail;
      assert SplitOn(s, sep) == parts;
      assert parts[1..] == tail;
      JoinSplit(rest, sep);
      calc {
        Join(parts, sep);
        parts[0] + sep + Join(tail, sep);
        s[..i] + sep + rest;
        { assert s[i..i + |sep|] == sep; }
        s;
      }
  }

  /** A split has more than one piece exactly when the separator occurs. */
  lemma SplitCount(s: string, sep: string)
    requires |sep| > 0
    ensures |SplitOn(s, sep)| > 1 <==> Contains(s, sep)
  {
    FindIndexContains(s, sep);
  }

  /** Python's `s.replace(pat, rep)`: every non-overlapping occurrence, left to right. */
  function Replace(s: string, pat: string, rep: string): string
    requires |pat| > 0
  {
    Join(SplitOn(s, pat), rep)
  }

  /** Joining with a separator the filter drops is joining with nothing, as far as the filter can see. */
  lemma {:induction false} KeepJoin(parts: seq<string>, sep: string, p: char -> bool)
    requires forall i :: 0 <= i < |sep| ==> !p(sep[i])
    ensures Keep(Join(parts, sep), p) == Keep(Join(parts, ""), p)
  {
    if |parts| > 1 {
      KeepJoin(parts[1..], sep, p);
      KeepConcat(parts[0] + sep, Join(parts[1..], sep), p);
      KeepConcat(parts[0], sep, p);
      KeepNone(sep, p);
      KeepConcat(parts[0] + "", Join(parts[1..], ""), p);
      assert parts[0] + "" == parts[0];
    }
  }

  /** A filter no character passes yields the empty string. */
  lemma {:induction false} KeepNone(s: string, p: char -> bool)
    requires forall i :: 0 <= i < |s| ==> !p(s[i])
    ensures Keep(s, p) == ""
  {
    if s != [] { KeepNone(s[1..], p); }
  }

  /** Replacing a pattern the filter drops entirely does not change what the filter keeps. */
  lemma KeepReplace(s: string, pat: string, p: char -> bool)
    requires |pat| > 0
    requires forall i :: 0 <= i < |pat| ==> !p(pat[i])
    ensures Keep(Replace(s, pat, ""), p) == Keep(s, p)
  {
    JoinSplit(s, pat);
    KeepJoin(SplitOn(s, pat), pat, p);
  }

  /** `s` without the leading characters that satisfy `p`. */
  function TrimStart(s: string, p: char -> bool): (r: string)
    ensures |r| <= |s| && r == s[|s| - |r|..]
    ensures r != [] ==> !p(r[0])
    ensures forall i :: 0 <= i < |s| - |r| ==> p(s[i])
  {
    if s != [] && p(s[0]) then TrimStart(s[1..], p) else s
  }

  /** `s` without the trailing characters that satisfy `p`. */
  function TrimEnd(s: string, p: char -> bool): (r: string)
    ensures |r| <= |s| && r == s[..|r|]
    ensures r != [] ==> !p(r[|r| - 1])
    ensures forall i :: |r| <= i < |s| ==> p(s[i])
  {
    if s != [] && p(s[|s| - 1]) then TrimEnd(s[..|s| - 1], p) else s
  }

  /** Python's `s.strip()`. */
  function Strip(s: string): (r: string)
    ensures |r| <= |s|
    ensures r != [] ==> !IsSpace(r[0]) && !IsSpace(r[|r| - 1])
  {
    TrimEnd(TrimStart(s, IsSpace), IsSpace)
  }

  lemma {:induction false} TrimStartNoop(s: string, p: char -> bool)
    requires s != [] ==> !p(s[0])
    ensures TrimStart(s, p) == s
  {
  }

  lemma {:induction false} TrimEndNoop(s: string, p: char -> bool)
    requires s != [] ==> !p(s[|s| - 1])
    ensures TrimEnd(s, p) == s
  {
  }

  /** A text without surrounding whitespace is its own strip; in particular strip is idempotent. */
  lemma StripNoop(s: string)
    requires s != [] ==> !IsSpace(s[0]) && !IsSpace(s[|s| - 1])
    ensures Strip(s) == s
  {
    TrimStartNoop(s, IsSpace);
    TrimEndNoop(s, IsSpace);
  }

  lemma StripIdempotent(s: string)
    ensures Strip(Strip(s)) == Strip(s)
  {
    StripNoop(Strip(s));
  }

  /** Strip never introduces a character that was not in the text. */
  lemma StripSubset(s: string, c: char)
    requires c in Strip(s)
    ensures c in s
  {
    var t := TrimStart(s, IsSpace);
    assert Strip(s) == t[..|Strip(s)|];
    assert t == s[|s| - |t|..];
  }

  /** The first element of `xs` that satisfies `p`, or `default`: a `for` loop with `break`. */
  function FirstWhere(xs: seq<string>, p: string -> bool, default: string): string
  {
    if xs == [] then default else if p(xs[0]) then xs[0] else FirstWhere(xs[1..], p, default)
  }

  lemma {:induction false} FirstWhereNone(xs: seq<string>, p: string -> bool, default: string)
    requires forall i :: 0 <= i < |xs| ==> !p(xs[i])
    ensures FirstWhere(xs, p, default) == default
  {
    if xs != [] { FirstWhereNone(xs[1..], p, default); }
  }

  lemma {:induction false} FirstWhereFirst(xs: seq<string>, p: string -> bool, default: string, i: int)
    requires 0 <= i < |xs| && p(xs[i])
    requires forall j :: 0 <= j < i ==> !p(xs[j])
    ensures FirstWhere(xs, p, default) == xs[i]
  {
    if i > 0 { FirstWhereFirst(xs[1..], p, default, i - 1); }
  }

  /** The result is the default or an element that satisfies `p`. */
  lemma {:induction false} FirstWhereSatisfies(xs: seq<string>, p: string -> bool, default: string)
    ensures FirstWhere(xs, p, default) == default || (FirstWhere(xs, p, default) in xs && p(FirstWhere(xs, p, default)))
  {
    if xs != [] && !p(xs[0]) { FirstWhereSatisfies(xs[1..], p, default); }
  }

  /** The non-empty strings of `xs`, in order: `[x for x in xs if x]`. */
  function NonEmpty(xs: seq<string>): (r: seq<string>)
    ensures |r| <= |xs|
    ensures forall i :: 0 <= i < |r| ==> r[i] != "" && r[i] in xs
  {
    if xs == [] then [] else (if xs[0] != "" then [xs[0]] else []) + NonEmpty(xs[1..])
  }

  /** Every non-empty text of the input is kept. */
  lemma {:induction false} NonEmptyKeeps(xs: seq<string>, i: int)
    requires 0 <= i < |xs| && xs[i] != ""
    ensures xs[i] in NonEmpty(xs)
  {
    if i > 0 {
      assert xs[1..][i - 1] == xs[i];
      NonEmptyKeeps(xs[1..], i - 1);
    }
  }

  /** The kept texts of two runs of `li` elements are those of the first, then those of the second. */
  lemma {:induction false} NonEmptyConcat(a: seq<string>, b: seq<string>)
    ensures NonEmpty(a + b) == NonEmpty(a) + NonEmpty(b)
  {
    if a == [] {
      assert a + b == b;
    } else {
      assert (a + b)[0] == a[0];
      assert (a + b)[1..] == a[1..] + b;
      NonEmptyConcat(a[1..], b);
    }
  }
}
