/** Python `str` operations that the ApkForge code relies on, over `string`
    (a sequence of code points). Case mapping and digit tests cover ASCII only. */
module Text {
  import opened Wrappers

  // ---------------------------------------------------------------------------
  // Prefixes, occurrences and `str.find`
  // ---------------------------------------------------------------------------

  predicate StartsWith(s: string, p: string) {
    |p| <= |s| && s[..|p|] == p
  }

  predicate EndsWith(s: string, p: string) {
    |p| <= |s| && s[|s| - |p|..] == p
  }

  /** `sub` occurs in `s` starting at index `i`. */
  predicate OccursAt(s: string, sub: string, i: int) {
    0 <= i && i + |sub| <= |s| && s[i..i + |sub|] == sub
  }

  /** Python's `sub in s`. */
  predicate Contains(s: string, sub: string) {
    exists i :: 0 <= i <= |s| - |sub| && OccursAt(s, sub, i)
  }

  /** Python's `s.find(sub, start)`: the first occurrence at or after `start`, or -1. */
  function FindFrom(s: string, sub: string, start: nat): (r: int)
    ensures r == -1 || (start <= r && OccursAt(s, sub, r))
    ensures r >= 0 ==> forall j :: start <= j < r ==> !OccursAt(s, sub, j)
    ensures r == -1 ==> forall j :: start <= j ==> !OccursAt(s, sub, j)
    decreases |s| - start
  {
    if start + |sub| > |s| then -1
    else if s[start..start + |sub|] == sub then start
    else FindFrom(s, sub, start + 1)
  }

  /** An occurrence with none before it, from `start` on, is what `find` reports. */
  lemma FindFromAt(s: string, sub: string, start: nat, e: nat)
    requires start <= e && OccursAt(s, sub, e)
    requires forall q :: start <= q < e ==> !OccursAt(s, sub, q)
    ensures FindFrom(s, sub, start) == e
  {
  }

  /** Python's `s.find(sub)`. */
  function Find(s: string, sub: string): (r: int)
    ensures r == -1 <==> !Contains(s, sub)
    ensures r >= 0 ==> OccursAt(s, sub, r) && forall j :: 0 <= j < r ==> !OccursAt(s, sub, j)
  {
    FindFrom(s, sub, 0)
  }

  lemma OccursInPrefix(s: string, t: string, sub: string, i: int)
    requires i + |sub| <= |s|
    ensures OccursAt(s + t, sub, i) <==> OccursAt(s, sub, i)
  {
    if 0 <= i {
      assert (s + t)[i..i + |sub|] == s[i..i + |sub|];
    }
  }

  /** An occurrence of `x + y` is an occurrence of `x` followed by one of `y`. */
  lemma OccursConcat(s: string, x: string, y: string, i: int)
    ensures OccursAt(s, x + y, i) <==> OccursAt(s, x, i) && OccursAt(s, y, i + |x|)
  {
    if 0 <= i && i + |x| + |y| <= |s| {
      assert s[i..i + |x| + |y|] == s[i..i + |x|] + s[i + |x|..i + |x| + |y|];
      if OccursAt(s, x + y, i) {
        assert s[i..i + |x|] == (x + y)[..|x|] == x;
        assert s[i + |x|..i + |x| + |y|] == (x + y)[|x|..] == y;
      }
    }
  }

  lemma OccursShift(s: string, t: string, sub: string, i: int)
    requires 0 <= i
    ensures OccursAt(t, sub, i) <==> OccursAt(s + t, sub, |s| + i)
  {
    if 0 <= i && i + |sub| <= |t| {
      assert (s + t)[|s| + i..|s| + i + |sub|] == t[i..i + |sub|];
    }
  }

  lemma ContainsSuffix(s: string, t: string, sub: string)
    requires Contains(t, sub)
    ensures Contains(s + t, sub)
  {
    var i :| 0 <= i <= |t| - |sub| && OccursAt(t, sub, i);
    OccursShift(s, t, sub, i);
  }

  lemma ContainsPrefix(s: string, t: string, sub: string)
    requires Contains(s, sub)
    ensures Contains(s + t, sub)
  {
    var i :| 0 <= i <= |s| - |sub| && OccursAt(s, sub, i);
    OccursInPrefix(s, t, sub, i);
  }

  /** A one-character pattern occurs exactly where that character is. */
  lemma OccursChar(s: string, c: char, j: int)
    ensures OccursAt(s, [c], j) <==> 0 <= j < |s| && s[j] == c
  {
    if 0 <= j < |s| {
      assert s[j..j + 1] == [s[j]];
    }
  }

  /** The index of the first `c` in `s`, or `|s|` when there is none: the
      length of `s.split(c)[0]`. */
  function IndexOrEnd(s: string, c: char): (p: nat)
    ensures p <= |s|
    ensures forall j :: 0 <= j < p ==> s[j] != c
    ensures p < |s| ==> s[p] == c
  {
    var i := Find(s, [c]);
    forall j | 0 <= j < |s| ensures OccursAt(s, [c], j) <==> s[j] == c {
      OccursChar(s, c, j);
    }
    if i < 0 then |s| else i
  }

  lemma ContainsWhole(s: string)
    ensures Contains(s, s)
  {
    assert OccursAt(s, s, 0);
  }

  // ---------------------------------------------------------------------------
  // Whitespace and `strip`
  // ---------------------------------------------------------------------------

  /** How many code-point ranges make up the characters for which Python's
      `str.isspace()` holds (and which `\s` matches). */
  const SPACE_RANGE_COUNT := 10

  /** The `i`-th of those ranges, first and last character included. */
  function SpaceRange(i: nat): (char, char)
    requires i < SPACE_RANGE_COUNT
  {
    if i == 0 then ('\t', '\r')
    else if i == 1 then ('\U{1C}', ' ')
    else if i == 2 then ('\U{85}', '\U{85}')
    else if i == 3 then ('\U{A0}', '\U{A0}')
    else if i == 4 then ('\U{1680}', '\U{1680}')
    else if i == 5 then ('\U{2000}', '\U{200A}')
    else if i == 6 then ('\U{2028}', '\U{2029}')
    else if i == 7 then ('\U{202F}', '\U{202F}')
    else if i == 8 then ('\U{205F}', '\U{205F}')
    else ('\U{3000}', '\U{3000}')
  }

  /** `c` lies in one of the ranges from the `i`-th on. */
  predicate InSpaceRanges(c: char, i: nat)
    decreases SPACE_RANGE_COUNT - i
  {
    i < SPACE_RANGE_COUNT && (SpaceRange(i).0 <= c <= SpaceRange(i).1 || InSpaceRanges(c, i + 1))
  }

  /** Python's `c.isspace()`. */
  predicate IsSpace(c: char) {
    InSpaceRanges(c, 0)
  }

  /** Below U+85 the whitespace characters are tab to carriage return and U+1C to space. */
  lemma AsciiSpace(c: char)
    requires c < '\U{85}'
    ensures IsSpace(c) <==> ('\t' <= c <= '\r') || ('\U{1C}' <= c <= ' ')
  {
    NotInSpaceRanges(c, 2);
    assert InSpaceRanges(c, 1) <==> ('\U{1C}' <= c <= ' ') || InSpaceRanges(c, 2);
  }

  lemma {:induction false} NotInSpaceRanges(c: char, i: nat)
    requires 2 <= i && c < '\U{85}'
    ensures !InSpaceRanges(c, i)
    decreases SPACE_RANGE_COUNT - i
  {
    if i < SPACE_RANGE_COUNT {
      NotInSpaceRanges(c, i + 1);
    }
  }

  /** Python's `s.lstrip(chars)`: the suffix left after dropping leading characters of `cs`. */
  function LStripSet(s: string, cs: set<char>): (r: string)
    ensures |r| <= |s| && r == s[|s| - |r|..]
    ensures forall i :: 0 <= i < |s| - |r| ==> s[i] in cs
    ensures |r| > 0 ==> r[0] !in cs
  {
    if |s| > 0 && s[0] in cs then
      var r := LStripSet(s[1..], cs);
      assert s[1..][|s| - 1 - |r|..] == s[|s| - |r|..];
      assert forall i :: 1 <= i < |s| - |r| ==> s[i] == s[1..][i - 1];
      r
    else s
  }

  /** Python's `s.rstrip(chars)`: the prefix left after dropping trailing characters of `cs`. */
  function RStripSet(s: string, cs: set<char>): (r: string)
    ensures |r| <= |s| && r == s[..|r|]
    ensures forall i :: |r| <= i < |s| ==> s[i] in cs
    ensures |r| > 0 ==> r[|r| - 1] !in cs
  {
    if |s| > 0 && s[|s| - 1] in cs then RStripSet(s[..|s| - 1], cs) else s
  }

  /** Python's `s.strip(chars)`. */
  function StripSet(s: string, cs: set<char>): string {
    RStripSet(LStripSet(s, cs), cs)
  }

  /** Python's `s.lstrip()`. */
  function LStrip(s: string): (r: string)
    ensures |r| <= |s| && r == s[|s| - |r|..]
    ensures forall i :: 0 <= i < |s| - |r| ==> IsSpace(s[i])
    ensures |r| > 0 ==> !IsSpace(r[0])
  {
    if |s| > 0 && IsSpace(s[0]) then LStrip(s[1..]) else s
  }

  /** Python's `s.rstrip()`. */
  function RStrip(s: string): (r: string)
    ensures |r| <= |s| && r == s[..|r|]
    ensures forall i :: |r| <= i < |s| ==> IsSpace(s[i])
    ensures |r| > 0 ==> !IsSpace(r[|r| - 1])
  {
    if |s| > 0 && IsSpace(s[|s| - 1]) then RStrip(s[..|s| - 1]) else s
  }

  /** Python's `s.strip()`. */
  function Strip(s: string): string {
    RStrip(LStrip(s))
  }

  /** `t` stands in `s` at `k`, with only whitespace before and after it. */
  predicate Framed(s: string, k: int, t: string) {
    0 <= k && k + |t| <= |s| && t == s[k..k + |t|]
    && (forall i :: 0 <= i < k ==> IsSpace(s[i]))
    && (forall i :: k + |t| <= i < |s| ==> IsSpace(s[i]))
  }

  /** Neither the first nor the last character is whitespace. */
  predicate SpaceFreeEnds(t: string) {
    |t| > 0 ==> !IsSpace(t[0]) && !IsSpace(t[|t| - 1])
  }

  /** Stripping drops leading and trailing whitespace and nothing else. */
  lemma StripShape(s: string)
    ensures Framed(s, |s| - |LStrip(s)|, Strip(s))
    ensures SpaceFreeEnds(Strip(s))
  {
    var l := LStrip(s);
    FramedOfParts(s, |s| - |l|, l, RStrip(l));
  }

  /** What left- and right-stripping promise, put together. */
  lemma FramedOfParts(s: string, k: nat, l: string, r: string)
    requires k <= |s| && l == s[k..] && forall i :: 0 <= i < k ==> IsSpace(s[i])
    requires |l| > 0 ==> !IsSpace(l[0])
    requires |r| <= |l| && r == l[..|r|] && forall i :: |r| <= i < |l| ==> IsSpace(l[i])
    requires |r| > 0 ==> !IsSpace(r[|r| - 1])
    ensures Framed(s, k, r)
    ensures SpaceFreeEnds(r)
  {
    assert r == s[k..k + |r|];
    forall i | k + |r| <= i < |s|
      ensures IsSpace(s[i])
    {
      assert s[i] == l[i - k];
    }
    if |r| > 0 {
      assert r[0] == l[0];
    }
  }

  /** Left-stripping stops at the first character that is not whitespace. */
  lemma LStripAt(s: string, k: nat)
    requires k <= |s| && forall i :: 0 <= i < k ==> IsSpace(s[i])
    requires k < |s| ==> !IsSpace(s[k])
    ensures LStrip(s) == s[k..]
  {
  }

  /** Right-stripping stops after the last character that is not whitespace. */
  lemma RStripAt(s: string, m: nat)
    requires m <= |s| && forall i :: m <= i < |s| ==> IsSpace(s[i])
    requires m > 0 ==> !IsSpace(s[m - 1])
    ensures RStrip(s) == s[..m]
  {
  }

  /** A string standing between whitespace margins, with no whitespace at its
      own ends, is what stripping gives. */
  lemma StripFramed(s: string, k: int, t: string)
    requires Framed(s, k, t)
    requires SpaceFreeEnds(t)
    ensures Strip(s) == t
  {
    if |t| == 0 {
      LStripAt(s, |s|);
    } else {
      assert s[k] == t[0];
      LStripAt(s, k);
      var u := s[k..];
      assert u[..|t|] == t;
      assert u[|t| - 1] == t[|t| - 1];
      RStripAt(u, |t|);
    }
  }

  /** Whitespace margins around a string do not change its strip. */
  lemma StripMargins(w1: string, x: string, w2: string)
    requires forall i :: 0 <= i < |w1| ==> IsSpace(w1[i])
    requires forall i :: 0 <= i < |w2| ==> IsSpace(w2[i])
    ensures Strip(w1 + x + w2) == Strip(x)
  {
    StripShape(x);
    StripFramedInMargins(w1, x, w2, |x| - |LStrip(x)|, Strip(x));
  }

  lemma StripFramedInMargins(w1: string, x: string, w2: string, k: int, t: string)
    requires forall i :: 0 <= i < |w1| ==> IsSpace(w1[i])
    requires forall i :: 0 <= i < |w2| ==> IsSpace(w2[i])
    requires Framed(x, k, t) && SpaceFreeEnds(t)
    ensures Strip(w1 + x + w2) == t
  {
    FramedInMargins(w1, x, w2, k, t);
    StripFramed(w1 + x + w2, |w1| + k, t);
  }

  lemma FramedInMargins(w1: string, x: string, w2: string, k: int, t: string)
    requires forall i :: 0 <= i < |w1| ==> IsSpace(w1[i])
    requires forall i :: 0 <= i < |w2| ==> IsSpace(w2[i])
    requires Framed(x, k, t)
    ensures Framed(w1 + x + w2, |w1| + k, t)
  {
    var s := w1 + x + w2;
    assert x == s[|w1|..|w1| + |x|];
    assert s[|w1| + k..|w1| + k + |t|] == s[|w1|..|w1| + |x|][k..k + |t|];
    assert forall i :: 0 <= i < |x| ==> s[|w1| + i] == x[i];
  }

  /** Right-stripping stops at a string whose last character is not whitespace. */
  lemma {:induction false} RStripAfter(p: string, y: string)
    requires |p| > 0 && !IsSpace(p[|p| - 1])
    ensures RStrip(p + y) == p + RStrip(y)
    decreases |y|
  {
    if y == [] {
      assert p + y == p;
    } else if IsSpace(y[|y| - 1]) {
      assert (p + y)[..|p + y| - 1] == p + y[..|y| - 1];
      RStripAfter(p, y[..|y| - 1]);
    }
  }

  /** Stripping a string that starts with a word only right-strips what follows it. */
  lemma StripFromWord(p: string, w: string)
    requires |p| > 0 && !IsSpace(p[0]) && !IsSpace(p[|p| - 1])
    ensures Strip(p + w) == p + RStrip(w)
  {
    LStripAt(p + w, 0);
    RStripAfter(p, w);
  }

  lemma StripAfterSpace(v: string)
    ensures Strip(" " + v) == Strip(v)
  {
    AsciiSpace(' ');
    LStripPrependSpace(" ", v);
  }

  /** Stripping after a right strip is stripping. */
  lemma StripRStrip(z: string)
    ensures Strip(RStrip(z)) == Strip(z)
  {
    var t := Strip(z);
    if |t| > 0 {
      StripRStripCore(z);
    } else {
      StripRStripBlank(z);
    }
  }

  lemma StripRStripCore(z: string)
    requires |Strip(z)| > 0
    ensures Strip(RStrip(z)) == Strip(z)
  {
    var t := Strip(z);
    var k := |z| - |LStrip(z)|;
    assert Framed(z, k, t) && SpaceFreeEnds(t) by {
      StripShape(z);
    }
    StripKeepsCore(z, k, t);
  }

  lemma StripKeepsCore(z: string, k: int, t: string)
    requires Framed(z, k, t) && SpaceFreeEnds(t) && |t| > 0
    ensures Strip(RStrip(z)) == t
  {
    RStripKeepsCore(z, k, t);
    StripFramed(RStrip(z), k, t);
  }

  lemma StripRStripBlank(z: string)
    requires Strip(z) == []
    ensures Strip(RStrip(z)) == []
  {
    assert RStrip(z) == [] by {
      StripShape(z);
      RStripAt(z, 0);
    }
  }

  lemma RStripKeepsCore(z: string, k: int, t: string)
    requires Framed(z, k, t) && |t| > 0 && !IsSpace(t[|t| - 1])
    ensures Framed(RStrip(z), k, t)
  {
    var r := RStrip(z);
    assert z[k + |t| - 1] == t[|t| - 1];
    assert k + |t| <= |r|;
    assert r[k..k + |t|] == z[k..k + |t|];
  }

  lemma SliceOfSuffix(s: string, k: nat, n: nat)
    requires k + n <= |s|
    ensures s[k..][..n] == s[k..k + n]
  {
  }

  /** A string with no leading or trailing whitespace is its own strip. */
  lemma StripNoop(s: string)
    requires |s| > 0 ==> !IsSpace(s[0]) && !IsSpace(s[|s| - 1])
    ensures Strip(s) == s
  {
  }

  /** A string that starts with a non-space is not blank. */
  lemma NotBlank(s: string)
    requires |s| > 0 && !IsSpace(s[0])
    ensures Strip(s) != ""
  {
    assert LStrip(s) == s;
    assert RStrip(s) != "" by {
      assert !IsSpace(s[0]);
    }
  }

  lemma StripAppendSpace(s: string, t: string)
    requires forall i :: 0 <= i < |t| ==> IsSpace(t[i])
    ensures RStrip(s + t) == RStrip(s)
    decreases |t|
  {
    if |t| > 0 {
      var u := s + t;
      assert u[..|u| - 1] == s + t[..|t| - 1];
      StripAppendSpace(s, t[..|t| - 1]);
    } else {
      assert s + t == s;
    }
  }

  lemma LStripPrependSpace(t: string, s: string)
    requires forall i :: 0 <= i < |t| ==> IsSpace(t[i])
    ensures LStrip(t + s) == LStrip(s)
  {
    var l := LStrip(s);
    SpacesThenStop(t, s, |s| - |l|);
  }

  /** After whitespace `t`, a string `s` whose first `k` characters are whitespace
      and whose `k`-th is not left-strips to what follows those `k`. */
  lemma SpacesThenStop(t: string, s: string, k: nat)
    requires forall i :: 0 <= i < |t| ==> IsSpace(t[i])
    requires k <= |s| && forall i :: 0 <= i < k ==> IsSpace(s[i])
    requires k < |s| ==> !IsSpace(s[k])
    ensures LStrip(t + s) == s[k..]
  {
    var u := t + s;
    forall i | 0 <= i < |t| + k
      ensures IsSpace(u[i])
    {
      if i < |t| {
        assert u[i] == t[i];
      } else {
        assert u[i] == s[i - |t|];
      }
    }
    if k < |s| {
      assert u[|t| + k] == s[k];
    }
    LStripAt(u, |t| + k);
    assert u[|t| + k..] == s[k..];
  }

  // ---------------------------------------------------------------------------
  // Case mapping
  // ---------------------------------------------------------------------------

  predicate IsUpperAscii(c: char) { 'A' <= c <= 'Z' }
  predicate IsLowerAscii(c: char) { 'a' <= c <= 'z' }
  predicate IsLetter(c: char) { IsUpperAscii(c) || IsLowerAscii(c) }

  function LowerChar(c: char): (r: char)
    ensures !IsUpperAscii(r)
    ensures IsLetter(c) <==> IsLetter(r)
  {
    if IsUpperAscii(c) then (c as int + 32) as char else c
  }

  function UpperChar(c: char): (r: char)
    ensures !IsLowerAscii(r)
    ensures IsLetter(c) <==> IsLetter(r)
  {
    if IsLowerAscii(c) then (c as int - 32) as char else c
  }

  /** Python's `s.lower()`. */
  function Lower(s: string): (r: string)
    ensures |r| == |s|
    ensures forall i :: 0 <= i < |s| ==> r[i] == LowerChar(s[i])
  {
    if s == [] then [] else [LowerChar(s[0])] + Lower(s[1..])
  }

  lemma {:induction false} LowerAppend(s: string, t: string)
    ensures Lower(s + t) == Lower(s) + Lower(t)
  {
    var l, r := Lower(s + t), Lower(s) + Lower(t);
    assert |l| == |r|;
    forall i | 0 <= i < |s + t| ensures l[i] == r[i] {
      if i < |s| {
        assert (s + t)[i] == s[i] && r[i] == Lower(s)[i];
      } else {
        assert (s + t)[i] == t[i - |s|] && r[i] == Lower(t)[i - |s|];
      }
    }
  }

  /** A string of characters that `lower` keeps is its own lower case. */
  lemma LowerNoop(s: string)
    requires forall i :: 0 <= i < |s| ==> LowerChar(s[i]) == s[i]
    ensures Lower(s) == s
  {
  }

  /** Python's `str.title()`: a letter is upper-cased when it follows a non-letter. */
  function TitleFrom(s: string, previousCased: bool): (r: string)
    ensures |r| == |s|
    ensures forall i :: 0 <= i < |s| ==> IsLetter(r[i]) == IsLetter(s[i])
    ensures |s| > 0 ==> r[0] == if previousCased then LowerChar(s[0]) else UpperChar(s[0])
    ensures forall i :: 0 < i < |s| ==> r[i] == if IsLetter(s[i - 1]) then LowerChar(s[i]) else UpperChar(s[i])
  {
    if s == [] then []
    else
      var c := if previousCased then LowerChar(s[0]) else UpperChar(s[0]);
      var rest := TitleFrom(s[1..], IsLetter(c));
      assert IsLetter(c) == IsLetter(s[0]);
      assert forall i :: 0 < i < |s| ==> ([c] + rest)[i] == rest[i - 1] && s[1..][i - 1] == s[i];
      [c] + rest
  }

  function Title(s: string): string {
    TitleFrom(s, false)
  }

  /** Python's `str.capitalize()`: the first character upper-cased, the rest lower-cased. */
  function Capitalize(s: string): (r: string)
    ensures |r| == |s|
    ensures |s| > 0 ==> r[0] == UpperChar(s[0])
    ensures forall i :: 0 < i < |s| ==> r[i] == LowerChar(s[i])
  {
    if s == [] then [] else [UpperChar(s[0])] + Lower(s[1..])
  }

  // ---------------------------------------------------------------------------
  // `str.replace`, `str.split`, `str.join`
  // ---------------------------------------------------------------------------

  /** Python's `s.replace(pat, rep)`: non-overlapping occurrences, left to right. */
  function ReplaceAll(s: string, pat: string, rep: string): string
    requires |pat| > 0
    decreases |s|
  {
    if |s| < |pat| then s
    else if s[..|pat|] == pat then rep + ReplaceAll(s[|pat|..], pat, rep)
    else [s[0]] + ReplaceAll(s[1..], pat, rep)
  }

  /** A text without `pat` is left as it is. */
  lemma {:induction false} ReplaceAllAbsent(s: string, pat: string, rep: string)
    requires |pat| > 0 && !Contains(s, pat)
    ensures ReplaceAll(s, pat, rep) == s
    decreases |s|
  {
    if |s| >= |pat| {
      assert !OccursAt(s, pat, 0);
      assert !Contains(s[1..], pat) by {
        forall q | 0 <= q <= |s| - 1 - |pat|
          ensures !OccursAt(s[1..], pat, q)
        {
          OccursTail(s, pat, q);
        }
      }
      ReplaceAllAbsent(s[1..], pat, rep);
      assert [s[0]] + s[1..] == s;
    }
  }

  /** `replace` keeps the text before the first occurrence, puts `rep` in its
      place and goes on after it. */
  lemma ReplaceAllFirst(s: string, pat: string, rep: string)
    requires |pat| > 0 && Find(s, pat) >= 0
    ensures var i := Find(s, pat);
      ReplaceAll(s, pat, rep) == s[..i] + rep + ReplaceAll(s[i + |pat|..], pat, rep)
  {
    ReplaceAllBefore(s, pat, rep, Find(s, pat));
  }

  lemma {:induction false} ReplaceAllBefore(s: string, pat: string, rep: string, i: nat)
    requires |pat| > 0 && OccursAt(s, pat, i)
    requires forall q :: 0 <= q < i ==> !OccursAt(s, pat, q)
    ensures ReplaceAll(s, pat, rep) == s[..i] + rep + ReplaceAll(s[i + |pat|..], pat, rep)
    decreases i, 1
  {
    if i > 0 {
      assert ReplaceAll(s, pat, rep) == [s[0]] + ReplaceAll(s[1..], pat, rep) by {
        assert !OccursAt(s, pat, 0);
        ReplaceAllSkip(s, pat, rep);
      }
      ReplaceAllTail(s, pat, rep, i);
      ConsSlices(s, i, rep, ReplaceAll(s[i + |pat|..], pat, rep));
    } else {
      assert s[..|pat|] == pat;
    }
  }

  lemma {:induction false} ReplaceAllTail(s: string, pat: string, rep: string, i: nat)
    requires |pat| > 0 && 0 < i && OccursAt(s, pat, i)
    requires forall q :: 0 <= q < i ==> !OccursAt(s, pat, q)
    ensures ReplaceAll(s[1..], pat, rep) == s[1..][..i - 1] + rep + ReplaceAll(s[i + |pat|..], pat, rep)
    decreases i, 0
  {
    TailOccurrences(s, pat, i);
    ReplaceAllBefore(s[1..], pat, rep, i - 1);
    assert s[1..][i - 1 + |pat|..] == s[i + |pat|..];
  }

  /** The first occurrence in `s`, past index 0, is one earlier in its tail. */
  lemma TailOccurrences(s: string, pat: string, i: nat)
    requires 0 < i && OccursAt(s, pat, i)
    requires forall q :: 0 <= q < i ==> !OccursAt(s, pat, q)
    ensures OccursAt(s[1..], pat, i - 1)
    ensures forall q :: 0 <= q < i - 1 ==> !OccursAt(s[1..], pat, q)
  {
    OccursTail(s, pat, i - 1);
    forall q | 0 <= q < i - 1
      ensures !OccursAt(s[1..], pat, q)
    {
      OccursTail(s, pat, q);
    }
  }

  lemma ReplaceAllSkip(s: string, pat: string, rep: string)
    requires |pat| > 0 && |pat| <= |s| && !OccursAt(s, pat, 0)
    ensures ReplaceAll(s, pat, rep) == [s[0]] + ReplaceAll(s[1..], pat, rep)
  {
    assert s[..|pat|] != pat;
  }

  lemma ConsSlices(s: string, i: nat, x: string, y: string)
    requires 0 < i <= |s|
    ensures [s[0]] + (s[1..][..i - 1] + x + y) == s[..i] + x + y
  {
    assert [s[0]] + s[1..][..i - 1] == s[..i];
    assert [s[0]] + (s[1..][..i - 1] + x + y) == [s[0]] + s[1..][..i - 1] + x + y;
  }

  lemma OccursTail(s: string, pat: string, q: nat)
    requires |s| > 0
    ensures OccursAt(s[1..], pat, q) <==> OccursAt(s, pat, q + 1)
  {
    if q + |pat| <= |s| - 1 {
      assert s[1..][q..q + |pat|] == s[q + 1..q + 1 + |pat|];
    }
  }

  /** `replace` is `split` followed by `join` with the replacement. */
  lemma {:induction false} ReplaceAllSplit(s: string, pat: string, rep: string)
    requires |pat| > 0
    ensures ReplaceAll(s, pat, rep) == Join(Split(s, pat), rep)
    decreases |s|
  {
    var i := Find(s, pat);
    if i >= 0 {
      var rest := s[i + |pat|..];
      ReplaceAllFirst(s, pat, rep);
      ReplaceAllSplit(rest, pat, rep);
      SplitCons(s, pat);
      JoinCons(Split(s, pat), rep);
    } else {
      ReplaceAllAbsent(s, pat, rep);
    }
  }

  lemma OccursInMiddle(a: string, b: string, c: string)
    ensures OccursAt(a + b + c, b, |a|)
  {
    assert (a + b + c)[|a|..|a| + |b|] == b;
  }

  /** Containment is transitive. */
  lemma ContainsTrans(a: string, b: string, c: string)
    requires Contains(a, b) && Contains(b, c)
    ensures Contains(a, c)
  {
    var i :| 0 <= i <= |a| - |b| && OccursAt(a, b, i);
    var j :| 0 <= j <= |b| - |c| && OccursAt(b, c, j);
    assert b == a[i..i + |b|];
    forall k | 0 <= k < |c| ensures a[i + j + k] == c[k] {
      assert c[k] == b[j + k] == a[i..i + |b|][j + k];
    }
    assert a[i + j..i + j + |c|] == c;
    assert OccursAt(a, c, i + j);
  }

  /** Each part occurs in the joined text. */
  lemma {:induction false} JoinContains(parts: seq<string>, sep: string, k: nat)
    requires k < |parts|
    ensures Contains(Join(parts, sep), parts[k])
    decreases |parts|
  {
    if |parts| == 1 {
      assert OccursAt(parts[0], parts[0], 0);
    } else if k == 0 {
      assert OccursAt(parts[0] + (sep + Join(parts[1..], sep)), parts[0], 0);
      assert Join(parts, sep) == parts[0] + (sep + Join(parts[1..], sep));
    } else {
      JoinContains(parts[1..], sep, k - 1);
      ContainsSuffix(parts[0] + sep, Join(parts[1..], sep), parts[k]);
    }
  }

  /** A text holding `pat` holds `rep` after `replace`. */
  lemma ReplaceAllContains(s: string, pat: string, rep: string)
    requires |pat| > 0 && Contains(s, pat)
    ensures Contains(ReplaceAll(s, pat, rep), rep)
  {
    var i := Find(s, pat);
    var r := ReplaceAll(s, pat, rep);
    var rest := ReplaceAll(s[i + |pat|..], pat, rep);
    assert r == s[..i] + rep + rest by {
      ReplaceAllFirst(s, pat, rep);
    }
    OccursInMiddle(s[..i], rep, rest);
  }

  /** Replacing a single character everywhere. */
  function ReplaceChar(s: string, c: char, rep: string): (r: string)
    ensures c !in s ==> r == s
  {
    if s == [] then []
    else (if s[0] == c then rep else [s[0]]) + ReplaceChar(s[1..], c, rep)
  }

  /** `replace` with a one-character pattern replaces that character everywhere. */
  lemma {:induction false} ReplaceAllChar(s: string, c: char, rep: string)
    ensures ReplaceAll(s, [c], rep) == ReplaceChar(s, c, rep)
    decreases |s|
  {
    if s != [] {
      ReplaceAllChar(s[1..], c, rep);
      assert s[..1] == [s[0]];
      assert s[1..] == s[|[c]|..];
    }
  }

  lemma {:induction false} ReplaceCharAppend(s: string, t: string, c: char, rep: string)
    ensures ReplaceChar(s + t, c, rep) == ReplaceChar(s, c, rep) + ReplaceChar(t, c, rep)
    decreases |s|
  {
    if s == [] {
      assert s + t == t;
    } else {
      var h := if s[0] == c then rep else [s[0]];
      assert (s + t)[0] == s[0];
      assert (s + t)[1..] == s[1..] + t;
      ReplaceCharAppend(s[1..], t, c, rep);
      assert ReplaceChar(s + t, c, rep) == h + ReplaceChar(s[1..] + t, c, rep);
      assert h + (ReplaceChar(s[1..], c, rep) + ReplaceChar(t, c, rep))
          == (h + ReplaceChar(s[1..], c, rep)) + ReplaceChar(t, c, rep);
    }
  }

  /** Python's `s.split(sep)` for a non-empty separator. */
  function Split(s: string, sep: string): (parts: seq<string>)
    requires |sep| > 0
    ensures |parts| >= 1
    ensures forall k :: 0 <= k < |parts| ==> !Contains(parts[k], sep)
    decreases |s|
  {
    var i := Find(s, sep);
    if i < 0 then [s]
    else
      var head := s[..i];
      assert !Contains(head, sep) by {
        if Contains(head, sep) {
          var j :| 0 <= j <= |head| - |sep| && OccursAt(head, sep, j);
          assert s == head + s[i..];
          OccursInPrefix(head, s[i..], sep, j);
        }
      }
      [head] + Split(s[i + |sep|..], sep)
  }

  /** A text lacking one of the characters of `sub` does not contain `sub`. */
  lemma Absent(s: string, sub: string, k: nat)
    requires k < |sub| && sub[k] !in s
    ensures !Contains(s, sub)
  {
    forall i | 0 <= i <= |s| - |sub| ensures !OccursAt(s, sub, i) {
      assert s[i + k] in s;
      assert s[i..i + |sub|][k] == s[i + k];
    }
  }

  /** Splitting at a first dot. */
  lemma SplitAtDot(x: string, y: string)
    requires '.' !in x
    ensures Split(x + "." + y, ".") == [x] + Split(y, ".")
  {
    var s := x + "." + y;
    forall j | 0 <= j < |x| ensures !OccursAt(s, ".", j) {
      assert x[j] in x;
      assert s[j..j + 1][0] == s[j] == x[j];
    }
    assert s[|x|..|x| + 1] == ".";
    FindFromAt(s, ".", 0, |x|);
    assert s[..|x|] == x;
    assert s[|x| + 1..] == y;
  }

  /** Splitting at a first one-character separator. */
  lemma SplitAtChar(x: string, c: char, y: string)
    requires c !in x
    ensures Split(x + [c] + y, [c]) == [x] + Split(y, [c])
  {
    var s := x + [c] + y;
    forall j | 0 <= j < |x| ensures !OccursAt(s, [c], j) {
      assert x[j] in x;
      assert s[j..j + 1][0] == s[j] == x[j];
    }
    assert s[|x|..|x| + 1] == [c];
    FindFromAt(s, [c], 0, |x|);
    assert s[..|x|] == x;
    assert s[|x| + 1..] == y;
  }

  /** A text without the separator character is one part. */
  lemma SplitNoChar(z: string, c: char)
    requires c !in z
    ensures Split(z, [c]) == [z]
  {
    Absent(z, [c], 0);
  }

  /** Joining parts that lack a one-character separator and splitting at it
      again gives the parts back. */
  lemma {:induction false} SplitJoinChar(parts: seq<string>, c: char)
    requires |parts| > 0 && forall i :: 0 <= i < |parts| ==> c !in parts[i]
    ensures Split(Join(parts, [c]), [c]) == parts
    decreases |parts|
  {
    if |parts| == 1 {
      SplitNoChar(parts[0], c);
    } else {
      SplitJoinChar(parts[1..], c);
      assert Join(parts, [c]) == parts[0] + [c] + Join(parts[1..], [c]);
      SplitAtChar(parts[0], c, Join(parts[1..], [c]));
      assert parts == [parts[0]] + parts[1..];
    }
  }

  /** A text without dots is one part. */
  lemma SplitNoDot(z: string)
    requires '.' !in z
    ensures Split(z, ".") == [z]
  {
    Absent(z, ".", 0);
  }

  /** One dot between dot-free parts splits into those two parts. */
  lemma SplitTwoParts(x: string, y: string)
    requires '.' !in x && '.' !in y
    ensures Split(x + "." + y, ".") == [x, y]
  {
    SplitAtDot(x, y);
    SplitNoDot(y);
  }

  /** Two dots between dot-free parts split into those three parts. */
  lemma SplitThree(x: string, y: string, z: string)
    requires '.' !in x && '.' !in y && '.' !in z
    ensures Split(x + "." + y + "." + z, ".") == [x, y, z]
  {
    assert x + "." + y + "." + z == x + "." + (y + "." + z);
    SplitAtDot(x, y + "." + z);
    SplitAtDot(y, z);
    SplitNoDot(z);
  }

  /** Splitting gives exactly two parts iff the separator occurs exactly once. */
  lemma SplitTwo(s: string, sep: string)
    requires |sep| > 0
    ensures var i := Find(s, sep);
      |Split(s, sep)| == 2 <==> i >= 0 && !Contains(s[i + |sep|..], sep)
    ensures var i := Find(s, sep);
      |Split(s, sep)| == 2 ==> Split(s, sep) == [s[..i], s[i + |sep|..]]
  {
    var i := Find(s, sep);
    if i >= 0 {
      SplitCons(s, sep);
      var rest := s[i + |sep|..];
      assert Split(s, sep)[1..] == Split(rest, sep);
      if Find(rest, sep) >= 0 {
        SplitCons(rest, sep);
      }
    }
  }

  /** Python's `sep.join(parts)`. */
  function Join(parts: seq<string>, sep: string): string {
    if parts == [] then ""
    else if |parts| == 1 then parts[0]
    else parts[0] + sep + Join(parts[1..], sep)
  }

  /** Splitting and joining again gives the original text. */
  lemma {:induction false} JoinSplit(s: string, sep: string)
    requires |sep| > 0
    ensures Join(Split(s, sep), sep) == s
    decreases |s|
  {
    var i := Find(s, sep);
    if i >= 0 {
      var rest := s[i + |sep|..];
      JoinSplit(rest, sep);
      SplitCons(s, sep);
      var parts := Split(s, sep);
      JoinCons(parts, sep);
      Reassemble(s, sep, i);
    }
  }

  lemma Reassemble(s: string, sep: string, i: int)
    requires OccursAt(s, sep, i)
    ensures s == s[..i] + sep + s[i + |sep|..]
  {
    assert s == s[..i] + s[i..i + |sep|] + s[i + |sep|..];
  }

  lemma SplitCons(s: string, sep: string)
    requires |sep| > 0 && Find(s, sep) >= 0
    ensures var i := Find(s, sep);
      |Split(s, sep)| >= 2 && Split(s, sep)[0] == s[..i] && Split(s, sep)[1..] == Split(s[i + |sep|..], sep)
  {
  }

  lemma JoinCons(parts: seq<string>, sep: string)
    requires |parts| >= 2
    ensures Join(parts, sep) == parts[0] + sep + Join(parts[1..], sep)
  {
  }

  /** Python's `s.split(sep, 1)[1]`, the text after the first separator. */
  function AfterFirst(s: string, sep: string): (r: string)
    requires Contains(s, sep)
    ensures exists i :: OccursAt(s, sep, i) && r == s[i + |sep|..]
  {
    var i := Find(s, sep);
    s[i + |sep|..]
  }

  // ---------------------------------------------------------------------------
  // Digits, `int()`, `str(int)` and hexadecimal
  // ---------------------------------------------------------------------------

  /** An ASCII digit; Python's `str.isdigit` also accepts the other
      Unicode decimal and digit characters, which this model leaves out. */
  predicate IsDigit(c: char) { '0' <= c <= '9' }

  /** `s.isdigit()` restricted to ASCII: non-empty and all ASCII digits. */
  predicate IsDigits(s: string) {
    |s| > 0 && forall i :: 0 <= i < |s| ==> IsDigit(s[i])
  }

  function DigitValue(c: char): nat
    requires IsDigit(c)
  {
    c as int - '0' as int
  }

  /** The value of a string of decimal digits (leading zeros allowed). */
  function DigitsValue(s: string): nat
    requires forall i :: 0 <= i < |s| ==> IsDigit(s[i])
  {
    if s == [] then 0 else 10 * DigitsValue(s[..|s| - 1]) + DigitValue(s[|s| - 1])
  }

  function DigitChar(d: nat): (c: char)
    requires d < 10
    ensures IsDigit(c) && DigitValue(c) == d
  {
    ('0' as int + d) as char
  }

  /** Python's `str(n)` for a non-negative integer. */
  function NatStr(n: nat): (s: string)
    ensures IsDigits(s)
    ensures DigitsValue(s) == n
    ensures s[0] == '0' ==> n == 0 && |s| == 1
  {
    if n < 10 then [DigitChar(n)]
    else
      var p := NatStr(n / 10);
      var s := p + [DigitChar(n % 10)];
      assert s[..|s| - 1] == p;
      s
  }

  /** Python's `str(n)`. */
  function IntStr(n: int): string {
    if n < 0 then "-" + NatStr(-n) else NatStr(n)
  }

  lemma NatStrInjective(a: nat, b: nat)
    requires NatStr(a) == NatStr(b)
    ensures a == b
  {
  }

  /** `str` is injective on integers: distinct numbers print differently. */
  lemma IntStrInjective(a: int, b: int)
    requires IntStr(a) == IntStr(b)
    ensures a == b
  {
    assert IntStr(a)[0] == '-' <==> a < 0;
    assert IntStr(b)[0] == '-' <==> b < 0;
    if a < 0 && b < 0 {
      assert NatStr(-a) == IntStr(a)[1..];
    }
  }

  /** Digits with single underscores between them, as `int()` accepts. */
  predicate IsDigitGroup(s: string) {
    |s| > 0 && IsDigit(s[0]) && IsDigit(s[|s| - 1])
    && (forall i :: 0 <= i < |s| ==> IsDigit(s[i]) || s[i] == '_')
    && (forall i :: 0 <= i < |s| - 1 ==> !(s[i] == '_' && s[i + 1] == '_'))
  }

  function RemoveUnderscores(s: string): (r: string)
    requires forall i :: 0 <= i < |s| ==> IsDigit(s[i]) || s[i] == '_'
    ensures forall i :: 0 <= i < |r| ==> IsDigit(r[i])
    ensures (forall i :: 0 <= i < |s| ==> IsDigit(s[i])) ==> r == s
  {
    if s == [] then []
    else (if s[0] == '_' then [] else [s[0]]) + RemoveUnderscores(s[1..])
  }

  /** Python's `int(s)` in base 10 over ASCII digits: surrounding whitespace,
      an optional sign, then a digit group; anything else raises ValueError
      (None here). Non-ASCII Unicode decimal digits, which `int` reads, are
      not modelled. */
  function PyInt(s: string): Option<int> {
    SignedDigitGroup(Strip(s))
  }

  /** An optional sign and a digit group, with nothing around them. */
  function SignedDigitGroup(t: string): Option<int> {
    var neg := |t| > 0 && t[0] == '-';
    var body := if |t| > 0 && (t[0] == '-' || t[0] == '+') then t[1..] else t;
    if IsDigitGroup(body) then
      var v: int := DigitsValue(RemoveUnderscores(body));
      Some(if neg then -v else v)
    else None
  }

  /** `int(str(n)) == n`. */
  lemma PyIntIntStr(n: int)
    ensures PyInt(IntStr(n)) == Some(n)
  {
    var d := NatStr(if n < 0 then -n else n);
    StripIntStr(n);
    SignedDigits(IntStr(n), n < 0, d);
  }

  /** An optional minus sign before plain digits reads as their signed value. */
  lemma SignedDigits(s: string, neg: bool, d: string)
    requires IsDigits(d)
    requires s == if neg then "-" + d else d
    ensures var v: int := DigitsValue(d);
      SignedDigitGroup(s).Some? && SignedDigitGroup(s).value == if neg then -v else v
  {
    assert IsDigitGroup(d) by {
      assert forall i :: 0 <= i < |d| ==> d[i] != '_';
    }
    assert RemoveUnderscores(d) == d;
    if neg {
      assert s[0] == '-' && s[1..] == d;
    } else {
      assert s[0] != '-' && s[0] != '+';
    }
  }

  /** `str(n)` has no surrounding whitespace. */
  lemma StripIntStr(n: int)
    ensures Strip(IntStr(n)) == IntStr(n)
  {
    var s := IntStr(n);
    var d := NatStr(if n < 0 then -n else n);
    assert s == if n < 0 then "-" + d else d;
    DigitNotSpace(d[|d| - 1]);
    if n < 0 {
      AsciiSpace('-');
      assert s[|s| - 1] == d[|d| - 1];
    } else {
      DigitNotSpace(d[0]);
    }
    StripNoop(s);
  }

  lemma DigitNotSpace(c: char)
    requires IsDigit(c)
    ensures !IsSpace(c)
  {
    AsciiSpace(c);
  }

  /** On plain digit strings `int()` is the digit value. */
  lemma PyIntDigits(s: string)
    requires IsDigits(s)
    ensures PyInt(s) == Some(DigitsValue(s))
  {
    DigitNotSpace(s[0]);
    DigitNotSpace(s[|s| - 1]);
    StripNoop(s);
    SignedDigits(s, false, s);
  }

  predicate IsHexDigit(c: char) {
    IsDigit(c) || 'a' <= c <= 'f' || 'A' <= c <= 'F'
  }

  function HexDigitValue(c: char): (v: nat)
    requires IsHexDigit(c)
    ensures v < 16
  {
    if IsDigit(c) then DigitValue(c)
    else if 'a' <= c <= 'f' then c as int - 'a' as int + 10
    else c as int - 'A' as int + 10
  }

  function HexValue(s: string): nat
    requires forall i :: 0 <= i < |s| ==> IsHexDigit(s[i])
  {
    if s == [] then 0 else 16 * HexValue(s[..|s| - 1]) + HexDigitValue(s[|s| - 1])
  }

  function HexChar(d: nat): (c: char)
    requires d < 16
    ensures IsHexDigit(c) && HexDigitValue(c) == d
    ensures !('A' <= c <= 'F')
  {
    if d < 10 then DigitChar(d) else ('a' as int + d - 10) as char
  }

  /** Python's `f"{n:x}"` for a non-negative integer: lower-case digits, no prefix. */
  function HexStr(n: nat): (s: string)
    ensures |s| > 0
    ensures forall i :: 0 <= i < |s| ==> IsHexDigit(s[i]) && !('A' <= s[i] <= 'F')
    ensures HexValue(s) == n
  {
    if n < 16 then [HexChar(n)]
    else
      var p := HexStr(n / 16);
      var s := p + [HexChar(n % 16)];
      assert s[..|s| - 1] == p;
      s
  }

  /** Python's `f"{n:x}"`, which writes a minus sign before the digits of a negative number. */
  function HexIntStr(n: int): string {
    if n < 0 then "-" + HexStr(-n) else HexStr(n)
  }

  /** Python's `int(s, 16)` on a string of hexadecimal digits with an optional `0x` prefix. */
  function ParseHex(s: string): Option<nat> {
    var body := if StartsWith(s, "0x") || StartsWith(s, "0X") then s[2..] else s;
    if |body| > 0 && forall i :: 0 <= i < |body| ==> IsHexDigit(body[i])
    then Some(HexValue(body)) else None
  }

  /** Printing a number in hexadecimal and parsing it back gives the number. */
  lemma ParseHexStr(n: nat)
    ensures ParseHex("0x" + HexStr(n)) == Some(n)
    ensures ParseHex(HexStr(n)) == Some(n)
  {
    var h := HexStr(n);
    assert ("0x" + h)[2..] == h;
    assert !StartsWith(h, "0x") && !StartsWith(h, "0X") by {
      if |h| >= 2 {
        assert IsHexDigit(h[1]);
        assert h[..2][1] == h[1];
      }
    }
  }

  // ---------------------------------------------------------------------------
  // Lines of a text file
  // ---------------------------------------------------------------------------

  /** `"".join(lines)`, also what `f.writelines(lines)` stores. */
  function Concat(lines: seq<string>): string {
    if lines == [] then "" else lines[0] + Concat(lines[1..])
  }

  /** Appending a part appends its text. */
  lemma {:induction false} ConcatSnoc(parts: seq<string>, x: string)
    ensures Concat(parts + [x]) == Concat(parts) + x
    decreases |parts|
  {
    if parts == [] {
      assert parts + [x] == [x];
    } else {
      assert (parts + [x])[0] == parts[0];
      assert (parts + [x])[1..] == parts[1..] + [x];
      ConcatSnoc(parts[1..], x);
    }
  }

  /** What a text-mode read sees on a POSIX system: universal newlines turn
      `"\r\n"` and a lone `"\r"` into `"\n"`. */
  function UniversalNewlines(s: string): (r: string)
    ensures '\r' !in r
  {
    var t := ReplaceAll(s, "\r\n", "\n");
    var r := ReplaceChar(t, '\r', "\n");
    NoCharAfterReplace(t, '\r', "\n");
    r
  }

  lemma {:induction false} NoCharAfterReplace(s: string, c: char, rep: string)
    requires c !in rep
    ensures c !in ReplaceChar(s, c, rep)
  {
    if s != [] {
      NoCharAfterReplace(s[1..], c, rep);
    }
  }

  /** Lines as `readlines` cuts them: none empty, each but the last ending in
      its only newline. */
  predicate LinesShape(lines: seq<string>) {
    (forall k :: 0 <= k < |lines| ==> |lines[k]| > 0)
    && (forall k :: 0 <= k < |lines| - 1 ==> lines[k][|lines[k]| - 1] == '\n')
    && (forall k, j :: 0 <= k < |lines| && 0 <= j < |lines[k]| - 1 ==> lines[k][j] != '\n')
  }

  /** A line that ends in its only newline, put in front of well-shaped lines. */
  lemma LinesShapeCons(head: string, rest: seq<string>)
    requires |head| > 0 && head[|head| - 1] == '\n'
    requires forall j :: 0 <= j < |head| - 1 ==> head[j] != '\n'
    requires LinesShape(rest)
    ensures LinesShape([head] + rest)
    ensures Concat([head] + rest) == head + Concat(rest)
  {
    var lines := [head] + rest;
    assert lines[1..] == rest;
    forall k | 0 < k < |lines| ensures lines[k] == rest[k - 1] {}
  }

  /** `f.readlines()`: the text cut after every newline, each piece keeping it. */
  function ReadLines(s: string): (lines: seq<string>)
    ensures Concat(lines) == s
    ensures LinesShape(lines)
    decreases |s|
  {
    if s == [] then []
    else
      var p := IndexOrEnd(s, '\n');
      if p == |s| then
        assert Concat([s]) == s + Concat([]);
        [s]
      else
        var rest := ReadLines(s[p + 1..]);
        ReadLinesStep(s, p, rest);
        [s[..p + 1]] + rest
  }

  /** The first line, up to and including the first newline, in front of the rest. */
  lemma ReadLinesStep(s: string, p: nat, rest: seq<string>)
    requires p < |s| && s[p] == '\n' && forall j :: 0 <= j < p ==> s[j] != '\n'
    requires Concat(rest) == s[p + 1..] && LinesShape(rest)
    ensures Concat([s[..p + 1]] + rest) == s
    ensures LinesShape([s[..p + 1]] + rest)
  {
    var head := s[..p + 1];
    LinesShapeCons(head, rest);
    assert s == head + s[p + 1..];
  }
}
