/** Leftmost pattern search in the style of Python's `re.search`. The regular
    expressions the ApkForge code uses are fixed and free of real
    backtracking, so each one is written as a matcher: a function that says
    whether the pattern matches at a given position and, if so, where the
    match ends and what its first group captured. */
module Scan {
  import opened Wrappers
  import opened Text

  /** A match at some position: the index just past it and its first group. */
  datatype Match = Match(end: nat, group: string)

  /** Tries a pattern at one position of a text. */
  type Matcher = (string, nat) -> Option<Match>

  /** The first position at or after `i` where `m` matches, if any. */
  function SearchFrom(s: string, m: Matcher, i: nat): (r: Option<nat>)
    ensures r.Some? ==> i <= r.value <= |s| && m(s, r.value).Some?
    ensures r.Some? ==> forall j :: i <= j < r.value ==> m(s, j).None?
    ensures r.None? ==> forall j :: i <= j <= |s| ==> m(s, j).None?
    decreases |s| + 1 - i
  {
    if i > |s| then None
    else if m(s, i).Some? then Some(i)
    else SearchFrom(s, m, i + 1)
  }

  /** `re.search(pattern, s)`: the match at the leftmost position where one exists. */
  function Search(s: string, m: Matcher): (r: Option<Match>)
    ensures r.Some? <==> exists j :: 0 <= j <= |s| && m(s, j).Some?
    ensures r.Some? ==> exists j :: (0 <= j <= |s| && m(s, j) == r
                                     && forall k :: 0 <= k < j ==> m(s, k).None?)
  {
    match SearchFrom(s, m, 0)
    case None => None
    case Some(j) => m(s, j)
  }

  /** A match with none before it is the one `re.search` reports. */
  lemma SearchAt(s: string, m: Matcher, j: nat)
    requires j <= |s| && m(s, j).Some?
    requires forall k :: 0 <= k < j ==> m(s, k).None?
    ensures Search(s, m) == m(s, j)
  {
    var r := SearchFrom(s, m, 0);
    assert r.Some?;
    assert r.value == j;
  }

  /** `re.finditer(pattern, s)` from `i` on, for a pattern that never matches
      the empty string: each match, the scan going on from its end. */
  function FindAllFrom(s: string, m: Matcher, i: nat): seq<Match>
    decreases |s| + 1 - i
  {
    if i > |s| then []
    else
      var r := m(s, i);
      if r.Some? && r.value.end > i then [r.value] + FindAllFrom(s, m, r.value.end)
      else FindAllFrom(s, m, i + 1)
  }

  /** The first groups of a list of matches, as a set. */
  function Groups(ms: seq<Match>): set<string> {
    set k | 0 <= k < |ms| :: ms[k].group
  }

  /** Every group `finditer` reports belongs to a match at some position. */
  lemma {:induction false} FindAllFromMatches(s: string, m: Matcher, i: nat, name: string)
    requires name in Groups(FindAllFrom(s, m, i))
    ensures exists j :: i <= j <= |s| && m(s, j).Some? && m(s, j).value.group == name
    decreases |s| + 1 - i
  {
    var r := m(s, i);
    if r.Some? && r.value.end > i {
      var rest := FindAllFrom(s, m, r.value.end);
      assert FindAllFrom(s, m, i) == [r.value] + rest;
      if name != r.value.group {
        var k :| 0 <= k < |[r.value] + rest| && ([r.value] + rest)[k].group == name;
        assert rest[k - 1].group == name;
        FindAllFromMatches(s, m, r.value.end, name);
      }
    } else {
      FindAllFromMatches(s, m, i + 1, name);
    }
  }

  /** Greedy `\s*` from `i`: the first index at or after `i` that is not whitespace. */
  function SkipSpace(s: string, i: nat): (j: nat)
    ensures i <= |s| ==> i <= j <= |s|
    ensures i > |s| ==> j == i
    ensures forall k :: i <= k < j ==> IsSpace(s[k])
    ensures j < |s| ==> !IsSpace(s[j])
    decreases |s| - i
  {
    if i < |s| && IsSpace(s[i]) then SkipSpace(s, i + 1) else i
  }

  /** Greedy `[0-9a-fA-F]*` from `i`. */
  function HexRunEnd(s: string, i: nat): (j: nat)
    ensures i <= |s| ==> i <= j <= |s|
    ensures i > |s| ==> j == i
    ensures forall k :: i <= k < j ==> IsHexDigit(s[k])
    ensures j < |s| ==> !IsHexDigit(s[j])
    decreases |s| - i
  {
    if i < |s| && IsHexDigit(s[i]) then HexRunEnd(s, i + 1) else i
  }

  /** `s[i] == c`, false past the end. */
  predicate CharAt(s: string, i: nat, c: char) {
    i < |s| && s[i] == c
  }

  /** `\w`, over ASCII. */
  predicate WordChar(c: char) {
    IsLetter(c) || IsDigit(c) || c == '_'
  }

  /** Greedy `\w*` from `i`. */
  function WordEnd(s: string, i: nat): (j: nat)
    requires i <= |s|
    ensures i <= j <= |s|
    ensures forall k :: i <= k < j ==> WordChar(s[k])
    ensures j < |s| ==> !WordChar(s[j])
    decreases |s| - i
  {
    if i < |s| && WordChar(s[i]) then WordEnd(s, i + 1) else i
  }

  /** `lit` at `i` under `re.IGNORECASE`, for a lower-case `lit`: ASCII
      letters match either case. */
  predicate OccursAtIgnoreCase(s: string, lit: string, i: nat) {
    i + |lit| <= |s| && forall k :: 0 <= k < |lit| ==> LowerChar(s[i + k]) == lit[k]
  }
}
