/** `strings_updater.py`: finding the element of `strings.xml` that holds the
    application name and rewriting it. The two regular expressions the code
    builds per key are written as matchers over the text (see module Scan);
    `re.sub`'s template expansion is a parameter. */
module StringsUpdater {
  import opened Wrappers
  import opened Text
  import opened Scan
  import opened Fs

  /** The resource names tried, in this order, for the application name. */
  const APP_NAME_KEYS: seq<string> := [
    "app_name",
    "game_name",
    "godot_project_name_string",
    "project_name_string",
    "application_name",
    "app_title",
    "app_display_name"
  ]

  const CLOSE_STRING := "</string>"
  const CLOSE_RESOURCES := "</resources>"

  function Quoted(key: string): (r: string)
    ensures |r| == |key| + 2
  {
    "\"" + key + "\""
  }

  /** The resource names hold no `<`, so an opening tag for one of them
      contains no `<` after its first character. */
  predicate PlainKey(key: string) {
    '<' !in key
  }

  /** Lower-case letters and underscores only. */
  predicate SnakeName(key: string) {
    forall j :: 0 <= j < |key| ==> 'a' <= key[j] <= 'z' || key[j] == '_'
  }

  lemma AppNameKeysPlain(i: nat)
    requires i < |APP_NAME_KEYS|
    ensures PlainKey(APP_NAME_KEYS[i]) && '\\' !in APP_NAME_KEYS[i]
  {
    var key := APP_NAME_KEYS[i];
    assert SnakeName(key);
  }

  // ---------------------------------------------------------------------------
  // The two patterns of `_find_app_name_tag`
  // ---------------------------------------------------------------------------

  /** `<string\s+` at `p`: the index just past the whitespace run. */
  function Opening(s: string, p: nat): (r: Option<nat>)
    ensures r.Some? ==> p + 7 < r.value <= |s| && s[p] == '<'
  {
    if !OccursAt(s, "<string", p) then None
    else
      var a := SkipSpace(s, p + 7);
      if a == p + 7 then None
      else
        assert s[p] == "<string"[0];
        Some(a)
  }

  /** `\s*=\s*` at `i`: the index just past the whitespace after `=`. */
  function EqualsSign(s: string, i: nat): (r: Option<nat>)
    ensures r.Some? ==> i < r.value <= |s|
  {
    var b := SkipSpace(s, i);
    if CharAt(s, b, '=') then Some(SkipSpace(s, b + 1)) else None
  }

  /** `name\s*=\s*` at `a`. */
  function NameEquals(s: string, a: nat): (r: Option<nat>)
    ensures r.Some? ==> a + 5 <= r.value <= |s|
  {
    if OccursAt(s, "name", a) then EqualsSign(s, a + 4) else None
  }

  /** `\s*>` at `i`: the index just past the `>`. */
  function Bracket(s: string, i: nat): (r: Option<nat>)
    ensures r.Some? ==> i < r.value <= |s|
  {
    var d := SkipSpace(s, i);
    if CharAt(s, d, '>') then Some(d + 1) else None
  }

  /** `"key"\s*>` at `c`, for `q` the quoted key. */
  function KeyClose(s: string, c: nat, q: string): (r: Option<nat>)
    ensures r.Some? ==> c + |q| < r.value <= |s|
  {
    if OccursAt(s, q, c) then Bracket(s, c + |q|) else None
  }

  /** `name\s*=\s*"key"\s*>` at `a`, for `q` the quoted key. */
  function AfterOpening(s: string, a: nat, q: string): (r: Option<nat>)
    ensures r.Some? ==> a < r.value <= |s|
  {
    match NameEquals(s, a)
    case None => None
    case Some(c) => KeyClose(s, c, q)
  }

  /** The opening part `<string\s+name\s*=\s*"key"\s*>` of the flexible
      pattern at `p`: the index just past its `>`. Every `\s` run is greedy and
      followed by a character that is not whitespace, so no backtracking can
      change the outcome. */
  function OpenTag(s: string, p: nat, key: string): (r: Option<nat>)
    ensures r.Some? ==> p + 7 < r.value <= |s| && s[p] == '<'
  {
    match Opening(s, p)
    case None => None
    case Some(a) => AfterOpening(s, a, Quoted(key))
  }

  /** `name="key">`, the fixed rest of the strict pattern's opening part. */
  function StrictTail(key: string): (r: string)
    ensures |r| == |key| + 8
  {
    "name=" + Quoted(key) + ">"
  }

  /** The opening part `<string\s+name="key">` of the strict pattern at `p`. */
  function LiteralOpenTag(s: string, p: nat, key: string): (r: Option<nat>)
    ensures r.Some? ==> p < r.value <= |s|
  {
    match Opening(s, p)
    case None => None
    case Some(a) => if OccursAt(s, StrictTail(key), a) then Some(a + |key| + 8) else None
  }

  /** The lazy `(.*?)</string>` after an opening tag ending at `h` (with
      `re.DOTALL`, `.` takes line breaks too): the group runs to the first
      `</string>`. */
  function CloseAfter(s: string, h: nat): (r: Option<Match>)
    ensures r.Some? ==> (h <= r.value.end - 9 && r.value.end <= |s|
                         && OccursAt(s, CLOSE_STRING, r.value.end - 9)
                         && r.value.group == s[h..r.value.end - 9])
    ensures r.None? <==> FindFrom(s, CLOSE_STRING, h) < 0
  {
    var e := FindFrom(s, CLOSE_STRING, h);
    if e < 0 then None else Some(Match(e + 9, s[h..e]))
  }

  /** `<string\s+name\s*=\s*"key"\s*>(.*?)</string>` at `p`. */
  function TagAt(s: string, p: nat, key: string): (r: Option<Match>)
    ensures r.Some? ==> p < r.value.end <= |s| && s[p] == '<'
  {
    match OpenTag(s, p, key)
    case None => None
    case Some(h) => CloseAfter(s, h)
  }

  /** `<string\s+name="key">(.*?)</string>` at `p`. */
  function LiteralTagAt(s: string, p: nat, key: string): Option<Match> {
    match LiteralOpenTag(s, p, key)
    case None => None
    case Some(h) => CloseAfter(s, h)
  }

  function Tag(key: string): Matcher {
    (s: string, p: nat) => TagAt(s, p, key)
  }

  function LiteralTag(key: string): Matcher {
    (s: string, p: nat) => LiteralTagAt(s, p, key)
  }

  /** Before one of the tag's punctuation characters a `\s*` run is empty. */
  lemma SkipNone(s: string, i: nat, c: char)
    requires CharAt(s, i, c) && (c == '=' || c == '"' || c == '>' || c == 'n' || c == '<')
    ensures SkipSpace(s, i) == i
  {
    AsciiSpace(c);
  }

  lemma NameEqualsTight(s: string, a: nat)
    requires OccursAt(s, "name", a) && CharAt(s, a + 4, '=') && CharAt(s, a + 5, '"')
    ensures NameEquals(s, a).Some? && NameEquals(s, a).value == a + 5
  {
    SkipNone(s, a + 4, '=');
    SkipNone(s, a + 5, '"');
  }

  lemma KeyCloseTight(s: string, c: nat, q: string)
    requires OccursAt(s, q, c) && CharAt(s, c + |q|, '>')
    ensures KeyClose(s, c, q).Some? && KeyClose(s, c, q).value == c + |q| + 1
  {
    SkipNone(s, c + |q|, '>');
  }

  /** The pieces of `name="key">` at `a`. */
  lemma LiteralPieces(s: string, a: nat, key: string)
    requires OccursAt(s, StrictTail(key), a)
    ensures OccursAt(s, "name", a) && CharAt(s, a + 4, '=') && CharAt(s, a + 5, '"')
    ensures OccursAt(s, Quoted(key), a + 5) && CharAt(s, a + 5 + |Quoted(key)|, '>')
  {
    OccursConcat(s, "name=" + Quoted(key), ">", a);
    OccursConcat(s, "name=", Quoted(key), a);
    OccursConcat(s, "name", "=", a);
    OccursConcat(s, "\"", key + "\"", a + 5);
    assert Quoted(key) == "\"" + (key + "\"");
    OccursChar(s, '=', a + 4);
    OccursChar(s, '"', a + 5);
    OccursChar(s, '>', a + |key| + 7);
  }

  /** The flexible opening part, read with every optional whitespace run empty. */
  lemma AfterOpeningTight(s: string, a: nat, q: string)
    requires OccursAt(s, "name", a) && CharAt(s, a + 4, '=') && CharAt(s, a + 5, '"')
    requires OccursAt(s, q, a + 5) && CharAt(s, a + 5 + |q|, '>')
    ensures AfterOpening(s, a, q).Some? && AfterOpening(s, a, q).value == a + |q| + 6
  {
    KeyCloseTight(s, a + 5, q);
    NameEqualsTight(s, a);
  }

  /** Where the strict opening part matches, the flexible one ends at the same index. */
  lemma OpenTagOfLiteral(s: string, p: nat, key: string)
    requires LiteralOpenTag(s, p, key).Some?
    ensures OpenTag(s, p, key).Some? && OpenTag(s, p, key).value == LiteralOpenTag(s, p, key).value
  {
    StrictTailRead(s, Opening(s, p).value, key);
  }

  lemma StrictTailRead(s: string, a: nat, key: string)
    requires OccursAt(s, StrictTail(key), a)
    ensures AfterOpening(s, a, Quoted(key)).Some? && AfterOpening(s, a, Quoted(key)).value == a + |key| + 8
  {
    LiteralPieces(s, a, key);
    AfterOpeningTight(s, a, Quoted(key));
  }

  /** Wherever the strict pattern matches, the flexible one matches the same
      text with the same group: the strict one is the flexible one with every
      optional whitespace run empty. */
  lemma LiteralTagAtIsTagAt(s: string, p: nat, key: string)
    ensures LiteralTagAt(s, p, key).Some? ==> TagAt(s, p, key) == LiteralTagAt(s, p, key)
  {
    if LiteralOpenTag(s, p, key).Some? {
      OpenTagOfLiteral(s, p, key);
    }
  }

  /** Hence the strict pattern never finds a match the flexible one misses. */
  lemma LiteralTagRedundant(s: string, key: string)
    ensures Search(s, LiteralTag(key)).Some? ==> Search(s, Tag(key)).Some?
  {
    if Search(s, LiteralTag(key)).Some? {
      var j :| 0 <= j <= |s| && LiteralTag(key)(s, j).Some?;
      LiteralTagAtIsTagAt(s, j, key);
      assert Tag(key)(s, j).Some?;
    }
  }

  // ---------------------------------------------------------------------------
  // An opening tag cannot reach past a `<`
  // ---------------------------------------------------------------------------

  /** `t` agrees with `s` before `j`, and both hold `<` at `j`. */
  predicate AgreeTo(s: string, t: string, j: nat) {
    j < |s| && j < |t| && (forall k :: 0 <= k < j ==> s[k] == t[k]) && s[j] == '<' && t[j] == '<'
  }

  /** An occurrence of `lit` at `i` is decided before `j` when `lit` has no
      `<` where it would cover `j`. */
  lemma OccursLocal(s: string, t: string, j: nat, i: nat, lit: string)
    requires AgreeTo(s, t, j) && i <= j
    requires i + |lit| > j ==> lit[j - i] != '<'
    ensures OccursAt(s, lit, i) == OccursAt(t, lit, i)
    ensures OccursAt(s, lit, i) ==> i + |lit| <= j
  {
    if i + |lit| <= j {
      assert s[i..i + |lit|] == t[i..i + |lit|];
    }
  }

  /** A `\s*` run from `i <= j` stops at `j` at the latest, alike in both texts. */
  lemma {:induction false} SkipLocal(s: string, t: string, j: nat, i: nat)
    requires AgreeTo(s, t, j) && i <= j
    ensures SkipSpace(s, i) == SkipSpace(t, i) <= j
    decreases j - i
  {
    if i == j {
      SkipNone(s, j, '<');
      SkipNone(t, j, '<');
    } else {
      if IsSpace(s[i]) {
        SkipLocal(s, t, j, i + 1);
      }
    }
  }

  lemma CharLocal(s: string, t: string, j: nat, b: nat, c: char)
    requires AgreeTo(s, t, j) && b <= j && c != '<'
    ensures CharAt(s, b, c) == CharAt(t, b, c)
    ensures CharAt(s, b, c) ==> b < j
  {
    if b < j {
    }
  }

  lemma OpeningLocal(s: string, t: string, j: nat, p: nat)
    requires AgreeTo(s, t, j) && p < j
    ensures Opening(s, p).Some? == Opening(t, p).Some?
    ensures Opening(s, p).Some? ==> Opening(s, p).value == Opening(t, p).value <= j
  {
    OccursLocal(s, t, j, p, "<string");
    if OccursAt(s, "<string", p) {
      SkipLocal(s, t, j, p + 7);
    }
  }

  lemma EqualsSignLocal(s: string, t: string, j: nat, i: nat)
    requires AgreeTo(s, t, j) && i <= j
    ensures EqualsSign(s, i).Some? == EqualsSign(t, i).Some?
    ensures EqualsSign(s, i).Some? ==> EqualsSign(s, i).value == EqualsSign(t, i).value <= j
  {
    SkipLocal(s, t, j, i);
    var b := SkipSpace(s, i);
    CharLocal(s, t, j, b, '=');
    if CharAt(s, b, '=') {
      SkipLocal(s, t, j, b + 1);
    }
  }

  lemma NameEqualsLocal(s: string, t: string, j: nat, a: nat)
    requires AgreeTo(s, t, j) && a <= j
    ensures NameEquals(s, a).Some? == NameEquals(t, a).Some?
    ensures NameEquals(s, a).Some? ==> NameEquals(s, a).value == NameEquals(t, a).value <= j
  {
    OccursLocal(s, t, j, a, "name");
    if OccursAt(s, "name", a) {
      EqualsSignLocal(s, t, j, a + 4);
    }
  }

  lemma BracketLocal(s: string, t: string, j: nat, i: nat)
    requires AgreeTo(s, t, j) && i <= j
    ensures Bracket(s, i).Some? == Bracket(t, i).Some?
    ensures Bracket(s, i).Some? ==> Bracket(s, i).value == Bracket(t, i).value <= j
  {
    SkipLocal(s, t, j, i);
    CharLocal(s, t, j, SkipSpace(s, i), '>');
  }

  lemma KeyCloseLocal(s: string, t: string, j: nat, c: nat, q: string)
    requires AgreeTo(s, t, j) && c <= j && '<' !in q
    ensures KeyClose(s, c, q).Some? == KeyClose(t, c, q).Some?
    ensures KeyClose(s, c, q).Some? ==> KeyClose(s, c, q).value == KeyClose(t, c, q).value <= j
  {
    OccursLocal(s, t, j, c, q);
    if OccursAt(s, q, c) {
      BracketLocal(s, t, j, c + |q|);
    }
    KeyCloseAlike(s, t, j, c, q);
  }

  lemma KeyCloseAlike(s: string, t: string, j: nat, c: nat, q: string)
    requires OccursAt(s, q, c) == OccursAt(t, q, c)
    requires OccursAt(s, q, c) ==> Bracket(s, c + |q|).Some? == Bracket(t, c + |q|).Some?
    requires OccursAt(s, q, c) && Bracket(s, c + |q|).Some? ==>
      Bracket(s, c + |q|).value == Bracket(t, c + |q|).value <= j
    ensures KeyClose(s, c, q).Some? == KeyClose(t, c, q).Some?
    ensures KeyClose(s, c, q).Some? ==> KeyClose(s, c, q).value == KeyClose(t, c, q).value <= j
  {
  }

  lemma AfterOpeningLocal(s: string, t: string, j: nat, a: nat, q: string)
    requires AgreeTo(s, t, j) && a <= j && '<' !in q
    ensures AfterOpening(s, a, q).Some? == AfterOpening(t, a, q).Some?
    ensures AfterOpening(s, a, q).Some? ==> AfterOpening(s, a, q).value == AfterOpening(t, a, q).value <= j
  {
    NameEqualsLocal(s, t, j, a);
    if NameEquals(s, a).Some? {
      KeyCloseLocal(s, t, j, NameEquals(s, a).value, q);
    }
  }

  /** An opening tag starting before the `<` at `j` is read alike in both
      texts and ends at `j` at the latest. */
  lemma OpenTagLocal(s: string, t: string, j: nat, p: nat, key: string)
    requires AgreeTo(s, t, j) && p < j && PlainKey(key)
    ensures OpenTag(s, p, key).Some? == OpenTag(t, p, key).Some?
    ensures OpenTag(s, p, key).Some? ==> OpenTag(s, p, key).value == OpenTag(t, p, key).value <= j
  {
    OpeningLocal(s, t, j, p);
    if Opening(s, p).Some? {
      assert '<' !in Quoted(key);
      AfterOpeningLocal(s, t, j, Opening(s, p).value, Quoted(key));
    }
  }

  // ---------------------------------------------------------------------------
  // The replacement element `<string name="key">new</string>`
  // ---------------------------------------------------------------------------

  /** `<string name="key">`, the opening part `update_app_name` writes. */
  function OpenLiteral(key: string): (r: string)
    ensures |r| == |key| + 16
  {
    "<string " + StrictTail(key)
  }

  /** The element `update_app_name` substitutes for each match. */
  function Replacement(key: string, name: string): (r: string)
    ensures |r| == |key| + |name| + 25
  {
    OpenLiteral(key) + name + CLOSE_STRING
  }

  /** `<string` followed by exactly one space before `name`. */
  lemma OpeningOneSpace(s: string, p: nat)
    requires OccursAt(s, "<string", p) && CharAt(s, p + 7, ' ') && CharAt(s, p + 8, 'n')
    ensures Opening(s, p).Some? && Opening(s, p).value == p + 8
  {
    AsciiSpace(' ');
    SkipNone(s, p + 8, 'n');
    assert SkipSpace(s, p + 7) == SkipSpace(s, p + 8);
  }

  /** The pieces of `<string name="key">` at `p`. */
  lemma OpenLiteralPieces(s: string, p: nat, key: string)
    requires OccursAt(s, OpenLiteral(key), p)
    ensures OccursAt(s, "<string", p) && CharAt(s, p + 7, ' ')
    ensures OccursAt(s, StrictTail(key), p + 8) && CharAt(s, p + 8, 'n')
  {
    OccursConcat(s, "<string ", StrictTail(key), p);
    OccursConcat(s, "<string", " ", p);
    OccursChar(s, ' ', p + 7);
    LiteralPieces(s, p + 8, key);
    assert s[p + 8..p + 12] == "name";
  }

  /** The flexible opening part reads `<string name="key">` to its end. */
  lemma ReplacementOpens(s: string, p: nat, key: string)
    requires OccursAt(s, OpenLiteral(key), p)
    ensures OpenTag(s, p, key).Some? && OpenTag(s, p, key).value == p + |key| + 16
  {
    OpenLiteralPieces(s, p, key);
    OpeningOneSpace(s, p);
    StrictTailRead(s, p + 8, key);
  }

  /** `</string>` holds no `<` after its first character. */
  lemma CloseStringTail(m: nat)
    requires 1 <= m < |CLOSE_STRING|
    ensures CLOSE_STRING[m] != '<'
  {
  }

  /** An occurrence of `</string>` cannot start inside `name` and run into the
      `</string>` after it. */
  lemma NoCloseBefore(s: string, h: nat, name: string, q: nat)
    requires OccursAt(s, name + CLOSE_STRING, h) && !Contains(name, CLOSE_STRING)
    requires h <= q < h + |name|
    ensures !OccursAt(s, CLOSE_STRING, q)
  {
    OccursConcat(s, name, CLOSE_STRING, h);
    var c := h + |name|;
    if q + |CLOSE_STRING| <= c {
      OccursInSlice(s, h, name, q - h, CLOSE_STRING);
    } else {
      assert s[c] == '<' by {
        assert s[c..c + |CLOSE_STRING|][0] == s[c];
      }
      CloseStringTail(c - q);
      if q + |CLOSE_STRING| <= |s| {
        assert s[q..q + |CLOSE_STRING|][c - q] == s[c];
      }
    }
  }

  /** Inside a stretch of `s` equal to `name`, occurrences are those of `name`. */
  lemma OccursInSlice(s: string, h: nat, name: string, i: nat, lit: string)
    requires h + |name| <= |s| && s[h..h + |name|] == name && i + |lit| <= |name|
    ensures OccursAt(s, lit, h + i) <==> OccursAt(name, lit, i)
  {
    var inS, inName := s[h + i..h + i + |lit|], name[i..i + |lit|];
    forall k | 0 <= k < |lit|
      ensures inS[k] == inName[k]
    {
      assert name[i + k] == s[h..h + |name|][i + k];
    }
    assert inS == inName;
  }

  /** The first `</string>` at or after `h` is the one just past `name`. */
  lemma FirstCloseAfterName(s: string, h: nat, name: string)
    requires OccursAt(s, name + CLOSE_STRING, h) && !Contains(name, CLOSE_STRING)
    ensures FindFrom(s, CLOSE_STRING, h) == h + |name|
  {
    OccursConcat(s, name, CLOSE_STRING, h);
    forall q | h <= q < h + |name|
      ensures !OccursAt(s, CLOSE_STRING, q)
    {
      NoCloseBefore(s, h, name, q);
    }
    FindFromAt(s, CLOSE_STRING, h, h + |name|);
  }

  /** The replacement element, read with the flexible pattern, gives back `name`. */
  lemma ReplacementTag(s: string, p: nat, key: string, name: string)
    requires OccursAt(s, Replacement(key, name), p) && !Contains(name, CLOSE_STRING)
    ensures TagAt(s, p, key).Some? && TagAt(s, p, key).value.group == name
  {
    var h := p + |key| + 16;
    assert OccursAt(s, OpenLiteral(key), p) && OccursAt(s, name + CLOSE_STRING, h) by {
      ReplacementPieces(s, p, key, name);
    }
    assert OpenTag(s, p, key).Some? && OpenTag(s, p, key).value == h by {
      ReplacementOpens(s, p, key);
    }
    assert CloseAfter(s, h).Some? && CloseAfter(s, h).value.group == name by {
      CloseAfterName(s, h, name);
    }
  }

  lemma ReplacementPieces(s: string, p: nat, key: string, name: string)
    requires OccursAt(s, Replacement(key, name), p)
    ensures OccursAt(s, OpenLiteral(key), p)
    ensures OccursAt(s, name + CLOSE_STRING, p + |key| + 16)
  {
    assert Replacement(key, name) == OpenLiteral(key) + (name + CLOSE_STRING);
    OccursConcat(s, OpenLiteral(key), name + CLOSE_STRING, p);
  }

  /** The lazy group after `h` stops at the `</string>` just past `name`. */
  lemma CloseAfterName(s: string, h: nat, name: string)
    requires OccursAt(s, name + CLOSE_STRING, h) && !Contains(name, CLOSE_STRING)
    ensures CloseAfter(s, h).Some? && CloseAfter(s, h).value.group == name
  {
    FirstCloseAfterName(s, h, name);
    OccursConcat(s, name, CLOSE_STRING, h);
  }

  // ---------------------------------------------------------------------------
  // `re.sub` with the flexible pattern, and searching its result
  // ---------------------------------------------------------------------------

  /** `re.sub(pattern, template, s)` from index `i` on: every match, left to
      right and without overlap, is replaced by the template's expansion for
      it (`expand` of the match's group); the text between matches is kept. */
  function SubFrom(s: string, key: string, expand: string -> string, i: nat): (r: string)
    requires i <= |s|
    decreases |s| - i
  {
    match SearchFrom(s, Tag(key), i)
    case None => s[i..]
    case Some(j) =>
      var m := TagAt(s, j, key).value;
      s[i..j] + expand(m.group) + SubFrom(s, key, expand, m.end)
  }

  function SubAll(s: string, key: string, expand: string -> string): string {
    SubFrom(s, key, expand, 0)
  }

  /** With no match, `re.sub` leaves the text as it is. */
  lemma SubWithoutMatch(s: string, key: string, expand: string -> string)
    requires Search(s, Tag(key)).None?
    ensures SubAll(s, key, expand) == s
  {
  }

  /** With a first match at `j`, the text before it is kept and the expansion
      stands at `j`. */
  lemma SubFirst(s: string, key: string, expand: string -> string, j: nat)
    requires SearchFrom(s, Tag(key), 0) == Some(j)
    ensures var t := SubAll(s, key, expand);
      var x := expand(TagAt(s, j, key).value.group);
      j + |x| <= |t| && t[..j] == s[..j] && t[j..j + |x|] == x
  {
    var m := TagAt(s, j, key).value;
    var x := expand(m.group);
    var rest := SubFrom(s, key, expand, m.end);
    var t := SubAll(s, key, expand);
    assert t == s[..j] + x + rest;
    assert t[..j] == s[..j];
    assert t[j..j + |x|] == x;
  }

  /** A later match exists, so an opening tag before it completes to a match. */
  lemma CloseExistsBefore(s: string, j: nat, key: string, p: nat)
    requires TagAt(s, j, key).Some?
    ensures OpenTag(s, p, key).Some? && OpenTag(s, p, key).value <= j ==> TagAt(s, p, key).Some?
  {
    var h0 := OpenTag(s, j, key).value;
    var e := TagAt(s, j, key).value.end;
    assert OccursAt(s, CLOSE_STRING, e - 9) && h0 <= e - 9;
    if OpenTag(s, p, key).Some? && OpenTag(s, p, key).value <= j {
      assert FindFrom(s, CLOSE_STRING, OpenTag(s, p, key).value) >= 0;
    }
  }

  /** Before the first match, a text agreeing with the original up to it has no
      match either. */
  lemma NoEarlierTag(s: string, t: string, j: nat, p: nat, key: string)
    requires AgreeTo(s, t, j) && p < j && PlainKey(key)
    requires TagAt(s, j, key).Some? && TagAt(s, p, key).None?
    ensures TagAt(t, p, key).None?
  {
    OpenTagLocal(s, t, j, p, key);
    CloseExistsBefore(s, j, key, p);
  }

  /** What `update_app_name` checks after rewriting: when the template expands
      literally to the replacement element and the new name holds no
      `</string>`, searching the rewritten text finds the new name. */
  lemma SearchAfterSub(s: string, key: string, name: string, expand: string -> string)
    requires PlainKey(key) && !Contains(name, CLOSE_STRING)
    requires forall g :: expand(g) == Replacement(key, name)
    requires Search(s, Tag(key)).Some?
    ensures var t := SubAll(s, key, expand);
      Search(t, Tag(key)).Some? && Search(t, Tag(key)).value.group == name
  {
    var j := SearchFrom(s, Tag(key), 0).value;
    var t := SubAll(s, key, expand);
    assert AgreeTo(s, t, j) && OccursAt(t, Replacement(key, name), j) by {
      SubPrefix(s, key, name, expand, j);
    }
    assert TagAt(t, j, key).Some? && TagAt(t, j, key).value.group == name by {
      ReplacementTag(t, j, key, name);
    }
    assert forall p :: 0 <= p < j ==> Tag(key)(t, p).None? by {
      NoTagBefore(s, t, j, key);
    }
    SearchAt(t, Tag(key), j);
  }

  /** The rewritten text agrees with the original up to the first match, where
      the replacement element stands. */
  lemma SubPrefix(s: string, key: string, name: string, expand: string -> string, j: nat)
    requires forall g :: expand(g) == Replacement(key, name)
    requires SearchFrom(s, Tag(key), 0) == Some(j)
    ensures AgreeTo(s, SubAll(s, key, expand), j)
    ensures OccursAt(SubAll(s, key, expand), Replacement(key, name), j)
  {
    var t := SubAll(s, key, expand);
    var rep := Replacement(key, name);
    SubFirst(s, key, expand, j);
    assert t[j] == rep[0] == '<' by {
      assert t[j..j + |rep|][0] == t[j];
    }
    forall k | 0 <= k < j
      ensures s[k] == t[k]
    {
      assert s[..j][k] == t[..j][k];
    }
  }

  lemma NoTagBefore(s: string, t: string, j: nat, key: string)
    requires AgreeTo(s, t, j) && PlainKey(key)
    requires SearchFrom(s, Tag(key), 0) == Some(j)
    ensures forall p :: 0 <= p < j ==> Tag(key)(t, p).None?
  {
    forall p | 0 <= p < j
      ensures TagAt(t, p, key).None?
    {
      assert Tag(key)(s, p).None?;
      NoEarlierTag(s, t, j, p, key);
    }
  }

  // ---------------------------------------------------------------------------
  // `_find_app_name_tag`
  // ---------------------------------------------------------------------------

  /** `_find_app_name_tag` over `keys`: for each key in turn the flexible
      pattern, then the strict one; the first match found wins, with its key. */
  function FindTag(content: string, keys: seq<string>): Option<(Match, string)> {
    FirstKey(keys, (key: string) => Search(content, Tag(key)), (key: string) => Search(content, LiteralTag(key)))
  }

  /** The first key for which `flexible` or else `strict` gives a match. */
  function FirstKey(keys: seq<string>, flexible: string -> Option<Match>, strict: string -> Option<Match>):
    Option<(Match, string)>
    decreases |keys|
  {
    if keys == [] then None
    else if flexible(keys[0]).Some? then Some((flexible(keys[0]).value, keys[0]))
    else if strict(keys[0]).Some? then Some((strict(keys[0]).value, keys[0]))
    else FirstKey(keys[1..], flexible, strict)
  }

  /** When `strict` never matches where `flexible` does not, the key found is the
      first for which `flexible` matches, with that match; nothing is found
      exactly when `flexible` matches for no key. */
  lemma {:induction false} FirstKeyFirst(keys: seq<string>, flexible: string -> Option<Match>,
                                         strict: string -> Option<Match>) returns (i: nat)
    requires forall key :: strict(key).Some? ==> flexible(key).Some?
    ensures var found := FirstKey(keys, flexible, strict);
      found.Some? ==> (i < |keys| && found.value.1 == keys[i] && flexible(keys[i]).Some?
                       && found.value.0 == flexible(keys[i]).value
                       && forall k :: 0 <= k < i ==> flexible(keys[k]).None?)
    ensures FirstKey(keys, flexible, strict).None? <==> forall k :: 0 <= k < |keys| ==> flexible(keys[k]).None?
    decreases |keys|
  {
    if keys == [] || flexible(keys[0]).Some? {
      i := 0;
    } else {
      var rest := FirstKeyFirst(keys[1..], flexible, strict);
      i := rest + 1;
      assert forall k :: 0 < k < |keys| ==> keys[k] == keys[1..][k - 1];
    }
  }

  /** The key `_find_app_name_tag` reports is the first whose flexible pattern
      matches, and the match is that pattern's; nothing is found exactly when
      no flexible pattern matches. */
  lemma FindTagFirst(content: string, keys: seq<string>) returns (i: nat)
    ensures var found := FindTag(content, keys);
      found.Some? ==> (i < |keys| && found.value.1 == keys[i] && Search(content, Tag(keys[i])).Some?
                       && found.value.0 == Search(content, Tag(keys[i])).value
                       && forall k :: 0 <= k < i ==> Search(content, Tag(keys[k])).None?)
    ensures FindTag(content, keys).None? <==>
      forall k :: 0 <= k < |keys| ==> Search(content, Tag(keys[k])).None?
  {
    var flexible := (key: string) => Search(content, Tag(key));
    var strict := (key: string) => Search(content, LiteralTag(key));
    forall key
      ensures strict(key).Some? ==> flexible(key).Some?
    {
      LiteralTagRedundant(content, key);
    }
    i := FirstKeyFirst(keys, flexible, strict);
  }

  /** One step of the search over the keys from index `i` on. */
  lemma FindTagFrom(content: string, keys: seq<string>, i: nat)
    requires i < |keys|
    ensures var key := keys[i];
      FindTag(content, keys[i..]) ==
        if Search(content, Tag(key)).Some? then Some((Search(content, Tag(key)).value, key))
        else if Search(content, LiteralTag(key)).Some? then Some((Search(content, LiteralTag(key)).value, key))
        else FindTag(content, keys[i + 1..])
  {
    assert keys[i..][0] == keys[i];
    assert keys[i..][1..] == keys[i + 1..];
  }

  /** The `j`-th of a key's two patterns is the first to match. */
  lemma PatternFound(content: string, keys: seq<string>, i: nat, patterns: seq<Matcher>, j: nat)
    requires i < |keys| && patterns == [Tag(keys[i]), LiteralTag(keys[i])] && j < 2
    requires forall l :: 0 <= l < j ==> Search(content, patterns[l]).None?
    requires Search(content, patterns[j]).Some?
    ensures FindTag(content, keys[i..]) == Some((Search(content, patterns[j]).value, keys[i]))
  {
    FindTagFrom(content, keys, i);
    if j == 1 {
      assert Search(content, patterns[0]).None?;
    }
  }

  /** Neither of a key's patterns matches: the search goes on with the next key. */
  lemma PatternsMissed(content: string, keys: seq<string>, i: nat, patterns: seq<Matcher>)
    requires i < |keys| && patterns == [Tag(keys[i]), LiteralTag(keys[i])]
    requires forall l :: 0 <= l < 2 ==> Search(content, patterns[l]).None?
    ensures FindTag(content, keys[i..]) == FindTag(content, keys[i + 1..])
  {
    FindTagFrom(content, keys, i);
    assert Search(content, patterns[0]).None? && Search(content, patterns[1]).None?;
  }

  // ---------------------------------------------------------------------------
  // `_add_app_name_tag` and the name clean-up
  // ---------------------------------------------------------------------------

  /** `_add_app_name_tag`: the new element goes before every `</resources>`,
      or is appended on a line of its own when there is none. */
  function AddAppNameTag(content: string, newAppName: string): string {
    var element := "    " + Replacement("app_name", newAppName);
    if Contains(content, CLOSE_RESOURCES) then
      ReplaceAll(content, CLOSE_RESOURCES, element + "\n" + CLOSE_RESOURCES)
    else
      content + "\n" + element + "\n"
  }

  /** With a single `</resources>`, the element is inserted just before it and
      nothing else changes. */
  lemma AddBeforeSingleClose(content: string, newAppName: string)
    requires |Split(content, CLOSE_RESOURCES)| == 2
    ensures var i := Find(content, CLOSE_RESOURCES);
      AddAppNameTag(content, newAppName) ==
        content[..i] + "    " + Replacement("app_name", newAppName) + "\n" + content[i..]
  {
    var i := Find(content, CLOSE_RESOURCES);
    var rep := "    " + Replacement("app_name", newAppName) + "\n" + CLOSE_RESOURCES;
    SplitTwo(content, CLOSE_RESOURCES);
    assert Contains(content, CLOSE_RESOURCES);
    ReplaceAllSplit(content, CLOSE_RESOURCES, rep);
    var parts := Split(content, CLOSE_RESOURCES);
    assert Join(parts, rep) == content[..i] + rep + content[i + 12..];
    assert content[i..] == CLOSE_RESOURCES + content[i + 12..];
    Regroup(content[..i], "    ", Replacement("app_name", newAppName), "\n", CLOSE_RESOURCES, content[i + 12..]);
  }

  /** Moving the brackets of a six-part concatenation. */
  lemma Regroup(pre: string, a: string, r: string, n: string, c: string, post: string)
    ensures pre + a + r + n + (c + post) == pre + (a + r + n + c) + post
  {
  }

  /** Whatever the file held, the `app_name` element is found afterwards. */
  lemma AddedTagFound(content: string, newAppName: string)
    ensures Search(AddAppNameTag(content, newAppName), Tag("app_name")).Some?
  {
    var t := AddAppNameTag(content, newAppName);
    var rep := Replacement("app_name", newAppName);
    var q := ElementIn(content, newAppName);
    ReplacementMatches(t, q, "app_name", newAppName);
    assert Tag("app_name")(t, q).Some?;
  }

  /** Where the added element stands. */
  lemma ElementIn(content: string, newAppName: string) returns (q: nat)
    ensures OccursAt(AddAppNameTag(content, newAppName), Replacement("app_name", newAppName), q)
  {
    var t := AddAppNameTag(content, newAppName);
    var rep := Replacement("app_name", newAppName);
    var line := "    " + rep + "\n" + CLOSE_RESOURCES;
    if Contains(content, CLOSE_RESOURCES) {
      ReplaceAllContains(content, CLOSE_RESOURCES, line);
      var i :| 0 <= i <= |t| - |line| && OccursAt(t, line, i);
      assert line == "    " + (rep + ("\n" + CLOSE_RESOURCES));
      OccursConcat(t, "    ", rep + ("\n" + CLOSE_RESOURCES), i);
      OccursConcat(t, rep, "\n" + CLOSE_RESOURCES, i + 4);
      q := i + 4;
    } else {
      q := |content| + 5;
      assert t == (content + "\n    ") + rep + "\n";
      assert t[q..q + |rep|] == rep;
    }
  }

  /** The replacement element is a match of the flexible pattern. */
  lemma ReplacementMatches(s: string, p: nat, key: string, name: string)
    requires OccursAt(s, Replacement(key, name), p)
    ensures TagAt(s, p, key).Some?
  {
    var h := p + |key| + 16;
    assert OccursAt(s, OpenLiteral(key), p) && OccursAt(s, name + CLOSE_STRING, h) by {
      ReplacementPieces(s, p, key, name);
    }
    assert OpenTag(s, p, key).Some? && OpenTag(s, p, key).value == h by {
      ReplacementOpens(s, p, key);
    }
    OccursConcat(s, name, CLOSE_STRING, h);
    assert FindFrom(s, CLOSE_STRING, h) >= 0;
  }

  /** `re.sub(r"\s+", " ", s)`: every run of whitespace becomes one space. */
  function CollapseSpace(s: string): (r: string)
    ensures |s| > 0 ==> |r| > 0 && r[0] == (if IsSpace(s[0]) then ' ' else s[0])
    ensures SingleSpaced(r)
    decreases |s|
  {
    if s == [] then []
    else if IsSpace(s[0]) then
      var rest := LStrip(s);
      AsciiSpace(' ');
      SingleSpacedCons(' ', CollapseSpace(rest));
      " " + CollapseSpace(rest)
    else
      SingleSpacedCons(s[0], CollapseSpace(s[1..]));
      [s[0]] + CollapseSpace(s[1..])
  }

  /** No whitespace but plain spaces, and never two in a row. */
  predicate SingleSpaced(r: string) {
    (forall i :: 0 <= i < |r| && IsSpace(r[i]) ==> r[i] == ' ')
    && (forall i :: 0 <= i < |r| - 1 && r[i] == ' ' ==> !IsSpace(r[i + 1]))
  }

  lemma SingleSpacedCons(c: char, x: string)
    requires SingleSpaced(x)
    requires IsSpace(c) ==> c == ' ' && (|x| > 0 ==> !IsSpace(x[0]))
    ensures SingleSpaced([c] + x)
  {
    var r := [c] + x;
    assert forall i :: 1 <= i < |r| ==> r[i] == x[i - 1];
    if c == ' ' {
      AsciiSpace(' ');
    }
  }

  /** The characters that are not whitespace, in order. */
  function NonSpace(s: string): (r: string)
    ensures forall i :: 0 <= i < |r| ==> !IsSpace(r[i])
  {
    if s == [] then [] else (if IsSpace(s[0]) then [] else [s[0]]) + NonSpace(s[1..])
  }

  /** Collapsing whitespace keeps every other character, in order. */
  lemma {:induction false} CollapseKeepsText(s: string)
    ensures NonSpace(CollapseSpace(s)) == NonSpace(s)
    decreases |s|
  {
    if s != [] {
      var r := CollapseSpace(s);
      if IsSpace(s[0]) {
        var rest := LStrip(s);
        CollapseKeepsText(rest);
        AsciiSpace(' ');
        assert r[1..] == CollapseSpace(rest);
        NonSpaceLStrip(s);
      } else {
        CollapseKeepsText(s[1..]);
        assert r[1..] == CollapseSpace(s[1..]);
      }
    }
  }

  /** Leading whitespace adds nothing to the characters that are not whitespace. */
  lemma {:induction false} NonSpaceLStrip(s: string)
    ensures NonSpace(LStrip(s)) == NonSpace(s)
    decreases |s|
  {
    if s != [] && IsSpace(s[0]) {
      NonSpaceLStrip(s[1..]);
    }
  }

  /** A slice of a single-spaced text is single-spaced. */
  lemma SingleSpacedSlice(r: string, k: nat, n: nat)
    requires SingleSpaced(r) && k + n <= |r|
    ensures SingleSpaced(r[k..k + n])
  {
    var t := r[k..k + n];
    assert forall i :: 0 <= i < n ==> t[i] == r[k + i];
  }

  /** The cleaned name `update_app_name` compares with: whitespace runs made
      single spaces, then stripped. It is in that normal form itself. */
  function CleanName(s: string): (r: string)
    ensures SingleSpaced(r) && SpaceFreeEnds(r)
  {
    StripSingleSpaced(CollapseSpace(s));
    Strip(CollapseSpace(s))
  }

  lemma StripSingleSpaced(c: string)
    requires SingleSpaced(c)
    ensures SingleSpaced(Strip(c)) && SpaceFreeEnds(Strip(c))
  {
    StripShape(c);
    SingleSpacedSlice(c, |c| - |LStrip(c)|, |Strip(c)|);
  }

  // ---------------------------------------------------------------------------
  // `update_app_name`
  // ---------------------------------------------------------------------------

  /** How `re.sub` reads its template: a parse error (`re.error`) or, for the
      group of each match, the text that replaces the match. */
  type TemplateParser = string -> Result<string -> string>

  /** Python's rule that a template without a backslash stands for itself. */
  ghost predicate LiteralTemplates(parse: TemplateParser) {
    (forall t: string :: '\\' !in t ==> parse(t).Ok?)
    && (forall t: string, g: string :: '\\' !in t && parse(t).Ok? ==> parse(t).value(g) == t)
  }

  const UPDATE_ERROR := "Error updating strings.xml: "

  /** What one call of `update_app_name` does: whether it succeeds, its message,
      the text written to the file (if any), and the values it leaves in
      `old_app_name` and `used_key` (None where it leaves them as they were). */
  datatype Outcome = Outcome(success: bool, message: string, written: Option<string>,
                             oldName: Option<string>, usedKey: Option<string>)

  /** `update_app_name(newAppName)` for the file at `path`, given the files and
      directories on disk and the template parser. */
  function UpdatePlan(files: map<string, string>, dirs: set<string>, path: string,
                      newAppName: string, parse: TemplateParser): Outcome
  {
    if path !in files && path !in dirs then
      Outcome(false, "File not found at " + path, None, None, None)
    else if path !in files then
      Outcome(false, UPDATE_ERROR + "[Errno 21] Is a directory: '" + path + "'", None, None, None)
    else
      ContentPlan(files[path], newAppName, parse)
  }

  /** `update_app_name` once the file's text has been read. */
  function ContentPlan(content: string, newAppName: string, parse: TemplateParser): Outcome {
    match FindTag(content, APP_NAME_KEYS)
    case None =>
      Outcome(true, "Added app_name tag with value: '" + newAppName + "'",
              Some(AddAppNameTag(content, newAppName)), None, None)
    case Some((m, key)) => FoundPlan(content, key, Strip(m.group), newAppName, parse)
  }

  /** `update_app_name` once the element under `key` holding `oldName` is found. */
  function FoundPlan(content: string, key: string, oldName: string, newAppName: string,
                     parse: TemplateParser): Outcome
  {
    var clean := CleanName(oldName);
    if clean == newAppName then
      Outcome(true, "app_name already set to '" + newAppName + "' (using key: " + key + ")",
              None, Some(oldName), Some(key))
    else
      match parse(Replacement(key, newAppName))
      case Err(e) => Outcome(false, UPDATE_ERROR + e.message, None, Some(oldName), Some(key))
      case Ok(expand) => RewritePlan(SubAll(content, key, expand), key, oldName, clean, newAppName)
  }

  /** `update_app_name` after `re.sub` produced `newContent`: it is written, and
      the flexible pattern's first match in it is checked. */
  function RewritePlan(newContent: string, key: string, oldName: string, clean: string,
                       newAppName: string): Outcome
  {
    var check := Search(newContent, Tag(key));
    if check.Some? && Strip(check.value.group) == newAppName then
      Outcome(true, "Updated app_name from '" + clean + "' to '" + newAppName + "' (key: " + key + ")",
              Some(newContent), Some(oldName), Some(key))
    else
      Outcome(false, "Update verification failed", Some(newContent), Some(oldName), Some(key))
  }

  /** A file that cannot be read fails without writing and leaves both fields;
      a missing one says so with its path. */
  lemma PlanUnreadable(files: map<string, string>, dirs: set<string>, path: string,
                       newAppName: string, parse: TemplateParser)
    requires path !in files
    ensures var out := UpdatePlan(files, dirs, path, newAppName, parse);
      !out.success && out.written.None? && out.oldName.None? && out.usedKey.None?
      && (path !in dirs ==> out.message == "File not found at " + path)
      && (path in dirs ==> StartsWith(out.message, UPDATE_ERROR))
  {
    if path in dirs {
      var m := UpdatePlan(files, dirs, path, newAppName, parse).message;
      assert m == UPDATE_ERROR + ("[Errno 21] Is a directory: '" + path + "'");
      assert m[..|UPDATE_ERROR|] == UPDATE_ERROR;
    }
  }

  /** With no tag in the file, the `app_name` element is added, and the next
      call finds it under the first key. */
  lemma PlanAdds(files: map<string, string>, dirs: set<string>, path: string,
                 newAppName: string, parse: TemplateParser)
    requires path in files && FindTag(files[path], APP_NAME_KEYS).None?
    ensures var out := UpdatePlan(files, dirs, path, newAppName, parse);
      out.success && out.written.Some? && out.usedKey.None?
      && FindTag(out.written.value, APP_NAME_KEYS).Some?
      && FindTag(out.written.value, APP_NAME_KEYS).value.1 == "app_name"
  {
    var t := AddAppNameTag(files[path], newAppName);
    assert UpdatePlan(files, dirs, path, newAppName, parse).written == Some(t);
    assert Search(t, Tag("app_name")).Some? by {
      AddedTagFound(files[path], newAppName);
    }
    assert FindTag(t, APP_NAME_KEYS).Some? && FindTag(t, APP_NAME_KEYS).value.1 == "app_name";
  }

  /** "Already set" is reported, without writing, only for a name that equals
      the cleaned old one, so only for a name in that normal form. */
  lemma PlanAlreadySet(files: map<string, string>, dirs: set<string>, path: string,
                       newAppName: string, parse: TemplateParser)
    ensures var out := UpdatePlan(files, dirs, path, newAppName, parse);
      out.success && out.written.None? ==> SingleSpaced(newAppName) && SpaceFreeEnds(newAppName)
  {
    if path in files {
      var content := files[path];
      match FindTag(content, APP_NAME_KEYS)
      case None =>
      case Some((m, key)) =>
        FoundAlreadySet(content, key, Strip(m.group), newAppName, parse);
    }
  }

  lemma FoundAlreadySet(content: string, key: string, oldName: string, newAppName: string,
                        parse: TemplateParser)
    ensures var out := FoundPlan(content, key, oldName, newAppName, parse);
      out.success && out.written.None? ==> newAppName == CleanName(oldName)
  {
    if CleanName(oldName) != newAppName {
      match parse(Replacement(key, newAppName))
      case Err(e) =>
      case Ok(expand) =>
        var newContent := SubAll(content, key, expand);
        assert FoundPlan(content, key, oldName, newAppName, parse) ==
          RewritePlan(newContent, key, oldName, CleanName(oldName), newAppName);
        RewriteWrites(newContent, key, oldName, CleanName(oldName), newAppName);
    }
  }

  /** With Python's template rule, a name holding no backslash and no
      `</string>` that differs from the cleaned old one is written into the
      first matching element, and the check afterwards passes exactly when the
      name has no leading or trailing whitespace. */
  lemma PlanRewrites(files: map<string, string>, dirs: set<string>, path: string,
                     newAppName: string, parse: TemplateParser)
    requires LiteralTemplates(parse)
    requires '\\' !in newAppName && !Contains(newAppName, CLOSE_STRING)
    requires path in files
    requires var found := FindTag(files[path], APP_NAME_KEYS);
      found.Some? && CleanName(Strip(found.value.0.group)) != newAppName
    ensures var out := UpdatePlan(files, dirs, path, newAppName, parse);
      var key := FindTag(files[path], APP_NAME_KEYS).value.1;
      out.written.Some?
      && out.written.value == SubAll(files[path], key, Literal(Replacement(key, newAppName)))
      && (out.success <==> Strip(newAppName) == newAppName)
  {
    var content := files[path];
    var i := FindTagFirst(content, APP_NAME_KEYS);
    var found := FindTag(content, APP_NAME_KEYS).value;
    assert PlainKey(found.1) && Search(content, Tag(found.1)).Some? by {
      AppNameKeysPlain(i);
    }
    assert '\\' !in found.1 by {
      AppNameKeysPlain(i);
    }
    assert UpdatePlan(files, dirs, path, newAppName, parse) ==
      FoundPlan(content, found.1, Strip(found.0.group), newAppName, parse);
    FoundRewrites(content, found.1, Strip(found.0.group), newAppName, parse);
  }

  lemma FoundRewrites(content: string, key: string, oldName: string, newAppName: string,
                      parse: TemplateParser)
    requires LiteralTemplates(parse)
    requires '\\' !in newAppName && !Contains(newAppName, CLOSE_STRING)
    requires PlainKey(key) && '\\' !in key && Search(content, Tag(key)).Some?
    requires CleanName(oldName) != newAppName
    ensures var out := FoundPlan(content, key, oldName, newAppName, parse);
      out.written.Some?
      && out.written.value == SubAll(content, key, Literal(Replacement(key, newAppName)))
      && (out.success <==> Strip(newAppName) == newAppName)
  {
    var rep := Replacement(key, newAppName);
    assert '\\' !in rep by {
      ReplacementLiteral(key, newAppName);
    }
    var expand := parse(rep).value;
    var newContent := SubAll(content, key, expand);
    assert forall g :: expand(g) == rep;
    assert newContent == SubAll(content, key, Literal(rep)) by {
      SubSameExpansion(content, key, expand, Literal(rep), 0);
    }
    assert Search(newContent, Tag(key)).Some? && Search(newContent, Tag(key)).value.group == newAppName by {
      SearchAfterSub(content, key, newAppName, expand);
    }
    assert FoundPlan(content, key, oldName, newAppName, parse) ==
      RewritePlan(newContent, key, oldName, CleanName(oldName), newAppName);
    RewriteChecked(newContent, key, oldName, CleanName(oldName), newAppName);
  }

  /** After `re.sub` the new text is always written. */
  lemma RewriteWrites(newContent: string, key: string, oldName: string, clean: string, newAppName: string)
    ensures RewritePlan(newContent, key, oldName, clean, newAppName).written == Some(newContent)
  {
  }

  /** When the check finds the new name, the outcome rests on its whitespace. */
  lemma RewriteChecked(newContent: string, key: string, oldName: string, clean: string, newAppName: string)
    requires Search(newContent, Tag(key)).Some? && Search(newContent, Tag(key)).value.group == newAppName
    ensures var out := RewritePlan(newContent, key, oldName, clean, newAppName);
      out.written == Some(newContent) && (out.success <==> Strip(newAppName) == newAppName)
  {
  }

  /** The template expansion of a template without group references. */
  function Literal(rep: string): (expand: string -> string)
    ensures forall g :: expand(g) == rep
  {
    g => rep
  }

  /** The template holds a backslash only where the key or the name does. */
  lemma ReplacementLiteral(key: string, name: string)
    requires '\\' !in key && '\\' !in name
    ensures '\\' !in Replacement(key, name)
  {
    assert '\\' !in Quoted(key);
    assert '\\' !in StrictTail(key);
    assert '\\' !in OpenLiteral(key);
  }

  /** `re.sub` depends only on what the expansion gives for each group. */
  lemma {:induction false} SubSameExpansion(s: string, key: string, f: string -> string,
                                            g: string -> string, i: nat)
    requires i <= |s| && forall x :: f(x) == g(x)
    ensures SubFrom(s, key, f, i) == SubFrom(s, key, g, i)
    decreases |s| - i
  {
    match SearchFrom(s, Tag(key), i)
    case None =>
    case Some(j) =>
      SubSameExpansion(s, key, f, g, TagAt(s, j, key).value.end);
  }

  // ---------------------------------------------------------------------------
  // The updater object
  // ---------------------------------------------------------------------------

  class StringsUpdater {
    const stringsPath: string
    const disk: Disk
    var oldAppName: Option<string>
    var usedKey: string

    constructor(stringsPath: string, disk: Disk)
      ensures this.stringsPath == stringsPath && this.disk == disk
      ensures oldAppName == None && usedKey == "app_name"
    {
      this.stringsPath := stringsPath;
      this.disk := disk;
      oldAppName := None;
      usedKey := "app_name";
    }

    /** `_find_app_name_tag`: the keys in order, each with the flexible and
        then the strict pattern; the key of a match is remembered. */
    method FindAppNameTag(content: string) returns (found: Option<(Match, string)>)
      modifies this`usedKey
      ensures found == FindTag(content, APP_NAME_KEYS)
      ensures usedKey == if found.Some? then found.value.1 else old(usedKey)
    {
      found := FindTagAmong(content, APP_NAME_KEYS);
    }

    /** The loop of `_find_app_name_tag`, over any list of keys. */
    method FindTagAmong(content: string, keys: seq<string>) returns (found: Option<(Match, string)>)
      modifies this`usedKey
      ensures found == FindTag(content, keys)
      ensures usedKey == if found.Some? then found.value.1 else old(usedKey)
    {
      for i := 0 to |keys|
        invariant FindTag(content, keys) == FindTag(content, keys[i..])
        invariant usedKey == old(usedKey)
      {
        var key := keys[i];
        var patterns := [Tag(key), LiteralTag(key)];
        for j := 0 to |patterns|
          invariant forall l :: 0 <= l < j ==> Search(content, patterns[l]).None?
          invariant usedKey == old(usedKey)
        {
          var m := Search(content, patterns[j]);
          if m.Some? {
            usedKey := key;
            assert FindTag(content, keys[i..]) == Some((m.value, key)) by {
              PatternFound(content, keys, i, patterns, j);
            }
            return Some((m.value, key));
          }
        }
        assert FindTag(content, keys[i..]) == FindTag(content, keys[i + 1..]) by {
          PatternsMissed(content, keys, i, patterns);
        }
      }
      assert keys[|keys|..] == [];
      return None;
    }

    /** `update_app_name`: the outcome, the file written and the fields set are
        those of `UpdatePlan` for the disk as it was. */
    method UpdateAppName(newAppName: string, parse: TemplateParser) returns (success: bool, message: string)
      modifies this`oldAppName, this`usedKey, disk
      ensures var out := UpdatePlan(old(disk.files), old(disk.dirs), stringsPath, newAppName, parse);
        success == out.success && message == out.message
        && disk.files == (if out.written.Some? then old(disk.files)[stringsPath := out.written.value]
                          else old(disk.files))
        && disk.dirs == old(disk.dirs)
        && oldAppName == (if out.oldName.Some? then out.oldName else old(oldAppName))
        && usedKey == (if out.usedKey.Some? then out.usedKey.value else old(usedKey))
    {
      if !disk.Exists(stringsPath) {
        return false, "File not found at " + stringsPath;
      }
      if stringsPath !in disk.files {
        return false, UPDATE_ERROR + "[Errno 21] Is a directory: '" + stringsPath + "'";
      }
      var content := disk.files[stringsPath];
      var written;
      success, message, written := UpdateContent(content, newAppName, parse);
      if written.Some? {
        disk.WriteText(stringsPath, written.value);
      }
    }

    /** The body of `update_app_name` once the file is read: what it returns,
        and the text it writes back, if any. */
    method UpdateContent(content: string, newAppName: string, parse: TemplateParser)
      returns (success: bool, message: string, written: Option<string>)
      modifies this`oldAppName, this`usedKey
      ensures var out := ContentPlan(content, newAppName, parse);
        success == out.success && message == out.message && written == out.written
        && oldAppName == (if out.oldName.Some? then out.oldName else old(oldAppName))
        && usedKey == (if out.usedKey.Some? then out.usedKey.value else old(usedKey))
    {
      ghost var plan := ContentPlan(content, newAppName, parse);
      var found := FindAppNameTag(content);
      if found.None? {
        return true, "Added app_name tag with value: '" + newAppName + "'", Some(AddAppNameTag(content, newAppName));
      }
      var m, key := found.value.0, found.value.1;
      var oldName := Strip(m.group);
      oldAppName := Some(oldName);
      assert plan == FoundPlan(content, key, oldName, newAppName, parse);
      var clean := CleanName(oldName);
      if clean == newAppName {
        return true, "app_name already set to '" + newAppName + "' (using key: " + key + ")", None;
      }
      match parse(Replacement(key, newAppName)) {
        case Err(e) =>
          return false, UPDATE_ERROR + e.message, None;
        case Ok(expand) =>
          var newContent := SubAll(content, key, expand);
          assert plan == RewritePlan(newContent, key, oldName, clean, newAppName);
          var check := Search(newContent, Tag(key));
          if check.Some? && Strip(check.value.group) == newAppName {
            return true, "Updated app_name from '" + clean + "' to '" + newAppName + "' (key: " + key + ")",
              Some(newContent);
          }
          return false, "Update verification failed", Some(newContent);
      }
    }
  }
}
