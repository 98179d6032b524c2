/** Patching `BuildConfig.smali`: reading the old VERSION_CODE, VERSION_NAME,
    APPLICATION_ID and BUILD_TYPE values and rewriting them line by line. */
module SmaliUpdater {
  import opened Wrappers
  import opened Text
  import opened Scan
  import opened Fs

  // ---------------------------------------------------------------------------
  // Field identifiers and the patterns of the first extraction pass
  // ---------------------------------------------------------------------------

  const FIELD_VERSION_CODE := "VERSION_CODE:I = "
  const FIELD_VERSION_NAME := "VERSION_NAME:Ljava/lang/String; = \""
  const FIELD_APPLICATION_ID := "APPLICATION_ID:Ljava/lang/String; = \""
  const FIELD_BUILD_TYPE := "BUILD_TYPE:Ljava/lang/String; = \""

  /** `literal\s*=\s*(0x[0-9a-fA-F]+)` or `literal\s*=\s*"([^"]*)"`. */
  datatype Pattern = HexPattern(literal: string) | QuotedPattern(literal: string)

  /** The class's `PATTERNS`, in dictionary order. */
  const PATTERNS: seq<(string, Pattern)> := [
    ("VERSION_CODE", HexPattern("VERSION_CODE:I")),
    ("VERSION_NAME", QuotedPattern("VERSION_NAME:Ljava/lang/String;")),
    ("APPLICATION_ID", QuotedPattern("APPLICATION_ID:Ljava/lang/String;")),
    ("BUILD_TYPE", QuotedPattern("BUILD_TYPE:Ljava/lang/String;"))
  ]

  /** A pattern tried at position `i`; the group is the hex literal or the quoted text. */
  function MatchAt(p: Pattern, s: string, i: nat): (r: Option<Match>)
    ensures r.Some? ==> OccursAt(s, p.literal, i) && r.value.end <= |s|
    ensures r.Some? && p.HexPattern? ==> IsHexLiteral(r.value.group)
    ensures r.Some? && p.QuotedPattern? ==> '"' !in r.value.group
  {
    if !OccursAt(s, p.literal, i) then None
    else
      var eq := SkipSpace(s, i + |p.literal|);
      if !CharAt(s, eq, '=') then None
      else
        var v := SkipSpace(s, eq + 1);
        match p
        case HexPattern(_) => HexAt(s, v)
        case QuotedPattern(_) => QuotedAt(s, v)
  }

  /** `0x[0-9a-fA-F]+`. */
  predicate IsHexLiteral(g: string) {
    |g| > 2 && g[..2] == "0x" && forall k :: 2 <= k < |g| ==> IsHexDigit(g[k])
  }

  /** `(0x[0-9a-fA-F]+)` at `v`, the group being the whole literal. */
  function HexAt(s: string, v: nat): (r: Option<Match>)
    ensures r.Some? ==> r.value.end <= |s| && IsHexLiteral(r.value.group)
  {
    if !OccursAt(s, "0x", v) then None
    else
      var e := HexRunEnd(s, v + 2);
      if e == v + 2 then None
      else
        var g := s[v..e];
        assert g[..2] == s[v..v + 2];
        assert forall k :: 2 <= k < |g| ==> g[k] == s[v + k];
        Some(Match(e, g))
  }

  /** `"([^"]*)"` at `v`, the group being the text between the quotes. */
  function QuotedAt(s: string, v: nat): (r: Option<Match>)
    ensures r.Some? ==> r.value.end <= |s| && '"' !in r.value.group
  {
    if !CharAt(s, v, '"') then None
    else
      var e := FindFrom(s, "\"", v + 1);
      if e < 0 then None
      else
        assert '"' !in s[v + 1..e] by {
          forall j | v + 1 <= j < e ensures s[j] != '"' {
            OccursChar(s, '"', j);
          }
        }
        Some(Match(e + 1, s[v + 1..e]))
  }

  function MatcherOf(p: Pattern): Matcher {
    (s: string, i: nat) => MatchAt(p, s, i)
  }

  /** Puts `v` under `name` when there is one. */
  function Put(acc: map<string, string>, name: string, v: Option<string>): map<string, string> {
    if v.Some? then acc[name := v.value] else acc
  }

  /** The first group of the leftmost match of `p` in `content`, if there is one. */
  function FirstGroup(content: string, p: Pattern): (g: Option<string>)
    ensures g.Some? <==> Search(content, MatcherOf(p)).Some?
    ensures g.Some? ==> g.value == Search(content, MatcherOf(p)).value.group
  {
    var m := Search(content, MatcherOf(p));
    if m.Some? then Some(m.value.group) else None
  }

  /** `_extract_with_regex` over the first `pats`: each pattern's first match, if any, is stored. */
  function RegexValues(content: string, pats: seq<(string, Pattern)>, acc: map<string, string>): map<string, string> {
    if pats == [] then acc
    else
      var last := pats[|pats| - 1];
      Put(RegexValues(content, pats[..|pats| - 1], acc), last.0, FirstGroup(content, last.1))
  }

  /** `r` holds `g` under `name` when there is one, and otherwise what `acc` held there. */
  predicate Stored(r: map<string, string>, acc: map<string, string>, name: string, g: Option<string>) {
    (g.Some? ==> name in r && r[name] == g.value)
    && (g.None? ==> (name in r <==> name in acc) && (name in acc ==> r[name] == acc[name]))
  }

  /** Storing under another name keeps what `Stored` says. */
  lemma PutKeepsStored(r: map<string, string>, acc: map<string, string>, name: string, g: Option<string>,
                       other: string, v: Option<string>)
    requires Stored(r, acc, name, g) && other != name
    ensures Stored(Put(r, other, v), acc, name, g)
  {
  }

  /** `Put` under `key` stores `v` under `key` and keeps every other name. */
  lemma PutStored(r: map<string, string>, key: string, v: Option<string>, name: string) returns (g: Option<string>)
    ensures g == if key == name then v else None
    ensures Stored(Put(r, key, v), r, name, g)
  {
    g := if key == name then v else None;
  }

  /** Two passes in a row: the later stored value wins, otherwise the earlier one stays. */
  lemma StoredChain(acc: map<string, string>, r1: map<string, string>, r2: map<string, string>, name: string,
                    g1: Option<string>, g2: Option<string>)
    requires Stored(r1, acc, name, g1) && Stored(r2, r1, name, g2)
    ensures Stored(r2, acc, name, if g2.Some? then g2 else g1)
  {
  }

  /** The regex pass stores, for each field, the group of its leftmost match, and
      keeps the previous value of a field whose pattern does not match anywhere. */
  lemma RegexPassMeaning(content: string, acc: map<string, string>, k: nat)
    requires k < |PATTERNS|
    ensures var (name, p) := PATTERNS[k];
      var r := RegexValues(content, PATTERNS, acc);
      var m := Search(content, MatcherOf(p));
      (m.Some? ==> name in r && r[name] == m.value.group)
      && (m.None? ==> (name in r <==> name in acc) && (name in acc ==> r[name] == acc[name]))
  {
    RegexValuesEntry(content, PATTERNS, acc, k);
  }

  /** A pattern whose name no other pattern shares decides that name's entry. */
  lemma {:induction false} RegexValuesEntry(content: string, pats: seq<(string, Pattern)>, acc: map<string, string>, k: nat)
    requires k < |pats|
    requires forall j :: 0 <= j < |pats| && j != k ==> pats[j].0 != pats[k].0
    ensures Stored(RegexValues(content, pats, acc), acc, pats[k].0, FirstGroup(content, pats[k].1))
  {
    var init := pats[..|pats| - 1];
    var last := pats[|pats| - 1];
    if k < |pats| - 1 {
      assert init[k] == pats[k];
      RegexValuesEntry(content, init, acc, k);
      PutKeepsStored(RegexValues(content, init, acc), acc, pats[k].0, FirstGroup(content, pats[k].1), last.0, FirstGroup(content, last.1));
    } else {
      RegexValuesUntouched(content, init, acc, pats[k].0);
    }
  }

  /** One more pattern of the pass stores its own first group. */
  lemma RegexValuesStep(content: string, pats: seq<(string, Pattern)>, i: nat, acc: map<string, string>)
    requires i < |pats|
    ensures RegexValues(content, pats[..i + 1], acc)
      == Put(RegexValues(content, pats[..i], acc), pats[i].0, FirstGroup(content, pats[i].1))
  {
    assert pats[..i + 1][..i] == pats[..i];
  }

  /** A name that no pattern carries keeps its entry. */
  lemma {:induction false} RegexValuesUntouched(content: string, pats: seq<(string, Pattern)>, acc: map<string, string>, name: string)
    requires forall j :: 0 <= j < |pats| ==> pats[j].0 != name
    ensures var r := RegexValues(content, pats, acc);
      (name in r <==> name in acc) && (name in acc ==> r[name] == acc[name])
  {
    if pats != [] {
      RegexValuesUntouched(content, pats[..|pats| - 1], acc, name);
    }
  }

  // ---------------------------------------------------------------------------
  // Quoted string values
  // ---------------------------------------------------------------------------

  /** `_parse_string_value`: the text between the first `= "` and the next `"`. */
  function ParseStringValue(line: string): (r: Option<string>)
    ensures r.Some? <==> Find(line, "= \"") >= 0 && Contains(line[Find(line, "= \"") + 3..], "\"")
    ensures r.Some? ==> var start := Find(line, "= \"") + 3;
      '"' !in r.value && start + |r.value| < |line|
      && line[start..start + |r.value|] == r.value && line[start + |r.value|] == '"'
  {
    var i := Find(line, "= \"");
    if i == -1 then None
    else
      var start := i + 3;
      var e := FindFrom(line, "\"", start);
      QuoteAfter(line, start, e);
      if e != -1 then Some(line[start..e]) else None
  }

  /** What `find('"', start)` says about the characters after `start`. */
  lemma QuoteAfter(line: string, start: nat, e: int)
    requires start <= |line| && e == FindFrom(line, "\"", start)
    ensures e >= 0 <==> Contains(line[start..], "\"")
    ensures e >= 0 ==> start <= e < |line| && line[e] == '"' && '"' !in line[start..e]
  {
    if e >= 0 {
      OccursChar(line, '"', e);
      forall j | start <= j < e ensures line[j] != '"' {
        OccursChar(line, '"', j);
      }
      OccursShift(line[..start], line[start..], "\"", e - start);
      assert line[..start] + line[start..] == line;
    } else {
      forall j | 0 <= j <= |line[start..]| - 1 ensures !OccursAt(line[start..], "\"", j) {
        OccursShift(line[..start], line[start..], "\"", j);
        assert line[..start] + line[start..] == line;
      }
    }
  }

  /** `_update_string_value`: only the quoted span after the first `= "` is replaced. */
  function UpdateStringValue(line: string, v: string): (r: string)
    ensures ParseStringValue(line).None? ==> r == line
    ensures ParseStringValue(line).Some? ==>
      var start := Find(line, "= \"") + 3; var prev := ParseStringValue(line).value;
      r == line[..start] + v + line[start + |prev|..]
  {
    var i := Find(line, "= \"");
    if i == -1 then line
    else
      var start := i + 3;
      var e := FindFrom(line, "\"", start);
      QuoteAfter(line, start, e);
      if e != -1 then line[..start] + v + line[e..] else line
  }

  /** Parsing after an update gives back the new value, provided it holds no quote. */
  lemma ParseAfterUpdate(line: string, v: string)
    requires ParseStringValue(line).Some?
    requires '"' !in v
    ensures ParseStringValue(UpdateStringValue(line, v)) == Some(v)
  {
    var i := Find(line, "= \"");
    var start := i + 3;
    var prev := ParseStringValue(line).value;
    var rest := line[start + |prev|..];
    var u := UpdateStringValue(line, v);
    assert u == line[..start] + v + rest;
    // The first `= "` is still at `i`: the text up to `start` is unchanged.
    assert OccursAt(u, "= \"", i) by {
      assert u[i..i + 3] == line[i..i + 3];
    }
    forall j | 0 <= j < i ensures !OccursAt(u, "= \"", j) {
      assert !OccursAt(line, "= \"", j);
      assert u[j..j + 3] == line[j..j + 3];
    }
    assert Find(u, "= \"") == i by {
      var f := Find(u, "= \"");
      assert f != -1 && f <= i;
    }
    var e := FindFrom(u, "\"", start);
    QuoteAfter(u, start, e);
    assert u[start + |v|] == '"';
    assert OccursAt(u, "\"", start + |v|) by { OccursChar(u, '"', start + |v|); }
    forall j | start <= j < start + |v| ensures !OccursAt(u, "\"", j) {
      OccursChar(u, '"', j);
      assert u[j] == v[j - start];
    }
    assert e == start + |v|;
    assert u[start..e] == v;
  }

  /** Updating leaves the line as it was exactly when there is no quoted value or
      the value is already the new one. */
  lemma UpdateUnchangedIff(line: string, v: string)
    ensures UpdateStringValue(line, v) == line
      <==> ParseStringValue(line).None? || ParseStringValue(line) == Some(v)
  {
    var p := ParseStringValue(line);
    if p.Some? {
      var start := Find(line, "= \"") + 3;
      var prev := p.value;
      var u := UpdateStringValue(line, v);
      assert line == line[..start] + prev + line[start + |prev|..];
      if u == line {
        assert |v| == |prev|;
        assert v == u[start..start + |v|];
      }
    }
  }

  // ---------------------------------------------------------------------------
  // The version code
  // ---------------------------------------------------------------------------

  /** `f"0x{version_code:x}".lower()`. */
  function VersionHex(code: int): string {
    Lower("0x" + HexIntStr(code))
  }

  /** For a non-negative code the text is `0x` and lower-case hex digits that read back as the code. */
  lemma VersionHexReadsBack(code: nat)
    ensures VersionHex(code) == "0x" + HexStr(code)
    ensures ParseHex(VersionHex(code)) == Some(code)
  {
    var t := "0x" + HexStr(code);
    forall k | 0 <= k < |t| ensures LowerChar(t[k]) == t[k] {
      if k >= 2 { assert t[k] == HexStr(code)[k - 2]; }
    }
    ParseHexStr(code);
  }

  /** `_update_version_code`: a line with exactly one `0x` keeps the text before it,
      then the new hex and a newline; anything after the old hex is dropped. */
  function UpdateVersionCode(line: string, hex: string): (r: string)
    ensures var i := Find(line, "0x");
      (i >= 0 && !Contains(line[i + 2..], "0x")) ==> r == line[..i] + hex + "\n"
    ensures var i := Find(line, "0x");
      !(i >= 0 && !Contains(line[i + 2..], "0x")) ==> r == line
  {
    var parts := Split(line, "0x");
    SplitTwo(line, "0x");
    if |parts| == 2 then parts[0] + hex + "\n" else line
  }

  /** `_extract_version_code`: a line holding the field and exactly one `0x` gives
      `0x` and the stripped text after it. */
  function VersionCodeOfLine(line: string): (r: Option<string>)
    ensures var i := Find(line, "0x");
      r.Some? <==> Contains(line, FIELD_VERSION_CODE) && i >= 0 && !Contains(line[i + 2..], "0x")
    ensures r.Some? ==> r.value == "0x" + Strip(line[Find(line, "0x") + 2..])
  {
    if Contains(line, FIELD_VERSION_CODE) && Contains(line, "0x") then
      var parts := Split(line, "0x");
      SplitTwo(line, "0x");
      if |parts| == 2 then
        var hexStr := RStripSet(Strip(parts[1]), {'\n'});
        StripEndsClean(parts[1]);
        Some("0x" + hexStr)
      else None
    else None
  }

  /** `s.strip().rstrip("\n")` is `s.strip()`. */
  lemma StripEndsClean(s: string)
    ensures RStripSet(Strip(s), {'\n'}) == Strip(s)
  {
    assert IsSpace('\n');
    StripShape(s);
  }

  /** After the version-code update, the line scan reads back the new code, as long as
      the field name stands before the `0x`. */
  lemma VersionCodeRoundTrip(line: string, code: int)
    requires var i := Find(line, "0x");
      i >= 0 && !Contains(line[i + 2..], "0x") && Contains(line[..i], FIELD_VERSION_CODE)
    ensures VersionCodeOfLine(UpdateVersionCode(line, VersionHex(code))) == Some(VersionHex(code))
  {
    var i := Find(line, "0x");
    var digits := HexIntStr(code);
    VersionHexShape(code);
    var tail := digits + "\n";
    var u := line[..i] + VersionHex(code) + "\n";
    assert u == line[..i] + "0x" + tail;
    assert 'x' !in tail;
    FirstOccurrenceKept(line, i, tail);
    assert u[i + 2..] == tail;
    NoPairWithoutX(tail);
    ContainsPrefix(line[..i], "0x" + tail, FIELD_VERSION_CODE);
    assert line[..i] + ("0x" + tail) == u;
    StripTrailingNewline(digits);
  }

  /** `VersionHex` is `0x` and `format(code, "x")`, which holds no `x` and no whitespace. */
  lemma VersionHexShape(code: int)
    ensures VersionHex(code) == "0x" + HexIntStr(code)
    ensures |HexIntStr(code)| > 0 && 'x' !in HexIntStr(code)
    ensures forall k :: 0 <= k < |HexIntStr(code)| ==> !IsSpace(HexIntStr(code)[k])
  {
    var digits := HexIntStr(code);
    HexIntStrPlain(code);
    var t := "0x" + digits;
    assert forall k :: 2 <= k < |t| ==> t[k] == digits[k - 2];
    LowerNoop(t);
  }

  /** The characters of `format(code, "x")` are neither `x`, whitespace nor upper case. */
  lemma HexIntStrPlain(code: int)
    ensures var d := HexIntStr(code);
      |d| > 0 && forall k :: 0 <= k < |d| ==> d[k] != 'x' && !IsSpace(d[k]) && LowerChar(d[k]) == d[k]
  {
    var h := HexStr(if code < 0 then -code else code);
    HexStrPlain(if code < 0 then -code else code);
    if code < 0 {
      var d := "-" + h;
      forall k | 0 <= k < |d| ensures d[k] != 'x' && !IsSpace(d[k]) && LowerChar(d[k]) == d[k] {
        if k == 0 {
          AsciiSpace('-');
        } else {
          assert d[k] == h[k - 1];
        }
      }
    }
  }

  /** The digits of `format(n, "x")` are neither `x`, whitespace nor upper case. */
  lemma HexStrPlain(n: nat)
    ensures forall k :: 0 <= k < |HexStr(n)| ==>
      HexStr(n)[k] != 'x' && !IsSpace(HexStr(n)[k]) && LowerChar(HexStr(n)[k]) == HexStr(n)[k]
  {
    var h := HexStr(n);
    forall k | 0 <= k < |h| ensures h[k] != 'x' && !IsSpace(h[k]) && LowerChar(h[k]) == h[k] {
      assert IsHexDigit(h[k]) && !('A' <= h[k] <= 'F');
      AsciiSpace(h[k]);
    }
  }

  /** Replacing everything from the first `0x` by `0x` and a tail without `x`
      keeps that first occurrence where it was. */
  lemma FirstOccurrenceKept(line: string, i: nat, tail: string)
    requires i == Find(line, "0x")
    ensures Find(line[..i] + "0x" + tail, "0x") == i
  {
    var u := line[..i] + "0x" + tail;
    forall j | 0 <= j < i ensures !OccursAt(u, "0x", j) {
      assert !OccursAt(line, "0x", j);
      if j + 2 <= i {
        assert u[j..j + 2] == line[j..j + 2];
      } else {
        assert u[j + 1] == '0';
      }
    }
    assert OccursAt(u, "0x", i);
  }

  lemma NoPairWithoutX(t: string)
    requires 'x' !in t
    ensures !Contains(t, "0x")
  {
    forall j | 0 <= j <= |t| - 2 ensures !OccursAt(t, "0x", j) {
      assert t[j + 1] in t;
    }
  }

  lemma StripTrailingNewline(d: string)
    requires |d| > 0 && forall k :: 0 <= k < |d| ==> !IsSpace(d[k])
    ensures Strip(d + "\n") == d
  {
    var t := d + "\n";
    assert LStrip(t) == t;
    assert t[..|t| - 1] == d;
    assert RStrip(t) == RStrip(d);
  }

  // ---------------------------------------------------------------------------
  // Rewriting one line
  // ---------------------------------------------------------------------------

  datatype FieldKind = CodeField | StringField

  /** One entry of the update configuration: identifier, name, new value, updater. */
  datatype Field = Field(identifier: string, name: string, newValue: string, kind: FieldKind)

  /** A reported change: `(field_name, new_value)`. */
  datatype Change = Change(name: string, value: string)

  /** The `config` dictionary of `update_build_config`, in its insertion order. */
  function Config(code: int, versionName: string, applicationId: string, buildType: string): seq<Field> {
    [ Field(FIELD_VERSION_CODE, "VERSION_CODE", VersionHex(code), CodeField),
      Field(FIELD_VERSION_NAME, "VERSION_NAME", versionName, StringField),
      Field(FIELD_APPLICATION_ID, "APPLICATION_ID", applicationId, StringField),
      Field(FIELD_BUILD_TYPE, "BUILD_TYPE", buildType, StringField) ]
  }

  function Apply(f: Field, line: string): string {
    match f.kind
    case CodeField => UpdateVersionCode(line, f.newValue)
    case StringField => UpdateStringValue(line, f.newValue)
  }

  /** The field decides the line: its identifier occurs, and a version-code line also has a `0x`. */
  predicate Decides(line: string, f: Field) {
    Contains(line, f.identifier) && (f.identifier == FIELD_VERSION_CODE ==> Contains(line, "0x"))
  }

  /** The outcome once `f` decides: the updated line and a change iff the line changed. */
  function Decided(line: string, f: Field): (string, Option<Change>) {
    var u := Apply(f, line);
    (u, if u != line then Some(Change(f.name, f.newValue)) else None)
  }

  /** What `_process_line` returns: the first deciding field rewrites the line. */
  function LineOutcome(line: string, cfg: seq<Field>): (r: (string, Option<Change>))
    ensures r.1.Some? <==> r.0 != line
  {
    if cfg == [] then (line, None)
    else if Decides(line, cfg[0]) then Decided(line, cfg[0])
    else LineOutcome(line, cfg[1..])
  }

  /** A line that no field decides is kept and reports nothing. */
  lemma {:induction false} NoFieldKeepsLine(line: string, cfg: seq<Field>)
    requires forall k :: 0 <= k < |cfg| ==> !Decides(line, cfg[k])
    ensures LineOutcome(line, cfg) == (line, None)
  {
    if cfg != [] {
      assert !Decides(line, cfg[0]);
      NoFieldKeepsLine(line, cfg[1..]);
    }
  }

  /** The first deciding field alone determines the outcome. */
  lemma {:induction false} FirstFieldDecides(line: string, cfg: seq<Field>, k: nat)
    requires k < |cfg| && Decides(line, cfg[k])
    requires forall j :: 0 <= j < k ==> !Decides(line, cfg[j])
    ensures LineOutcome(line, cfg) == Decided(line, cfg[k])
  {
    if k > 0 {
      assert !Decides(line, cfg[0]);
      assert cfg[1..][k - 1] == cfg[k];
      FirstFieldDecides(line, cfg[1..], k - 1);
    }
  }

  // ---------------------------------------------------------------------------
  // Rewriting all lines
  // ---------------------------------------------------------------------------

  /** The lines after `_process_line`, one for one. */
  function UpdatedLines(lines: seq<string>, cfg: seq<Field>): (r: seq<string>)
    ensures |r| == |lines|
    ensures forall k :: 0 <= k < |lines| ==> r[k] == LineOutcome(lines[k], cfg).0
  {
    if lines == [] then []
    else
      var init := lines[..|lines| - 1];
      var r := UpdatedLines(init, cfg) + [LineOutcome(lines[|lines| - 1], cfg).0];
      assert forall k :: 0 <= k < |init| ==> r[k] == UpdatedLines(init, cfg)[k] && init[k] == lines[k];
      r
  }

  /** The reported changes, in line order. */
  function ChangesOf(lines: seq<string>, cfg: seq<Field>): seq<Change> {
    if lines == [] then []
    else
      var c := LineOutcome(lines[|lines| - 1], cfg).1;
      ChangesOf(lines[..|lines| - 1], cfg) + (if c.Some? then [c.value] else [])
  }

  /** One more line: its outcome is appended to the lines and the changes. */
  lemma LinesStep(lines: seq<string>, i: nat, cfg: seq<Field>)
    requires i < |lines|
    ensures UpdatedLines(lines[..i + 1], cfg) == UpdatedLines(lines[..i], cfg) + [LineOutcome(lines[i], cfg).0]
    ensures var c := LineOutcome(lines[i], cfg).1;
      ChangesOf(lines[..i + 1], cfg) == ChangesOf(lines[..i], cfg) + (if c.Some? then [c.value] else [])
  {
    assert lines[..i + 1][..i] == lines[..i];
  }

  /** Some change is reported exactly when some line differs after the update. */
  lemma {:induction false} ChangesIffLineChanged(lines: seq<string>, cfg: seq<Field>)
    ensures ChangesOf(lines, cfg) == [] <==> UpdatedLines(lines, cfg) == lines
  {
    if lines != [] {
      var init := lines[..|lines| - 1];
      ChangesIffLineChanged(init, cfg);
      var u := UpdatedLines(lines, cfg);
      assert u[..|u| - 1] == UpdatedLines(init, cfg);
      if u == lines {
        assert u[..|u| - 1] == init;
      }
      if UpdatedLines(init, cfg) == init && LineOutcome(lines[|lines| - 1], cfg).0 == lines[|lines| - 1] {
        assert lines == init + [lines[|lines| - 1]];
      }
    }
  }

  /** Every reported change names a field of the configuration and carries its new value. */
  lemma {:induction false} ChangesComeFromConfig(lines: seq<string>, cfg: seq<Field>, c: Change)
    requires c in ChangesOf(lines, cfg)
    ensures exists k :: 0 <= k < |cfg| && c == Change(cfg[k].name, cfg[k].newValue)
  {
    var init := lines[..|lines| - 1];
    var line := lines[|lines| - 1];
    if c in ChangesOf(init, cfg) {
      ChangesComeFromConfig(init, cfg, c);
    } else {
      var r := LineOutcome(line, cfg);
      assert r.1 == Some(c);
      if forall k :: 0 <= k < |cfg| ==> !Decides(line, cfg[k]) {
        NoFieldKeepsLine(line, cfg);
      } else {
        var k := FirstDeciding(line, cfg);
        FirstFieldDecides(line, cfg, k);
      }
    }
  }

  function FirstDeciding(line: string, cfg: seq<Field>): (k: nat)
    requires exists k :: 0 <= k < |cfg| && Decides(line, cfg[k])
    ensures k < |cfg| && Decides(line, cfg[k])
    ensures forall j :: 0 <= j < k ==> !Decides(line, cfg[j])
  {
    if Decides(line, cfg[0]) then 0
    else
      assert exists k :: 0 <= k < |cfg[1..]| && Decides(line, cfg[1..][k]) by {
        var k :| 0 <= k < |cfg| && Decides(line, cfg[k]);
        assert cfg[1..][k - 1] == cfg[k];
      }
      1 + FirstDeciding(line, cfg[1..])
  }

  // ---------------------------------------------------------------------------
  // The line-scan extraction pass
  // ---------------------------------------------------------------------------

  /** What one line says about a field in the line scan. */
  function FieldOfLine(line: string, name: string): Option<string> {
    if name == "VERSION_CODE" then VersionCodeOfLine(line)
    else if name == "VERSION_NAME" then StringFieldOfLine(line, FIELD_VERSION_NAME)
    else if name == "APPLICATION_ID" then StringFieldOfLine(line, FIELD_APPLICATION_ID)
    else if name == "BUILD_TYPE" then StringFieldOfLine(line, FIELD_BUILD_TYPE)
    else None
  }

  /** `_extract_string_field`. */
  function StringFieldOfLine(line: string, identifier: string): Option<string> {
    if Contains(line, identifier) then ParseStringValue(line) else None
  }

  /** One iteration of `_extract_from_lines`. */
  function ScanLine(line: string, acc: map<string, string>): map<string, string> {
    var a := Put(acc, "VERSION_CODE", VersionCodeOfLine(line));
    var b := Put(a, "VERSION_NAME", StringFieldOfLine(line, FIELD_VERSION_NAME));
    var c := Put(b, "APPLICATION_ID", StringFieldOfLine(line, FIELD_APPLICATION_ID));
    Put(c, "BUILD_TYPE", StringFieldOfLine(line, FIELD_BUILD_TYPE))
  }

  /** One line stores, under each field name, what that line says about the field. */
  lemma ScanLineEntry(line: string, acc: map<string, string>, name: string)
    ensures Stored(ScanLine(line, acc), acc, name, FieldOfLine(line, name))
  {
    var a := Put(acc, "VERSION_CODE", VersionCodeOfLine(line));
    var b := Put(a, "VERSION_NAME", StringFieldOfLine(line, FIELD_VERSION_NAME));
    var c := Put(b, "APPLICATION_ID", StringFieldOfLine(line, FIELD_APPLICATION_ID));
    var ga := PutStored(acc, "VERSION_CODE", VersionCodeOfLine(line), name);
    var gb := PutStored(a, "VERSION_NAME", StringFieldOfLine(line, FIELD_VERSION_NAME), name);
    var gc := PutStored(b, "APPLICATION_ID", StringFieldOfLine(line, FIELD_APPLICATION_ID), name);
    var gd := PutStored(c, "BUILD_TYPE", StringFieldOfLine(line, FIELD_BUILD_TYPE), name);
    StoredChain(acc, a, b, name, ga, gb);
    var gab := if gb.Some? then gb else ga;
    StoredChain(acc, b, c, name, gab, gc);
    var gabc := if gc.Some? then gc else gab;
    StoredChain(acc, c, ScanLine(line, acc), name, gabc, gd);
  }

  function ScanLines(lines: seq<string>, acc: map<string, string>): map<string, string> {
    if lines == [] then acc else ScanLine(lines[|lines| - 1], ScanLines(lines[..|lines| - 1], acc))
  }

  /** In the line scan the last line that yields a field's value wins. */
  lemma {:induction false} LastLineWins(lines: seq<string>, acc: map<string, string>, name: string, k: nat)
    requires k < |lines| && FieldOfLine(lines[k], name).Some?
    requires forall j :: k < j < |lines| ==> FieldOfLine(lines[j], name).None?
    ensures name in ScanLines(lines, acc) && ScanLines(lines, acc)[name] == FieldOfLine(lines[k], name).value
  {
    var init := lines[..|lines| - 1];
    ScanLineEntry(lines[|lines| - 1], ScanLines(init, acc), name);
    if k < |lines| - 1 {
      LastLineWins(init, acc, name, k);
    }
  }

  /** A field that no line yields keeps the value it had before the scan. */
  lemma {:induction false} NoLineKeepsValue(lines: seq<string>, acc: map<string, string>, name: string)
    requires forall j :: 0 <= j < |lines| ==> FieldOfLine(lines[j], name).None?
    ensures (name in ScanLines(lines, acc) <==> name in acc)
    ensures name in acc ==> ScanLines(lines, acc)[name] == acc[name]
  {
    if lines != [] {
      var init := lines[..|lines| - 1];
      ScanLineEntry(lines[|lines| - 1], ScanLines(init, acc), name);
      NoLineKeepsValue(init, acc, name);
    }
  }

  /** `_extract_old_values`: the regex pass over the whole text, then the line scan. */
  function ExtractedValues(lines: seq<string>, acc: map<string, string>): map<string, string> {
    ScanLines(lines, RegexValues(Concat(lines), PATTERNS, acc))
  }

  // ---------------------------------------------------------------------------
  // The updater object
  // ---------------------------------------------------------------------------

  class Updater {
    const smaliPath: string
    const disk: Disk
    var lines: seq<string>
    var oldValues: map<string, string>

    constructor(smaliPath: string, disk: Disk)
      ensures this.smaliPath == smaliPath && this.disk == disk
      ensures lines == [] && oldValues == map[]
    {
      this.smaliPath := smaliPath;
      this.disk := disk;
      lines := [];
      oldValues := map[];
    }

    /** `load`: a missing file raises; otherwise the lines are read and the old values extracted. */
    method Load() returns (r: Result<()>)
      modifies this
      ensures !disk.Exists(smaliPath) ==>
        r == Err(Error(FileNotFoundError, "BuildConfig.smali not found at " + smaliPath))
      ensures smaliPath !in disk.files ==> r.Err? && lines == old(lines) && oldValues == old(oldValues)
      ensures smaliPath in disk.files ==>
        r == Ok(()) && lines == ReadLines(UniversalNewlines(disk.files[smaliPath]))
        && oldValues == ExtractedValues(lines, old(oldValues))
    {
      if !disk.Exists(smaliPath) {
        return Err(Error(FileNotFoundError, "BuildConfig.smali not found at " + smaliPath));
      }
      if smaliPath !in disk.files {
        return Err(Error(OSError, "[Errno 21] Is a directory: '" + smaliPath + "'"));
      }
      lines := ReadLines(UniversalNewlines(disk.files[smaliPath]));
      ExtractOldValues();
      r := Ok(());
    }

    method ExtractOldValues()
      modifies this`oldValues
      ensures oldValues == ExtractedValues(lines, old(oldValues))
    {
      ExtractWithRegex(Concat(lines));
      ExtractFromLines();
    }

    method ExtractWithRegex(content: string)
      modifies this`oldValues
      ensures oldValues == RegexValues(content, PATTERNS, old(oldValues))
    {
      for i := 0 to |PATTERNS|
        invariant oldValues == RegexValues(content, PATTERNS[..i], old(oldValues))
      {
        var (name, p) := PATTERNS[i];
        var m := Search(content, MatcherOf(p));
        if m.Some? {
          oldValues := oldValues[name := m.value.group];
        }
        RegexValuesStep(content, PATTERNS, i, old(oldValues));
      }
      assert PATTERNS[..|PATTERNS|] == PATTERNS;
    }

    method ExtractFromLines()
      modifies this`oldValues
      ensures oldValues == ScanLines(lines, old(oldValues))
    {
      for i := 0 to |lines|
        invariant oldValues == ScanLines(lines[..i], old(oldValues))
      {
        var line := lines[i];
        ExtractVersionCode(line);
        ExtractStringField(line, "VERSION_NAME", FIELD_VERSION_NAME);
        ExtractStringField(line, "APPLICATION_ID", FIELD_APPLICATION_ID);
        ExtractStringField(line, "BUILD_TYPE", FIELD_BUILD_TYPE);
        assert lines[..i + 1][..i] == lines[..i];
      }
      assert lines[..|lines|] == lines;
    }

    method ExtractVersionCode(line: string)
      modifies this`oldValues
      ensures oldValues == Put(old(oldValues), "VERSION_CODE", VersionCodeOfLine(line))
    {
      if Contains(line, FIELD_VERSION_CODE) && Contains(line, "0x") {
        var parts := Split(line, "0x");
        if |parts| == 2 {
          var hexStr := RStripSet(Strip(parts[1]), {'\n'});
          oldValues := oldValues["VERSION_CODE" := "0x" + hexStr];
        }
      }
    }

    method ExtractStringField(line: string, name: string, identifier: string)
      modifies this`oldValues
      ensures oldValues == Put(old(oldValues), name, StringFieldOfLine(line, identifier))
    {
      if Contains(line, identifier) {
        var value := ParseStringValue(line);
        if value.Some? {
          oldValues := oldValues[name := value.value];
        }
      }
    }

    /** `_process_line`: the fields are tried in order and the first deciding one
        rewrites the line. */
    method ProcessLine(line: string, cfg: seq<Field>) returns (updated: string, change: Option<Change>)
      ensures (updated, change) == LineOutcome(line, cfg)
    {
      for i := 0 to |cfg|
        invariant LineOutcome(line, cfg) == LineOutcome(line, cfg[i..])
      {
        var f := cfg[i];
        if Contains(line, f.identifier) {
          if f.identifier == FIELD_VERSION_CODE && !Contains(line, "0x") {
          } else {
            updated := Apply(f, line);
            if updated != line {
              return updated, Some(Change(f.name, f.newValue));
            }
            return updated, None;
          }
        }
        assert cfg[i..][1..] == cfg[i + 1..];
      }
      return line, None;
    }

    /** `update_build_config`: every line is processed, the changes are returned in line
        order, and the file is rewritten only when there is at least one change. */
    method UpdateBuildConfig(code: int, versionName: string, applicationId: string, buildType: string)
      returns (changes: seq<Change>)
      modifies disk
      ensures changes == ChangesOf(lines, Config(code, versionName, applicationId, buildType))
      ensures changes != [] ==> disk.files == old(disk.files)[smaliPath :=
        Concat(UpdatedLines(lines, Config(code, versionName, applicationId, buildType)))]
      ensures changes == [] ==> disk.files == old(disk.files)
      ensures disk.dirs == old(disk.dirs)
    {
      var cfg := Config(code, versionName, applicationId, buildType);
      var updatedLines: seq<string> := [];
      changes := [];
      for i := 0 to |lines|
        invariant updatedLines == UpdatedLines(lines[..i], cfg)
        invariant changes == ChangesOf(lines[..i], cfg)
        invariant unchanged(disk)
      {
        var updatedLine, change := ProcessLine(lines[i], cfg);
        updatedLines := updatedLines + [updatedLine];
        if change.Some? {
          changes := changes + [change.value];
        }
        LinesStep(lines, i, cfg);
      }
      assert lines[..|lines|] == lines;
      if changes != [] {
        disk.WriteText(smaliPath, Concat(updatedLines));
      }
    }
  }
}
