/** The apktool.yml patcher: reading the version code, version name and APK
    file name out of the file's lines, and rewriting those lines in place. */
module YamlUpdater {
  import opened Wrappers
  import opened Text
  import opened Fs

  /** The quote characters `_extract_value` strips after the whitespace. */
  const QUOTES: set<char> := {'"', '\''}

  /** The three keys of apktool.yml the updater reads and rewrites; the
      dictionary `extract_values` returns names them "version_code",
      "version_name" and "apk_file_name". */
  datatype Key = VersionCode | VersionName | ApkFileName

  /** The text a line of the key starts with, colon included. */
  function Prefix(k: Key): string {
    match k
    case VersionCode => "versionCode:"
    case VersionName => "versionName:"
    case ApkFileName => "apkFileName:"
  }

  /** A line that starts with a key has its first colon at the end of the key. */
  lemma KeyColon(s: string, k: Key)
    requires StartsWith(s, Prefix(k))
    ensures Contains(s, ":") && Find(s, ":") == |Prefix(k)| - 1
  {
    var p := Prefix(k);
    assert s[|p| - 1] == p[|p| - 1] == ':';
    assert s[|p| - 1..|p|] == ":";
    assert OccursAt(s, ":", |p| - 1);
    forall j | 0 <= j < |p| - 1 ensures !OccursAt(s, ":", j) {
      assert s[j] == p[j] != ':';
      assert s[j..j + 1][0] == s[j];
    }
    var f := Find(s, ":");
    assert f >= 0;
    assert s[f..f + 1][0] == s[f];
  }

  /** The key whose text `s` starts with, tested in the order of the source;
      the three keys exclude one another, so the order does not matter. */
  function KeyOf(s: string): (r: Option<Key>)
    ensures r.Some? ==> StartsWith(s, Prefix(r.value)) && Contains(s, ":")
  {
    if StartsWith(s, "versionCode:") then KeyColon(s, VersionCode); Some(VersionCode)
    else if StartsWith(s, "versionName:") then KeyColon(s, VersionName); Some(VersionName)
    else if StartsWith(s, "apkFileName:") then KeyColon(s, ApkFileName); Some(ApkFileName)
    else None
  }


  /** A line that starts with a key's text is that key's line, whatever the
      order of the tests. */
  lemma KeyOfPrefix(s: string, k: Key)
    requires StartsWith(s, Prefix(k))
    ensures KeyOf(s) == Some(k)
  {
    assert "versionCode:"[7] != "versionName:"[7];
    assert "versionCode:"[0] != "apkFileName:"[0] && "versionName:"[0] != "apkFileName:"[0];
  }

  /** `_extract_value`: the text after the first colon, stripped of whitespace
      and then of quote characters. */
  function ExtractValue(line: string): string
    requires Contains(line, ":")
  {
    StripSet(Strip(AfterFirst(line, ":")), QUOTES)
  }

  /** On a key line the value is what follows the key, stripped. */
  lemma KeyLineValue(s: string, k: Key)
    requires StartsWith(s, Prefix(k))
    ensures Contains(s, ":") && ExtractValue(s) == StripSet(Strip(s[|Prefix(k)|..]), QUOTES)
  {
    KeyColon(s, k);
  }

  // ---------------------------------------------------------------------------
  // Scanning lines into a dictionary
  // ---------------------------------------------------------------------------

  /** What one line contributes to a dictionary, if anything: a key and its
      value. A function value, so that the scan lemmas do not look inside it. */
  type Reader = string -> Option<(Key, string)>

  predicate Carries(e: Option<(Key, string)>, k: Key) {
    e.Some? && e.value.0 == k
  }

  /** The dictionary built by reading the lines in order: a later line
      overwrites what an earlier one set. */
  function Scan(read: Reader, lines: seq<string>): map<Key, string> {
    if lines == [] then map[]
    else
      var m := Scan(read, lines[..|lines| - 1]);
      match read(lines[|lines| - 1])
      case None => m
      case Some((k, v)) => m[k := v]
  }

  /** Reading a last line that does not carry `k` leaves `k`'s entry as it was. */
  lemma ScanOther(read: Reader, lines: seq<string>, k: Key)
    requires lines != [] && !Carries(read(lines[|lines| - 1]), k)
    ensures var init := lines[..|lines| - 1];
      (k in Scan(read, lines) <==> k in Scan(read, init))
      && (k in Scan(read, lines) ==> Scan(read, lines)[k] == Scan(read, init)[k])
  {
  }

  /** A last line that carries `k` sets `k`'s entry. */
  lemma ScanCarry(read: Reader, lines: seq<string>, k: Key)
    requires lines != [] && Carries(read(lines[|lines| - 1]), k)
    ensures k in Scan(read, lines) && read(lines[|lines| - 1]) == Some((k, Scan(read, lines)[k]))
  {
  }

  /** A key is in the scan exactly when some line carries it. */
  lemma {:induction false} ScanHas(read: Reader, lines: seq<string>, k: Key)
    ensures k in Scan(read, lines) <==> exists j :: 0 <= j < |lines| && Carries(read(lines[j]), k)
  {
    if lines != [] {
      var n := |lines| - 1;
      var init := lines[..n];
      ScanHas(read, init, k);
      assert forall j :: 0 <= j < n ==> lines[j] == init[j];
      if Carries(read(lines[n]), k) {
        ScanCarry(read, lines, k);
      } else {
        ScanOther(read, lines, k);
      }
    }
  }

  /** The value of a key in the scan is the one carried by the last line that carries it. */
  lemma {:induction false} ScanLast(read: Reader, lines: seq<string>, k: Key) returns (j: nat)
    requires k in Scan(read, lines)
    ensures j < |lines| && read(lines[j]) == Some((k, Scan(read, lines)[k]))
    ensures forall i :: j < i < |lines| ==> !Carries(read(lines[i]), k)
  {
    var n := |lines| - 1;
    if Carries(read(lines[n]), k) {
      ScanCarry(read, lines, k);
      j := n;
    } else {
      var init := lines[..n];
      ScanOther(read, lines, k);
      j := ScanLast(read, init, k);
      assert lines[j] == init[j];
    }
  }

  lemma ScanStep(read: Reader, lines: seq<string>, i: nat)
    requires i < |lines|
    ensures Scan(read, lines[..i + 1]) == match read(lines[i])
      case None => Scan(read, lines[..i])
      case Some((k, v)) => Scan(read, lines[..i])[k := v]
  {
    assert lines[..i + 1][..i] == lines[..i];
  }

  /** Two line lists whose lines carry a key at the same places report it alike. */
  lemma ScanSameKeys(read: Reader, a: seq<string>, b: seq<string>, k: Key)
    requires |a| == |b|
    requires forall j :: 0 <= j < |a| ==> (Carries(read(a[j]), k) <==> Carries(read(b[j]), k))
    ensures k in Scan(read, a) <==> k in Scan(read, b)
  {
    ScanHas(read, a, k);
    ScanHas(read, b, k);
    if k in Scan(read, a) {
      var j :| 0 <= j < |a| && Carries(read(a[j]), k);
      assert Carries(read(b[j]), k);
    }
    if k in Scan(read, b) {
      var j :| 0 <= j < |b| && Carries(read(b[j]), k);
      assert Carries(read(a[j]), k);
    }
  }

  /** When every line that carries a key carries the same value, the scan reports that value. */
  lemma ScanUniform(read: Reader, lines: seq<string>, k: Key, v: string)
    requires forall j :: 0 <= j < |lines| && Carries(read(lines[j]), k) ==> read(lines[j]).value.1 == v
    ensures k in Scan(read, lines) ==> Scan(read, lines)[k] == v
  {
    if k in Scan(read, lines) {
      var j := ScanLast(read, lines, k);
      assert Carries(read(lines[j]), k);
    }
  }

  // ---------------------------------------------------------------------------
  // Reading the values
  // ---------------------------------------------------------------------------

  /** What `extract_values` takes from one line: the key its stripped form
      starts with and the value after the colon. */
  function LineEntry(line: string): Option<(Key, string)> {
    var s := Strip(line);
    match KeyOf(s)
    case None => None
    case Some(k) => Some((k, ExtractValue(s)))
  }

  lemma KeyLineEntry(line: string, k: Key)
    requires StartsWith(Strip(line), Prefix(k))
    ensures Contains(Strip(line), ":") && LineEntry(line) == Some((k, ExtractValue(Strip(line))))
  {
    KeyOfPrefix(Strip(line), k);
  }

  /** The dictionary `extract_values` returns. */
  function ValuesOf(lines: seq<string>): map<Key, string> {
    Scan(LineEntry, lines)
  }

  /** A key is reported exactly when some line carries it. */
  lemma ValuesOfKeys(lines: seq<string>, k: Key)
    ensures k in ValuesOf(lines) <==> exists j :: 0 <= j < |lines| && KeyOf(Strip(lines[j])) == Some(k)
  {
    ScanHas(LineEntry, lines, k);
    forall j | 0 <= j < |lines|
      ensures Carries(LineEntry(lines[j]), k) <==> KeyOf(Strip(lines[j])) == Some(k)
    {
      EntryKey(lines[j], k);
    }
  }

  lemma EntryKey(line: string, k: Key)
    ensures Carries(LineEntry(line), k) <==> KeyOf(Strip(line)) == Some(k)
  {
  }

  /** The last line that carries a key decides its value. */
  lemma LastLineWins(lines: seq<string>, k: Key, j: nat)
    requires j < |lines| && KeyOf(Strip(lines[j])) == Some(k)
    requires forall i :: j < i < |lines| ==> KeyOf(Strip(lines[i])) != Some(k)
    ensures k in ValuesOf(lines)
    ensures ValuesOf(lines)[k] == ExtractValue(Strip(lines[j]))
  {
    assert Carries(LineEntry(lines[j]), k);
    ScanHas(LineEntry, lines, k);
    var j' := ScanLast(LineEntry, lines, k);
    assert Carries(LineEntry(lines[j']), k);
    assert j' == j;
  }

  // ---------------------------------------------------------------------------
  // Rewriting the lines
  // ---------------------------------------------------------------------------

  /** A rewriting of one line, as a function value. */
  type Rewriter = string -> string

  /** Every line rewritten, in order. */
  function MapLines(f: Rewriter, lines: seq<string>): (r: seq<string>)
    ensures |r| == |lines|
  {
    if lines == [] then [] else MapLines(f, lines[..|lines| - 1]) + [f(lines[|lines| - 1])]
  }

  /** Line `i` of the result is line `i` rewritten. */
  lemma {:induction false} MapLinesAt(f: Rewriter, lines: seq<string>)
    ensures forall i :: 0 <= i < |lines| ==> MapLines(f, lines)[i] == f(lines[i])
  {
    if lines != [] {
      MapLinesAt(f, lines[..|lines| - 1]);
    }
  }

  /** Rewriting line `i` in place extends the rewritten prefix by one line. */
  lemma MapLinesStep(f: Rewriter, o: seq<string>, i: nat, x: string)
    requires i < |o| && x == f(o[i])
    ensures (MapLines(f, o[..i]) + o[i..])[i := x] == MapLines(f, o[..i + 1]) + o[i + 1..]
    ensures x == o[i] ==> MapLines(f, o[..i]) + o[i..] == MapLines(f, o[..i + 1]) + o[i + 1..]
  {
    assert o[..i + 1][..i] == o[..i];
    var a := MapLines(f, o[..i]);
    assert (a + o[i..])[i := x] == a + [x] + o[i + 1..];
    assert x == o[i] ==> a + o[i..] == a + [x] + o[i + 1..];
  }

  /** The file name `update` gives the APK. */
  function ApkName(appName: string, versionName: string): string {
    appName + " (" + versionName + ").apk"
  }

  /** The value `update` writes for a key. */
  function NewValue(k: Key, code: int, versionName: string, appName: string): string {
    match k
    case VersionCode => IntStr(code)
    case VersionName => versionName
    case ApkFileName => ApkName(appName, versionName)
  }

  /** What `update` writes before a key's value. */
  function Lead(k: Key): string {
    match k
    case VersionCode => "  versionCode: "
    case VersionName => "  versionName: "
    case ApkFileName => "  apkFileName: "
  }

  /** The lead is two spaces of indentation, the key and one space. */
  lemma LeadIsIndentedKey(k: Key)
    ensures Lead(k) == "  " + Prefix(k) + " "
  {
  }

  /** The line `update` writes for a key. */
  function NewLine(k: Key, value: string): string {
    Lead(k) + value + "\n"
  }

  /** One line after `update`: a line whose left-stripped form starts with a
      key is replaced by that key's new line; any other line stays. */
  function UpdateLine(line: string, code: int, versionName: string, appName: string): string {
    match KeyOf(LStrip(line))
    case None => line
    case Some(k) => NewLine(k, NewValue(k, code, versionName, appName))
  }

  function Rewrite(code: int, versionName: string, appName: string): Rewriter {
    line => UpdateLine(line, code, versionName, appName)
  }

  /** The lines after `update`. */
  function UpdatedLines(lines: seq<string>, code: int, versionName: string, appName: string): seq<string> {
    MapLines(Rewrite(code, versionName, appName), lines)
  }

  /** The source's chain of tests, as it rewrites one line. */
  lemma UpdateLineCases(line: string, code: int, versionName: string, appName: string)
    ensures IsKeyLine(line) <==>
      StartsWith(LStrip(line), "versionCode:") || StartsWith(LStrip(line), "versionName:")
      || StartsWith(LStrip(line), "apkFileName:")
    ensures Rewrite(code, versionName, appName)(line) == UpdateLine(line, code, versionName, appName)
    ensures UpdateLine(line, code, versionName, appName) ==
      if StartsWith(LStrip(line), "versionCode:") then "  versionCode: " + IntStr(code) + "\n"
      else if StartsWith(LStrip(line), "versionName:") then "  versionName: " + versionName + "\n"
      else if StartsWith(LStrip(line), "apkFileName:") then "  apkFileName: " + ApkName(appName, versionName) + "\n"
      else line
  {
  }

  /** Some line passes the test; a function value, for the same reason as `Reader`. */
  predicate AnyLine(test: string -> bool, lines: seq<string>) {
    lines != [] && (AnyLine(test, lines[..|lines| - 1]) || test(lines[|lines| - 1]))
  }

  lemma {:induction false} AnyLineExists(test: string -> bool, lines: seq<string>)
    ensures AnyLine(test, lines) <==> exists j :: 0 <= j < |lines| && test(lines[j])
  {
    if lines != [] {
      var n := |lines| - 1;
      var init := lines[..n];
      AnyLineExists(test, init);
      assert forall j :: 0 <= j < n ==> init[j] == lines[j];
    }
  }

  /** The line's left-stripped form starts with a key: `update` rewrites it. */
  predicate IsKeyLine(line: string) {
    KeyOf(LStrip(line)).Some?
  }

  /** `extract_values` tests the stripped line and `update` the left-stripped
      one; both pick out the same lines and the same key. */
  lemma StripAndLStripAgree(line: string)
    ensures KeyOf(Strip(line)) == KeyOf(LStrip(line))
  {
    var l := LStrip(line);
    var r := RStrip(l);
    assert Strip(line) == r;
    if KeyOf(l).Some? {
      KeyLineStripped(l, KeyOf(l).value);
    } else if KeyOf(r).Some? {
      var k := KeyOf(r).value;
      var p := Prefix(k);
      assert l[..|p|] == r[..|p|];
      KeyOfPrefix(l, k);
    }
  }

  lemma KeyLineStripped(l: string, k: Key)
    requires StartsWith(l, Prefix(k))
    ensures KeyOf(RStrip(l)) == Some(k)
  {
    var p := Prefix(k);
    assert l == p + l[|p|..];
    AsciiSpace(':');
    RStripAfter(p, l[|p|..]);
    KeyOfPrefix(RStrip(l), k);
  }

  /** What stripping leaves of a line that `update` wrote. */
  lemma StripNewLine(k: Key, v: string)
    ensures Strip(NewLine(k, v)) == Prefix(k) + RStrip(" " + v)
  {
    var p := Prefix(k);
    var x := p + (" " + v);
    LeadIsIndentedKey(k);
    assert NewLine(k, v) == "  " + x + "\n";
    AsciiSpace(' ');
    AsciiSpace('\n');
    StripMargins("  ", x, "\n");
    PrefixEnds(k);
    StripFromWord(p, " " + v);
  }

  /** A key's text neither starts nor ends with whitespace. */
  lemma PrefixEnds(k: Key)
    ensures |Prefix(k)| == 12 && Prefix(k)[11] == ':'
    ensures !IsSpace(Prefix(k)[0]) && !IsSpace(Prefix(k)[11])
  {
    AsciiSpace(':');
    AsciiSpace(Prefix(k)[0]);
  }

  /** Reading back a line that `update` wrote gives its key and the written
      value with whitespace and quotes stripped. */
  lemma ReadBack(k: Key, v: string)
    ensures LineEntry(NewLine(k, v)) == Some((k, StripSet(Strip(v), QUOTES)))
  {
    StripNewLine(k, v);
    KeyLineRead(k, RStrip(" " + v));
    StripRStrip(" " + v);
    StripAfterSpace(v);
  }

  /** A key followed by any text reads as that key with the text, stripped, as its value. */
  lemma KeyLineRead(k: Key, r: string)
    ensures var s := Prefix(k) + r;
      KeyOf(s) == Some(k) && ExtractValue(s) == StripSet(Strip(r), QUOTES)
  {
    var p := Prefix(k);
    var s := p + r;
    assert s[..|p|] == p && s[|p|..] == r;
    KeyOfPrefix(s, k);
    KeyLineValue(s, k);
  }

  /** Per line, `update` keeps the key `extract_values` sees, and a clean
      written value reads back unchanged. */
  lemma EntryAfterUpdate(line: string, code: int, versionName: string, appName: string, k: Key)
    ensures var e := LineEntry(UpdateLine(line, code, versionName, appName));
      (Carries(e, k) <==> Carries(LineEntry(line), k))
      && (Carries(e, k) && Clean(NewValue(k, code, versionName, appName)) ==>
          e.value.1 == NewValue(k, code, versionName, appName))
  {
    if IsKeyLine(line) {
      EntryAfterKeyUpdate(line, code, versionName, appName, k);
    } else {
      StripAndLStripAgree(line);
      EntryKey(line, k);
    }
  }

  lemma EntryAfterKeyUpdate(line: string, code: int, versionName: string, appName: string, k: Key)
    requires IsKeyLine(line)
    ensures var e := LineEntry(UpdateLine(line, code, versionName, appName));
      (Carries(e, k) <==> Carries(LineEntry(line), k))
      && (Carries(e, k) && Clean(NewValue(k, code, versionName, appName)) ==>
          e.value.1 == NewValue(k, code, versionName, appName))
  {
    var k0 := KeyOf(LStrip(line)).value;
    var e := LineEntry(UpdateLine(line, code, versionName, appName));
    assert e.Some? && e.value.0 == k0
        && e.value.1 == StripSet(Strip(NewValue(k0, code, versionName, appName)), QUOTES) by {
      KeyLineAfterUpdate(line, code, versionName, appName);
    }
    assert Carries(LineEntry(line), k) <==> k0 == k by {
      StripAndLStripAgree(line);
      EntryKey(line, k);
    }
    if k == k0 && Clean(NewValue(k, code, versionName, appName)) {
      CleanReadsBack(NewValue(k, code, versionName, appName));
    }
  }

  lemma KeyLineAfterUpdate(line: string, code: int, versionName: string, appName: string)
    requires IsKeyLine(line)
    ensures var k := KeyOf(LStrip(line)).value;
      LineEntry(UpdateLine(line, code, versionName, appName))
        == Some((k, StripSet(Strip(NewValue(k, code, versionName, appName)), QUOTES)))
  {
    var k := KeyOf(LStrip(line)).value;
    ReadBack(k, NewValue(k, code, versionName, appName));
  }

  lemma CleanReadsBack(v: string)
    requires Clean(v)
    ensures StripSet(Strip(v), QUOTES) == v
  {
    StripNoop(v);
  }

  /** Updating a second time with the same values changes nothing. */
  lemma UpdateIdempotent(line: string, code: int, versionName: string, appName: string)
    ensures var u := UpdateLine(line, code, versionName, appName);
      UpdateLine(u, code, versionName, appName) == u
  {
    match KeyOf(LStrip(line))
    case None =>
    case Some(k) =>
      var v := NewValue(k, code, versionName, appName);
      ReadBack(k, v);
      StripAndLStripAgree(NewLine(k, v));
  }

  /** The value has nothing that `_extract_value` would strip. */
  predicate Clean(v: string) {
    |v| > 0 ==> !IsSpace(v[0]) && !IsSpace(v[|v| - 1]) && v[0] !in QUOTES && v[|v| - 1] !in QUOTES
  }

  /** After `update`, `extract_values` reports the same keys as before, each
      with the value that was written, when that value is clean. */
  lemma UpdateThenExtract(lines: seq<string>, code: int, versionName: string, appName: string, k: Key)
    requires Clean(NewValue(k, code, versionName, appName))
    ensures var u := UpdatedLines(lines, code, versionName, appName);
      (k in ValuesOf(u) <==> k in ValuesOf(lines))
      && (k in ValuesOf(u) ==> ValuesOf(u)[k] == NewValue(k, code, versionName, appName))
  {
    var f := Rewrite(code, versionName, appName);
    var u := MapLines(f, lines);
    MapLinesAt(f, lines);
    forall j | 0 <= j < |lines|
      ensures Carries(LineEntry(u[j]), k) <==> Carries(LineEntry(lines[j]), k)
      ensures Carries(LineEntry(u[j]), k) ==> LineEntry(u[j]).value.1 == NewValue(k, code, versionName, appName)
    {
      assert u[j] == UpdateLine(lines[j], code, versionName, appName);
      EntryAfterUpdate(lines[j], code, versionName, appName, k);
    }
    ScanSameKeys(LineEntry, u, lines, k);
    ScanUniform(LineEntry, u, k, NewValue(k, code, versionName, appName));
  }

  /** One turn of `update`'s loop keeps its two invariants: the lines so far
      are rewritten, the rest untouched, and `updated` says whether one matched. */
  lemma UpdateAdvance(o: seq<string>, i: nat, f: Rewriter, before: seq<string>, updatedBefore: bool,
                      after: seq<string>, updatedAfter: bool)
    requires i < |o| && before == MapLines(f, o[..i]) + o[i..]
    requires updatedBefore <==> AnyLine(IsKeyLine, o[..i])
    requires after == if IsKeyLine(o[i]) then before[i := f(o[i])] else before
    requires updatedAfter == (updatedBefore || IsKeyLine(o[i]))
    requires !IsKeyLine(o[i]) ==> f(o[i]) == o[i]
    ensures after == MapLines(f, o[..i + 1]) + o[i + 1..]
    ensures updatedAfter <==> AnyLine(IsKeyLine, o[..i + 1])
  {
    assert o[..i + 1][..i] == o[..i];
    assert before[i] == o[i];
    MapLinesStep(f, o, i, f(o[i]));
  }

  /** The body of `update`'s loop for one line: the tests in the source's
      order, the text stored back and whether the line matched. */
  method RewriteLine(line: string, versionCode: int, versionName: string, appName: string)
    returns (newLine: string, hit: bool)
    ensures hit == IsKeyLine(line)
    ensures newLine == Rewrite(versionCode, versionName, appName)(line)
  {
    UpdateLineCases(line, versionCode, versionName, appName);
    if StartsWith(LStrip(line), "versionCode:") {
      newLine, hit := "  versionCode: " + IntStr(versionCode) + "\n", true;
    } else if StartsWith(LStrip(line), "versionName:") {
      newLine, hit := "  versionName: " + versionName + "\n", true;
    } else if StartsWith(LStrip(line), "apkFileName:") {
      newLine, hit := "  apkFileName: " + ApkName(appName, versionName) + "\n", true;
    } else {
      newLine, hit := line, false;
    }
  }

  // ---------------------------------------------------------------------------
  // The updater object
  // ---------------------------------------------------------------------------

  class Yaml {
    const ymlPath: string
    const disk: Disk
    var lines: seq<string>

    constructor(ymlPath: string, disk: Disk)
      ensures this.ymlPath == ymlPath && this.disk == disk && lines == []
    {
      this.ymlPath := ymlPath;
      this.disk := disk;
      lines := [];
    }

    /** `load`: a missing file raises; otherwise its lines are read. */
    method Load() returns (r: Result<()>)
      modifies this`lines
      ensures !disk.Exists(ymlPath) ==>
        r == Err(Error(FileNotFoundError, "apktool.yml not found at " + ymlPath))
      ensures ymlPath !in disk.files ==> r.Err? && lines == old(lines)
      ensures ymlPath in disk.files ==>
        r == Ok(()) && lines == ReadLines(UniversalNewlines(disk.files[ymlPath]))
    {
      if !disk.Exists(ymlPath) {
        return Err(Error(FileNotFoundError, "apktool.yml not found at " + ymlPath));
      }
      if ymlPath !in disk.files {
        return Err(Error(OSError, "[Errno 21] Is a directory: '" + ymlPath + "'"));
      }
      lines := ReadLines(UniversalNewlines(disk.files[ymlPath]));
      r := Ok(());
    }

    /** `extract_values`. */
    method ExtractValues() returns (values: map<Key, string>)
      ensures values == ValuesOf(lines)
    {
      values := map[];
      for i := 0 to |lines|
        invariant values == ValuesOf(lines[..i])
      {
        var stripped := Strip(lines[i]);
        ScanStep(LineEntry, lines, i);
        if StartsWith(stripped, "versionCode:") {
          KeyLineEntry(lines[i], VersionCode);
          values := values[VersionCode := ExtractValue(stripped)];
        } else if StartsWith(stripped, "versionName:") {
          KeyLineEntry(lines[i], VersionName);
          values := values[VersionName := ExtractValue(stripped)];
        } else if StartsWith(stripped, "apkFileName:") {
          KeyLineEntry(lines[i], ApkFileName);
          values := values[ApkFileName := ExtractValue(stripped)];
        }
      }
      assert lines[..|lines|] == lines;
    }

    /** `update`: every key line is rewritten in place; the file is written
        only when some line matched, and the new APK name is returned. */
    method Update(versionCode: int, versionName: string, appName: string)
      returns (newApkName: string, updated: bool)
      modifies this`lines, disk
      ensures newApkName == ApkName(appName, versionName)
      ensures lines == UpdatedLines(old(lines), versionCode, versionName, appName)
      ensures updated <==> AnyLine(IsKeyLine, old(lines))
      ensures updated ==> disk.files == old(disk.files)[ymlPath := Concat(lines)]
      ensures !updated ==> disk.files == old(disk.files)
      ensures disk.dirs == old(disk.dirs)
    {
      newApkName := appName + " (" + versionName + ").apk";
      updated := false;
      ghost var original := lines;
      ghost var f := Rewrite(versionCode, versionName, appName);
      for i := 0 to |lines|
        invariant lines == MapLines(f, original[..i]) + original[i..]
        invariant updated <==> AnyLine(IsKeyLine, original[..i])
        invariant unchanged(disk)
      {
        ghost var before, updatedBefore := lines, updated;
        var newLine, hit := RewriteLine(lines[i], versionCode, versionName, appName);
        if hit {
          lines := lines[i := newLine];
          updated := true;
        }
        assert before[i] == original[i];
        UpdateAdvance(original, i, f, before, updatedBefore, lines, updated);
      }
      assert original[..|original|] == original;
      if updated {
        disk.WriteText(ymlPath, Concat(lines));
      }
    }
  }
}
