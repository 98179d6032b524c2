/** `apk_analyzer.py`: the analysis of a decompiled APK (its DEX directories,
    package, SDK versions, application class and main activity), the choice
    of the DEX directory that receives new smali code, the multidex flag in
    the manifest, the lookup of `BuildConfig.smali` and the merge of smali
    files. The listing of the decompiled directory, the parsed manifest and
    the smali file counts are parameters. */
module ApkAnalyzer {
  import opened Wrappers
  import opened Text
  import opened Order
  import opened Fs
  import opened Xml
  import opened ManifestManager
  import SmaliDecompiler

  const MANIFEST_FILE := "AndroidManifest.xml"
  const BUILD_CONFIG_FILE := "BuildConfig.smali"
  const DEFAULT_SPACE_THRESHOLD := 10000
  const UNKNOWN_DEX_INDEX := 999
  const CLASSES := "smali_classes"

  // ---------------------------------------------------------------------------
  // DEX directory names
  // ---------------------------------------------------------------------------

  /** `smali` or `smali_classes` followed by digits, the whole name. */
  predicate DexCore(name: string) {
    name == "smali" || (StartsWith(name, CLASSES) && IsDigits(name[|CLASSES|..]))
  }

  /** `re.match(r"^smali(_classes\d+)?$", name)`: `$` also matches just
      before a final line break. */
  predicate DexDirName(name: string) {
    DexCore(name) || (|name| > 0 && name[|name| - 1] == '\n' && DexCore(name[..|name| - 1]))
  }

  /** Greedy `\d*` from `i`. */
  function DigitRunEnd(s: string, i: nat): (j: nat)
    requires i <= |s|
    ensures i <= j <= |s|
    ensures forall k :: i <= k < j ==> IsDigit(s[k])
    ensures j < |s| ==> !IsDigit(s[j])
    decreases |s| - i
  {
    if i < |s| && IsDigit(s[i]) then DigitRunEnd(s, i + 1) else i
  }

  /** `re.search(r"smali_classes(\d+)", s)` from `i` on: the group of the
      leftmost match. */
  function ClassesGroupFrom(s: string, i: nat): (r: Option<string>)
    requires i <= |s|
    ensures r.Some? ==> IsDigits(r.value)
    decreases |s| - i
  {
    if i + |CLASSES| >= |s| then None
    else if OccursAt(s, CLASSES, i) && IsDigit(s[i + |CLASSES|]) then Some(s[i + |CLASSES|..DigitRunEnd(s, i + |CLASSES|)])
    else ClassesGroupFrom(s, i + 1)
  }

  /** `_get_dex_index`: 1 for `smali`, the number after the first
      `smali_classes` followed by digits, and 999 without one. */
  function DexIndex(name: string): int {
    if name == "smali" then 1
    else
      match ClassesGroupFrom(name, 0)
      case Some(g) => DigitsValue(g)
      case None => UNKNOWN_DEX_INDEX
  }

  /** A DEX directory is ordered by its number: `smali` is 1 and
      `smali_classesN` is N (with or without the final line break the pattern
      lets through; `smali` with one is not `smali` and gets 999). */
  lemma DexIndexOfDexDir(name: string)
    requires DexDirName(name)
    ensures var core := if DexCore(name) then name else name[..|name| - 1];
      DexIndex(name) == if name == "smali" then 1 else if core == "smali" then UNKNOWN_DEX_INDEX else DigitsValue(core[|CLASSES|..])
  {
    var core := if DexCore(name) then name else name[..|name| - 1];
    if name != "smali" {
      if core == "smali" {
        assert |name| == 6;
      } else {
        assert name[..|core|] == core;
        assert OccursAt(name, CLASSES, 0) by {
          assert name[..|CLASSES|] == core[..|CLASSES|];
        }
        assert IsDigit(name[|CLASSES|]) by {
          assert name[|CLASSES|] == core[|CLASSES|..][0];
        }
        var e := DigitRunEnd(name, |CLASSES|);
        assert forall k :: |CLASSES| <= k < |core| ==> name[k] == core[|CLASSES|..][k - |CLASSES|];
        assert e == |core|;
        assert name[|CLASSES|..e] == core[|CLASSES|..];
      }
    }
  }

  /** The DEX directories of a listing, in listing order. */
  function DexNames(items: seq<SmaliDecompiler.Item>): (names: seq<string>)
    ensures forall k :: 0 <= k < |names| ==> DexDirName(names[k])
    decreases |items|
  {
    if items == [] then []
    else
      var last := items[|items| - 1];
      DexNames(items[..|items| - 1]) + if last.isDir && DexDirName(last.name) then [last.name] else []
  }

  /** A name is a DEX directory of the listing exactly when some directory
      entry has it and it matches the pattern. */
  lemma {:induction false} DexNamesExactly(items: seq<SmaliDecompiler.Item>, name: string)
    ensures name in DexNames(items) <==> exists k :: 0 <= k < |items| && items[k].isDir && items[k].name == name && DexDirName(name)
    decreases |items|
  {
    if items != [] {
      var init := items[..|items| - 1];
      DexNamesExactly(init, name);
      assert forall k :: 0 <= k < |init| ==> init[k] == items[k];
    }
  }

  // ---------------------------------------------------------------------------
  // `suggest_dex_placement` results
  // ---------------------------------------------------------------------------

  /** Where new smali code goes: an existing DEX directory, or one created
      (`mkdir(exist_ok=True)`) under the decompiled directory. */
  datatype Placement = Existing(name: string) | Created(name: string)

  /** `_find_or_create_target_dex`: the directory of the index, reused when it is a DEX directory. */
  function TargetPlacement(dirs: seq<string>, index: int): (p: Placement)
    ensures p.name == SmaliDecompiler.DirName(index)
    ensures p.Existing? <==> SmaliDecompiler.DirName(index) in dirs
  {
    var name := SmaliDecompiler.DirName(index);
    if name in dirs then Existing(name) else Created(name)
  }

  /** A DEX directory with its number of smali files. */
  function Load(entry: (string, int)): int {
    entry.1
  }

  /** Each directory with its smali file count, in order. */
  function Loads(dirs: seq<string>, fileCount: string -> nat): (r: seq<(string, int)>)
    ensures |r| == |dirs|
    ensures forall k :: 0 <= k < |dirs| ==> r[k] == (dirs[k], fileCount(dirs[k]) as int)
    decreases |dirs|
  {
    if dirs == [] then [] else Loads(dirs[..|dirs| - 1], fileCount) + [(dirs[|dirs| - 1], fileCount(dirs[|dirs| - 1]) as int)]
  }

  /** The chosen directory has the fewest smali files, and every directory
      before it has strictly more. */
  predicate LeastLoaded(dirs: seq<string>, fileCount: string -> nat, k: int) {
    0 <= k < |dirs|
    && (forall j :: 0 <= j < |dirs| ==> fileCount(dirs[k]) <= fileCount(dirs[j]))
    && (forall j :: 0 <= j < k ==> fileCount(dirs[k]) < fileCount(dirs[j]))
  }

  /** The head of the stably sorted loads is the first least loaded directory. */
  lemma LeastLoadedHead(dirs: seq<string>, fileCount: string -> nat) returns (k: int)
    requires |dirs| > 0
    ensures LeastLoaded(dirs, fileCount, k) && SortByKey(Loads(dirs, fileCount), Load)[0].0 == dirs[k]
  {
    var loads := Loads(dirs, fileCount);
    SortByKeyHead(loads, Load);
    k := FirstMinIndex(loads, Load);
    forall j | 0 <= j < |dirs|
      ensures Load(loads[j]) == fileCount(dirs[j])
    {
    }
  }

  // ---------------------------------------------------------------------------
  // Multidex
  // ---------------------------------------------------------------------------

  const MULTIDEX_PLAIN := "multiDexEnabled=\"true\""
  const MULTIDEX_ANDROID := "android:" + MULTIDEX_PLAIN
  const ANDROID_XMLNS := "xmlns:android=\"http://schemas.android.com/apk/res/android\""
  const APPLICATION_OPEN := "<application"

  /** The end of `[^>]*?(/?>)` from `k`: the first `/>` or `>` there, which
      ends the first group; the lazy group never passes a `>`. */
  function CloseFrom(s: string, k: nat): (r: Option<nat>)
    requires k <= |s|
    ensures r.Some? ==> k <= r.value < |s| && (s[r.value] == '>' || (s[r.value] == '/' && r.value + 1 < |s| && s[r.value + 1] == '>'))
    ensures r.Some? ==> forall j :: k <= j < r.value ==> s[j] != '>'
    ensures r.None? ==> forall j :: k <= j < |s| ==> s[j] != '>'
    decreases |s| - k
  {
    if k == |s| then None
    else if s[k] == '/' && k + 1 < |s| && s[k + 1] == '>' then Some(k)
    else if s[k] == '>' then Some(k)
    else CloseFrom(s, k + 1)
  }

  /** A match of `(<application\s+[^>]*?)(/?>)` at `i`: the end of the first
      group. At least one whitespace character follows the tag name. */
  function AppTagAt(s: string, i: nat): Option<nat>
    requires i <= |s|
  {
    var n := i + |APPLICATION_OPEN|;
    if OccursAt(s, APPLICATION_OPEN, i) && n < |s| && IsSpace(s[n]) then CloseFrom(s, n + 1) else None
  }

  /** The leftmost match at or after `i`: where it starts and where its first group ends. */
  function FirstAppTag(s: string, i: nat): (r: Option<(nat, nat)>)
    requires i <= |s|
    ensures r.Some? ==> i <= r.value.0 < r.value.1 < |s| && AppTagAt(s, r.value.0) == Some(r.value.1)
    ensures r.Some? ==> forall j :: i <= j < r.value.0 ==> AppTagAt(s, j).None?
    ensures r.None? ==> forall j :: i <= j <= |s| ==> AppTagAt(s, j).None?
    decreases |s| - i
  {
    match AppTagAt(s, i)
    case Some(k) => Some((i, k))
    case None => if i == |s| then None else FirstAppTag(s, i + 1)
  }

  /** `add_multidex`: the attribute goes before the closing, with the Android
      prefix when the attributes already use it or the namespace is declared. */
  function AddMultidex(content: string, attrs: string, closing: string): string {
    if Contains(attrs, "android:") || Contains(content, ANDROID_XMLNS) then attrs + " " + MULTIDEX_ANDROID + closing
    else attrs + " " + MULTIDEX_PLAIN + closing
  }

  /** The match from `i` whose first group ends at `k`, replaced by
      `add_multidex`; the closing is `/>` or `>`. */
  function Rewrite(content: string, i: nat, k: nat): string
    requires i <= k < |content| && (content[k] == '/' ==> k + 1 < |content|)
  {
    var e := if content[k] == '/' then k + 2 else k + 1;
    content[..i] + AddMultidex(content, content[i..k], content[k..e]) + content[e..]
  }

  /** `_insert_multidex_attribute`: `re.subn` with `count=1`; None when no
      application tag matches. */
  function InsertMultidex(content: string): Option<string> {
    var m := FirstAppTag(content, 0);
    if m.None? then None else Some(Rewrite(content, m.value.0, m.value.1))
  }

  /** `update_manifest_for_multidex`: the new manifest text, or None when
      nothing is written. */
  function MultidexUpdate(dexCount: int, manifest: Option<string>): (r: Option<string>)
    ensures dexCount <= 1 || manifest.None? ==> r.None?
  {
    if dexCount <= 1 || manifest.None? then None
    else if Contains(manifest.value, MULTIDEX_ANDROID) || Contains(manifest.value, MULTIDEX_PLAIN) then None
    else InsertMultidex(manifest.value)
  }

  /** The attribute is added only to a manifest of several DEX directories
      that has none yet, and only when an application tag matches. */
  lemma MultidexGates(dexCount: int, manifest: Option<string>)
    ensures MultidexUpdate(dexCount, manifest).Some? <==>
      dexCount > 1 && manifest.Some? && !Contains(manifest.value, MULTIDEX_PLAIN)
      && FirstAppTag(manifest.value, 0).Some?
  {
    if manifest.Some? && Contains(manifest.value, MULTIDEX_ANDROID) {
      var j :| 0 <= j <= |manifest.value| - |MULTIDEX_ANDROID| && OccursAt(manifest.value, MULTIDEX_ANDROID, j);
      assert OccursAt(manifest.value, MULTIDEX_PLAIN, j + 8) by {
        assert manifest.value[j + 8..j + 8 + |MULTIDEX_PLAIN|] == manifest.value[j..j + |MULTIDEX_ANDROID|][8..];
      }
    }
  }

  /** The replacement text for the matched tag enables multidex. */
  lemma AddMultidexEnables(content: string, attrs: string, closing: string)
    ensures Contains(AddMultidex(content, attrs, closing), MULTIDEX_PLAIN)
  {
    var pre := attrs + " ";
    if Contains(attrs, "android:") || Contains(content, ANDROID_XMLNS) {
      assert AddMultidex(content, attrs, closing) == pre + MULTIDEX_ANDROID + closing;
      OccursInMiddle(pre, MULTIDEX_ANDROID, closing);
      OccursConcat(pre + MULTIDEX_ANDROID + closing, "android:", MULTIDEX_PLAIN, |pre|);
      assert OccursAt(AddMultidex(content, attrs, closing), MULTIDEX_PLAIN, |pre| + 8);
    } else {
      assert AddMultidex(content, attrs, closing) == pre + MULTIDEX_PLAIN + closing;
      OccursInMiddle(pre, MULTIDEX_PLAIN, closing);
    }
  }

  /** The rewritten text enables multidex. */
  lemma RewriteEnables(content: string, i: nat, k: nat)
    requires i <= k < |content| && (content[k] == '/' ==> k + 1 < |content|)
    ensures Contains(Rewrite(content, i, k), MULTIDEX_PLAIN)
  {
    var e := if content[k] == '/' then k + 2 else k + 1;
    var added := AddMultidex(content, content[i..k], content[k..e]);
    AddMultidexEnables(content, content[i..k], content[k..e]);
    ContainsSuffix(content[..i], added, MULTIDEX_PLAIN);
    ContainsPrefix(content[..i] + added, content[e..], MULTIDEX_PLAIN);
  }

  /** After the insertion the manifest enables multidex. */
  lemma MultidexAdded(content: string)
    requires InsertMultidex(content).Some?
    ensures Contains(InsertMultidex(content).value, MULTIDEX_PLAIN)
  {
    var m := FirstAppTag(content, 0).value;
    RewriteEnables(content, m.0, m.1);
  }

  /** The text of a file, or None when there is no such file (a missing
      manifest, or one that cannot be opened for reading). */
  function FileText(files: map<string, string>, path: string): (r: Option<string>)
    ensures r.Some? <==> path in files
    ensures r.Some? ==> r.value == files[path]
  {
    if path in files then Some(files[path]) else None
  }

  /** A second update writes nothing: the manifest already enables multidex. */
  lemma MultidexOnce(dexCount: int, manifest: Option<string>)
    requires MultidexUpdate(dexCount, manifest).Some?
    ensures MultidexUpdate(dexCount, MultidexUpdate(dexCount, manifest)).None?
  {
    MultidexAdded(manifest.value);
  }

  // ---------------------------------------------------------------------------
  // The analyzer
  // ---------------------------------------------------------------------------

  /** `manifest_info` after `_extract_sdk_versions`: the non-empty versions. */
  function SdkInfo(info: map<string, string>, manifest: ManifestFile): (r: map<string, string>)
    ensures "min_sdk" in r <==> "min_sdk" in info || (SdkVersions(manifest).0.Some? && SdkVersions(manifest).0.value != "")
  {
    var (minSdk, targetSdk) := SdkVersions(manifest);
    var withMin := if minSdk.Some? && minSdk.value != "" then info["min_sdk" := minSdk.value] else info;
    if targetSdk.Some? && targetSdk.value != "" then withMin["target_sdk" := targetSdk.value] else withMin
  }

  /** The Android `name` of the first application element, when it is non-empty. */
  function ApplicationClass(root: Element): Option<string> {
    match First(FindDescendants(root, "application"))
    case None => None
    case Some(app) =>
      var c := Get(app.attrib, NsName("name"));
      if c.Some? && c.value != "" then c else None
  }

  /** The loop of `_find_dex_directories`: the matching directories, in
      the listing's order. */
  method CollectDexDirectories(items: seq<SmaliDecompiler.Item>) returns (found: seq<string>)
    ensures found == DexNames(items)
  {
    found := [];
    for i := 0 to |items|
      invariant found == DexNames(items[..i])
    {
      assert items[..i + 1][..i] == items[..i];
      if items[i].isDir && DexDirName(items[i].name) {
        found := found + [items[i].name];
      }
    }
    assert items[..|items|] == items;
  }

  /** The DEX directories after `_find_dex_directories`. */
  function DexListing(start: seq<string>, items: seq<SmaliDecompiler.Item>): seq<string> {
    SortByKey(start + DexNames(items), DexIndex)
  }

  /** `_find_dex_directories` on the directories found so far: the
      matching directories of the listing are appended and all are sorted by
      DEX index. */
  method SortDexDirectories(start: seq<string>, items: seq<SmaliDecompiler.Item>) returns (sorted: seq<string>)
    ensures sorted == DexListing(start, items)
  {
    var found := CollectDexDirectories(items);
    sorted := SortByKey(start + found, DexIndex);
  }

  /** `ApkAnalyzer`: the facts gathered by `analyze` and the queries over them. */
  class ApkAnalyzer {
    const moddedDir: string
    const spaceThreshold: int
    var dexDirectories: seq<string>
    var packageName: Option<string>
    var hasMultidex: bool
    var dexCount: int
    var manifestInfo: map<string, string>
    var applicationClass: Option<string>
    var mainActivity: Option<string>

    /** `ApkAnalyzer(modded_dir, config)`: `configured` is
        `config["dex_placement"]["space_threshold"]` when present. */
    constructor(moddedDir: string, configured: Option<int>)
      ensures this.moddedDir == moddedDir && spaceThreshold == configured.GetOr(DEFAULT_SPACE_THRESHOLD)
      ensures dexDirectories == [] && packageName.None? && !hasMultidex && dexCount == 0
      ensures manifestInfo == map[] && applicationClass.None? && mainActivity.None?
    {
      this.moddedDir := moddedDir;
      spaceThreshold := configured.GetOr(DEFAULT_SPACE_THRESHOLD);
      dexDirectories := [];
      packageName := None;
      hasMultidex := false;
      dexCount := 0;
      manifestInfo := map[];
      applicationClass := None;
      mainActivity := None;
    }

    /** `_find_dex_directories`: the matching directories are appended, then
        all are sorted by DEX index. */
    method FindDexDirectories(items: seq<SmaliDecompiler.Item>)
      modifies this
      ensures dexDirectories == DexListing(old(dexDirectories), items)
      ensures hasMultidex == (|dexDirectories| > 1) && dexCount == |dexDirectories|
      ensures packageName == old(packageName) && manifestInfo == old(manifestInfo)
      ensures applicationClass == old(applicationClass) && mainActivity == old(mainActivity)
    {
      var sorted := SortDexDirectories(dexDirectories, items);
      SetDexDirectories(sorted);
    }

    /** The fields `_find_dex_directories` sets from the sorted directories. */
    method SetDexDirectories(sorted: seq<string>)
      modifies this
      ensures dexDirectories == sorted && hasMultidex == (|sorted| > 1) && dexCount == |sorted|
      ensures packageName == old(packageName) && manifestInfo == old(manifestInfo)
      ensures applicationClass == old(applicationClass) && mainActivity == old(mainActivity)
    {
      dexDirectories, hasMultidex, dexCount := sorted, |sorted| > 1, |sorted|;
    }

    /** `analyze()` on a fresh analyzer: the DEX directories, the package,
        the SDK versions, the application class and the main activity. */
    method Analyze(items: seq<SmaliDecompiler.Item>, manifest: ManifestFile)
      modifies this
      ensures dexDirectories == DexListing(old(dexDirectories), items)
      ensures hasMultidex == (|dexDirectories| > 1) && dexCount == |dexDirectories|
      ensures packageName == PackageName(manifest)
      ensures manifestInfo == if manifest.Parsed? then SdkInfo(old(manifestInfo), manifest) else old(manifestInfo)
      ensures applicationClass == if manifest.Parsed? && ApplicationClass(manifest.root).Some? then ApplicationClass(manifest.root) else old(applicationClass)
      ensures mainActivity == MainActivity(manifest)
    {
      FindDexDirectories(items);
      AnalyzeManifestFacts(manifest);
    }

    /** The manifest part of `analyze()`: the package, `_analyze_manifest`
        and the main activity. */
    method AnalyzeManifestFacts(manifest: ManifestFile)
      modifies this
      ensures packageName == PackageName(manifest)
      ensures manifestInfo == if manifest.Parsed? then SdkInfo(old(manifestInfo), manifest) else old(manifestInfo)
      ensures applicationClass == if manifest.Parsed? && ApplicationClass(manifest.root).Some? then ApplicationClass(manifest.root) else old(applicationClass)
      ensures mainActivity == MainActivity(manifest)
      ensures dexDirectories == old(dexDirectories) && hasMultidex == old(hasMultidex) && dexCount == old(dexCount)
    {
      packageName := PackageName(manifest);
      AnalyzeManifest(manifest);
      mainActivity := MainActivity(manifest);
    }

    /** `_analyze_manifest`: a missing or unparsable manifest changes nothing. */
    method AnalyzeManifest(manifest: ManifestFile)
      modifies this
      ensures manifestInfo == if manifest.Parsed? then SdkInfo(old(manifestInfo), manifest) else old(manifestInfo)
      ensures applicationClass == if manifest.Parsed? && ApplicationClass(manifest.root).Some? then ApplicationClass(manifest.root) else old(applicationClass)
      ensures dexDirectories == old(dexDirectories) && packageName == old(packageName) && mainActivity == old(mainActivity)
      ensures hasMultidex == old(hasMultidex) && dexCount == old(dexCount)
    {
      if !manifest.Parsed? {
        return;
      }
      manifestInfo := SdkInfo(manifestInfo, manifest);
      var app := ApplicationClass(manifest.root);
      if app.Some? {
        applicationClass := app;
      }
    }

    /** `_has_space_in_dex`: fewer smali files than the threshold. */
    predicate HasSpaceInDex(fileCount: nat)
      reads this
    {
      fileCount < spaceThreshold
    }

    /** `_find_or_create_target_dex`, its loop written out. */
    method FindOrCreateTargetDex(index: int) returns (p: Placement)
      ensures p == TargetPlacement(dexDirectories, index)
    {
      var name := SmaliDecompiler.DirName(index);
      for i := 0 to |dexDirectories|
        invariant forall j :: 0 <= j < i ==> dexDirectories[j] != name
      {
        if dexDirectories[i] == name {
          return Existing(name);
        }
      }
      return Created(name);
    }

    /** `_find_least_loaded_dex`: the counts are gathered in a loop and sorted
        stably by count; the first directory wins. */
    method FindLeastLoadedDex(fileCount: string -> nat) returns (p: Placement)
      ensures dexDirectories == [] ==> p == Created("smali")
      ensures dexDirectories != [] ==> p.Existing? && exists k :: LeastLoaded(dexDirectories, fileCount, k) && p.name == dexDirectories[k]
    {
      if dexDirectories == [] {
        return Created("smali");
      }
      var loads: seq<(string, int)> := [];
      for i := 0 to |dexDirectories|
        invariant loads == Loads(dexDirectories[..i], fileCount)
      {
        assert dexDirectories[..i + 1][..i] == dexDirectories[..i];
        loads := loads + [(dexDirectories[i], fileCount(dexDirectories[i]))];
      }
      assert dexDirectories[..|dexDirectories|] == dexDirectories;
      var sorted := SortByKey(loads, Load);
      var k := LeastLoadedHead(dexDirectories, fileCount);
      return Existing(sorted[0].0);
    }

    /** `suggest_dex_placement(target_dex_index)`. */
    method SuggestDexPlacement(target: Option<int>, fileCount: string -> nat) returns (p: Placement)
      ensures dexDirectories == [] ==> p == Created("smali")
      ensures dexDirectories != [] && target.Some? ==> p == TargetPlacement(dexDirectories, target.value)
      ensures dexDirectories != [] && target.None? ==>
        p.Existing? && exists k :: LeastLoaded(dexDirectories, fileCount, k) && p.name == dexDirectories[k]
    {
      if dexDirectories == [] {
        return Created("smali");
      }
      if target.Some? {
        p := FindOrCreateTargetDex(target.value);
        return;
      }
      p := FindLeastLoadedDex(fileCount);
    }

    /** `update_manifest_for_multidex`: the manifest is read when there are
        several DEX directories and it exists as a file, and written back
        with the attribute when `MultidexUpdate` gives a new text. */
    method UpdateManifestForMultidex(disk: Disk) returns (written: bool)
      modifies disk
      ensures var path := JoinPath(moddedDir, MANIFEST_FILE);
        var update := MultidexUpdate(dexCount, FileText(old(disk.files), path));
        written == update.Some?
        && disk.files == (if update.Some? then old(disk.files)[path := update.value] else old(disk.files))
      ensures disk.dirs == old(disk.dirs)
    {
      if dexCount <= 1 {
        return false;
      }
      var path := JoinPath(moddedDir, MANIFEST_FILE);
      if path !in disk.files {
        return false;
      }
      var content := disk.files[path];
      if Contains(content, MULTIDEX_ANDROID) || Contains(content, MULTIDEX_PLAIN) {
        return false;
      }
      var updated := InsertMultidex(content);
      if updated.None? {
        return false;
      }
      disk.WriteText(path, updated.value);
      return true;
    }

    /** The expected place of `BuildConfig.smali` in a DEX directory. */
    function BuildConfigIn(dir: string, package: string): string
      reads this
    {
      JoinPath(JoinPath(JoinPath(moddedDir, dir), ReplaceAll(package, ".", "/")), BUILD_CONFIG_FILE)
    }

    /** The first DEX directory from `i` on that holds the expected file. */
    function FirstBuildConfigDir(package: string, existing: set<string>, i: nat): (r: Option<nat>)
      reads this
      requires i <= |dexDirectories|
      ensures r.Some? ==> i <= r.value < |dexDirectories| && FirstHolding(package, existing, i, r.value)
      ensures r.None? ==> forall k :: i <= k < |dexDirectories| ==> BuildConfigIn(dexDirectories[k], package) !in existing
      decreases |dexDirectories| - i
    {
      if i == |dexDirectories| then None
      else if BuildConfigIn(dexDirectories[i], package) in existing then Some(i)
      else FirstBuildConfigDir(package, existing, i + 1)
    }

    /** Directory `k` holds the expected file and none from `i` before it does. */
    predicate FirstHolding(package: string, existing: set<string>, i: nat, k: nat)
      reads this
      requires i <= k < |dexDirectories|
    {
      BuildConfigIn(dexDirectories[k], package) in existing
      && forall j :: i <= j < k ==> BuildConfigIn(dexDirectories[j], package) !in existing
    }

    /** `find_build_config`: the expected place in each DEX directory, in
        order, and otherwise the first `BuildConfig.smali` a recursive search
        finds (`recursive`); without a package only the recursive search. */
    function FindBuildConfig(existing: set<string>, recursive: Option<string>): Option<string>
      reads this
    {
      if packageName.None? || packageName.value == "" then recursive
      else
        var found := FirstBuildConfigDir(packageName.value, existing, 0);
        if found.Some? then Some(BuildConfigIn(dexDirectories[found.value], packageName.value)) else recursive
    }

    /** `_find_build_config_in_dexes`, its loop written out. */
    method FindBuildConfigLoop(existing: set<string>, recursive: Option<string>) returns (r: Option<string>)
      ensures r == FindBuildConfig(existing, recursive)
    {
      if packageName.None? || packageName.value == "" {
        return recursive;
      }
      var package := packageName.value;
      for i := 0 to |dexDirectories|
        invariant FirstBuildConfigDir(package, existing, 0) == FirstBuildConfigDir(package, existing, i)
      {
        var expected := BuildConfigIn(dexDirectories[i], package);
        if expected in existing {
          return Some(expected);
        }
      }
      return recursive;
    }
  }

  /** With a package, a DEX directory holding `BuildConfig.smali` at the
      package's path wins over the recursive search, the earliest such
      directory first; the recursive result is used only when none does. */
  lemma BuildConfigOrder(a: ApkAnalyzer, existing: set<string>, recursive: Option<string>)
    requires a.packageName.Some? && a.packageName.value != ""
    ensures var r := a.FindBuildConfig(existing, recursive);
      var dirs := a.dexDirectories;
      var package := a.packageName.value;
      ((exists k :: 0 <= k < |dirs| && a.BuildConfigIn(dirs[k], package) in existing) ==>
        exists k :: 0 <= k < |dirs| && a.FirstHolding(package, existing, 0, k) && r == Some(a.BuildConfigIn(dirs[k], package)))
      && ((forall k :: 0 <= k < |dirs| ==> a.BuildConfigIn(dirs[k], package) !in existing) ==> r == recursive)
  {
    var found := a.FirstBuildConfigDir(a.packageName.value, existing, 0);
    if found.Some? {
      assert a.FirstHolding(a.packageName.value, existing, 0, found.value);
    }
  }

  // ---------------------------------------------------------------------------
  // `merge_smali_files`
  // ---------------------------------------------------------------------------

  /** `_copy_smali_files` as a fold: each smali file (by its path relative to
      the source directory, where the listing found it) is copied to the same
      relative path under the target unless the copy raises (`failing`); the
      result is the new file map and the number of files copied. */
  function CopySmali(files: map<string, string>, sourceDir: string, targetDir: string, rels: seq<string>, failing: set<string>)
    : (r: (map<string, string>, nat))
    requires forall rel :: rel in rels ==> JoinPath(sourceDir, rel) in files
    ensures files.Keys <= r.0.Keys
    ensures r.1 == CopiedCount(rels, failing)
    decreases |rels|
  {
    if rels == [] then (files, 0)
    else
      var rel := rels[|rels| - 1];
      var (before, count) := CopySmali(files, sourceDir, targetDir, rels[..|rels| - 1], failing);
      if rel !in failing then (before[JoinPath(targetDir, rel) := before[JoinPath(sourceDir, rel)]], count + 1)
      else (before, count)
  }

  /** One more file of the listing: the fold takes one more step. */
  lemma CopySmaliStep(files: map<string, string>, sourceDir: string, targetDir: string, rels: seq<string>, failing: set<string>, i: nat)
    requires forall rel :: rel in rels ==> JoinPath(sourceDir, rel) in files
    requires i < |rels|
    ensures forall rel :: rel in rels[..i + 1] ==> JoinPath(sourceDir, rel) in files
    ensures var (before, count) := CopySmali(files, sourceDir, targetDir, rels[..i], failing);
      var rel := rels[i];
      JoinPath(sourceDir, rel) in before
      && CopySmali(files, sourceDir, targetDir, rels[..i + 1], failing) ==
        if rel !in failing then (before[JoinPath(targetDir, rel) := before[JoinPath(sourceDir, rel)]], count + 1) else (before, count)
  {
    assert rels[..i + 1][..i] == rels[..i];
    assert rels[i] in rels;
  }

  /** The number of files whose copy does not raise. */
  function CopiedCount(rels: seq<string>, failing: set<string>): (n: nat)
    ensures n <= |rels|
    ensures n == |rels| <==> forall k :: 0 <= k < |rels| ==> rels[k] !in failing
    decreases |rels|
  {
    if rels == [] then 0
    else CopiedCount(rels[..|rels| - 1], failing) + if rels[|rels| - 1] !in failing then 1 else 0
  }

  /** No target path is the path of a source file. */
  predicate Apart(sourceDir: string, targetDir: string, rels: seq<string>) {
    forall r1, r2 :: r1 in rels && r2 in rels ==> JoinPath(targetDir, r1) != JoinPath(sourceDir, r2)
  }

  /** A path no copy writes to keeps its content. */
  lemma {:induction false} CopySmaliKeeps(files: map<string, string>, sourceDir: string, targetDir: string, rels: seq<string>, failing: set<string>, p: string)
    requires forall r :: r in rels ==> JoinPath(sourceDir, r) in files
    requires p in files && forall r :: r in rels ==> JoinPath(targetDir, r) != p
    ensures CopySmali(files, sourceDir, targetDir, rels, failing).0[p] == files[p]
    decreases |rels|
  {
    if rels != [] {
      var init := rels[..|rels| - 1];
      assert forall r :: r in init ==> r in rels;
      assert rels[|rels| - 1] in rels;
      CopySmaliKeeps(files, sourceDir, targetDir, init, failing, p);
    }
  }

  /** Every file that is copied has its source content at its relative path
      under the target. */
  lemma {:induction false} CopySmaliContent(files: map<string, string>, sourceDir: string, targetDir: string, rels: seq<string>, failing: set<string>, k: nat)
    requires forall r :: r in rels ==> JoinPath(sourceDir, r) in files
    requires Apart(sourceDir, targetDir, rels)
    requires k < |rels| && rels[k] !in failing
    ensures var after := CopySmali(files, sourceDir, targetDir, rels, failing).0;
      JoinPath(targetDir, rels[k]) in after && after[JoinPath(targetDir, rels[k])] == files[JoinPath(sourceDir, rels[k])]
    decreases |rels|
  {
    var init := rels[..|rels| - 1];
    var last := rels[|rels| - 1];
    assert forall r :: r in init ==> r in rels;
    assert last in rels && rels[k] in rels;
    CopySmaliKeeps(files, sourceDir, targetDir, init, failing, JoinPath(sourceDir, last));
    if k < |rels| - 1 {
      assert rels[k] == init[k];
      CopySmaliContent(files, sourceDir, targetDir, init, failing, k);
      if last !in failing && JoinPath(targetDir, last) == JoinPath(targetDir, rels[k]) {
        assert last == rels[k] by {
          assert last == JoinPath(targetDir, last)[|targetDir| + 1..];
        }
      }
    }
  }

  /** `merge_smali_files(source_dir, target_dex_index)`: 0 without a source
      directory or without smali files in it; otherwise the smali files go to
      the suggested DEX directory and the count of copied files is returned. */
  method MergeSmaliFiles(a: ApkAnalyzer, disk: Disk, sourceDir: string, smaliFiles: seq<string>, target: Option<int>,
                         fileCount: string -> nat, failing: set<string>) returns (merged: nat, placement: Option<Placement>)
    requires forall rel :: rel in smaliFiles ==> JoinPath(sourceDir, rel) in disk.files
    modifies disk
    ensures !old(disk.Exists(sourceDir)) || smaliFiles == [] ==> merged == 0 && placement.None? && disk.files == old(disk.files) && disk.dirs == old(disk.dirs)
    ensures old(disk.Exists(sourceDir)) && smaliFiles != [] ==> (placement.Some? &&
      (disk.files, merged) == CopySmali(old(disk.files), sourceDir, JoinPath(a.moddedDir, placement.value.name), smaliFiles, failing)
      && disk.dirs == old(disk.dirs) + if placement.value.Created? then {JoinPath(a.moddedDir, placement.value.name)} else {})
  {
    if !disk.Exists(sourceDir) || smaliFiles == [] {
      return 0, None;
    }
    var p := a.SuggestDexPlacement(target, fileCount);
    placement := Some(p);
    var targetDir := JoinPath(a.moddedDir, p.name);
    if p.Created? {
      disk.dirs := disk.dirs + {targetDir};
    }
    merged := CopySmaliFiles(disk, sourceDir, targetDir, smaliFiles, failing);
  }

  /** `_copy_smali_files`, its loop written out. */
  method CopySmaliFiles(disk: Disk, sourceDir: string, targetDir: string, smaliFiles: seq<string>, failing: set<string>)
    returns (merged: nat)
    requires forall rel :: rel in smaliFiles ==> JoinPath(sourceDir, rel) in disk.files
    modifies disk
    ensures (disk.files, merged) == CopySmali(old(disk.files), sourceDir, targetDir, smaliFiles, failing)
    ensures disk.dirs == old(disk.dirs)
  {
    merged := 0;
    ghost var files0 := disk.files;
    for i := 0 to |smaliFiles|
      invariant (disk.files, merged) == CopySmali(files0, sourceDir, targetDir, smaliFiles[..i], failing)
      invariant disk.dirs == old(disk.dirs)
    {
      CopySmaliStep(files0, sourceDir, targetDir, smaliFiles, failing, i);
      var rel := smaliFiles[i];
      if rel !in failing {
        disk.files := disk.files[JoinPath(targetDir, rel) := disk.files[JoinPath(sourceDir, rel)]];
        merged := merged + 1;
      }
    }
    assert smaliFiles[..|smaliFiles|] == smaliFiles;
  }
}
