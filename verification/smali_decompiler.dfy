/** `smali_decompiler.py`: where baksmali writes the smali code of each DEX
    file. Directory `smali` holds the first DEX file and `smali_classesN` the
    N-th; new code goes either into one chosen directory or into fresh
    directories numbered after the existing ones. The baksmali runs are given
    by a parameter that maps a command line to its outcome. */
module SmaliDecompiler {
  import opened Wrappers
  import opened Text
  import opened Order
  import opened Fs
  import opened ManifestManager
  import PlatformUtils

  const SMALI := "smali"
  const CLASSES_PREFIX := "smali_classes"
  const DEFAULT_API_LEVEL := 21

  /** The decompiler's settings, fixed by its constructor. */
  datatype Decompiler = Decompiler(baksmaliJar: string, moddedDir: string)

  /** A DEX file: the directory it is in and its file name. */
  datatype DexFile = DexFile(dir: string, name: string) {
    function Path(): string {
      JoinPath(dir, name)
    }
  }

  /** An entry of `modded_dir.iterdir()`: its name and whether it is a directory. */
  datatype Item = Item(name: string, isDir: bool)

  // ---------------------------------------------------------------------------
  // Directory names and indices
  // ---------------------------------------------------------------------------

  /** The directory for DEX index `index`: `smali` for 1, `smali_classes<index>` otherwise. */
  function DirName(index: int): (name: string)
    ensures StartsWith(name, SMALI)
    ensures index == 1 <==> name == SMALI
    ensures index != 1 ==> name == CLASSES_PREFIX + IntStr(index)
  {
    if index == 1 then SMALI else CLASSES_PREFIX + IntStr(index)
  }

  /** The index `_get_existing_smali_dirs` reads from a directory name:
      1 for `smali`, otherwise `int` of the name with every `smali_classes`
      removed, and none when `int` raises ValueError. */
  function DirIndex(name: string): Option<int> {
    if name == SMALI then Some(1) else PyInt(ReplaceAll(name, CLASSES_PREFIX, ""))
  }

  /** The characters of `str(n)` are digits and a minus sign. */
  lemma IntStrChars(n: int)
    ensures forall i :: 0 <= i < |IntStr(n)| ==> IsDigit(IntStr(n)[i]) || IntStr(n)[i] == '-'
  {
    if n < 0 {
      var d := NatStr(-n);
      assert IntStr(n) == "-" + d;
      assert forall i :: 1 <= i < |IntStr(n)| ==> IntStr(n)[i] == d[i - 1];
    }
  }

  /** `str(n)` does not contain `smali_classes`. */
  lemma IntStrNoPrefix(n: int)
    ensures !Contains(IntStr(n), CLASSES_PREFIX)
  {
    var s := IntStr(n);
    IntStrChars(n);
    forall i | 0 <= i <= |s| - |CLASSES_PREFIX|
      ensures !OccursAt(s, CLASSES_PREFIX, i)
    {
      assert s[i..i + |CLASSES_PREFIX|][0] == s[i];
      assert s[i] != CLASSES_PREFIX[0];
    }
  }

  /** Reading the index back from the directory name gives the index. */
  lemma DirIndexDirName(index: int)
    ensures DirIndex(DirName(index)) == Some(index)
  {
    if index != 1 {
      var name := DirName(index);
      assert name != SMALI;
      assert name[..|CLASSES_PREFIX|] == CLASSES_PREFIX;
      assert name[|CLASSES_PREFIX|..] == IntStr(index);
      IntStrNoPrefix(index);
      ReplaceAllAbsent(IntStr(index), CLASSES_PREFIX, "");
      assert ReplaceAll(name, CLASSES_PREFIX, "") == IntStr(index);
      PyIntIntStr(index);
    }
  }

  /** Distinct indices give distinct directories. */
  lemma DirNameInjective(a: int, b: int)
    requires DirName(a) == DirName(b)
    ensures a == b
  {
    DirIndexDirName(a);
    DirIndexDirName(b);
  }

  // ---------------------------------------------------------------------------
  // `_get_existing_smali_dirs`
  // ---------------------------------------------------------------------------

  /** A directory whose name starts with `smali`. */
  predicate SmaliItem(item: Item) {
    item.isDir && StartsWith(item.name, SMALI)
  }

  /** The names of the smali directories, in listing order. */
  function SmaliNames(items: seq<Item>): (names: seq<string>)
    ensures |names| <= |items|
    decreases |items|
  {
    if items == [] then []
    else SmaliNames(items[..|items| - 1]) + if SmaliItem(items[|items| - 1]) then [items[|items| - 1].name] else []
  }

  /** The index read from one entry: none unless it is a smali directory
      whose name gives one. */
  function ItemIndex(item: Item): (r: seq<int>)
    ensures |r| <= 1
  {
    if SmaliItem(item) && DirIndex(item.name).Some? then [DirIndex(item.name).value] else []
  }

  /** The indices read from the smali directories, in listing order. */
  function Indices(items: seq<Item>): seq<int>
    decreases |items|
  {
    if items == [] then [] else Indices(items[..|items| - 1]) + ItemIndex(items[|items| - 1])
  }

  /** A name is listed exactly when it is a smali directory of the listing. */
  lemma {:induction false} SmaliNamesExactly(items: seq<Item>, name: string)
    ensures name in SmaliNames(items) <==> exists k :: 0 <= k < |items| && SmaliItem(items[k]) && items[k].name == name
    decreases |items|
  {
    if items != [] {
      var init := items[..|items| - 1];
      SmaliNamesExactly(init, name);
      assert forall k :: 0 <= k < |init| ==> init[k] == items[k];
    }
  }

  /** An index is read exactly when some smali directory's name gives it. */
  lemma IndicesExactly(items: seq<Item>, x: int)
    ensures x in Indices(items) <==> exists k :: 0 <= k < |items| && SmaliItem(items[k]) && DirIndex(items[k].name) == Some(x)
  {
    IndicesFrom(items, x);
    forall k | 0 <= k < |items|
      ensures x in ItemIndex(items[k]) <==> SmaliItem(items[k]) && DirIndex(items[k].name) == Some(x)
    {
    }
  }

  lemma IndicesFrom(items: seq<Item>, x: int)
    ensures x in Indices(items) <==> exists k :: 0 <= k < |items| && x in ItemIndex(items[k])
  {
    IndicesAsConcat(items);
    ConcatIn(items, ItemIndex, x);
  }

  /** The lists `f` gives for the items, one after the other. */
  function Concat(items: seq<Item>, f: Item -> seq<int>): seq<int>
    decreases |items|
  {
    if items == [] then [] else Concat(items[..|items| - 1], f) + f(items[|items| - 1])
  }

  lemma {:induction false} IndicesAsConcat(items: seq<Item>)
    ensures Indices(items) == Concat(items, ItemIndex)
    decreases |items|
  {
    if items != [] {
      IndicesAsConcat(items[..|items| - 1]);
    }
  }

  /** A value is in the concatenation exactly when one of the lists holds it. */
  lemma {:induction false} ConcatIn(items: seq<Item>, f: Item -> seq<int>, x: int)
    ensures x in Concat(items, f) <==> exists k :: 0 <= k < |items| && x in f(items[k])
    decreases |items|
  {
    if items != [] {
      var init := items[..|items| - 1];
      ConcatIn(init, f, x);
      if exists k :: 0 <= k < |init| && x in f(init[k]) {
        var k :| 0 <= k < |init| && x in f(init[k]);
        assert items[k] == init[k];
      }
      if exists k :: 0 <= k < |items| && x in f(items[k]) {
        var k :| 0 <= k < |items| && x in f(items[k]);
        if k < |init| {
          assert init[k] == items[k];
        }
      }
    }
  }

  /** `_get_existing_smali_dirs`: the smali directory names, and their indices sorted. */
  method GetExistingSmaliDirs(items: seq<Item>) returns (existing: seq<string>, smaliDirs: seq<int>)
    ensures existing == SmaliNames(items)
    ensures smaliDirs == SortInts(Indices(items))
    ensures SortedInts(smaliDirs) && multiset(smaliDirs) == multiset(Indices(items))
  {
    existing := [];
    var indices := [];
    for i := 0 to |items|
      invariant existing == SmaliNames(items[..i])
      invariant indices == Indices(items[..i])
    {
      assert items[..i + 1][..i] == items[..i];
      var item := items[i];
      if item.isDir && StartsWith(item.name, SMALI) {
        existing := existing + [item.name];
        if item.name == SMALI {
          indices := indices + [1];
        } else {
          var index := PyInt(ReplaceAll(item.name, CLASSES_PREFIX, ""));
          if index.Some? {
            indices := indices + [index.value];
          }
        }
      }
    }
    assert items[..|items|] == items;
    smaliDirs := SortInts(indices);
  }

  // ---------------------------------------------------------------------------
  // Target directories
  // ---------------------------------------------------------------------------

  /** Auto-detection is used when no index, or index 0, is asked for. */
  predicate AutoMode(target: Option<int>) {
    target.None? || target.value == 0
  }

  /** The largest existing index, or 0 without any. */
  function BaseIndex(smaliDirs: seq<int>): (b: int)
    ensures smaliDirs == [] ==> b == 0
    ensures smaliDirs != [] ==> b in smaliDirs && forall x :: x in smaliDirs ==> x <= b
  {
    if smaliDirs == [] then 0 else MaxOf(smaliDirs)
  }

  /** `_get_auto_detected_directory(smali_dirs, i)`, branch by branch. */
  function AutoDirectory(smaliDirs: seq<int>, i: nat): string {
    if i == 0 then
      if smaliDirs == [] then SMALI
      else
        var next := MaxOf(smaliDirs) + 1;
        if next == 1 then SMALI else CLASSES_PREFIX + IntStr(next)
    else
      var base := if smaliDirs != [] then MaxOf(smaliDirs) else 0;
      var t := base + i + 1;
      if t == 1 then SMALI else CLASSES_PREFIX + IntStr(t)
  }

  /** Both branches name the directory of index base + i + 1. */
  lemma AutoDirectoryIndex(smaliDirs: seq<int>, i: nat)
    ensures AutoDirectory(smaliDirs, i) == DirName(BaseIndex(smaliDirs) + i + 1)
  {
  }

  /** `_get_target_directory(index)` in fixed mode, or the auto-detected directory. */
  function TargetName(target: Option<int>, smaliDirs: seq<int>, i: nat): string {
    if AutoMode(target) then AutoDirectory(smaliDirs, i) else DirName(target.value)
  }

  /** In auto mode distinct DEX files get distinct directories, each with an
      index above every existing one. */
  lemma AutoTargetsDistinct(smaliDirs: seq<int>, i: nat, j: nat)
    ensures i != j ==> AutoDirectory(smaliDirs, i) != AutoDirectory(smaliDirs, j)
    ensures forall x :: x in smaliDirs ==> x < BaseIndex(smaliDirs) + i + 1
  {
    AutoDirectoryIndex(smaliDirs, i);
    AutoDirectoryIndex(smaliDirs, j);
    if AutoDirectory(smaliDirs, i) == AutoDirectory(smaliDirs, j) {
      DirNameInjective(BaseIndex(smaliDirs) + i + 1, BaseIndex(smaliDirs) + j + 1);
    }
  }

  /** An auto-detected directory is none of the existing smali directories. */
  lemma AutoTargetFresh(items: seq<Item>, i: nat)
    ensures AutoDirectory(SortInts(Indices(items)), i) !in SmaliNames(items)
  {
    var dirs := SortInts(Indices(items));
    var k := BaseIndex(dirs) + i + 1;
    AutoDirectoryIndex(dirs, i);
    AutoTargetsDistinct(dirs, i, i);
    assert k !in multiset(Indices(items)) by {
      assert k !in dirs;
    }
    ListedIndexRead(items, k);
  }

  /** A listed directory named for index `k` contributes `k` to the indices. */
  lemma ListedIndexRead(items: seq<Item>, k: int)
    ensures DirName(k) in SmaliNames(items) ==> k in Indices(items)
  {
    SmaliNamesExactly(items, DirName(k));
    DirIndexDirName(k);
    IndicesExactly(items, k);
  }

  /** In fixed mode every DEX file goes to the directory of the chosen index. */
  lemma FixedTarget(target: Option<int>, smaliDirs: seq<int>, i: nat)
    requires !AutoMode(target)
    ensures TargetName(target, smaliDirs, i) == DirName(target.value)
    ensures target.value == 1 ==> TargetName(target, smaliDirs, i) == SMALI
  {
  }

  // ---------------------------------------------------------------------------
  // `_get_api_level_for_dex` and `_decompile_single_dex`
  // ---------------------------------------------------------------------------

  /** `_get_api_level_for_dex`: 21 for the second and third DEX files,
      otherwise the manifest's minimum SDK. */
  function ApiLevel(dex: DexFile, manifest: ManifestFile): int {
    if Contains(dex.Path(), "classes2.dex") || Contains(dex.Path(), "classes3.dex") then DEFAULT_API_LEVEL
    else MinSdk(manifest)
  }

  /** The API level is 21 for a path naming classes2.dex or classes3.dex, the
      value of an all-digit `minSdkVersion` otherwise, and 21 in every other case. */
  lemma ApiLevelRule(dex: DexFile, manifest: ManifestFile)
    ensures var m := SdkVersions(manifest).0;
      ApiLevel(dex, manifest) ==
        if Contains(dex.Path(), "classes2.dex") || Contains(dex.Path(), "classes3.dex") then DEFAULT_API_LEVEL
        else if m.Some? && IsDigits(m.value) then DigitsValue(m.value)
        else DEFAULT_API_LEVEL
  {
    MinSdkValue(manifest);
  }

  /** The baksmali command line for one DEX file. */
  function BaksmaliCommand(d: Decompiler, dex: DexFile, targetDir: string, api: int): (cmd: seq<string>)
    ensures |cmd| == 9 && cmd[4] == dex.Path() && cmd[6] == targetDir && cmd[8] == IntStr(api)
  {
    ["java", "-jar", d.baksmaliJar, "d", dex.Path(), "-o", targetDir, "--api", IntStr(api)]
  }

  /** The outcome of running a command line. */
  type Runner = seq<string> -> PlatformUtils.Launch

  /** `_decompile_single_dex(dex_file, target_dir)`: baksmali through `run_command_checked`. */
  function DecompileSingle(d: Decompiler, dex: DexFile, targetName: string, manifest: ManifestFile, run: Runner): Result<PlatformUtils.Completed> {
    var cmd := BaksmaliCommand(d, dex, JoinPath(d.moddedDir, targetName), ApiLevel(dex, manifest));
    PlatformUtils.RunCommandChecked(cmd, run(cmd), "baksmali failed for " + dex.name)
  }

  // ---------------------------------------------------------------------------
  // `decompile`
  // ---------------------------------------------------------------------------

  /** The directory names of the first `n` DEX files. */
  function Targets(target: Option<int>, smaliDirs: seq<int>, n: nat): set<string> {
    set i | 0 <= i < n :: TargetName(target, smaliDirs, i)
  }

  /** The baksmali run for the `i`-th DEX file into its target directory. */
  function Step(d: Decompiler, dexFiles: seq<DexFile>, target: Option<int>, smaliDirs: seq<int>, manifest: ManifestFile, run: Runner, i: nat)
    : Result<PlatformUtils.Completed>
    requires i < |dexFiles|
  {
    DecompileSingle(d, dexFiles[i], TargetName(target, smaliDirs, i), manifest, run)
  }

  /** The runs for the first `n` DEX files all succeed. */
  predicate RunsSucceed(d: Decompiler, dexFiles: seq<DexFile>, target: Option<int>, smaliDirs: seq<int>, manifest: ManifestFile, run: Runner, n: nat)
    requires n <= |dexFiles|
  {
    forall i :: 0 <= i < n ==> Step(d, dexFiles, target, smaliDirs, manifest, run, i).Ok?
  }

  lemma RunsSucceedStep(d: Decompiler, dexFiles: seq<DexFile>, target: Option<int>, smaliDirs: seq<int>, manifest: ManifestFile, run: Runner, n: nat)
    requires n < |dexFiles| && RunsSucceed(d, dexFiles, target, smaliDirs, manifest, run, n)
    requires Step(d, dexFiles, target, smaliDirs, manifest, run, n).Ok?
    ensures RunsSucceed(d, dexFiles, target, smaliDirs, manifest, run, n + 1)
  {
  }

  /** `decompile(dex_files, target_dex_index)`: the names of the directories
      written to, or the first baksmali failure. */
  method Decompile(d: Decompiler, items: seq<Item>, dexFiles: seq<DexFile>, target: Option<int>, manifest: ManifestFile, run: Runner)
    returns (r: Result<set<string>>)
    ensures var smaliDirs := SortInts(Indices(items));
      r.Ok? <==> RunsSucceed(d, dexFiles, target, smaliDirs, manifest, run, |dexFiles|)
    ensures var smaliDirs := SortInts(Indices(items));
      r.Ok? ==> r.value == Targets(target, smaliDirs, |dexFiles|)
    ensures var smaliDirs := SortInts(Indices(items));
      r.Err? ==> exists k :: (0 <= k < |dexFiles| && Step(d, dexFiles, target, smaliDirs, manifest, run, k) == Err(r.error)
        && RunsSucceed(d, dexFiles, target, smaliDirs, manifest, run, k))
  {
    var existing, smaliDirs := GetExistingSmaliDirs(items);
    var created: set<string> := {};
    var auto := target.None? || target.value == 0;
    for i := 0 to |dexFiles|
      invariant created == Targets(target, smaliDirs, i)
      invariant RunsSucceed(d, dexFiles, target, smaliDirs, manifest, run, i)
    {
      var name := if !auto then DirName(target.value) else AutoDirectory(smaliDirs, i);
      assert name == TargetName(target, smaliDirs, i);
      TargetsStep(target, smaliDirs, i);
      created := created + {name};
      var outcome := DecompileSingle(d, dexFiles[i], name, manifest, run);
      assert outcome == Step(d, dexFiles, target, smaliDirs, manifest, run, i);
      if outcome.Err? {
        return Err(outcome.error);
      }
      RunsSucceedStep(d, dexFiles, target, smaliDirs, manifest, run, i);
    }
    return Ok(created);
  }

  /** Targets grow by the next file's directory. */
  lemma TargetsStep(target: Option<int>, smaliDirs: seq<int>, n: nat)
    ensures Targets(target, smaliDirs, n + 1) == Targets(target, smaliDirs, n) + {TargetName(target, smaliDirs, n)}
  {
  }

  /** In auto mode each DEX file has its own directory. */
  lemma {:induction false} AutoTargetsCount(smaliDirs: seq<int>, n: nat)
    ensures |Targets(None, smaliDirs, n)| == n
    decreases n
  {
    if n > 0 {
      AutoTargetsCount(smaliDirs, n - 1);
      TargetsStep(None, smaliDirs, n - 1);
      if TargetName(None, smaliDirs, n - 1) in Targets(None, smaliDirs, n - 1) {
        var i :| 0 <= i < n - 1 && TargetName(None, smaliDirs, i) == TargetName(None, smaliDirs, n - 1);
        AutoTargetsDistinct(smaliDirs, i, n - 1);
        assert false;
      }
    }
  }

  /** In fixed mode every DEX file lands in the one chosen directory. */
  lemma FixedTargets(target: Option<int>, smaliDirs: seq<int>, n: nat)
    requires !AutoMode(target) && n > 0
    ensures Targets(target, smaliDirs, n) == {DirName(target.value)}
  {
    assert TargetName(target, smaliDirs, 0) in Targets(target, smaliDirs, n);
  }
}
