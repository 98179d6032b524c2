/** `compiler.py`: the source compiler's configuration check, the search for
    `android.jar`, the compilation classpath and the temporary directories
    that `compile_and_merge` creates and always removes again. The compilers,
    the jar builder, the dex converter and the smali decompiler it runs in
    between are one outcome given as a parameter. */
module Compiler {
  import opened Wrappers
  import opened Text
  import opened Fs
  import opened Order

  const REQUIRED_PATHS := ["modded_dir", "android_sdk", "src_dir"]
  const PLATFORMS := "platforms"
  const PLATFORM_PREFIX := "android-"
  const SDK_ERROR_HEADER := "Android SDK not found.\n\nPlease install Android SDK:\nCurrent search paths checked:\n"

  // ---------------------------------------------------------------------------
  // The constructor's check
  // ---------------------------------------------------------------------------

  /** The keys of `keys` that `paths` lacks, in the order of `keys`. */
  function MissingKeys(keys: seq<string>, paths: map<string, string>): (r: seq<string>)
    ensures forall k :: k in r <==> k in keys && k !in paths
    ensures |r| <= |keys|
  {
    if keys == [] then []
    else
      var init := keys[..|keys| - 1];
      var k := keys[|keys| - 1];
      assert keys == init + [k];
      MissingKeys(init, paths) + (if k in paths then [] else [k])
  }

  /** The three required keys are reported in their fixed order. */
  lemma MissingRequired(paths: map<string, string>)
    ensures MissingKeys(REQUIRED_PATHS, paths) ==
      (if "modded_dir" in paths then [] else ["modded_dir"]) +
      (if "android_sdk" in paths then [] else ["android_sdk"]) +
      (if "src_dir" in paths then [] else ["src_dir"])
  {
    var a := ["modded_dir"];
    var b := ["modded_dir", "android_sdk"];
    assert a[..0] == [] && b[..1] == a && REQUIRED_PATHS[..2] == b;
    assert MissingKeys(a, paths) == (if "modded_dir" in paths then [] else ["modded_dir"]);
    assert MissingKeys(b, paths) == MissingKeys(a, paths) + (if "android_sdk" in paths then [] else ["android_sdk"]);
  }

  /** Python's `repr` of a list of strings free of quotes and backslashes. */
  function ListRepr(items: seq<string>): string {
    "[" + Join(seq(|items|, i requires 0 <= i < |items| => "'" + items[i] + "'"), ", ") + "]"
  }

  /** What `SourceCompiler(paths, found_files)` raises: a ConfigError listing
      the missing required paths, else a KeyError when the baksmali jar was
      not found. */
  function ConstructionError(paths: map<string, string>, foundFiles: set<string>): (r: Option<Error>)
    ensures r.None? <==> (forall k :: k in REQUIRED_PATHS ==> k in paths) && "baksmali_jar" in foundFiles
    ensures r.Some? ==> (r.value.kind == ConfigError <==> exists k :: k in REQUIRED_PATHS && k !in paths)
    ensures r.Some? && r.value.kind == ConfigError ==>
      r.value.message == "Missing required paths: " + ListRepr(MissingKeys(REQUIRED_PATHS, paths))
    ensures r.Some? && r.value.kind != ConfigError ==> r.value == Error(KeyError, "'baksmali_jar'")
  {
    var missing := MissingKeys(REQUIRED_PATHS, paths);
    if missing != [] then
      assert missing[0] in REQUIRED_PATHS && missing[0] !in paths;
      Some(Error(ConfigError, "Missing required paths: " + ListRepr(missing)))
    else if "baksmali_jar" !in foundFiles then Some(Error(KeyError, "'baksmali_jar'"))
    else None
  }

  // ---------------------------------------------------------------------------
  // The platforms directory
  // ---------------------------------------------------------------------------

  /** An environment variable that is set to a non-empty value. */
  predicate EnvSet(env: Option<string>) {
    env.Some? && env.value != ""
  }

  /** `ANDROID_HOME` and `ANDROID_SDK_ROOT`, those that are set, in that order. */
  function EnvSdks(home: Option<string>, sdkRoot: Option<string>): (r: seq<string>)
    ensures |r| <= 2
    ensures forall e :: e in r ==> e != ""
  {
    (if EnvSet(home) then [home.value] else []) + (if EnvSet(sdkRoot) then [sdkRoot.value] else [])
  }

  /** Every place searched for `component`: the project's SDK first, then the
      SDK of each environment variable that is set. */
  function Candidates(sdk: string, component: string, home: Option<string>, sdkRoot: Option<string>): (r: seq<string>)
    ensures |r| >= 1 && r[0] == JoinPath(sdk, component)
  {
    var envs := EnvSdks(home, sdkRoot);
    [JoinPath(sdk, component)] + seq(|envs|, i requires 0 <= i < |envs| => JoinPath(envs[i], component))
  }

  /** `_find_android_sdk_component`: below the project's SDK when it exists,
      else below the first environment SDK where the component exists. */
  function FindSdkComponent(st: Store, sdk: string, component: string,
                            home: Option<string>, sdkRoot: Option<string>): (r: Option<string>)
  {
    if Exists(st, sdk) && Exists(st, JoinPath(sdk, component)) then Some(JoinPath(sdk, component))
    else
      var envs := EnvSdks(home, sdkRoot);
      FirstExisting(st, seq(|envs|, i requires 0 <= i < |envs| => JoinPath(envs[i], component)))
  }

  /** One `"  - {path}\n"` line for each path checked. */
  function CheckedLines(paths: seq<string>): (r: seq<string>)
    ensures |r| == |paths|
  {
    seq(|paths|, i requires 0 <= i < |paths| => "  - " + paths[i] + "\n")
  }

  /** `_build_sdk_error_message`: the header, then one line for each path
      that was searched for the platforms. */
  function SdkErrorMessage(sdk: string, home: Option<string>, sdkRoot: Option<string>): string {
    SDK_ERROR_HEADER + Concat(CheckedLines(Candidates(sdk, PLATFORMS, home, sdkRoot)))
  }

  /** `_get_platforms_directory`. */
  function PlatformsDirectory(st: Store, sdk: string, home: Option<string>, sdkRoot: Option<string>): (r: Result<string>)
    ensures Exists(st, JoinPath(sdk, PLATFORMS)) ==> r == Ok(JoinPath(sdk, PLATFORMS))
    ensures r.Ok? ==> Exists(st, r.value)
    ensures r.Err? ==> r.error == Error(FileNotFoundError, SdkErrorMessage(sdk, home, sdkRoot))
  {
    var platforms := JoinPath(sdk, PLATFORMS);
    if Exists(st, platforms) then Ok(platforms)
    else
      match FindSdkComponent(st, sdk, PLATFORMS, home, sdkRoot)
      case Some(p) => Ok(p)
      case None => Err(Error(FileNotFoundError, SdkErrorMessage(sdk, home, sdkRoot)))
  }

  /** The platforms directory is the first place searched, in the order of
      the error message, that exists; the error comes exactly when none does. */
  lemma PlatformsSearchOrder(st: Store, sdk: string, home: Option<string>, sdkRoot: Option<string>)
    ensures var r := PlatformsDirectory(st, sdk, home, sdkRoot);
      var found := FirstExisting(st, Candidates(sdk, PLATFORMS, home, sdkRoot));
      (r.Ok? <==> found.Some?) && (r.Ok? ==> found == Some(r.value))
  {
    var c := Candidates(sdk, PLATFORMS, home, sdkRoot);
    var envs := EnvSdks(home, sdkRoot);
    var rest := seq(|envs|, i requires 0 <= i < |envs| => JoinPath(envs[i], PLATFORMS));
    assert c == [c[0]] + rest;
    assert c[1..] == rest;
  }

  /** `FirstExisting` looks at the head first. */
  lemma FirstExistingCons(st: Store, paths: seq<string>)
    requires |paths| > 0
    ensures FirstExisting(st, paths) == if Exists(st, paths[0]) then Some(paths[0]) else FirstExisting(st, paths[1..])
  {
  }

  /** With the project's SDK lacking platforms, `ANDROID_HOME` is searched
      before `ANDROID_SDK_ROOT`. */
  lemma EnvironmentOrder(st: Store, sdk: string, home: string, sdkRoot: string)
    requires !Exists(st, JoinPath(sdk, PLATFORMS)) && home != "" && sdkRoot != ""
    ensures Exists(st, JoinPath(home, PLATFORMS)) ==>
      PlatformsDirectory(st, sdk, Some(home), Some(sdkRoot)) == Ok(JoinPath(home, PLATFORMS))
    ensures !Exists(st, JoinPath(home, PLATFORMS)) && Exists(st, JoinPath(sdkRoot, PLATFORMS)) ==>
      PlatformsDirectory(st, sdk, Some(home), Some(sdkRoot)) == Ok(JoinPath(sdkRoot, PLATFORMS))
    ensures !Exists(st, JoinPath(home, PLATFORMS)) && !Exists(st, JoinPath(sdkRoot, PLATFORMS)) ==>
      PlatformsDirectory(st, sdk, Some(home), Some(sdkRoot)).Err?
  {
    var envs := EnvSdks(Some(home), Some(sdkRoot));
    assert envs == [home, sdkRoot];
    var paths := seq(|envs|, i requires 0 <= i < |envs| => JoinPath(envs[i], PLATFORMS));
    assert paths == [JoinPath(home, PLATFORMS), JoinPath(sdkRoot, PLATFORMS)];
    assert paths[1..] == [JoinPath(sdkRoot, PLATFORMS)];
    FirstExistingCons(st, paths);
    FirstExistingCons(st, paths[1..]);
    assert paths[1..][1..] == [];
  }

  // ---------------------------------------------------------------------------
  // Choosing the platform and its android.jar
  // ---------------------------------------------------------------------------

  /** `platforms_dir.glob("android-*")`: the listed names with that prefix,
      in listing order. */
  function AndroidPlatforms(names: seq<string>): (r: seq<string>)
    ensures forall n :: n in r <==> n in names && StartsWith(n, PLATFORM_PREFIX)
    ensures |r| <= |names|
  {
    if names == [] then []
    else
      var init := names[..|names| - 1];
      var n := names[|names| - 1];
      assert names == init + [n];
      AndroidPlatforms(init) + (if StartsWith(n, PLATFORM_PREFIX) then [n] else [])
  }

  /** `get_version`: `int(name.split("-")[1])`, or 0 when there is no second
      part or it is not a number. */
  function PlatformVersion(name: string): int {
    var parts := Split(name, "-");
    if |parts| < 2 then 0
    else match PyInt(parts[1])
      case Some(v) => v
      case None => 0
  }

  /** The version of `android-<n>` is `n`. */
  lemma PlatformVersionOf(n: nat)
    ensures PlatformVersion(PLATFORM_PREFIX + NatStr(n)) == n
  {
    var d := NatStr(n);
    assert forall i :: 0 <= i < |d| ==> d[i] != '-';
    assert PLATFORM_PREFIX + d == "android" + ['-'] + d;
    SplitAtChar("android", '-', d);
    SplitNoChar(d, '-');
    PyIntIntStr(n);
  }

  /** A name without a second dash-separated part has version 0. */
  lemma PlatformVersionMalformed(name: string)
    requires '-' !in name
    ensures PlatformVersion(name) == 0
  {
    SplitNoChar(name, '-');
  }

  /** `k` is the position of the first of the largest versions in `ps`. */
  predicate IsLatest(ps: seq<string>, k: int) {
    0 <= k < |ps| &&
    (forall j :: 0 <= j < |ps| ==> PlatformVersion(ps[j]) <= PlatformVersion(ps[k])) &&
    (forall j :: 0 <= j < k ==> PlatformVersion(ps[j]) < PlatformVersion(ps[k]))
  }

  /** The platform `_select_android_platform` picks from the listed names:
      the head of the list sorted by version, largest first. The sort is
      stable, so that is the first of the largest versions. */
  function LatestPlatform(dir: string, names: seq<string>): (r: Result<string>)
    ensures var ps := AndroidPlatforms(names);
      (r.Err? <==> ps == []) &&
      (r.Err? ==> r.error == Error(FileNotFoundError, "No Android platforms found in " + dir))
    ensures r.Ok? ==> exists k :: IsLatest(AndroidPlatforms(names), k) && r.value == JoinPath(dir, AndroidPlatforms(names)[k])
  {
    var ps := AndroidPlatforms(names);
    if ps == [] then Err(Error(FileNotFoundError, "No Android platforms found in " + dir))
    else
      var k := FirstMaxIndex(ps, PlatformVersion);
      assert IsLatest(ps, k);
      Ok(JoinPath(dir, ps[k]))
  }

  /** At most one position is the first of the largest versions, so the
      platform `LatestPlatform` picks is determined by the listing. */
  lemma IsLatestUnique(ps: seq<string>, k1: int, k2: int)
    requires IsLatest(ps, k1) && IsLatest(ps, k2)
    ensures k1 == k2
  {
    assert PlatformVersion(ps[k1]) == PlatformVersion(ps[k2]);
  }

  /** `_validate_android_jar`. */
  function ValidateAndroidJar(st: Store, platform: string): (r: Result<string>)
    ensures r.Ok? <==> Exists(st, JoinPath(platform, "android.jar"))
    ensures r.Ok? ==> r.value == JoinPath(platform, "android.jar")
    ensures r.Err? ==> r.error == Error(FileNotFoundError, "android.jar not found at " + JoinPath(platform, "android.jar"))
  {
    var jar := JoinPath(platform, "android.jar");
    if Exists(st, jar) then Ok(jar)
    else Err(Error(FileNotFoundError, "android.jar not found at " + jar))
  }

  /** The second and third steps of `_find_android_jar`: the latest platform
      listed in the platforms directory `dir` and its `android.jar`. */
  function PlatformJar(st: Store, dir: string, names: seq<string>): (r: Result<string>)
    ensures r.Ok? ==> Exists(st, r.value)
  {
    var platform := LatestPlatform(dir, names);
    if platform.Err? then Err(platform.error)
    else ValidateAndroidJar(st, platform.value)
  }

  /** The `android.jar` found is the one of the first platform with the
      largest version; with no `android-*` entry the search fails with the
      platform error. */
  lemma PlatformJarLatest(st: Store, dir: string, names: seq<string>)
    ensures var r := PlatformJar(st, dir, names);
      var ps := AndroidPlatforms(names);
      r.Ok? ==> (ps != [] && IsLatest(ps, FirstMaxIndex(ps, PlatformVersion)) &&
                 r.value == JoinPath(JoinPath(dir, ps[FirstMaxIndex(ps, PlatformVersion)]), "android.jar"))
    ensures AndroidPlatforms(names) == [] ==>
      PlatformJar(st, dir, names) == Err(Error(FileNotFoundError, "No Android platforms found in " + dir))
  {
    var platform := LatestPlatform(dir, names);
    var ps := AndroidPlatforms(names);
    if platform.Ok? {
      var k :| IsLatest(ps, k) && platform.value == JoinPath(dir, ps[k]);
      var m := FirstMaxIndex(ps, PlatformVersion);
      assert IsLatest(ps, m);
      IsLatestUnique(ps, k, m);
    }
  }

  /** `_find_android_jar`: the platforms directory, its latest platform, and
      that platform's `android.jar`, failing at the first step that fails. */
  function AndroidJar(st: Store, sdk: string, home: Option<string>, sdkRoot: Option<string>,
                      listings: map<string, seq<string>>): (r: Result<string>)
    ensures r.Ok? ==> Exists(st, r.value)
    ensures var dir := PlatformsDirectory(st, sdk, home, sdkRoot);
      (dir.Err? ==> r == Err(dir.error)) &&
      (dir.Ok? ==> r == PlatformJar(st, dir.value, Listed(listings, dir.value)))
  {
    var dir := PlatformsDirectory(st, sdk, home, sdkRoot);
    if dir.Err? then Err(dir.error)
    else PlatformJar(st, dir.value, Listed(listings, dir.value))
  }

  // ---------------------------------------------------------------------------
  // The classpath
  // ---------------------------------------------------------------------------

  /** `_prepare_classpath`: `android.jar` first, then the library jars in
      order, joined by the path separator. */
  function Classpath(androidJar: string, libraryJars: seq<string>, separator: string): (r: string)
    ensures StartsWith(r, androidJar)
  {
    var items := [androidJar] + libraryJars;
    assert Join(items, separator) == if |items| == 1 then androidJar else androidJar + separator + Join(items[1..], separator);
    Join(items, separator)
  }

  /** Splitting the classpath at a one-character separator that no jar path
      contains gives back `android.jar` and the library jars, in order. */
  lemma ClasspathSplit(androidJar: string, libraryJars: seq<string>, sep: char)
    requires sep !in androidJar && forall i :: 0 <= i < |libraryJars| ==> sep !in libraryJars[i]
    ensures Split(Classpath(androidJar, libraryJars, [sep]), [sep]) == [androidJar] + libraryJars
  {
    var items := [androidJar] + libraryJars;
    assert forall i :: 0 <= i < |items| ==> sep !in items[i] by {
      forall i | 0 <= i < |items| ensures sep !in items[i] {
        if i > 0 {
          assert items[i] == libraryJars[i - 1];
        }
      }
    }
    SplitJoinChar(items, sep);
  }

  // ---------------------------------------------------------------------------
  // The temporary directories
  // ---------------------------------------------------------------------------

  /** A temporary entry: its key in the `temp_dirs` dictionary and its path. */
  type TempEntry = (string, string)

  /** The two entries that are files (jars) rather than directories. */
  predicate IsFileEntry(name: string) {
    name == "jar" || name == "combined"
  }

  /** `_create_temp_directories`' dictionary, in its insertion order. */
  function TempDirs(moddedDir: string): (r: seq<TempEntry>)
    ensures |r| == 5
    ensures r[0] == ("classes", JoinPath(moddedDir, "temp_classes")) && r[1] == ("jar", JoinPath(moddedDir, "temp.jar"))
    ensures r[2] == ("dex", JoinPath(moddedDir, "temp_dex")) && r[3] == ("combined", JoinPath(moddedDir, "temp_combined.jar"))
    ensures r[4] == ("src", JoinPath(moddedDir, "temp_src"))
  {
    [("classes", JoinPath(moddedDir, "temp_classes")), ("jar", JoinPath(moddedDir, "temp.jar")),
     ("dex", JoinPath(moddedDir, "temp_dex")), ("combined", JoinPath(moddedDir, "temp_combined.jar")),
     ("src", JoinPath(moddedDir, "temp_src"))]
  }

  /** The file system reached by creating the entries in order, and the error
      that stopped the creation, if any. */
  datatype Made = Made(st: Store, error: Option<Error>)

  /** Creating the directory entries in order: the jar entries are skipped,
      and the first `mkdir` that fails stops the loop. */
  function MakeTempDirs(st: Store, temps: seq<TempEntry>): (r: Made)
    ensures r.st.files == st.files && st.dirs <= r.st.dirs
  {
    if temps == [] then Made(st, None)
    else
      var prev := MakeTempDirs(st, temps[..|temps| - 1]);
      var e := temps[|temps| - 1];
      if prev.error.Some? || IsFileEntry(e.0) then prev
      else match MakeDir(prev.st, e.1)
        case Ok(s) => Made(s, None)
        case Err(err) => Made(prev.st, Some(err))
  }

  /** Once a `mkdir` has failed, later entries change nothing. */
  lemma {:induction false} MakeTempDirsStops(st: Store, temps: seq<TempEntry>, i: nat)
    requires i <= |temps| && MakeTempDirs(st, temps[..i]).error.Some?
    ensures MakeTempDirs(st, temps) == MakeTempDirs(st, temps[..i])
    decreases |temps| - i
  {
    if i < |temps| {
      assert temps[..i + 1][..i] == temps[..i];
      MakeTempDirsStops(st, temps, i + 1);
    } else {
      assert temps[..i] == temps;
    }
  }

  /** When creation succeeds, every directory entry is a directory and
      nothing else was added. */
  lemma {:induction false} MakeTempDirsMade(st: Store, temps: seq<TempEntry>)
    ensures var m := MakeTempDirs(st, temps);
      m.error.None? ==> forall i :: 0 <= i < |temps| && !IsFileEntry(temps[i].0) ==> temps[i].1 in m.st.dirs
    ensures forall d :: d in MakeTempDirs(st, temps).st.dirs ==>
      d in st.dirs || exists i :: 0 <= i < |temps| && !IsFileEntry(temps[i].0) && temps[i].1 == d
  {
    if temps != [] {
      var n := |temps| - 1;
      MakeTempDirsMade(st, temps[..n]);
      assert forall i :: 0 <= i < n ==> temps[..n][i] == temps[i];
    }
  }

  /** What `_cleanup_temp_dirs` does to one entry. A jar that exists is
      unlinked (a directory there makes `unlink` raise an OSError, which is
      swallowed); a directory that exists is removed as a tree (a file there
      makes `rmtree` fail, and its errors are ignored). */
  function CleanupEntry(st: Store, e: TempEntry): Store {
    if IsFileEntry(e.0) then
      if e.1 in st.files then Store(st.files - {e.1}, st.dirs) else st
    else if e.1 in st.dirs then Store(TreeRemovedFiles(st.files, e.1), TreeRemovedDirs(st.dirs, e.1))
    else st
  }

  /** `_cleanup_temp_dirs` over the entries in order. */
  function Cleaned(st: Store, temps: seq<TempEntry>): (r: Store)
    ensures r.files.Keys <= st.files.Keys && r.dirs <= st.dirs
    ensures forall p :: p in r.files ==> r.files[p] == st.files[p]
  {
    if temps == [] then st
    else CleanupEntry(Cleaned(st, temps[..|temps| - 1]), temps[|temps| - 1])
  }

  /** After the cleanup, no jar entry that was not a directory and no
      directory entry that was not a file exists any more; nothing is left
      below a directory entry that was a directory. */
  lemma {:induction false} CleanedRemoves(st: Store, temps: seq<TempEntry>, i: nat)
    requires i < |temps|
    ensures IsFileEntry(temps[i].0) && temps[i].1 !in st.dirs ==> !Exists(Cleaned(st, temps), temps[i].1)
    ensures !IsFileEntry(temps[i].0) && temps[i].1 !in st.files ==> !Exists(Cleaned(st, temps), temps[i].1)
    ensures !IsFileEntry(temps[i].0) && temps[i].1 in st.dirs ==>
      forall p :: (p in Cleaned(st, temps).files || p in Cleaned(st, temps).dirs) ==> !Below(p, temps[i].1)
  {
    var n := |temps| - 1;
    var before := Cleaned(st, temps[..n]);
    if i < n {
      assert temps[..n][i] == temps[i];
      CleanedRemoves(st, temps[..n], i);
    } else {
      var e := temps[i];
      if !IsFileEntry(e.0) && e.1 in st.dirs && e.1 !in before.dirs {
        CleanedBelowGone(st, temps[..n], e.1);
      }
    }
  }

  /** A directory that the cleanup removed took nothing away from its tree
      that the later entries could bring back. */
  lemma CleanedBelowGone(st: Store, temps: seq<TempEntry>, d: string)
    requires d in st.dirs && d !in Cleaned(st, temps).dirs
    ensures forall p :: (p in Cleaned(st, temps).files || p in Cleaned(st, temps).dirs) ==> !Below(p, d)
  {
    CleanedBelowGoneRec(st, temps, d);
  }

  lemma {:induction false} CleanedBelowGoneRec(st: Store, temps: seq<TempEntry>, d: string)
    requires d in st.dirs && d !in Cleaned(st, temps).dirs
    ensures forall p :: (p in Cleaned(st, temps).files || p in Cleaned(st, temps).dirs) ==> !Below(p, d)
  {
    var n := |temps| - 1;
    var before := Cleaned(st, temps[..n]);
    var e := temps[n];
    if d in before.dirs {
      assert !IsFileEntry(e.0) && e.1 in before.dirs && Below(d, e.1);
      forall p | p in Cleaned(st, temps).files || p in Cleaned(st, temps).dirs
        ensures !Below(p, d)
      {
        if Below(p, d) {
          BelowTrans(p, d, e.1);
        }
      }
    } else {
      CleanedBelowGoneRec(st, temps[..n], d);
    }
  }

  /** Lying below lies below what is above. */
  lemma BelowTrans(p: string, d: string, e: string)
    requires Below(p, d) && Below(d, e)
    ensures Below(p, e)
  {
    if p != d && d != e {
      assert p[..|d|] == d;
      assert d[..|e| + 1] == e + "/";
      assert p[..|e| + 1] == d[..|e| + 1];
    }
  }

  /** The cleanup leaves everything else alone: a path that is no jar entry
      and lies below no directory entry keeps what it was. */
  lemma {:induction false} CleanedKeeps(st: Store, temps: seq<TempEntry>, p: string)
    requires forall i :: 0 <= i < |temps| ==> (if IsFileEntry(temps[i].0) then p != temps[i].1 else !Below(p, temps[i].1))
    ensures (p in Cleaned(st, temps).files <==> p in st.files) && (p in Cleaned(st, temps).dirs <==> p in st.dirs)
  {
    if temps != [] {
      var n := |temps| - 1;
      assert forall i :: 0 <= i < n ==> temps[..n][i] == temps[i];
      CleanedKeeps(st, temps[..n], p);
    }
  }

  /** `_cleanup_temp_dirs` on the shared file system. */
  method CleanupTempDirs(disk: Disk, temps: seq<TempEntry>)
    modifies disk
    ensures Store(disk.files, disk.dirs) == Cleaned(old(Store(disk.files, disk.dirs)), temps)
  {
    ghost var st := Store(disk.files, disk.dirs);
    var i := 0;
    while i < |temps|
      invariant 0 <= i <= |temps|
      invariant Store(disk.files, disk.dirs) == Cleaned(st, temps[..i])
    {
      assert temps[..i + 1][..i] == temps[..i];
      var (name, p) := temps[i];
      if IsFileEntry(name) {
        if p in disk.files {
          disk.files := disk.files - {p};
        }
      } else if p in disk.dirs {
        RemoveTree(disk, p);
      }
      i := i + 1;
    }
    assert temps[..i] == temps;
  }

  // ---------------------------------------------------------------------------
  // The compiler
  // ---------------------------------------------------------------------------

  class SourceCompiler {
    const paths: map<string, string>
    const foundFiles: set<string>
    const moddedDir: string
    /** `os.pathsep`. */
    const pathSeparator: string

    constructor (paths: map<string, string>, foundFiles: set<string>, pathSeparator: string)
      requires ConstructionError(paths, foundFiles).None?
      ensures this.paths == paths && this.foundFiles == foundFiles && moddedDir == paths["modded_dir"]
      ensures this.pathSeparator == pathSeparator
    {
      this.paths := paths;
      this.foundFiles := foundFiles;
      moddedDir := paths["modded_dir"];
      this.pathSeparator := pathSeparator;
    }

    /** `_create_temp_directories`: `mkdir` for every entry but the jars, in
        dictionary order, stopping at the first that fails. */
    method CreateTempDirectories(disk: Disk) returns (r: Result<seq<TempEntry>>)
      modifies disk
      ensures var m := MakeTempDirs(old(Store(disk.files, disk.dirs)), TempDirs(moddedDir));
        Store(disk.files, disk.dirs) == m.st &&
        (r.Err? <==> m.error.Some?) && (r.Err? ==> r.error == m.error.value) &&
        (r.Ok? ==> r.value == TempDirs(moddedDir))
    {
      ghost var st := Store(disk.files, disk.dirs);
      var temps := TempDirs(moddedDir);
      var i := 0;
      while i < |temps|
        invariant 0 <= i <= |temps|
        invariant MakeTempDirs(st, temps[..i]) == Made(Store(disk.files, disk.dirs), None)
      {
        assert temps[..i + 1][..i] == temps[..i];
        var (name, p) := temps[i];
        if !IsFileEntry(name) {
          var made := MakeDir(Store(disk.files, disk.dirs), p);
          if made.Err? {
            MakeTempDirsStops(st, temps, i + 1);
            return Err(made.error);
          }
          disk.dirs := made.value.dirs;
        }
        i := i + 1;
      }
      assert temps[..i] == temps;
      return Ok(temps);
    }

    /** `compile_and_merge`. The temporary entries are created first; from
        then on they are cleaned up on every path out. `sources` is what the
        two `rglob` calls find and `compiled` the outcome of compiling,
        jarring, dexing and decompiling; their effect on the disk is not part
        of this model. */
    method CompileAndMerge(disk: Disk, home: Option<string>, sdkRoot: Option<string>,
                           listings: map<string, seq<string>>, sources: seq<string>, compiled: Result<()>)
      returns (r: Result<Option<seq<TempEntry>>>)
      requires ConstructionError(paths, foundFiles).None?
      modifies disk
      ensures var m := MakeTempDirs(old(Store(disk.files, disk.dirs)), TempDirs(moddedDir));
        m.error.Some? ==> r == Err(m.error.value) && Store(disk.files, disk.dirs) == m.st
      ensures var m := MakeTempDirs(old(Store(disk.files, disk.dirs)), TempDirs(moddedDir));
        var jar := AndroidJar(m.st, paths["android_sdk"], home, sdkRoot, listings);
        m.error.None? ==>
          Store(disk.files, disk.dirs) == Cleaned(m.st, TempDirs(moddedDir)) &&
          r == (if jar.Err? then Err(jar.error)
                else if sources == [] then Ok(None)
                else if compiled.Err? then Err(compiled.error)
                else Ok(Some(TempDirs(moddedDir))))
    {
      var temps := CreateTempDirectories(disk);
      if temps.Err? {
        return Err(temps.error);
      }
      var st := Store(disk.files, disk.dirs);
      var jar := AndroidJar(st, paths["android_sdk"], home, sdkRoot, listings);
      if jar.Err? {
        r := Err(jar.error);
      } else if sources == [] {
        r := Ok(None);
      } else if compiled.Err? {
        r := Err(compiled.error);
      } else {
        r := Ok(Some(temps.value));
      }
      CleanupTempDirs(disk, temps.value);
    }

    /** `_prepare_classpath` with this compiler's path separator. */
    function PrepareClasspath(androidJar: string, libraryJars: seq<string>): (r: string)
      ensures (|pathSeparator| == 1 && pathSeparator[0] !in androidJar &&
               (forall i :: 0 <= i < |libraryJars| ==> pathSeparator[0] !in libraryJars[i])) ==>
        Split(r, pathSeparator) == [androidJar] + libraryJars
    {
      if |pathSeparator| == 1 && pathSeparator[0] !in androidJar &&
        (forall i :: 0 <= i < |libraryJars| ==> pathSeparator[0] !in libraryJars[i]) then
        assert pathSeparator == [pathSeparator[0]];
        ClasspathSplit(androidJar, libraryJars, pathSeparator[0]);
        Classpath(androidJar, libraryJars, pathSeparator)
      else Classpath(androidJar, libraryJars, pathSeparator)
    }
  }

  /** `SourceCompiler(paths, found_files)`: the constructor's errors, or a
      compiler over those paths. */
  method NewSourceCompiler(paths: map<string, string>, foundFiles: set<string>, pathSeparator: string)
    returns (r: Result<SourceCompiler>)
    ensures r.Err? <==> ConstructionError(paths, foundFiles).Some?
    ensures r.Err? ==> r.error == ConstructionError(paths, foundFiles).value
    ensures r.Ok? ==> (fresh(r.value) && r.value.paths == paths && r.value.moddedDir == paths["modded_dir"] &&
      r.value.pathSeparator == pathSeparator)
  {
    var e := ConstructionError(paths, foundFiles);
    if e.Some? {
      return Err(e.value);
    }
    var c := new SourceCompiler(paths, foundFiles, pathSeparator);
    return Ok(c);
  }
}
