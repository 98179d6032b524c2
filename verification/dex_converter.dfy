/** `dex_converter.py`: finding the build-tools directory (the SDK, then the
    `ANDROID_HOME` and `ANDROID_SDK_ROOT` variables), choosing its newest
    version directory, picking the `d8`/`dx` executable for the platform, and
    the conversion run with its check for produced DEX files. The file
    system, the environment, the directory listings, the outcome of the run
    and the DEX files found afterwards are parameters. */
module DexConverter {
  import opened Wrappers
  import opened Text
  import opened Fs
  import opened Order
  import PlatformUtils
  import ApkSigner

  const BUILD_TOOLS_MISSING: string :=
    "Android build-tools not found. Please install Android SDK build-tools:\n" +
    "1. Open Android Studio → SDK Manager → SDK Tools\n" +
    "2. Install 'Android SDK Build-Tools'\n" +
    "3. Set ANDROID_HOME environment variable"

  /** The environment variables tried after the SDK, in order. */
  const SDK_VARIABLES: seq<string> := ["ANDROID_HOME", "ANDROID_SDK_ROOT"]

  /** The default `min_api` of `convert_to_dex`. */
  const DEFAULT_MIN_API := 21

  // ---------------------------------------------------------------------------
  // Build-tools versions
  // ---------------------------------------------------------------------------

  /** `_collect_build_tools_versions`'s test of a directory name: at least
      two dot-separated parts, the first two digit strings. */
  predicate IsVersionName(name: string) {
    var parts := Split(name, ".");
    |parts| >= 2 && IsDigits(parts[0]) && IsDigits(parts[1])
  }

  /** The test is stricter than the signer's: it also demands a dot. */
  lemma StricterThanSigner(name: string)
    ensures IsVersionName(name) ==> ApkSigner.IsVersionName(name)
    ensures IsVersionName(name) <==> ApkSigner.IsVersionName(name) && |Split(name, ".")| >= 2
  {
  }

  /** A single number such as `34` is a version directory for the signer
      but not here. */
  lemma SingleNumberRejected(n: nat)
    ensures ApkSigner.IsVersionName(NatStr(n)) && !IsVersionName(NatStr(n))
  {
    ApkSigner.NatStrKey(n);
    SplitNoDot(NatStr(n));
  }

  /** Whether `_collect_build_tools_versions` keeps the listed entry `name`. */
  predicate Kept(dirs: set<string>, dir: string, name: string) {
    JoinPath(dir, name) in dirs && IsVersionName(name)
  }

  /** `_collect_build_tools_versions`: the subdirectories with a version
      name, in listing order. */
  function VersionDirs(dirs: set<string>, dir: string, names: seq<string>): (r: seq<string>)
    ensures |r| <= |names|
    ensures forall i :: 0 <= i < |names| && Kept(dirs, dir, names[i]) ==> JoinPath(dir, names[i]) in r
    ensures forall p :: p in r ==> exists i :: 0 <= i < |names| && Kept(dirs, dir, names[i]) && p == JoinPath(dir, names[i])
  {
    if names == [] then []
    else
      var init := names[..|names| - 1];
      var last := names[|names| - 1];
      var rest := VersionDirs(dirs, dir, init);
      assert forall i :: 0 <= i < |init| ==> init[i] == names[i];
      rest + (if Kept(dirs, dir, last) then [JoinPath(dir, last)] else [])
  }

  /** The loop of `_collect_build_tools_versions` over the listing. */
  method CollectVersions(dirs: set<string>, dir: string, names: seq<string>) returns (versions: seq<string>)
    ensures versions == VersionDirs(dirs, dir, names)
  {
    versions := [];
    for i := 0 to |names|
      invariant versions == VersionDirs(dirs, dir, names[..i])
    {
      assert names[..i + 1][..i] == names[..i];
      if JoinPath(dir, names[i]) in dirs && IsVersionName(names[i]) {
        versions := versions + [JoinPath(dir, names[i])];
      }
    }
    assert names[..|names|] == names;
  }

  /** One component of `parse_version`: what `read` (Python's `int`) makes
      of the part, 0 when it raises. */
  function PartValue(read: string -> Option<int>, part: string): int {
    match read(part)
    case Some(v) => v
    case None => 0
  }

  /** The values of the parts, in order. */
  function Values(read: string -> Option<int>, parts: seq<string>): (r: seq<int>)
    ensures |r| == |parts| && forall i :: 0 <= i < |parts| ==> r[i] == PartValue(read, parts[i])
  {
    if parts == [] then []
    else
      var rest := Values(read, parts[1..]);
      assert forall i :: 1 <= i < |parts| ==> parts[i] == parts[1..][i - 1];
      [PartValue(read, parts[0])] + rest
  }

  /** Component `k` of the version: the part's value, 0 for a missing part. */
  function Component(read: string -> Option<int>, parts: seq<string>, k: nat): int {
    if k < |parts| then PartValue(read, parts[k]) else 0
  }

  /** `parse_version`: the first three components, each read on its own. */
  function VersionOf(name: string): Triple {
    var parts := Split(name, ".");
    (Component(PyInt, parts, 0), Component(PyInt, parts, 1), Component(PyInt, parts, 2))
  }

  /** The two loops of `parse_version`: read at most three components, then
      pad with zeros. */
  method ParseComponents(read: string -> Option<int>, components: seq<string>) returns (v: Triple)
    ensures v == (Component(read, components, 0), Component(read, components, 1), Component(read, components, 2))
  {
    var nums: seq<int> := [];
    var i := 0;
    while i < |components| && i < 3
      invariant 0 <= i <= |components| && i <= 3
      invariant nums == Values(read, components[..i])
    {
      var parsed := read(components[i]);
      nums := nums + [if parsed.Some? then parsed.value else 0];
      i := i + 1;
    }
    while |nums| < 3
      invariant |nums| <= 3
      invariant forall j :: 0 <= j < |nums| ==> nums[j] == Component(read, components, j)
      decreases 3 - |nums|
    {
      nums := nums + [0];
    }
    v := (nums[0], nums[1], nums[2]);
  }

  method ParseVersion(name: string) returns (v: Triple)
    ensures v == VersionOf(name)
  {
    v := ParseComponents(PyInt, Split(name, "."));
  }

  /** A name `a.b.c` of plain numbers has the version `(a, b, c)`. */
  lemma VersionOfDotted(a: nat, b: nat, c: nat)
    ensures VersionOf(NatStr(a) + "." + NatStr(b) + "." + NatStr(c)) == (a, b, c)
  {
    ApkSigner.NatStrKey(a);
    ApkSigner.NatStrKey(b);
    ApkSigner.NatStrKey(c);
    SplitThree(NatStr(a), NatStr(b), NatStr(c));
  }

  /** A name `a.b` has the version `(a, b, 0)`. */
  lemma VersionOfTwoParts(a: nat, b: nat)
    ensures VersionOf(NatStr(a) + "." + NatStr(b)) == (a, b, 0)
  {
    ApkSigner.NatStrKey(a);
    ApkSigner.NatStrKey(b);
    SplitTwoParts(NatStr(a), NatStr(b));
  }

  /** A component `int` rejects counts as 0 and leaves the others as they
      are, unlike the signer's key, which drops to `(0, 0, 0)` as a whole. */
  lemma RejectedComponent(a: nat, b: nat, junk: string)
    requires '.' !in junk && PyInt(junk).None?
    ensures VersionOf(NatStr(a) + "." + NatStr(b) + "." + junk) == (a, b, 0)
    ensures ApkSigner.VersionKey(NatStr(a) + "." + NatStr(b) + "." + junk) == (0, 0, 0)
  {
    ApkSigner.NatStrKey(a);
    ApkSigner.NatStrKey(b);
    SplitThree(NatStr(a), NatStr(b), junk);
  }

  /** Where every one of the first three parts is read by `int`, the two
      version orders agree. */
  lemma AgreesWithSigner(name: string)
    requires AllRead(Split(name, "."))
    ensures VersionOf(name) == ApkSigner.VersionKey(name)
  {
    AgreeOnParts(PyInt, Split(name, "."));
  }

  lemma AgreeOnParts(read: string -> Option<int>, parts: seq<string>)
    requires forall k :: 0 <= k < |parts| && k < 3 ==> read(parts[k]).Some?
    ensures (Component(read, parts, 0), Component(read, parts, 1), Component(read, parts, 2)) == ApkSigner.KeyOf(read, parts)
  {
  }

  /** `int` reads each of the first three parts. */
  predicate AllRead(parts: seq<string>) {
    forall k :: 0 <= k < |parts| && k < 3 ==> PyInt(parts[k]).Some?
  }

  /** The versions of the candidates' directory names. */
  function Keys(versions: seq<string>): (r: seq<Triple>)
    ensures |r| == |versions| && forall i :: 0 <= i < |versions| ==> r[i] == VersionOf(BaseName(versions[i]))
  {
    seq(|versions|, i requires 0 <= i < |versions| => VersionOf(BaseName(versions[i])))
  }

  /** `_select_latest_build_tools`: the head of the stable descending sort. */
  function SelectLatest(versions: seq<string>): string
    requires |versions| > 0
  {
    versions[FirstMaxTriple(Keys(versions))]
  }

  /** The directory chosen has a largest version, and is the first such in
      listing order. */
  lemma SelectLatestMax(versions: seq<string>)
    requires |versions| > 0
    ensures exists k :: (0 <= k < |versions| && versions[k] == SelectLatest(versions) &&
      (forall j :: 0 <= j < |versions| ==> TripleLe(VersionOf(BaseName(versions[j])), VersionOf(BaseName(versions[k])))) &&
      (forall j :: 0 <= j < k ==> !TripleLe(VersionOf(BaseName(versions[k])), VersionOf(BaseName(versions[j])))))
  {
    var k := FirstMaxTriple(Keys(versions));
    assert versions[k] == SelectLatest(versions);
  }

  /** The directory chosen is one of the candidates, with a version at
      least that of every candidate. */
  lemma LatestIn(versions: seq<string>)
    requires |versions| > 0
    ensures SelectLatest(versions) in versions
    ensures forall w :: w in versions ==> TripleLe(VersionOf(BaseName(w)), VersionOf(BaseName(SelectLatest(versions))))
  {
    var k := FirstMaxTriple(Keys(versions));
    forall w | w in versions ensures TripleLe(VersionOf(BaseName(w)), VersionOf(BaseName(SelectLatest(versions)))) {
      var j :| 0 <= j < |versions| && versions[j] == w;
      assert Keys(versions)[j] == VersionOf(BaseName(w));
    }
  }

  // ---------------------------------------------------------------------------
  // The build-tools directory
  // ---------------------------------------------------------------------------

  /** `Path(v) / "build-tools"` for each variable in SDK_VARIABLES that is
      set and not empty, in order. */
  function EnvBuildTools(environ: map<string, string>, vars: seq<string>): (r: seq<string>)
    ensures |r| <= |vars|
    ensures forall p :: p in r ==> exists i :: (0 <= i < |vars| && vars[i] in environ && environ[vars[i]] != "" &&
      p == JoinPath(environ[vars[i]], "build-tools"))
  {
    if vars == [] then []
    else
      var rest := EnvBuildTools(environ, vars[1..]);
      assert forall i :: 0 <= i < |vars[1..]| ==> vars[1..][i] == vars[i + 1];
      if vars[0] in environ && environ[vars[0]] != "" then [JoinPath(environ[vars[0]], "build-tools")] + rest
      else rest
  }

  /** `_find_build_tools`: the SDK's `build-tools` when the SDK is given and
      both exist, else the first variable's `build-tools` that exists. */
  function FindBuildToolsIn(st: Store, sdk: Option<string>, environ: map<string, string>): Option<string> {
    if sdk.Some? && Exists(st, sdk.value) && Exists(st, JoinPath(sdk.value, "build-tools")) then
      Some(JoinPath(sdk.value, "build-tools"))
    else FirstExisting(st, EnvBuildTools(environ, SDK_VARIABLES))
  }

  /** The SDK wins; then `ANDROID_HOME` when set and its `build-tools`
      exists; nothing is found only when every place fails. */
  lemma FindBuildToolsOrder(st: Store, sdk: Option<string>, environ: map<string, string>)
    ensures sdk.Some? && Exists(st, sdk.value) && Exists(st, JoinPath(sdk.value, "build-tools")) ==>
      FindBuildToolsIn(st, sdk, environ) == Some(JoinPath(sdk.value, "build-tools"))
    ensures (!(sdk.Some? && Exists(st, sdk.value) && Exists(st, JoinPath(sdk.value, "build-tools"))) &&
      "ANDROID_HOME" in environ && environ["ANDROID_HOME"] != "" && Exists(st, JoinPath(environ["ANDROID_HOME"], "build-tools"))) ==>
      FindBuildToolsIn(st, sdk, environ) == Some(JoinPath(environ["ANDROID_HOME"], "build-tools"))
    ensures FindBuildToolsIn(st, sdk, environ).Some? ==> Exists(st, FindBuildToolsIn(st, sdk, environ).value)
  {
    var paths := EnvBuildTools(environ, SDK_VARIABLES);
    if "ANDROID_HOME" in environ && environ["ANDROID_HOME"] != "" {
      assert SDK_VARIABLES[0] == "ANDROID_HOME";
      assert paths[0] == JoinPath(environ["ANDROID_HOME"], "build-tools");
    }
  }

  /** Without the SDK's directory, the build-tools directory is found from
      the environment only: a variable that is unset or empty adds nothing. */
  lemma FindBuildToolsMissing(st: Store, sdk: Option<string>, environ: map<string, string>)
    requires !(sdk.Some? && Exists(st, sdk.value) && Exists(st, JoinPath(sdk.value, "build-tools")))
    requires forall v :: v in environ && v in SDK_VARIABLES && environ[v] != "" ==> !Exists(st, JoinPath(environ[v], "build-tools"))
    ensures FindBuildToolsIn(st, sdk, environ).None?
  {
    var paths := EnvBuildTools(environ, SDK_VARIABLES);
    forall j | 0 <= j < |paths| ensures !Exists(st, paths[j]) {
      assert paths[j] in paths;
      var i :| 0 <= i < |SDK_VARIABLES| && SDK_VARIABLES[i] in environ && environ[SDK_VARIABLES[i]] != "" &&
        paths[j] == JoinPath(environ[SDK_VARIABLES[i]], "build-tools");
      assert SDK_VARIABLES[i] in SDK_VARIABLES;
    }
  }

  // ---------------------------------------------------------------------------
  // The D8 executable
  // ---------------------------------------------------------------------------

  /** `_get_d8_tool_names`: on Windows the batch, command and executable
      forms before the bare name, `d8` before `dx`. */
  function D8ToolNames(system: string): seq<string> {
    if system == "windows" then ["d8.bat", "d8.cmd", "d8.exe", "d8", "dx.bat", "dx.cmd", "dx.exe", "dx"]
    else ["d8", "dx"]
  }

  /** A name of the `d8` tool rather than of `dx`. */
  predicate IsD8(name: string) {
    |name| >= 2 && name[0] == 'd' && name[1] == '8'
  }

  /** Every list puts all its `d8` forms before its `dx` forms, and holds
      both kinds. */
  lemma D8BeforeDx(system: string)
    ensures var names := D8ToolNames(system);
      (exists k :: 0 <= k < |names| && IsD8(names[k])) && (exists k :: 0 <= k < |names| && !IsD8(names[k])) &&
      forall i, j :: 0 <= i < j < |names| && IsD8(names[j]) ==> IsD8(names[i])
  {
    var names := D8ToolNames(system);
    assert IsD8(names[0]) && !IsD8(names[|names| - 1]);
  }

  /** `_locate_d8_tool`: the first name of the list present in the version
      directory. */
  function LocateD8(st: Store, dir: string, names: seq<string>): Result<string> {
    var paths := ApkSigner.AltPaths(dir, names);
    match FirstExisting(st, paths)
    case Some(p) => Ok(p)
    case None => Err(Error(FileNotFoundError, "D8/DX not found in " + dir))
  }

  /** The tool found is the first name of the list present in the
      directory; FileNotFoundError exactly when none is. */
  lemma LocateD8First(st: Store, dir: string, names: seq<string>)
    ensures var r := LocateD8(st, dir, names);
      r.Err? <==> forall k :: 0 <= k < |names| ==> !Exists(st, JoinPath(dir, names[k]))
    ensures var r := LocateD8(st, dir, names);
      r.Err? ==> r.error == Error(FileNotFoundError, "D8/DX not found in " + dir)
    ensures var r := LocateD8(st, dir, names);
      r.Ok? ==> exists k :: (0 <= k < |names| && r.value == JoinPath(dir, names[k]) && Exists(st, r.value) &&
        forall j :: 0 <= j < k ==> !Exists(st, JoinPath(dir, names[j])))
  {
    var paths := ApkSigner.AltPaths(dir, names);
    var found := FirstExisting(st, paths);
    if found.Some? {
      var k :| 0 <= k < |paths| && paths[k] == found.value && Exists(st, paths[k]) && forall j :: 0 <= j < k ==> !Exists(st, paths[j]);
      assert LocateD8(st, dir, names).value == JoinPath(dir, names[k]);
    }
  }

  /** The loop of `_locate_d8_tool`, returning at the first hit. */
  method LocateD8Loop(st: Store, dir: string, names: seq<string>) returns (r: Result<string>)
    ensures r == LocateD8(st, dir, names)
  {
    var paths := ApkSigner.AltPaths(dir, names);
    for i := 0 to |names|
      invariant FirstExisting(st, paths) == FirstExisting(st, paths[i..])
    {
      assert paths[i..][1..] == paths[i + 1..];
      var toolPath := JoinPath(dir, names[i]);
      if Exists(st, toolPath) {
        return Ok(toolPath);
      }
    }
    return Err(Error(FileNotFoundError, "D8/DX not found in " + dir));
  }

  /** Where some `d8` form exists, the tool found is a `d8` form, never `dx`. */
  lemma PrefersD8(st: Store, dir: string, system: string)
    requires exists k :: (0 <= k < |D8ToolNames(system)| && IsD8(D8ToolNames(system)[k]) &&
      Exists(st, JoinPath(dir, D8ToolNames(system)[k])))
    ensures var r := LocateD8(st, dir, D8ToolNames(system));
      r.Ok? && exists k :: (0 <= k < |D8ToolNames(system)| && IsD8(D8ToolNames(system)[k]) &&
        r.value == JoinPath(dir, D8ToolNames(system)[k]))
  {
    var names := D8ToolNames(system);
    D8BeforeDx(system);
    PreferredFirst(st, dir, names);
  }

  /** In a list that puts its `d8` forms first, a present `d8` form wins. */
  lemma PreferredFirst(st: Store, dir: string, names: seq<string>)
    requires forall i, j :: 0 <= i < j < |names| && IsD8(names[j]) ==> IsD8(names[i])
    requires exists k :: 0 <= k < |names| && IsD8(names[k]) && Exists(st, JoinPath(dir, names[k]))
    ensures var r := LocateD8(st, dir, names);
      r.Ok? && exists k :: 0 <= k < |names| && IsD8(names[k]) && r.value == JoinPath(dir, names[k])
  {
    var r := LocateD8(st, dir, names);
    LocateD8First(st, dir, names);
    var m :| 0 <= m < |names| && IsD8(names[m]) && Exists(st, JoinPath(dir, names[m]));
    var k :| 0 <= k < |names| && r.value == JoinPath(dir, names[k]) && Exists(st, r.value) &&
      forall j :: 0 <= j < k ==> !Exists(st, JoinPath(dir, names[j]));
    assert k <= m;
    if k < m {
      assert IsD8(names[k]);
    }
  }

  // ---------------------------------------------------------------------------
  // The converter
  // ---------------------------------------------------------------------------

  /** The command `convert_to_dex` runs. */
  function DexCommand(d8: string, combinedJar: string, androidJar: string, outputDir: string, minApi: int): (cmd: seq<string>)
    ensures |cmd| == 8 && cmd[0] == d8 && cmd[1] == combinedJar
    ensures cmd[2] == "--lib" && cmd[3] == androidJar && cmd[4] == "--output" && cmd[5] == outputDir
    ensures cmd[6] == "--min-api" && cmd[7] == IntStr(minApi)
  {
    [d8, combinedJar, "--lib", androidJar, "--output", outputDir, "--min-api", IntStr(minApi)]
  }

  class DexConverter {
    const androidSdk: Option<string>
    const system: string

    /** The SDK path (or None) and the lowered system name; the UTF-8
        set-up is not modelled. */
    constructor (androidSdk: Option<string>, system: string)
      ensures this.androidSdk == androidSdk && this.system == system
    {
      this.androidSdk := androidSdk;
      this.system := system;
    }

    /** `find_d8`. */
    function FindD8(st: Store, environ: map<string, string>, listings: map<string, seq<string>>): Result<string> {
      match FindBuildToolsIn(st, androidSdk, environ)
      case None => Err(Error(FileNotFoundError, BUILD_TOOLS_MISSING))
      case Some(dir) =>
        match IterDir(st, dir, listings)
        case Err(e) => Err(e)
        case Ok(names) =>
          var versions := VersionDirs(st.dirs, dir, names);
          if versions == [] then Err(Error(FileNotFoundError, "No build-tools versions found in " + dir))
          else LocateD8(st, SelectLatest(versions), D8ToolNames(system))
    }

    /** After a build-tools directory is found and listed, `find_d8` looks
        for the tool in a version directory with the largest version, the
        first such in listing order. */
    lemma FindD8Latest(st: Store, environ: map<string, string>, listings: map<string, seq<string>>)
      requires FindD8(st, environ, listings).Ok?
      ensures var found := FindBuildToolsIn(st, androidSdk, environ);
        found.Some? && found.value in st.dirs &&
        var versions := VersionDirs(st.dirs, found.value, Listed(listings, found.value));
        exists v :: (v in versions && FindD8(st, environ, listings) == LocateD8(st, v, D8ToolNames(system)) &&
          forall w :: w in versions ==> TripleLe(VersionOf(BaseName(w)), VersionOf(BaseName(v))))
    {
      var dir := FindBuildToolsIn(st, androidSdk, environ).value;
      var names := Listed(listings, dir);
      assert IterDir(st, dir, listings) == Ok(names);
      var versions := VersionDirs(st.dirs, dir, names);
      LatestIn(versions);
      assert FindD8(st, environ, listings) == LocateD8(st, SelectLatest(versions), D8ToolNames(system));
    }

    /** `find_d8` raises FileNotFoundError without a build-tools directory,
        and without a version directory in it. */
    lemma FindD8Fails(st: Store, environ: map<string, string>, listings: map<string, seq<string>>)
      ensures FindBuildToolsIn(st, androidSdk, environ).None? ==>
        FindD8(st, environ, listings) == Err(Error(FileNotFoundError, BUILD_TOOLS_MISSING))
      ensures var found := FindBuildToolsIn(st, androidSdk, environ);
        found.Some? && found.value in st.dirs &&
        (forall i :: 0 <= i < |Listed(listings, found.value)| ==> !Kept(st.dirs, found.value, Listed(listings, found.value)[i])) ==>
        FindD8(st, environ, listings) == Err(Error(FileNotFoundError, "No build-tools versions found in " + found.value))
    {
      var found := FindBuildToolsIn(st, androidSdk, environ);
      if found.Some? && found.value in st.dirs {
        var names := Listed(listings, found.value);
        assert IterDir(st, found.value, listings) == Ok(names);
        var versions := VersionDirs(st.dirs, found.value, names);
        if forall i :: 0 <= i < |names| ==> !Kept(st.dirs, found.value, names[i]) {
          if versions != [] {
            assert versions[0] in versions;
          }
        }
      }
    }

    /** `convert_to_dex`: find `d8`, run it, checked, and demand at least
        one DEX file in the output directory afterwards (`dexFiles`, what
        `glob("*.dex")` lists then). */
    function ConvertToDex(st: Store, environ: map<string, string>, listings: map<string, seq<string>>,
                          combinedJar: string, androidJar: string, outputDir: string, minApi: int,
                          launch: PlatformUtils.Launch, dexFiles: seq<string>): Result<seq<string>> {
      match FindD8(st, environ, listings)
      case Err(e) => Err(e)
      case Ok(d8) =>
        var run := PlatformUtils.RunCommandChecked(DexCommand(d8, combinedJar, androidJar, outputDir, minApi), launch, "D8 dex conversion failed");
        if run.Err? then Err(run.error)
        else if dexFiles == [] then Err(Error(RuntimeError, "No DEX files generated"))
        else Ok(dexFiles)
    }

    /** The conversion returns the DEX files exactly when `d8` is found, the
        run returns 0 and some DEX file results; a failing run or no DEX
        file raises RuntimeError. */
    lemma ConvertOutcome(st: Store, environ: map<string, string>, listings: map<string, seq<string>>,
                         combinedJar: string, androidJar: string, outputDir: string, minApi: int,
                         launch: PlatformUtils.Launch, dexFiles: seq<string>)
      ensures var r := ConvertToDex(st, environ, listings, combinedJar, androidJar, outputDir, minApi, launch, dexFiles);
        (r.Ok? <==> FindD8(st, environ, listings).Ok? && launch.Ran? && launch.process.returncode == 0 && dexFiles != []) &&
        (r.Ok? ==> r.value == dexFiles)
      ensures var r := ConvertToDex(st, environ, listings, combinedJar, androidJar, outputDir, minApi, launch, dexFiles);
        FindD8(st, environ, listings).Ok? && r.Err? ==> r.error.kind == RuntimeError
      ensures var r := ConvertToDex(st, environ, listings, combinedJar, androidJar, outputDir, minApi, launch, dexFiles);
        FindD8(st, environ, listings).Ok? && launch.Ran? && launch.process.returncode == 0 && dexFiles == [] ==>
          r == Err(Error(RuntimeError, "No DEX files generated"))
    {
      var d8 := FindD8(st, environ, listings);
      if d8.Ok? {
        PlatformUtils.RunCheckedOutcome(DexCommand(d8.value, combinedJar, androidJar, outputDir, minApi), launch, "D8 dex conversion failed");
      }
    }
  }
}
