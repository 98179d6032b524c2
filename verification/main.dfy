/** The ApkForge host object (main.py): the state the pipeline engine reads and
    writes through it, and the rules of the build steps that set that state
    (the native build, `android.jar`, the classpath, the decompile check, the
    version-code change entry and the signed file name). */
module Host {
  import opened Wrappers
  import opened PyObjects
  import opened Text
  import opened Fs
  import opened PyJson
  import Compiler
  import CppBuilder

  const NATIVE_BUILD := "native_build"
  const MISSING_CMAKELISTS := "\"Missing 'cmakelists' path in build_config.json > paths > source_structure\""
  const NO_NATIVE_LIBRARIES := "Native build failed - no libraries produced"
  const NO_KEYSTORE_ATTRIBUTE := "'ApkForge' object has no attribute 'keystore_config'"
  const DECOMPILED_DIRS := ["res", "smali"]
  const FORBIDDEN_NAME_CHARS: set<char> := {'<', '>', ':', '"', '/', '\\', '|', '?', '*'}

  // ---------------------------------------------------------------------------
  // `_build_native_libs`
  // ---------------------------------------------------------------------------

  /** `raw_config.get("paths", {}).get("source_structure", {}).get("cmakelists")`:
      an AttributeError when a link is not a dictionary. */
  function CmakelistsEntry(rawConfig: Json): (r: Result<Json>)
    ensures r.Err? ==> r.error.kind == AttributeError
    ensures rawConfig.JObject? && "paths" !in rawConfig.fields ==> r == Ok(JNull)
  {
    var p :- DictGet(rawConfig, "paths", JObject(map[]));
    var s :- DictGet(p, "source_structure", JObject(map[]));
    DictGet(s, "cmakelists", JNull)
  }

  /** The CMakeLists file `_build_native_libs` builds from, or what it raises
      before any build starts: a KeyError without a configured path, a
      FileNotFoundError when the file is not there. */
  function CmakeListsPath(st: Store, paths: map<string, string>, rawConfig: Json): (r: Result<string>)
    ensures r.Ok? ==> Exists(st, r.value) && "project_root" in paths
    ensures CmakelistsEntry(rawConfig).Ok? && !Truthy(CmakelistsEntry(rawConfig).value) ==>
      r == Err(Error(KeyError, MISSING_CMAKELISTS))
    ensures var e := CmakelistsEntry(rawConfig);
      e.Ok? && e.value.JString? && e.value.s != "" && "project_root" in paths ==>
      var p := JoinPath(paths["project_root"], e.value.s);
      (r.Ok? <==> Exists(st, p)) && (r.Ok? ==> r.value == p) &&
      (r.Err? ==> r.error == Error(FileNotFoundError, "CMakeLists.txt not found at " + p))
  {
    var entry :- CmakelistsEntry(rawConfig);
    if !Truthy(entry) then Err(Error(KeyError, MISSING_CMAKELISTS))
    else if "project_root" !in paths then Err(Error(KeyError, "'project_root'"))
    else if !entry.JString? then
      Err(Error(TypeError, "unsupported operand type(s) for /: 'PosixPath' and '" + TypeName(entry) + "'"))
    else
      var p := JoinPath(paths["project_root"], entry.s);
      if Exists(st, p) then Ok(p) else Err(Error(FileNotFoundError, "CMakeLists.txt not found at " + p))
  }

  /** What `builder.build()` ends with: an exception (from the tool finder,
      from an ABI's build directory, or for no ABI built), or whether the
      builder then reports success (`build_success`). */
  function NativeBuildOutcome(st: Store, paths: map<string, string>, cmakelists: string,
                              cmake: Result<Option<string>>, ninja: Result<Option<string>>, ndk: Result<Option<string>>,
                              abis: seq<string>, built: seq<Result<bool>>): (r: Result<bool>)
    requires |abis| == |built|
    ensures var pre := CppBuilder.CheckPrerequisites(st, paths, cmakelists, cmake, ninja, ndk);
      pre.Err? ==> r == Err(pre.error)
    ensures var pre := CppBuilder.CheckPrerequisites(st, paths, cmakelists, cmake, ninja, ndk);
      pre.Ok? && pre.value.Ready? && CppBuilder.FirstRaised(built) < |built| ==>
        r == Err(built[CppBuilder.FirstRaised(built)].error)
    ensures var pre := CppBuilder.CheckPrerequisites(st, paths, cmakelists, cmake, ninja, ndk);
      r == Ok(true) <==>
        (pre.Ok? && pre.value.Ready? && CppBuilder.FirstRaised(built) == |built| &&
         CppBuilder.CountBuilt(CppBuilder.Built(built)) > 0)
  {
    var pre := CppBuilder.CheckPrerequisites(st, paths, cmakelists, cmake, ninja, ndk);
    if pre.Err? then Err(pre.error)
    else if pre.value.Unmet? then Ok(false)
    else if CppBuilder.FirstRaised(built) < |built| then Err(built[CppBuilder.FirstRaised(built)].error)
    else
      var outcomes := CppBuilder.Built(built);
      if CppBuilder.CountBuilt(outcomes) == 0 && |abis| > 0 then
        Err(Error(RuntimeError, "Native build failed for all ABIs: " + Join(CppBuilder.FailedAbis(abis, outcomes), ", ")))
      else Ok(CppBuilder.CountBuilt(outcomes) > 0)
  }

  /** How the `try` block ends: normally after a successful build, or with
      the exception raised by the build or by the `build_success` test. */
  function TryOutcome(o: Result<bool>): (r: Result<()>)
    ensures r.Ok? <==> o == Ok(true)
    ensures o == Ok(false) ==> r == Err(Error(RuntimeError, NO_NATIVE_LIBRARIES))
    ensures o.Err? ==> r == Err(o.error)
  {
    match o
    case Err(e) => Err(e)
    case Ok(success) => if success then Ok(()) else Err(Error(RuntimeError, NO_NATIVE_LIBRARIES))
  }

  /** The exceptions the `except` clause catches. */
  predicate Caught(e: Error) {
    e.kind == FileNotFoundError || e.kind == RuntimeError
  }

  /** `raw_config.get("pipeline_behavior", {}).get("stop_on_error", True)`, by
      its truth value. */
  function StopOnError(rawConfig: Json): (r: Result<bool>)
    ensures r.Err? ==> r.error.kind == AttributeError
    ensures rawConfig.JObject? && "pipeline_behavior" !in rawConfig.fields ==> r == Ok(true)
  {
    var pb :- DictGet(rawConfig, "pipeline_behavior", JObject(map[]));
    var stop :- DictGet(pb, "stop_on_error", JBool(true));
    Ok(Truthy(stop))
  }

  /** Without a `stop_on_error` setting a native build failure stops the run;
      only a false setting lets it continue. */
  lemma StopOnErrorDefault(behavior: map<string, Json>, rest: map<string, Json>)
    ensures "stop_on_error" !in behavior ==>
      StopOnError(JObject(rest["pipeline_behavior" := JObject(behavior)])) == Ok(true)
    ensures "stop_on_error" in behavior ==>
      StopOnError(JObject(rest["pipeline_behavior" := JObject(behavior)])) == Ok(Truthy(behavior["stop_on_error"]))
  {
  }

  /** `str(e)[:100]`. */
  function Take100(s: string): (r: string)
    ensures |r| <= 100 && |r| <= |s| && r == s[..|r|]
    ensures |s| <= 100 ==> r == s
  {
    if |s| <= 100 then s else s[..100]
  }

  // ---------------------------------------------------------------------------
  // `_find_android_jar`
  // ---------------------------------------------------------------------------

  /** `latest / "android.jar"`, the path `_find_android_jar` records before it
      checks that the file exists, or what it raises before that. */
  function AndroidJarCandidate(st: Store, paths: map<string, string>, listings: map<string, seq<string>>): (r: Result<string>)
    ensures "android_sdk" !in paths ==> r == Err(Error(KeyError, "'android_sdk'"))
    ensures "android_sdk" in paths && !Exists(st, JoinPath(paths["android_sdk"], Compiler.PLATFORMS)) ==>
      r == Err(Error(FileNotFoundError, "Platforms directory not found: " + JoinPath(paths["android_sdk"], Compiler.PLATFORMS)))
    ensures "android_sdk" in paths && Exists(st, JoinPath(paths["android_sdk"], Compiler.PLATFORMS)) ==>
      var dir := JoinPath(paths["android_sdk"], Compiler.PLATFORMS);
      var latest := Compiler.LatestPlatform(dir, Listed(listings, dir));
      (r.Ok? <==> latest.Ok?) && (r.Ok? ==> r.value == JoinPath(latest.value, "android.jar")) &&
      (r.Err? ==> r.error == latest.error)
  {
    if "android_sdk" !in paths then Err(Error(KeyError, "'android_sdk'"))
    else
      var dir := JoinPath(paths["android_sdk"], Compiler.PLATFORMS);
      if !Exists(st, dir) then Err(Error(FileNotFoundError, "Platforms directory not found: " + dir))
      else
        var latest := Compiler.LatestPlatform(dir, Listed(listings, dir));
        if latest.Err? then Err(latest.error) else Ok(JoinPath(latest.value, "android.jar"))
  }

  /** Where the project's SDK has platforms, the host's `max` by version and
      the source compiler's sort by version pick the same `android.jar`.
      It needs no proof steps: both picks are defined through
      `Order.FirstMaxIndex`, the first platform of the largest version, which
      is what `max` and a stable descending sort both choose. */
  lemma HostJarAgreesWithCompiler(st: Store, paths: map<string, string>, home: Option<string>, sdkRoot: Option<string>,
                                  listings: map<string, seq<string>>)
    requires "android_sdk" in paths
    ensures var c := AndroidJarCandidate(st, paths, listings);
      Exists(st, JoinPath(paths["android_sdk"], Compiler.PLATFORMS)) && c.Ok? && Exists(st, c.value) ==>
      Compiler.AndroidJar(st, paths["android_sdk"], home, sdkRoot, listings) == Ok(c.value)
  {
  }

  // ---------------------------------------------------------------------------
  // `_verify_decompile_success`
  // ---------------------------------------------------------------------------

  /** The names among `names` with no entry below `dir`, in order. */
  function MissingDirs(st: Store, dir: string, names: seq<string>): (r: seq<string>)
    ensures forall n :: n in r <==> n in names && !Exists(st, JoinPath(dir, n))
  {
    if names == [] then []
    else
      var init := names[..|names| - 1];
      var n := names[|names| - 1];
      assert names == init + [n];
      MissingDirs(st, dir, init) + (if Exists(st, JoinPath(dir, n)) then [] else [n])
  }

  /** The decompile check lists `res` before `smali`. */
  lemma MissingDecompiledOrder(st: Store, dir: string)
    ensures MissingDirs(st, dir, DECOMPILED_DIRS) ==
      (if Exists(st, JoinPath(dir, "res")) then [] else ["res"]) +
      (if Exists(st, JoinPath(dir, "smali")) then [] else ["smali"])
  {
    var a := ["res"];
    assert DECOMPILED_DIRS[..1] == a && a[..0] == [];
    assert MissingDirs(st, dir, a) == (if Exists(st, JoinPath(dir, "res")) then [] else ["res"]);
  }

  // ---------------------------------------------------------------------------
  // `_record_version_code_change`
  // ---------------------------------------------------------------------------

  /** `f"{n} (0x{n:x})"`. */
  function HexDisplay(n: int): string {
    IntStr(n) + " (0x" + HexIntStr(n) + ")"
  }

  /** The "Old" text: a `0x` value that parses as hexadecimal is shown in
      decimal and hexadecimal, anything else as it was. */
  function VersionCodeDisplay(oldValue: string): (r: string)
    ensures !StartsWith(oldValue, "0x") ==> r == oldValue
    ensures StartsWith(oldValue, "0x") && ParseHex(oldValue).None? ==> r == oldValue
  {
    if StartsWith(oldValue, "0x") then
      match ParseHex(oldValue)
      case Some(d) => HexDisplay(d)
      case None => oldValue
    else oldValue
  }

  /** A version code written as `0x` and its lower-case hexadecimal digits is
      shown with its decimal value and the same digits. */
  lemma VersionCodeDisplayHex(n: nat)
    ensures VersionCodeDisplay("0x" + HexStr(n)) == IntStr(n) + " (0x" + HexStr(n) + ")"
  {
    ParseHexStr(n);
    assert StartsWith("0x" + HexStr(n), "0x");
  }

  // ---------------------------------------------------------------------------
  // The signed file name
  // ---------------------------------------------------------------------------

  /** `"".join(c for c in s if c not in cs)`. */
  function RemoveChars(s: string, cs: set<char>): (r: string)
    ensures forall i :: 0 <= i < |r| ==> r[i] !in cs
    ensures |r| <= |s|
  {
    if s == [] then []
    else
      var rest := RemoveChars(s[..|s| - 1], cs);
      if s[|s| - 1] in cs then rest else rest + [s[|s| - 1]]
  }

  /** Removing characters works piece by piece. */
  lemma {:induction false} RemoveCharsAppend(a: string, b: string, cs: set<char>)
    ensures RemoveChars(a + b, cs) == RemoveChars(a, cs) + RemoveChars(b, cs)
    decreases |b|
  {
    if b != [] {
      var n := |b| - 1;
      assert (a + b)[..|a + b| - 1] == a + b[..n];
      RemoveCharsAppend(a, b[..n], cs);
    } else {
      assert a + b == a;
    }
  }

  /** A text free of the characters is kept as it is. */
  lemma {:induction false} RemoveCharsNoop(s: string, cs: set<char>)
    requires forall i :: 0 <= i < |s| ==> s[i] !in cs
    ensures RemoveChars(s, cs) == s
    decreases |s|
  {
    if s != [] {
      RemoveCharsNoop(s[..|s| - 1], cs);
    }
  }

  /** The default signed file name, `"<app_name> (<version_name>).apk"` without
      the characters file systems refuse. */
  function SignedName(appName: string, versionName: string): (r: string)
    ensures forall i :: 0 <= i < |r| ==> r[i] !in FORBIDDEN_NAME_CHARS
    ensures EndsWith(r, ").apk")
  {
    RemoveCharsAppend(appName + " (" + versionName, ").apk", FORBIDDEN_NAME_CHARS);
    RemoveCharsNoop(").apk", FORBIDDEN_NAME_CHARS);
    RemoveChars(appName + " (" + versionName + ").apk", FORBIDDEN_NAME_CHARS)
  }

  /** Names free of the refused characters are used as they are. */
  lemma SignedNameClean(appName: string, versionName: string)
    requires forall i :: 0 <= i < |appName| ==> appName[i] !in FORBIDDEN_NAME_CHARS
    requires forall i :: 0 <= i < |versionName| ==> versionName[i] !in FORBIDDEN_NAME_CHARS
    ensures SignedName(appName, versionName) == appName + " (" + versionName + ").apk"
  {
    var s := appName + " (" + versionName + ").apk";
    forall i | 0 <= i < |s| ensures s[i] !in FORBIDDEN_NAME_CHARS {
      if i < |appName| {
        assert s[i] == appName[i];
      } else if |appName| + 2 <= i < |appName| + 2 + |versionName| {
        assert s[i] == versionName[i - |appName| - 2];
      }
    }
    RemoveCharsNoop(s, FORBIDDEN_NAME_CHARS);
  }

  /** Cleaning the signed name again changes nothing. */
  lemma SignedNameIdempotent(appName: string, versionName: string)
    ensures RemoveChars(SignedName(appName, versionName), FORBIDDEN_NAME_CHARS) == SignedName(appName, versionName)
  {
    RemoveCharsNoop(SignedName(appName, versionName), FORBIDDEN_NAME_CHARS);
  }

  // ---------------------------------------------------------------------------
  // The host
  // ---------------------------------------------------------------------------

  class ApkForge {
    /** `_warnings_occurred`: set by `_log_warning`, read by `has_warnings`. */
    var warningsOccurred: bool
    /** `found_files`, absent until the file-finding step has run. */
    var foundFiles: Option<map<string, string>>
    /** The attribute table that `dir()` and `getattr` see on the host. */
    const attributes: seq<Attribute>
    /** `paths`, as the path manager resolved them. */
    const paths: map<string, string>
    /** Whether `config` is set. */
    const hasConfig: bool
    /** `config.raw_config["pipeline_behavior"]`, or None when any link is missing. */
    const pipelineBehavior: Option<PipelineBehavior>
    /** `os.pathsep`. */
    const pathSeparator: string
    var changedValues: seq<CppBuilder.ChangedValue>
    /** The text entries of `build_summary`. */
    var buildSummary: map<string, string>
    /** `android_jar`, absent until `_find_android_jar` has set it. */
    var androidJar: Option<string>
    /** `library_jars`, absent until a step has set it. */
    var libraryJars: Option<seq<string>>
    var classpath: Option<string>
    var alignedApkPath: Option<string>
    var signedApkPath: Option<string>
    /** Whether the attribute `keystore_config` exists: `__init__` does not
        create it, and only `_load_keystore_config` sets it. */
    var keystoreLoaded: bool

    constructor (attributes: seq<Attribute>, paths: map<string, string>, hasConfig: bool,
                 pipelineBehavior: Option<PipelineBehavior>, pathSeparator: string)
      ensures this.attributes == attributes && this.paths == paths
      ensures this.hasConfig == hasConfig
      ensures this.pipelineBehavior == (if hasConfig then pipelineBehavior else None)
      ensures this.pathSeparator == pathSeparator
      ensures !warningsOccurred && foundFiles == None
      ensures changedValues == [] && buildSummary == map[]
      ensures androidJar == None && libraryJars == None && classpath == None
      ensures alignedApkPath == None && signedApkPath == None
      ensures !keystoreLoaded
    {
      this.attributes := attributes;
      this.paths := paths;
      this.hasConfig := hasConfig;
      this.pipelineBehavior := if hasConfig then pipelineBehavior else None;
      this.pathSeparator := pathSeparator;
      warningsOccurred := false;
      foundFiles := None;
      changedValues := [];
      buildSummary := map[];
      androidJar := None;
      libraryJars := None;
      classpath := None;
      alignedApkPath := None;
      signedApkPath := None;
      keystoreLoaded := false;
    }

    method HasWarnings() returns (b: bool)
      ensures b == warningsOccurred
    {
      b := warningsOccurred;
    }

    /** `_log_warning`: records that a warning occurred (the printed text is not modelled). */
    method LogWarning(message: string)
      modifies this`warningsOccurred
      ensures warningsOccurred
    {
      warningsOccurred := true;
    }

    /** What the file-finding step leaves behind: `found_files` now exists. */
    method StoreFoundFiles(files: map<string, string>)
      modifies this`foundFiles
      ensures foundFiles == Some(files)
    {
      foundFiles := Some(files);
    }

    /** `_load_keystore_config` after the configuration path is known: the
        outcomes of `config.load()` and `config.validate()`. Either raising
        propagates and leaves `keystore_config` unset; otherwise it is set. */
    method LoadKeystoreConfig(loaded: Result<()>, validated: Result<bool>) returns (r: Result<()>)
      modifies this`keystoreLoaded
      ensures loaded.Err? ==> r == Err(loaded.error) && keystoreLoaded == old(keystoreLoaded)
      ensures loaded.Ok? && validated.Err? ==> r == Err(validated.error) && keystoreLoaded == old(keystoreLoaded)
      ensures loaded.Ok? && validated.Ok? ==> r == Ok(()) && keystoreLoaded
    {
      if loaded.Err? {
        return Err(loaded.error);
      }
      if validated.Err? {
        return Err(validated.error);
      }
      keystoreLoaded := true;
      return Ok(());
    }

    /** `_build_native_libs` with `raw_config` given. A missing CMakeLists
        path or file raises before the build. A build that raises a
        FileNotFoundError or RuntimeError, or that produces nothing, re-raises
        when `stop_on_error` is true (the default); otherwise it logs a warning
        and records "Failed: " and the first 100 characters of the message. */
    method BuildNativeLibs(st: Store, rawConfig: Json, cmake: Result<Option<string>>, ninja: Result<Option<string>>,
                           ndk: Result<Option<string>>, targetAbis: seq<string>, built: seq<Result<bool>>) returns (r: Result<()>)
      requires |built| == |targetAbis|
      modifies this`changedValues, this`buildSummary, this`warningsOccurred
      ensures var c := CmakeListsPath(st, paths, rawConfig);
        c.Err? ==> (r == Err(c.error) &&
          changedValues == old(changedValues) && buildSummary == old(buildSummary) && warningsOccurred == old(warningsOccurred))
      ensures var c := CmakeListsPath(st, paths, rawConfig);
        c.Ok? ==>
          var t := TryOutcome(NativeBuildOutcome(st, paths, c.value, cmake, ninja, ndk, targetAbis, built));
          var stop := StopOnError(rawConfig);
          (t.Ok? ==> (r == Ok(()) && buildSummary == old(buildSummary) && warningsOccurred == old(warningsOccurred) &&
             changedValues == old(changedValues) + [CppBuilder.ChangedValue("Native Libraries", "Not built", "Built and integrated")])) &&
          (t.Err? ==> changedValues == old(changedValues)) &&
          (t.Err? && (!Caught(t.error) || stop != Ok(false)) ==>
             (buildSummary == old(buildSummary) && warningsOccurred == old(warningsOccurred))) &&
          (t.Err? && !Caught(t.error) ==> r == t) &&
          (t.Err? && Caught(t.error) && stop.Err? ==> r == Err(stop.error)) &&
          (t.Err? && Caught(t.error) && stop == Ok(true) ==> r == t) &&
          (t.Err? && Caught(t.error) && stop == Ok(false) ==>
             (r == Ok(()) && warningsOccurred &&
              buildSummary == old(buildSummary)[NATIVE_BUILD := "Failed: " + Take100(t.error.message)]))
    {
      var c := CmakeListsPath(st, paths, rawConfig);
      if c.Err? {
        return Err(c.error);
      }
      var t := RunNativeBuilder(st, c.value, cmake, ninja, ndk, targetAbis, built);
      if t.Ok? {
        changedValues := changedValues + [CppBuilder.ChangedValue("Native Libraries", "Not built", "Built and integrated")];
        return Ok(());
      }
      if !Caught(t.error) {
        return t;
      }
      r := NativeFailure(rawConfig, t.error);
    }

    /** The `try` block of `_build_native_libs`: a fresh native builder for the
        CMakeLists file, its build, and the `build_success` test. */
    method RunNativeBuilder(st: Store, cmakelists: string, cmake: Result<Option<string>>, ninja: Result<Option<string>>,
                            ndk: Result<Option<string>>, targetAbis: seq<string>, built: seq<Result<bool>>) returns (t: Result<()>)
      requires |built| == |targetAbis| && "project_root" in paths
      ensures t == TryOutcome(NativeBuildOutcome(st, paths, cmakelists, cmake, ninja, ndk, targetAbis, built))
    {
      var builder := new CppBuilder.NativeBuilder(paths, cmakelists);
      var outcome := builder.Build(st, cmake, ninja, ndk, targetAbis, built);
      if outcome.Err? {
        return Err(outcome.error);
      }
      if builder.buildSuccess {
        return Ok(());
      }
      return Err(Error(RuntimeError, NO_NATIVE_LIBRARIES));
    }

    /** The `except` clause of `_build_native_libs`: re-raise when
        `stop_on_error` is true, else warn and record the failure. */
    method NativeFailure(rawConfig: Json, failure: Error) returns (r: Result<()>)
      modifies this`buildSummary, this`warningsOccurred
      ensures var stop := StopOnError(rawConfig);
        (stop.Err? ==> r == Err(stop.error)) &&
        (stop == Ok(true) ==> r == Err(failure)) &&
        (stop != Ok(false) ==> (buildSummary == old(buildSummary) && warningsOccurred == old(warningsOccurred))) &&
        (stop == Ok(false) ==>
           (r == Ok(()) && warningsOccurred &&
            buildSummary == old(buildSummary)[NATIVE_BUILD := "Failed: " + Take100(failure.message)]))
    {
      var stop := StopOnError(rawConfig);
      if stop.Err? {
        return Err(stop.error);
      }
      if stop.value {
        return Err(failure);
      }
      LogWarning("Native build failed (ignored): " + failure.message);
      buildSummary := buildSummary[NATIVE_BUILD := "Failed: " + Take100(failure.message)];
      return Ok(());
    }

    /** `_find_android_jar`: `android_jar` is recorded before the check that
        the file exists, so a failed check still leaves it set. */
    method FindAndroidJar(st: Store, listings: map<string, seq<string>>) returns (r: Result<string>)
      modifies this`androidJar
      ensures var c := AndroidJarCandidate(st, paths, listings);
        (c.Err? ==> r == Err(c.error) && androidJar == old(androidJar)) &&
        (c.Ok? ==> (androidJar == Some(c.value) && (r.Ok? <==> Exists(st, c.value)) &&
           (r.Ok? ==> r.value == c.value) &&
           (r.Err? ==> r.error == Error(FileNotFoundError, "android.jar not found at " + c.value))))
    {
      var c := AndroidJarCandidate(st, paths, listings);
      if c.Err? {
        return Err(c.error);
      }
      androidJar := Some(c.value);
      if !Exists(st, c.value) {
        return Err(Error(FileNotFoundError, "android.jar not found at " + c.value));
      }
      return Ok(c.value);
    }

    /** `_prepare_classpath`: a RuntimeError before `_find_android_jar` has
        run; otherwise `library_jars` defaults to the empty list and the
        classpath lists `android.jar` first, then the library jars. */
    method PrepareClasspath() returns (r: Result<string>)
      modifies this`libraryJars, this`classpath
      ensures androidJar.None? ==>
        r == Err(Error(RuntimeError, "android_jar not found. Run _find_android_jar first")) &&
        libraryJars == old(libraryJars) && classpath == old(classpath)
      ensures androidJar.Some? ==>
        libraryJars == Some(old(libraryJars).GetOr([])) &&
        classpath == Some(Compiler.Classpath(androidJar.value, libraryJars.value, pathSeparator)) &&
        r == Ok(classpath.value)
    {
      if androidJar.None? {
        return Err(Error(RuntimeError, "android_jar not found. Run _find_android_jar first"));
      }
      if libraryJars.None? {
        libraryJars := Some([]);
      }
      classpath := Some(Compiler.Classpath(androidJar.value, libraryJars.value, pathSeparator));
      return Ok(classpath.value);
    }

    /** `_verify_decompile_success`: a RuntimeError listing, in order, which of
        `res` and `smali` are missing from the modded directory. */
    method VerifyDecompileSuccess(st: Store) returns (r: Result<bool>)
      ensures "modded_dir" !in paths ==> r == Err(Error(KeyError, "'modded_dir'"))
      ensures "modded_dir" in paths ==>
        var missing := MissingDirs(st, paths["modded_dir"], DECOMPILED_DIRS);
        (r.Ok? <==> missing == []) && (r.Ok? ==> r.value) &&
        (r.Err? ==> r.error == Error(RuntimeError, "Decompile failed: missing directories " + Compiler.ListRepr(missing)))
    {
      if "modded_dir" !in paths {
        return Err(Error(KeyError, "'modded_dir'"));
      }
      var dir := paths["modded_dir"];
      var missing: seq<string> := [];
      var i := 0;
      while i < |DECOMPILED_DIRS|
        invariant 0 <= i <= |DECOMPILED_DIRS|
        invariant missing == MissingDirs(st, dir, DECOMPILED_DIRS[..i])
      {
        assert DECOMPILED_DIRS[..i + 1][..i] == DECOMPILED_DIRS[..i];
        if !Exists(st, JoinPath(dir, DECOMPILED_DIRS[i])) {
          missing := missing + [DECOMPILED_DIRS[i]];
        }
        i := i + 1;
      }
      assert DECOMPILED_DIRS[..i] == DECOMPILED_DIRS;
      if missing != [] {
        return Err(Error(RuntimeError, "Decompile failed: missing directories " + Compiler.ListRepr(missing)));
      }
      return Ok(true);
    }

    /** `_record_version_code_change`: one change entry with the old value as
        displayed and the new code in decimal and hexadecimal. */
    method RecordVersionCodeChange(oldValue: string, versionCode: int)
      modifies this`changedValues
      ensures changedValues == old(changedValues) +
        [CppBuilder.ChangedValue("BuildConfig.smali VERSION_CODE", VersionCodeDisplay(oldValue), HexDisplay(versionCode))]
    {
      changedValues := changedValues +
        [CppBuilder.ChangedValue("BuildConfig.smali VERSION_CODE", VersionCodeDisplay(oldValue), HexDisplay(versionCode))];
    }

    /** The part of `_sign_apk` before the signer runs. Reading
        `self.keystore_config` before `_load_keystore_config` has run raises
        AttributeError, and a loaded `KeystoreConfig` is always true, so the
        "Keystore not loaded" RuntimeError is never raised. The input is the given APK, else the aligned one, else
        `aligned.apk` in the project root, and the output is the given path or
        the default signed name in the project root; the output is recorded as
        `signed_apk_path`. */
    method PrepareSigning(inputApk: Option<string>, outputApk: Option<string>,
                          appName: string, versionName: string) returns (r: Result<(string, string)>)
      modifies this`signedApkPath
      ensures !keystoreLoaded ==>
        r == Err(Error(AttributeError, NO_KEYSTORE_ATTRIBUTE)) && signedApkPath == old(signedApkPath)
      ensures keystoreLoaded && "project_root" !in paths && ((inputApk.None? && alignedApkPath.None?) || outputApk.None?) ==>
        r == Err(Error(KeyError, "'project_root'")) && signedApkPath == old(signedApkPath)
      ensures r.Ok? ==>
        r.value.0 == (if inputApk.Some? then inputApk.value
                      else if alignedApkPath.Some? then alignedApkPath.value
                      else JoinPath(paths["project_root"], "aligned.apk")) &&
        r.value.1 == (if outputApk.Some? then outputApk.value
                      else JoinPath(paths["project_root"], SignedName(appName, versionName))) &&
        signedApkPath == Some(r.value.1)
      ensures keystoreLoaded && ("project_root" in paths || ((inputApk.Some? || alignedApkPath.Some?) && outputApk.Some?)) ==> r.Ok?
    {
      if !keystoreLoaded {
        return Err(Error(AttributeError, NO_KEYSTORE_ATTRIBUTE));
      }
      var input: string;
      if inputApk.Some? {
        input := inputApk.value;
      } else if alignedApkPath.Some? {
        input := alignedApkPath.value;
      } else if "project_root" in paths {
        input := JoinPath(paths["project_root"], "aligned.apk");
      } else {
        return Err(Error(KeyError, "'project_root'"));
      }
      var output: string;
      if outputApk.Some? {
        output := outputApk.value;
      } else if "project_root" in paths {
        output := JoinPath(paths["project_root"], SignedName(appName, versionName));
      } else {
        return Err(Error(KeyError, "'project_root'"));
      }
      signedApkPath := Some(output);
      return Ok((input, output));
    }
  }
}
