/** `native_build_config.py`: the settings of one native build (build type,
    target ABI, target library name), read from `build_config.json` and the
    project's `CMakeLists.txt`, and the CMake command lines built from them. */
module NativeBuildConfig {
  import opened Wrappers
  import opened Text
  import opened Fs
  import opened Scan
  import opened PyJson
  import ProjectConfig

  const CMAKE_LISTS := "CMakeLists.txt"
  const DEFAULT_ABI := "arm64-v8a"
  const DEFAULT_BUILD_TYPE := "release"
  const TOOLCHAIN_FILE := "build/cmake/android.toolchain.cmake"

  // ---------------------------------------------------------------------------
  // `_load_build_type`
  // ---------------------------------------------------------------------------

  /** `build.type` of a decoded configuration, when it is there as a string. */
  predicate TypeConfigured(config: Json) {
    config.JObject? && "build" in config.fields && config.fields["build"].JObject?
    && "type" in config.fields["build"].fields && config.fields["build"].fields["type"].JString?
  }

  /** A dictionary that leaves `build.type` out: no `build` section, or one
      without `type`. */
  predicate TypeOmitted(config: Json) {
    config.JObject? &&
    ("build" !in config.fields || (config.fields["build"].JObject? && "type" !in config.fields["build"].fields))
  }

  /** `config.get("build", {}).get("type", "release").lower()`, or None when
      one of the three calls raises: `get` on a value that is not a
      dictionary, or `lower` on a type that is not a string. The result is lower case; it is the configured type
      lower-cased, or "release" when the type is left out. */
  function BuildTypeOf(config: Json): (r: Option<string>)
    ensures r.Some? ==> forall i :: 0 <= i < |r.value| ==> !IsUpperAscii(r.value[i])
    ensures TypeConfigured(config) ==> r == Some(Lower(config.fields["build"].fields["type"].s))
    ensures TypeOmitted(config) ==> r == Some(DEFAULT_BUILD_TYPE)
    ensures r.Some? && r.value != DEFAULT_BUILD_TYPE ==> TypeConfigured(config)
  {
    if !config.JObject? then None
    else
      var build := if "build" in config.fields then config.fields["build"] else JObject(map[]);
      if !build.JObject? then None
      else
        var t := if "type" in build.fields then build.fields["type"] else JString(DEFAULT_BUILD_TYPE);
        if !t.JString? then None
        else
          DefaultLower();
          Some(Lower(t.s))
  }

  lemma DefaultLower()
    ensures Lower(DEFAULT_BUILD_TYPE) == DEFAULT_BUILD_TYPE
  {
    LowerNoop(DEFAULT_BUILD_TYPE);
  }

  /** `_load_build_type`: the lower-cased `build.type` of the project's
      `build_config.json`; "release" when the file is missing, cannot be
      read or decoded, or any step of the lookup raises. */
  function LoadBuildType(st: Store, projectRoot: string, decode: string -> Decoded): string {
    match ProjectConfig.Decoding(st, projectRoot, decode)
    case None => DEFAULT_BUILD_TYPE
    case Some(config) =>
      match BuildTypeOf(config)
      case None => DEFAULT_BUILD_TYPE
      case Some(t) => t
  }

  /** The build type is lower case; it is "release" unless the decoded
      configuration names another one as a string under `build.type`; a
      configured string is taken lower-cased, and a file that leaves the type
      out gives "release". */
  lemma LoadBuildTypeOutcome(st: Store, projectRoot: string, decode: string -> Decoded)
    ensures var r := LoadBuildType(st, projectRoot, decode);
      forall i :: 0 <= i < |r| ==> !IsUpperAscii(r[i])
    ensures var d := ProjectConfig.Decoding(st, projectRoot, decode);
      LoadBuildType(st, projectRoot, decode) != DEFAULT_BUILD_TYPE ==> d.Some? && TypeConfigured(d.value)
    ensures var d := ProjectConfig.Decoding(st, projectRoot, decode);
      d.Some? && TypeConfigured(d.value) ==>
        LoadBuildType(st, projectRoot, decode) == Lower(d.value.fields["build"].fields["type"].s)
    ensures var d := ProjectConfig.Decoding(st, projectRoot, decode);
      d.Some? && TypeOmitted(d.value) ==> LoadBuildType(st, projectRoot, decode) == DEFAULT_BUILD_TYPE
  {
    LowerNoop(DEFAULT_BUILD_TYPE);
  }

  // ---------------------------------------------------------------------------
  // `_detect_target_abi` and `_parse_target_library_name`
  // ---------------------------------------------------------------------------

  /** The characters of `["${}]`. */
  predicate AbiQuote(c: char) {
    c == '"' || c == '$' || c == '{' || c == '}'
  }

  /** `[-\w]`. */
  predicate DashWordChar(c: char) {
    c == '-' || WordChar(c)
  }

  /** Greedy `[-\w]*` from `i`. */
  function DashWordEnd(s: string, i: nat): (j: nat)
    requires i <= |s|
    ensures i <= j <= |s|
    ensures forall k :: i <= k < j ==> DashWordChar(s[k])
    ensures j < |s| ==> !DashWordChar(s[j])
    decreases |s| - i
  {
    if i < |s| && DashWordChar(s[i]) then DashWordEnd(s, i + 1) else i
  }

  /** `set\s*\(\s*ANDROID_ABI\s+["${}]?(\w+[-\w]*)` at `i`, ignoring case. */
  function AbiAt(s: string, i: nat): (r: Option<Match>)
    ensures r.Some? ==> OccursAtIgnoreCase(s, "set", i) && r.value.end <= |s|
    ensures r.Some? ==> |r.value.group| > 0 && WordChar(r.value.group[0])
    ensures r.Some? ==> forall k :: 0 <= k < |r.value.group| ==> DashWordChar(r.value.group[k])
  {
    if !OccursAtIgnoreCase(s, "set", i) then None
    else
      var j := SkipSpace(s, i + 3);
      if !CharAt(s, j, '(') then None
      else AbiArgAt(s, SkipSpace(s, j + 1))
  }

  /** `ANDROID_ABI\s+` at `k`, ignoring case, then the value. */
  function AbiArgAt(s: string, k: nat): (r: Option<Match>)
    ensures r.Some? ==> r.value.end <= |s|
    ensures r.Some? ==> |r.value.group| > 0 && WordChar(r.value.group[0])
    ensures r.Some? ==> forall k :: 0 <= k < |r.value.group| ==> DashWordChar(r.value.group[k])
  {
    if !OccursAtIgnoreCase(s, "android_abi", k) then None
    else
      var m := k + 11;
      if !(m < |s| && IsSpace(s[m])) then None
      else AbiValueAt(s, SkipSpace(s, m))
  }

  /** `["${}]?(\w+[-\w]*)` at `q`. The optional quote is taken only when a
      word character follows it: no quote character is a word character, so
      the pattern cannot match otherwise. */
  function AbiValueAt(s: string, q: nat): (r: Option<Match>)
    ensures r.Some? ==> r.value.end <= |s|
    ensures r.Some? ==> |r.value.group| > 0 && WordChar(r.value.group[0])
    ensures r.Some? ==> forall k :: 0 <= k < |r.value.group| ==> DashWordChar(r.value.group[k])
  {
    var w := if q < |s| && AbiQuote(s[q]) then q + 1 else q;
    if !(w < |s| && WordChar(s[w])) then None
    else
      var e := DashWordEnd(s, w + 1);
      Some(Match(e, s[w..e]))
  }

  /** `<keyword>\s*\(\s*(\w+)` at `i`, ignoring case, for a lower-case keyword. */
  function CallAt(keyword: string, s: string, i: nat): (r: Option<Match>)
    ensures r.Some? ==> OccursAtIgnoreCase(s, keyword, i) && r.value.end <= |s|
    ensures r.Some? ==> |r.value.group| > 0 && forall k :: 0 <= k < |r.value.group| ==> WordChar(r.value.group[k])
  {
    if !OccursAtIgnoreCase(s, keyword, i) then None
    else
      var j := SkipSpace(s, i + |keyword|);
      if !CharAt(s, j, '(') then None
      else
        var k := SkipSpace(s, j + 1);
        if !(k < |s| && WordChar(s[k])) then None
        else
          var e := WordEnd(s, k);
          Some(Match(e, s[k..e]))
  }

  function AddLibraryAt(s: string, i: nat): Option<Match> {
    CallAt("add_library", s, i)
  }

  function ProjectAt(s: string, i: nat): Option<Match> {
    CallAt("project", s, i)
  }

  /** `_detect_target_abi`: the ABI the project's `CMakeLists.txt` sets, or
      "arm64-v8a" when the file is missing or unreadable or sets none. */
  function DetectTargetAbi(st: Store, cppDir: string): (r: string)
    ensures |r| > 0 && WordChar(r[0])
  {
    var path := JoinPath(cppDir, CMAKE_LISTS);
    if path !in st.files then DEFAULT_ABI
    else
      match Search(st.files[path], AbiAt)
      case None => DEFAULT_ABI
      case Some(m) => m.group
  }

  /** `_parse_target_library_name`: the first `add_library` target, else the
      `project` name, else None; None as well without a readable
      `CMakeLists.txt`. */
  function ParseTargetLibraryName(st: Store, cppDir: string): (r: Option<string>)
    ensures r.Some? ==> |r.value| > 0 && forall k :: 0 <= k < |r.value| ==> WordChar(r.value[k])
  {
    var path := JoinPath(cppDir, CMAKE_LISTS);
    if path !in st.files then None
    else
      match Search(st.files[path], AddLibraryAt)
      case Some(m) => Some(m.group)
      case None =>
        match Search(st.files[path], ProjectAt)
        case Some(m) => Some(m.group)
        case None => None
  }

  /** The detected ABI is the default exactly when no ABI is set, and otherwise
      is what the leftmost `set(ANDROID_ABI ...)` names. */
  lemma DetectTargetAbiOutcome(st: Store, cppDir: string)
    ensures var path := JoinPath(cppDir, CMAKE_LISTS);
      (path !in st.files || Search(st.files[path], AbiAt).None?) ==> DetectTargetAbi(st, cppDir) == DEFAULT_ABI
    ensures var path := JoinPath(cppDir, CMAKE_LISTS);
      path in st.files && Search(st.files[path], AbiAt).Some? ==>
        DetectTargetAbi(st, cppDir) == Search(st.files[path], AbiAt).value.group
        && exists j :: (0 <= j <= |st.files[path]| && AbiAt(st.files[path], j) == Search(st.files[path], AbiAt)
                        && forall k :: 0 <= k < j ==> AbiAt(st.files[path], k).None?)
  {
  }

  /** An `add_library` target wins over the project name; the project name is
      used only when no `add_library` matches; None means neither matches. */
  lemma LibraryNameOrder(st: Store, cppDir: string)
    ensures var path := JoinPath(cppDir, CMAKE_LISTS);
      path in st.files && Search(st.files[path], AddLibraryAt).Some? ==>
        ParseTargetLibraryName(st, cppDir) == Some(Search(st.files[path], AddLibraryAt).value.group)
    ensures var path := JoinPath(cppDir, CMAKE_LISTS);
      path in st.files && Search(st.files[path], AddLibraryAt).None? && Search(st.files[path], ProjectAt).Some? ==>
        ParseTargetLibraryName(st, cppDir) == Some(Search(st.files[path], ProjectAt).value.group)
    ensures var path := JoinPath(cppDir, CMAKE_LISTS);
      ParseTargetLibraryName(st, cppDir).None? <==>
        (path !in st.files || (Search(st.files[path], AddLibraryAt).None? && Search(st.files[path], ProjectAt).None?))
  {
  }

  /** A quoted ABI is read without its quotes, whatever the case of the
      command. */
  lemma QuotedAbiRead()
    ensures AbiAt(QUOTED_ABI_LINE, 0) == Some(Match(20, "x86"))
  {
    var s := QUOTED_ABI_LINE;
    QuotedAbiArg();
    QuotedAbiCommand();
  }

  lemma QuotedAbiCommand()
    ensures OccursAtIgnoreCase(QUOTED_ABI_LINE, "set", 0) && CharAt(QUOTED_ABI_LINE, 3, '(')
    ensures SkipSpace(QUOTED_ABI_LINE, 3) == 3 && SkipSpace(QUOTED_ABI_LINE, 4) == 4
  {
    var s := QUOTED_ABI_LINE;
    assert !IsSpace(s[3]) && !IsSpace(s[4]) by { AsciiSpace(s[3]); AsciiSpace(s[4]); }
  }

  const QUOTED_ABI_LINE := "SET(ANDROID_ABI \"x86\")"

  lemma QuotedAbiArg()
    ensures AbiArgAt(QUOTED_ABI_LINE, 4) == Some(Match(20, "x86"))
  {
    var s := QUOTED_ABI_LINE;
    QuotedAbiValue();
    assert OccursAtIgnoreCase(s, "android_abi", 4);
    assert IsSpace(s[15]) && !IsSpace(s[16]) by { AsciiSpace(s[15]); AsciiSpace(s[16]); }
    assert SkipSpace(s, 15) == 16;
  }

  lemma QuotedAbiValue()
    ensures AbiValueAt(QUOTED_ABI_LINE, 16) == Some(Match(20, "x86"))
  {
    var s := QUOTED_ABI_LINE;
    assert DashWordEnd(s, 20) == 20;
    assert DashWordEnd(s, 18) == 20;
    assert s[17..20] == "x86";
  }

  // ---------------------------------------------------------------------------
  // The configuration object and its command lines
  // ---------------------------------------------------------------------------

  class NativeBuildConfig {
    const cppDir: string
    const projectRoot: string
    const ndkPath: Option<string>
    const buildType: string
    /** `target_abi`: the native builder overwrites it for each ABI. */
    var targetAbi: string
    const targetLibName: Option<string>

    /** The constructor reads the build type, the target ABI and the target
        library name once, in that order. */
    constructor (st: Store, cppDir: string, projectRoot: string, ndkPath: Option<string>, decode: string -> Decoded)
      ensures this.cppDir == cppDir && this.projectRoot == projectRoot && this.ndkPath == ndkPath
      ensures buildType == LoadBuildType(st, projectRoot, decode)
      ensures targetAbi == DetectTargetAbi(st, cppDir)
      ensures targetLibName == ParseTargetLibraryName(st, cppDir)
    {
      this.cppDir := cppDir;
      this.projectRoot := projectRoot;
      this.ndkPath := ndkPath;
      buildType := LoadBuildType(st, projectRoot, decode);
      targetAbi := DetectTargetAbi(st, cppDir);
      targetLibName := ParseTargetLibraryName(st, cppDir);
    }

    /** `get_cmake_args`: the ten configure arguments, then the toolchain, the
        ABI and the shared C++ runtime when an NDK is set and its toolchain
        file exists. */
    method GetCmakeArgs(st: Store, cmakePath: string, ninjaPath: string, buildDir: string) returns (args: seq<string>)
      ensures var android := ndkPath.Some? && Exists(st, JoinPath(ndkPath.value, TOOLCHAIN_FILE));
        |args| == (if android then 13 else 10)
      ensures |args| >= 10 && args[..10] ==
        [cmakePath, "-S", cppDir, "-B", buildDir, "-G", "Ninja", "-DCMAKE_MAKE_PROGRAM=" + ninjaPath,
         "-DCMAKE_BUILD_TYPE=" + Capitalize(buildType), "-DBUILD_TYPE=" + Capitalize(buildType)]
      ensures |args| == 13 ==>
        args[10..] == ["-DCMAKE_TOOLCHAIN_FILE=" + JoinPath(ndkPath.value, TOOLCHAIN_FILE),
                       "-DANDROID_ABI=" + targetAbi, "-DANDROID_STL=c++_shared"]
    {
      args := [cmakePath, "-S", cppDir, "-B", buildDir, "-G", "Ninja", "-DCMAKE_MAKE_PROGRAM=" + ninjaPath,
               "-DCMAKE_BUILD_TYPE=" + Capitalize(buildType), "-DBUILD_TYPE=" + Capitalize(buildType)];
      if ndkPath.Some? {
        var toolchain := JoinPath(ndkPath.value, TOOLCHAIN_FILE);
        if Exists(st, toolchain) {
          args := args + ["-DCMAKE_TOOLCHAIN_FILE=" + toolchain, "-DANDROID_ABI=" + targetAbi, "-DANDROID_STL=c++_shared"];
        }
      }
    }

    /** `get_build_args`: build the directory in the capitalised build type. */
    method GetBuildArgs(cmakePath: string, buildDir: string) returns (args: seq<string>)
      ensures args == [cmakePath, "--build", buildDir, "--config", Capitalize(buildType)]
    {
      args := [cmakePath, "--build", buildDir, "--config", Capitalize(buildType)];
    }
  }

  /** The default build type reaches CMake as "Release". */
  lemma DefaultBuildTypeCapitalized()
    ensures Capitalize(DEFAULT_BUILD_TYPE) == "Release"
  {
  }
}
