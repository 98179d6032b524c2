/** `library_deployer.py`: finding the native libraries a build produced and
    copying them into the decompiled APK. The file system is a `Store` value
    for the specification and the shared `Disk` for the methods; what `glob`
    and `rglob` list is given, in their order, as parameters. */
module LibraryDeployer {
  import opened Wrappers
  import opened Text
  import opened Fs
  import AbiFilter

  /** `IGNORE_PATTERNS`: build-tree paths that hold no deliverable library. */
  const IGNORE_PATTERNS: seq<string> := ["CMakeFiles", "_deps", "Testing", ".cmake"]

  /** `TARGET_ABI`: the ABI directory searched first, and the default ABI. */
  const TARGET_ABI := "arm64-v8a"

  // ---------------------------------------------------------------------------
  // Name rules
  // ---------------------------------------------------------------------------

  /** `_matches_target`, the three tests exactly as the source makes them. */
  function MatchesTarget(libName: string, targetName: string): bool {
    var lib, target := Lower(libName), Lower(targetName);
    Contains(lib, target) || Contains(lib, "lib" + target) || StartsWith(lib, target)
  }

  /** The three tests of `_matches_target` come down to one: the target
      name, ignoring case, is a substring of the library name. */
  lemma MatchesTargetIsSubstring(libName: string, targetName: string)
    ensures MatchesTarget(libName, targetName) <==> Contains(Lower(libName), Lower(targetName))
  {
    var lib, target := Lower(libName), Lower(targetName);
    if Contains(lib, "lib" + target) {
      var i :| 0 <= i <= |lib| - |"lib" + target| && OccursAt(lib, "lib" + target, i);
      assert lib[i + 3..i + 3 + |target|] == ("lib" + target)[3..];
      assert OccursAt(lib, target, i + 3);
    }
    if StartsWith(lib, target) {
      assert OccursAt(lib, target, 0);
    }
  }

  /** `_should_include_library`: every library when no target is named. */
  function ShouldInclude(libName: string, targetName: Option<string>): (b: bool)
    ensures targetName.None? ==> b
    ensures targetName.Some? ==> (b <==> Contains(Lower(libName), Lower(targetName.value)))
  {
    MatchesTargetIsSubstring(libName, if targetName.Some? then targetName.value else "");
    targetName.None? || MatchesTarget(libName, targetName.value)
  }

  /** `any(pattern in path_str for pattern in IGNORE_PATTERNS[i:])`. */
  function AnyPattern(path: string, i: nat): bool
    decreases |IGNORE_PATTERNS| - i
  {
    i < |IGNORE_PATTERNS| && (Contains(path, IGNORE_PATTERNS[i]) || AnyPattern(path, i + 1))
  }

  /** `_should_ignore`. */
  function ShouldIgnore(path: string): bool {
    AnyPattern(path, 0) || Contains(Lower(BaseName(path)), "test")
  }

  lemma {:induction false} AnyPatternExactly(path: string, i: nat)
    ensures AnyPattern(path, i) <==> exists k :: i <= k < |IGNORE_PATTERNS| && Contains(path, IGNORE_PATTERNS[k])
    decreases |IGNORE_PATTERNS| - i
  {
    if i < |IGNORE_PATTERNS| {
      AnyPatternExactly(path, i + 1);
    }
  }

  /** A build path is ignored iff it contains `CMakeFiles`, `_deps`,
      `Testing` or `.cmake`, or its file name contains "test" in any case. */
  lemma ShouldIgnoreExactly(path: string)
    ensures ShouldIgnore(path) <==>
      Contains(path, "CMakeFiles") || Contains(path, "_deps") || Contains(path, "Testing") ||
      Contains(path, ".cmake") || Contains(Lower(BaseName(path)), "test")
  {
    AnyPatternExactly(path, 0);
    assert IGNORE_PATTERNS[0] == "CMakeFiles" && IGNORE_PATTERNS[1] == "_deps";
    assert IGNORE_PATTERNS[2] == "Testing" && IGNORE_PATTERNS[3] == ".cmake";
  }

  // ---------------------------------------------------------------------------
  // ABI detection
  // ---------------------------------------------------------------------------

  /** The `abi_map` of `_detect_abi`, in its insertion order. */
  const ABI_MAP: seq<(string, string)> := [
    ("arm64-v8a", "arm64-v8a"), ("arm64", "arm64-v8a"), ("aarch64", "arm64-v8a"),
    ("armeabi-v7a", "armeabi-v7a"), ("armeabi", "armeabi"),
    ("x86_64", "x86_64"), ("x64", "x86_64"), ("x86", "x86")]

  /** The first key from index `i` on that occurs in `s`, mapped to its ABI. */
  function DetectFrom(s: string, i: nat): (abi: string)
    ensures abi == TARGET_ABI || exists j :: i <= j < |ABI_MAP| && abi == ABI_MAP[j].1
    decreases |ABI_MAP| - i
  {
    if i >= |ABI_MAP| then TARGET_ABI
    else if Contains(s, ABI_MAP[i].0) then ABI_MAP[i].1
    else DetectFrom(s, i + 1)
  }

  /** `_detect_abi`: the ABI of the first key contained in the lowercased path. */
  function DetectAbi(path: string): (abi: string)
    ensures abi in AbiFilter.ALL_ABIS
  {
    DetectFrom(Lower(path), 0)
  }

  lemma {:induction false} DetectFromFirst(s: string, i: nat, k: nat)
    requires i <= k < |ABI_MAP| && Contains(s, ABI_MAP[k].0)
    requires forall j :: i <= j < k ==> !Contains(s, ABI_MAP[j].0)
    ensures DetectFrom(s, i) == ABI_MAP[k].1
    decreases k - i
  {
    if i < k {
      DetectFromFirst(s, i + 1, k);
    }
  }

  lemma {:induction false} DetectFromNone(s: string, i: nat)
    requires forall j :: i <= j < |ABI_MAP| ==> !Contains(s, ABI_MAP[j].0)
    ensures DetectFrom(s, i) == TARGET_ABI
    decreases |ABI_MAP| - i
  {
    if i < |ABI_MAP| {
      DetectFromNone(s, i + 1);
    }
  }

  /** When some key of the table occurs at or before index `k`, the answer is
      the ABI of a key at or before `k`. */
  lemma {:induction false} DetectFromWithin(s: string, i: nat, k: nat)
    requires i <= k < |ABI_MAP| && Contains(s, ABI_MAP[k].0)
    ensures exists j :: i <= j <= k && DetectFrom(s, i) == ABI_MAP[j].1
    decreases k - i
  {
    if i < k && !Contains(s, ABI_MAP[i].0) {
      DetectFromWithin(s, i + 1, k);
    }
  }

  /** The detected ABI is that of the first listed key found in the
      lowercased path, and `arm64-v8a` when none is found. */
  lemma DetectAbiFirst(path: string, k: nat)
    requires k < |ABI_MAP| && Contains(Lower(path), ABI_MAP[k].0)
    requires forall j :: 0 <= j < k ==> !Contains(Lower(path), ABI_MAP[j].0)
    ensures DetectAbi(path) == ABI_MAP[k].1
  {
    DetectFromFirst(Lower(path), 0, k);
  }

  lemma DetectAbiDefault(path: string)
    requires forall j :: 0 <= j < |ABI_MAP| ==> !Contains(Lower(path), ABI_MAP[j].0)
    ensures DetectAbi(path) == TARGET_ABI
  {
    DetectFromNone(Lower(path), 0);
  }

  /** Because `armeabi-v7a` is tried before `armeabi`, a path naming
      `armeabi-v7a` is never sent to `armeabi`. */
  lemma V7aNotArmeabi(path: string)
    requires Contains(Lower(path), "armeabi-v7a")
    ensures DetectAbi(path) != "armeabi"
  {
    DetectFromWithin(Lower(path), 0, 3);
  }

  /** Because `x86_64` and `x64` are tried before `x86`, a 64-bit x86 path is
      never sent to `x86`. */
  lemma X64NotX86(path: string)
    requires Contains(Lower(path), "x86_64") || Contains(Lower(path), "x64")
    ensures DetectAbi(path) != "x86"
  {
    if Contains(Lower(path), "x86_64") {
      DetectFromWithin(Lower(path), 0, 5);
    } else {
      DetectFromWithin(Lower(path), 0, 6);
    }
  }

  // ---------------------------------------------------------------------------
  // Library kinds
  // ---------------------------------------------------------------------------

  /** How `_deploy_single_library` treats a file. */
  datatype Kind = Android | Generic | Unknown

  function KindOf(name: string): Kind {
    var ext := Lower(Suffix(name));
    if ext == ".so" then Android
    else if ext == ".dll" || ext == ".dylib" || ext == ".a" then Generic
    else Unknown
  }

  /** The name ends in `.so`, in any case, after a non-empty stem. */
  predicate SoName(name: string) {
    |name| >= 4 && name[|name| - 3] == '.' && LowerChar(name[|name| - 2]) == 's' && LowerChar(name[|name| - 1]) == 'o'
  }

  /** A library is deployed as an Android library iff its name ends in `.so`. */
  lemma AndroidExactly(name: string)
    ensures KindOf(name) == Android <==> SoName(name)
  {
    if KindOf(name) == Android {
      AndroidOnlySo(name);
    }
    if SoName(name) {
      SoIsAndroid(name);
    }
  }

  lemma AndroidOnlySo(name: string)
    requires KindOf(name) == Android
    ensures SoName(name)
  {
    var i := RFind(name, '.');
    var e := Suffix(name);
    assert |Lower(e)| == 3;
    assert e == name[i..];
    assert i == |name| - 3;
    assert Lower(e)[1] == LowerChar(name[i + 1]) && Lower(e)[2] == LowerChar(name[i + 2]);
  }

  lemma SoIsAndroid(name: string)
    requires SoName(name)
    ensures KindOf(name) == Android
  {
    var n := |name|;
    assert name[n - 2] != '.' && name[n - 1] != '.';
    RFindLast(name, '.', n - 3);
    var e := Suffix(name);
    assert e == name[n - 3..];
    assert Lower(e) == [LowerChar(e[0]), LowerChar(e[1]), LowerChar(e[2])];
  }

  // ---------------------------------------------------------------------------
  // Finding the built libraries
  // ---------------------------------------------------------------------------

  /** The paths that survive the loop of a search: those that are not
      ignored (when `ignoring`) and pass `_should_include_library`. */
  function Select(paths: seq<string>, targetName: Option<string>, ignoring: bool): (r: seq<string>)
    ensures forall p :: p in r <==> p in paths && !(ignoring && ShouldIgnore(p)) && ShouldInclude(BaseName(p), targetName)
  {
    if paths == [] then []
    else
      var init := paths[..|paths| - 1];
      var p := paths[|paths| - 1];
      assert forall q :: q in paths <==> q in init || q == p by {
        assert paths == init + [p];
      }
      var rest := Select(init, targetName, ignoring);
      if !(ignoring && ShouldIgnore(p)) && ShouldInclude(BaseName(p), targetName) then rest + [p] else rest
  }

  class LibraryDeployer {
    const targetDir: string

    constructor (targetDir: string)
      ensures this.targetDir == targetDir
    {
      this.targetDir := targetDir;
    }

    /** `target_dir/lib/arm64-v8a`. */
    function TargetLibDir(): string {
      JoinPath(JoinPath(targetDir, "lib"), TARGET_ABI)
    }

    /** `_search_in_target_dir`, given what `glob("*.so")` would list there. */
    function TargetSearch(st: Store, listing: seq<string>, targetName: Option<string>): (r: seq<string>)
      ensures TargetLibDir() !in st.dirs ==> r == []
    {
      var dir := TargetLibDir();
      if dir !in st.files && dir !in st.dirs then []
      else Select(AbiFilter.Glob(st.dirs, dir, listing), targetName, false)
    }

    /** `find_built_libraries`: the build directory's `rglob("*.so")`
        (`built`) is searched only when the target directory yields nothing. */
    function FoundLibraries(st: Store, listing: seq<string>, built: seq<string>, targetName: Option<string>): (r: seq<string>)
      ensures TargetSearch(st, listing, targetName) != [] ==> r == TargetSearch(st, listing, targetName)
      ensures TargetSearch(st, listing, targetName) == [] ==> r == Select(built, targetName, true)
    {
      var inTarget := TargetSearch(st, listing, targetName);
      if inTarget != [] then inTarget else Select(built, targetName, true)
    }

    /** A library found in the target is a `.so` entry of
        `lib/arm64-v8a` that the name filter accepts; one found in the build
        directory is an `rglob` result that is not ignored and is accepted. */
    lemma FoundLibrariesExactly(st: Store, listing: seq<string>, built: seq<string>, targetName: Option<string>, p: string)
      ensures var r := FoundLibraries(st, listing, built, targetName);
        (TargetSearch(st, listing, targetName) != [] ==>
           (p in r <==> TargetLibDir() in st.dirs &&
                        (exists n :: n in listing && EndsWith(n, ".so") && p == JoinPath(TargetLibDir(), n)) &&
                        ShouldInclude(BaseName(p), targetName))) &&
        (TargetSearch(st, listing, targetName) == [] ==>
           (p in r <==> p in built && !ShouldIgnore(p) && ShouldInclude(BaseName(p), targetName)))
    {
    }

    method SearchInTargetDir(disk: Disk, listing: seq<string>, targetName: Option<string>) returns (libFiles: seq<string>)
      ensures libFiles == TargetSearch(Store(disk.files, disk.dirs), listing, targetName)
    {
      var dir := TargetLibDir();
      if !disk.Exists(dir) {
        return [];
      }
      var paths := AbiFilter.Glob(disk.dirs, dir, listing);
      libFiles := SelectLoop(paths, targetName, false);
    }

    /** The loop shared by both searches. */
    method SelectLoop(paths: seq<string>, targetName: Option<string>, ignoring: bool) returns (libFiles: seq<string>)
      ensures libFiles == Select(paths, targetName, ignoring)
    {
      libFiles := [];
      var i := 0;
      while i < |paths|
        invariant 0 <= i <= |paths|
        invariant libFiles == Select(paths[..i], targetName, ignoring)
      {
        assert paths[..i + 1][..i] == paths[..i];
        var p := paths[i];
        i := i + 1;
        if ignoring && ShouldIgnore(p) {
          continue;
        }
        if ShouldInclude(BaseName(p), targetName) {
          libFiles := libFiles + [p];
        }
      }
      assert paths[..i] == paths;
    }

    method FindBuiltLibraries(disk: Disk, listing: seq<string>, built: seq<string>, targetName: Option<string>)
      returns (libFiles: seq<string>)
      ensures libFiles == FoundLibraries(Store(disk.files, disk.dirs), listing, built, targetName)
    {
      libFiles := SearchInTargetDir(disk, listing, targetName);
      if libFiles == [] {
        libFiles := SelectLoop(built, targetName, true);
      }
    }

    // -------------------------------------------------------------------------
    // Deploying
    // -------------------------------------------------------------------------

    /** `target_dir/libs` for any other known library. */
    function GenericDir(): string {
      JoinPath(targetDir, "libs")
    }

    /** Where `_deploy_single_library` puts a library of the given kind
        that it copies. */
    function DestinationAs(name: string, kind: Kind, abi: string): string {
      if kind == Android then JoinPath(JoinPath(JoinPath(targetDir, "lib"), abi), name) else JoinPath(GenericDir(), name)
    }

    function Destination(lib: string): string {
      DestinationAs(BaseName(lib), KindOf(BaseName(lib)), DetectAbi(lib))
    }

    /** `_deploy_single_library` once the library's name, kind and ABI are known. */
    function DeployAs(st: Store, lib: string, name: string, kind: Kind, abi: string): (r: Result<Store>) {
      if kind == Unknown then Ok(st)
      else if kind == Generic then
        var made := MakeDir(st, GenericDir());
        if made.Err? then Err(made.error) else Ok(CopyLibrary(made.value, lib, JoinPath(GenericDir(), name)))
      else if lib !in st.files && lib !in st.dirs then Ok(st)
      else
        var abiDir := JoinPath(JoinPath(targetDir, "lib"), abi);
        var made := MakeAbiDir(st, JoinPath(targetDir, "lib"), abiDir);
        if made.Err? then Err(made.error)
        else if lib == JoinPath(abiDir, name) then Ok(made.value)
        else Ok(CopyLibrary(made.value, lib, JoinPath(abiDir, name)))
    }

    /** What `_deploy_single_library` does to the file system. */
    function DeployOne(st: Store, lib: string): (r: Result<Store>) {
      DeployAs(st, lib, BaseName(lib), KindOf(BaseName(lib)), DetectAbi(lib))
    }

    lemma DeployAsCopies(st: Store, lib: string, name: string, kind: Kind, abi: string)
      requires DeployAs(st, lib, name, kind, abi).Ok? && lib in st.files && DestinationAs(name, kind, abi) !in st.dirs
      requires kind == Android || (kind == Generic && lib != DestinationAs(name, kind, abi))
      ensures DestinationAs(name, kind, abi) in DeployAs(st, lib, name, kind, abi).value.files
      ensures DeployAs(st, lib, name, kind, abi).value.files[DestinationAs(name, kind, abi)] == st.files[lib]
    {
    }

    lemma DeployAsKeepsOthers(st: Store, lib: string, name: string, kind: Kind, abi: string, p: string)
      requires DeployAs(st, lib, name, kind, abi).Ok? && p in st.files && p != DestinationAs(name, kind, abi)
      ensures p in DeployAs(st, lib, name, kind, abi).value.files
      ensures DeployAs(st, lib, name, kind, abi).value.files[p] == st.files[p]
      ensures st.dirs <= DeployAs(st, lib, name, kind, abi).value.dirs
    {
    }

    /** A library of unknown type, and a `.so` file that does not exist,
        only get a message. */
    lemma DeploySkips(st: Store, lib: string)
      requires KindOf(BaseName(lib)) == Unknown || (KindOf(BaseName(lib)) == Android && lib !in st.files && lib !in st.dirs)
      ensures DeployOne(st, lib) == Ok(st)
    {
    }

    /** A deployed regular file ends up at its destination with its
        content, unless a directory is in the way or a generic library is
        copied onto itself. */
    lemma DeployCopies(st: Store, lib: string)
      requires DeployOne(st, lib).Ok? && lib in st.files && Destination(lib) !in st.dirs
      requires KindOf(BaseName(lib)) == Android || (KindOf(BaseName(lib)) == Generic && lib != Destination(lib))
      ensures Destination(lib) in DeployOne(st, lib).value.files
      ensures DeployOne(st, lib).value.files[Destination(lib)] == st.files[lib]
    {
      DeployAsCopies(st, lib, BaseName(lib), KindOf(BaseName(lib)), DetectAbi(lib));
    }

    /** Deploying a library changes no file but its destination and removes no directory. */
    lemma DeployKeepsOthers(st: Store, lib: string, p: string)
      requires DeployOne(st, lib).Ok? && p in st.files && p != Destination(lib)
      ensures p in DeployOne(st, lib).value.files && DeployOne(st, lib).value.files[p] == st.files[p]
      ensures st.dirs <= DeployOne(st, lib).value.dirs
    {
      DeployAsKeepsOthers(st, lib, BaseName(lib), KindOf(BaseName(lib)), DetectAbi(lib), p);
    }

    /** `deploy_libraries`: nothing for an empty list; otherwise `iterdir` on
        the target directory must succeed, then every library is deployed in
        turn and the first exception ends the deployment. */
    function DeployAll(st: Store, libs: seq<string>): (r: Result<Store>)
    {
      if libs == [] then Ok(st)
      else if targetDir !in st.dirs then
        Err(Error(OSError, if targetDir in st.files then "[Errno 20] Not a directory: '" + targetDir + "'"
                           else "[Errno 2] No such file or directory: '" + targetDir + "'"))
      else DeployEach(st, libs)
    }

    function DeployEach(st: Store, libs: seq<string>): (r: Result<Store>) {
      if libs == [] then Ok(st)
      else
        match DeployEach(st, libs[..|libs| - 1])
        case Err(e) => Err(e)
        case Ok(st1) => DeployOne(st1, libs[|libs| - 1])
    }

    /** A path inside the target's `lib/arm64-v8a` is detected as `arm64-v8a`. */
    lemma DetectInTargetLib(name: string)
      ensures DetectAbi(JoinPath(TargetLibDir(), name)) == TARGET_ABI
    {
      var a, c := JoinPath(targetDir, "lib") + "/", "/" + name;
      assert JoinPath(TargetLibDir(), name) == a + TARGET_ABI + c;
      LowerKeepsMiddle(a, TARGET_ABI, c);
      TargetAbiLower();
      DetectAbiFirst(a + TARGET_ABI + c, 0);
    }

    /** A library found in the target's `lib/arm64-v8a` is already where it
        would be deployed: deploying it again changes nothing. */
    lemma RedeployFromTargetIsNoop(st: Store, name: string)
      requires '/' !in name && KindOf(name) == Android
      requires JoinPath(TargetLibDir(), name) in st.files && TargetLibDir() in st.dirs
      ensures DeployOne(st, JoinPath(TargetLibDir(), name)) == Ok(st)
    {
      BaseNameJoin(TargetLibDir(), name);
      DetectInTargetLib(name);
    }

    /** Once a deployment fails, deploying more libraries still fails with that error. */
    lemma {:induction false} DeployEachStops(st: Store, libs: seq<string>, i: nat)
      requires i <= |libs| && DeployEach(st, libs[..i]).Err?
      ensures DeployEach(st, libs) == DeployEach(st, libs[..i])
      decreases |libs|
    {
      if i < |libs| {
        var init := libs[..|libs| - 1];
        assert init[..i] == libs[..i];
        DeployEachStops(st, init, i);
      } else {
        assert libs[..i] == libs;
      }
    }

    /** The in-place `_deploy_single_library`; an exception it lets
        through leaves the file system as it was. */
    method DeploySingleLibrary(disk: Disk, lib: string) returns (r: Result<()>)
      modifies disk
      ensures var spec := DeployOne(Store(old(disk.files), old(disk.dirs)), lib);
        (spec.Ok? ==> r.Ok? && Store(disk.files, disk.dirs) == spec.value) &&
        (spec.Err? ==> r == Err(spec.error) && disk.files == old(disk.files) && disk.dirs == old(disk.dirs))
    {
      var outcome := DeployOne(Store(disk.files, disk.dirs), lib);
      r := disk.Commit(outcome);
    }

    /** The loop of `deploy_libraries`. */
    method DeployEachLibrary(disk: Disk, libs: seq<string>) returns (r: Result<()>)
      modifies disk
      ensures var spec := DeployEach(Store(old(disk.files), old(disk.dirs)), libs);
        (spec.Ok? ==> r.Ok? && Store(disk.files, disk.dirs) == spec.value) && (spec.Err? ==> r == Err(spec.error))
    {
      ghost var st0 := Store(disk.files, disk.dirs);
      var i := 0;
      while i < |libs|
        invariant 0 <= i <= |libs|
        invariant DeployedUpTo(st0, libs, i, Store(disk.files, disk.dirs))
      {
        ghost var before := Store(disk.files, disk.dirs);
        var step := DeploySingleLibrary(disk, libs[i]);
        DeployEachStep(st0, libs, i, before);
        if step.Err? {
          DeployEachStops(st0, libs, i + 1);
          return step;
        }
        i := i + 1;
      }
      assert libs[..i] == libs;
      r := Ok(());
    }

    /** The first `i` libraries were deployed, leaving `st`. */
    predicate DeployedUpTo(st0: Store, libs: seq<string>, i: nat, st: Store)
      requires i <= |libs|
    {
      DeployEach(st0, libs[..i]) == Ok(st)
    }

    lemma DeployEachStep(st0: Store, libs: seq<string>, i: nat, st: Store)
      requires i < |libs| && DeployedUpTo(st0, libs, i, st)
      ensures DeployEach(st0, libs[..i + 1]) == DeployOne(st, libs[i])
    {
      var pre := libs[..i + 1];
      assert |pre| - 1 == i && pre[..|pre| - 1] == libs[..i] && pre[|pre| - 1] == libs[i];
    }

    /** The in-place `deploy_libraries`. */
    method DeployLibraries(disk: Disk, libs: seq<string>) returns (r: Result<()>)
      modifies disk
      ensures var spec := DeployAll(Store(old(disk.files), old(disk.dirs)), libs);
        (spec.Ok? ==> r.Ok? && Store(disk.files, disk.dirs) == spec.value) && (spec.Err? ==> r == Err(spec.error))
    {
      if libs == [] {
        return Ok(());
      }
      if targetDir !in disk.dirs {
        return Err(Error(OSError, if targetDir in disk.files then "[Errno 20] Not a directory: '" + targetDir + "'"
                                  else "[Errno 2] No such file or directory: '" + targetDir + "'"));
      }
      r := DeployEachLibrary(disk, libs);
    }
  }

  /** Lower-casing keeps an embedded piece in place. */
  lemma LowerKeepsMiddle(a: string, b: string, c: string)
    ensures Contains(Lower(a + b + c), Lower(b))
  {
    LowerAppend(a + b, c);
    LowerAppend(a, b);
    OccursInMiddle(Lower(a), Lower(b), Lower(c));
  }

  lemma TargetAbiLower()
    ensures Lower(TARGET_ABI) == TARGET_ABI
  {
    LowerNoop(TARGET_ABI);
  }

  /** `mkdir(parents=True, exist_ok=True)` on `<lib root>/<abi>`: the lib
      root is made when missing; a file in the way of either raises. */
  function MakeAbiDir(st: Store, libRoot: string, dir: string): (r: Result<Store>)
    ensures r.Ok? ==> r.value.files == st.files && dir in r.value.dirs && st.dirs <= r.value.dirs
    ensures r.Ok? <==> dir in st.dirs || (dir !in st.files && libRoot !in st.files) || (dir !in st.files && libRoot in st.dirs)
  {
    if dir in st.dirs then Ok(st)
    else if dir in st.files then Err(Error(OSError, "[Errno 17] File exists: '" + dir + "'"))
    else if libRoot in st.dirs then Ok(Store(st.files, st.dirs + {dir}))
    else if libRoot in st.files then Err(Error(OSError, "[Errno 20] Not a directory: '" + dir + "'"))
    else Ok(Store(st.files, st.dirs + {libRoot, dir}))
  }

  /** `_copy_library_file`: an existing destination file is unlinked, then
      `copy2` writes the source's content; any exception is only logged, so
      a directory in the way leaves everything as it was and a source that is
      not a regular file leaves the destination removed. */
  function CopyLibrary(st: Store, src: string, dest: string): (r: Store)
    ensures r.dirs == st.dirs
    ensures dest in st.dirs ==> r == st
    ensures dest !in st.dirs && src in st.files && src != dest ==> r.files == st.files[dest := st.files[src]]
    ensures dest !in st.dirs && (src !in st.files || src == dest) ==> r.files == st.files - {dest}
  {
    if dest in st.dirs then st
    else
      var unlinked := st.files - {dest};
      if src in unlinked then Store(unlinked[dest := unlinked[src]], st.dirs)
      else Store(unlinked, st.dirs)
  }
}
