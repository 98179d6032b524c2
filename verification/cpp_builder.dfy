/** `cpp_builder.py`: the native builder that checks the build tools, builds
    every target ABI in turn and reports how many were built. Whether one ABI
    builds (`_build_single_abi`, which runs CMake and Ninja) is an input, and
    so is what the tool finder returns or raises. */
module CppBuilder {
  import opened Wrappers
  import opened Text
  import opened Fs
  import opened PyJson

  const FALLBACK_ABI := "arm64-v8a"
  const NATIVE_BUILD := "native_build"

  /** One entry of `changed_values`: the dictionary `{"Name", "Old", "New"}`. */
  datatype ChangedValue = ChangedValue(name: string, oldValue: string, newValue: string)

  // ---------------------------------------------------------------------------
  // Construction and prerequisites
  // ---------------------------------------------------------------------------

  /** What `NativeBuilder(paths, cmakelists_path=...)` raises: a KeyError for a
      missing project root, before the ValueError for a missing CMakeLists
      path (a `Path` is always true, so only `None` is missing). */
  function ConstructionError(paths: map<string, string>, cmakelists: Option<string>): (r: Option<Error>)
    ensures r.None? <==> "project_root" in paths && cmakelists.Some?
    ensures r.Some? ==> (r.value.kind == KeyError <==> "project_root" !in paths)
    ensures r.Some? && r.value.kind != KeyError ==> r.value.kind == ValueError
  {
    if "project_root" !in paths then Some(Error(KeyError, "'project_root'"))
    else if cmakelists.None? then Some(Error(ValueError, "cmakelists_path is required for NativeBuilder"))
    else None
  }

  /** A tool the finder reported: `if not cmake_path` rejects `None` and "". */
  predicate Found(tool: Option<string>) {
    tool.Some? && tool.value != ""
  }

  datatype Missing = NoCMakeLists | NoCMake | NoNinja

  /** The outcome of `_check_prerequisites`: the tools to use, or the first
      thing missing. */
  datatype Prerequisites =
    | Ready(cmake: string, ninja: string, ndk: Option<string>)
    | Unmet(missing: Missing)

  /** `_check_prerequisites`, given what `find_cmake`, `find_ninja` and
      `find_ndk` return or raise: the CMakeLists file must exist, then the
      finder is built on `paths["android_sdk"]`, both `find_cmake` and
      `find_ninja` run before either result is tested, then CMake and Ninja
      must be found, and only then does `find_ndk` run; the NDK is optional. */
  function CheckPrerequisites(st: Store, paths: map<string, string>, cmakelists: string,
                              cmake: Result<Option<string>>, ninja: Result<Option<string>>,
                              ndk: Result<Option<string>>): (r: Result<Prerequisites>)
    ensures !Exists(st, cmakelists) ==> r == Ok(Unmet(NoCMakeLists))
    ensures Exists(st, cmakelists) && "android_sdk" !in paths ==> r == Err(Error(KeyError, "'android_sdk'"))
    ensures Exists(st, cmakelists) && "android_sdk" in paths && cmake.Err? ==> r == Err(cmake.error)
    ensures Exists(st, cmakelists) && "android_sdk" in paths && cmake.Ok? && ninja.Err? ==> r == Err(ninja.error)
    ensures (r.Ok? && r.value.Ready?) <==>
      Exists(st, cmakelists) && "android_sdk" in paths && cmake.Ok? && ninja.Ok? && Found(cmake.value) && Found(ninja.value) && ndk.Ok?
    ensures r.Ok? && r.value.Ready? ==> r.value == Ready(cmake.value.value, ninja.value.value, ndk.value)
    ensures r == Ok(Unmet(NoCMake)) ==> cmake.Ok? && ninja.Ok? && !Found(cmake.value)
    ensures r == Ok(Unmet(NoNinja)) ==> cmake.Ok? && ninja.Ok? && Found(cmake.value) && !Found(ninja.value)
    ensures r.Err? && cmake.Ok? && ninja.Ok? && "android_sdk" in paths ==>
      Found(cmake.value) && Found(ninja.value) && r == Err(ndk.error)
  {
    if !Exists(st, cmakelists) then Ok(Unmet(NoCMakeLists))
    else if "android_sdk" !in paths then Err(Error(KeyError, "'android_sdk'"))
    else if cmake.Err? then Err(cmake.error)
    else if ninja.Err? then Err(ninja.error)
    else if !Found(cmake.value) then Ok(Unmet(NoCMake))
    else if !Found(ninja.value) then Ok(Unmet(NoNinja))
    else if ndk.Err? then Err(ndk.error)
    else Ok(Ready(cmake.value.value, ninja.value.value, ndk.value))
  }

  /** `_get_target_abis`: the configured `build_abis` when non-empty, else
      `abi_keep_only` when non-empty, else the single fallback ABI; never
      empty. */
  function TargetAbis(buildAbis: Json, keepOnly: Json): (r: Json)
    ensures Truthy(r)
    ensures Truthy(buildAbis) ==> r == buildAbis
    ensures !Truthy(buildAbis) ==> (Truthy(keepOnly) ==> r == keepOnly)
    ensures !Truthy(buildAbis) && !Truthy(keepOnly) ==> r == JArray([JString(FALLBACK_ABI)])
  {
    if Truthy(buildAbis) then buildAbis
    else if Truthy(keepOnly) then keepOnly
    else JArray([JString(FALLBACK_ABI)])
  }

  // ---------------------------------------------------------------------------
  // Counting the ABIs built
  // ---------------------------------------------------------------------------

  /** The position of the first ABI at or after `i` whose `_build_single_abi`
      raised (`_prepare_build_directory` runs outside its `try`), or the
      length when none did. */
  function FirstRaisedFrom(results: seq<Result<bool>>, i: nat): (k: nat)
    requires i <= |results|
    ensures i <= k <= |results| && (k < |results| ==> results[k].Err?)
    ensures forall j :: i <= j < k ==> results[j].Ok?
    decreases |results| - i
  {
    if i == |results| || results[i].Err? then i else FirstRaisedFrom(results, i + 1)
  }

  /** Where the loop of `build` stops on an exception: the first ABI that
      raised, or the length when none did. */
  function FirstRaised(results: seq<Result<bool>>): (k: nat)
    ensures k <= |results| && (k < |results| ==> results[k].Err?)
    ensures forall j :: 0 <= j < k ==> results[j].Ok?
  {
    FirstRaisedFrom(results, 0)
  }

  /** Whether each ABI was built, when none raised. */
  function Built(results: seq<Result<bool>>): (r: seq<bool>)
    requires forall j :: 0 <= j < |results| ==> results[j].Ok?
  {
    seq(|results|, j requires 0 <= j < |results| => results[j].value)
  }

  /** `success_count` after the loop over the outcomes `built`. */
  function CountBuilt(built: seq<bool>): (n: nat)
    ensures n <= |built|
  {
    if built == [] then 0
    else CountBuilt(built[..|built| - 1]) + (if built[|built| - 1] then 1 else 0)
  }

  /** `failed_abis` after the loop: the ABIs whose build failed, in order. */
  function FailedAbis(abis: seq<string>, built: seq<bool>): (r: seq<string>)
    requires |abis| == |built|
    ensures |r| <= |abis|
  {
    if abis == [] then []
    else
      var rest := FailedAbis(abis[..|abis| - 1], built[..|built| - 1]);
      if built[|built| - 1] then rest else rest + [abis[|abis| - 1]]
  }

  /** The ABIs whose build succeeded, in order. */
  function SucceededAbis(abis: seq<string>, built: seq<bool>): (r: seq<string>)
    requires |abis| == |built|
    ensures |r| <= |abis|
  {
    if abis == [] then []
    else
      var rest := SucceededAbis(abis[..|abis| - 1], built[..|built| - 1]);
      if built[|built| - 1] then rest + [abis[|abis| - 1]] else rest
  }

  /** Every ABI is counted once: as built or as failed. */
  lemma {:induction false} BuildPartition(abis: seq<string>, built: seq<bool>)
    requires |abis| == |built|
    ensures CountBuilt(built) == |SucceededAbis(abis, built)|
    ensures CountBuilt(built) + |FailedAbis(abis, built)| == |abis|
  {
    if abis != [] {
      BuildPartition(abis[..|abis| - 1], built[..|built| - 1]);
    }
  }

  /** An ABI is listed as failed exactly when one of its builds failed, and
      listed as succeeded exactly when one of its builds succeeded. */
  lemma {:induction false} BuildMembership(abis: seq<string>, built: seq<bool>, a: string)
    requires |abis| == |built|
    ensures a in FailedAbis(abis, built) <==> exists i :: 0 <= i < |abis| && abis[i] == a && !built[i]
    ensures a in SucceededAbis(abis, built) <==> exists i :: 0 <= i < |abis| && abis[i] == a && built[i]
  {
    if abis != [] {
      var n := |abis| - 1;
      BuildMembership(abis[..n], built[..n], a);
      assert forall i :: 0 <= i < n ==> abis[..n][i] == abis[i] && built[..n][i] == built[i];
    }
  }

  /** Nothing was built exactly when every ABI failed; then the failures are
      all the ABIs. */
  lemma {:induction false} NoneBuilt(abis: seq<string>, built: seq<bool>)
    requires |abis| == |built|
    ensures CountBuilt(built) == 0 <==> forall i :: 0 <= i < |built| ==> !built[i]
    ensures CountBuilt(built) == 0 ==> FailedAbis(abis, built) == abis
  {
    if abis != [] {
      var n := |abis| - 1;
      NoneBuilt(abis[..n], built[..n]);
      assert forall i :: 0 <= i < n ==> built[..n][i] == built[i];
      assert abis[..n] + [abis[n]] == abis;
    }
  }

  // ---------------------------------------------------------------------------
  // The summary texts
  // ---------------------------------------------------------------------------

  /** `f"Success for {k}/{n} ABIs"`. */
  function SuccessText(k: nat, n: nat): string {
    "Success for " + IntStr(k) + "/" + IntStr(n) + " ABIs"
  }

  /** `target_abis[:k]`, a slice that stops at the end of the list. */
  function Prefix(abis: seq<string>, k: nat): (r: seq<string>)
    ensures |r| == (if k <= |abis| then k else |abis|) && r == abis[..|r|]
  {
    if k <= |abis| then abis[..k] else abis
  }

  /** The "New" text of the change entry, as written: the first `k` target
      ABIs, whichever of them were built. */
  function BuiltForText(abis: seq<string>, k: nat): string {
    "Built for " + Join(Prefix(abis, k), ", ")
  }

  /** The same text listing the ABIs that were built. */
  function BuiltForCorrected(abis: seq<string>, built: seq<bool>): string
    requires |abis| == |built|
  {
    "Built for " + Join(SucceededAbis(abis, built), ", ")
  }

  /** With the second of two ABIs built and the first not, the text as written
      names only the ABI that failed. */
  lemma BuiltForNamesFailedAbi()
    ensures var abis := ["arm64-v8a", "x86"];
      var built := [false, true];
      CountBuilt(built) == 1 &&
      BuiltForText(abis, CountBuilt(built)) == "Built for arm64-v8a" &&
      "arm64-v8a" in FailedAbis(abis, built) && "arm64-v8a" !in SucceededAbis(abis, built) &&
      BuiltForCorrected(abis, built) == "Built for x86"
  {
    var abis := ["arm64-v8a", "x86"];
    var built := [false, true];
    assert built[..1] == [false] && built[..1][..0] == [];
    assert abis[..1] == ["arm64-v8a"] && abis[..1][..0] == [];
    assert FailedAbis(abis, built) == ["arm64-v8a"];
    assert SucceededAbis(abis, built) == ["x86"];
  }

  /** The corrected text lists exactly the ABIs that were built, as many as
      were counted. */
  lemma BuiltForCorrectedExact(abis: seq<string>, built: seq<bool>, a: string)
    requires |abis| == |built|
    ensures a in SucceededAbis(abis, built) <==> exists i :: 0 <= i < |abis| && abis[i] == a && built[i]
    ensures |SucceededAbis(abis, built)| == CountBuilt(built)
    ensures BuiltForCorrected(abis, built) == "Built for " + Join(SucceededAbis(abis, built), ", ")
  {
    BuildMembership(abis, built, a);
    BuildPartition(abis, built);
  }

  /** When the builds that succeeded come before those that failed, the text as
      written and the corrected one agree. */
  lemma {:induction false} BuiltForAgrees(abis: seq<string>, built: seq<bool>)
    requires |abis| == |built|
    requires forall i, j :: 0 <= i < j < |built| && !built[i] ==> !built[j]
    ensures BuiltForText(abis, CountBuilt(built)) == BuiltForCorrected(abis, built)
  {
    PrefixBuilt(abis, built);
  }

  lemma {:induction false} PrefixBuilt(abis: seq<string>, built: seq<bool>)
    requires |abis| == |built|
    requires forall i, j :: 0 <= i < j < |built| && !built[i] ==> !built[j]
    ensures CountBuilt(built) <= |abis| && SucceededAbis(abis, built) == abis[..CountBuilt(built)]
    ensures forall i :: 0 <= i < |built| ==> (built[i] <==> i < CountBuilt(built))
  {
    if abis != [] {
      var n := |abis| - 1;
      assert forall i :: 0 <= i < n ==> built[..n][i] == built[i];
      PrefixBuilt(abis[..n], built[..n]);
      var k := CountBuilt(built[..n]);
      if built[n] {
        assert k == n;
        assert abis[..n] + [abis[n]] == abis;
      } else {
        assert abis[..n][..k] == abis[..k];
      }
    }
  }

  // ---------------------------------------------------------------------------
  // The builder
  // ---------------------------------------------------------------------------

  class NativeBuilder {
    const paths: map<string, string>
    const projectRoot: string
    const cmakelistsPath: string
    const cppDir: string
    var buildSuccess: bool
    var buildSummary: map<string, string>
    var changedValues: seq<ChangedValue>

    constructor (paths: map<string, string>, cmakelistsPath: string)
      requires ConstructionError(paths, Some(cmakelistsPath)).None?
      ensures this.paths == paths && projectRoot == paths["project_root"]
      ensures this.cmakelistsPath == cmakelistsPath && cppDir == Parent(cmakelistsPath)
      ensures !buildSuccess && buildSummary == map[] && changedValues == []
    {
      this.paths := paths;
      projectRoot := paths["project_root"];
      this.cmakelistsPath := cmakelistsPath;
      cppDir := Parent(cmakelistsPath);
      buildSuccess := false;
      buildSummary := map[];
      changedValues := [];
    }

    /** `_update_build_summary`: with at least one ABI built, the builder
        succeeds, records the count and adds one change entry; otherwise
        nothing changes. */
    method UpdateBuildSummary(targetAbis: seq<string>, successCount: nat)
      modifies this`buildSuccess, this`buildSummary, this`changedValues
      ensures successCount > 0 ==>
        buildSuccess &&
        buildSummary == old(buildSummary)[NATIVE_BUILD := SuccessText(successCount, |targetAbis|)] &&
        changedValues == old(changedValues) + [ChangedValue("Native Libraries", "Not built", BuiltForText(targetAbis, successCount))]
      ensures successCount == 0 ==>
        buildSuccess == old(buildSuccess) && buildSummary == old(buildSummary) && changedValues == old(changedValues)
    {
      if successCount > 0 {
        buildSuccess := true;
        buildSummary := buildSummary[NATIVE_BUILD := SuccessText(successCount, |targetAbis|)];
        changedValues := changedValues + [ChangedValue("Native Libraries", "Not built", BuiltForText(targetAbis, successCount))];
      }
    }

    /** `build`: `None` when a prerequisite is missing; otherwise every target
        ABI is built in turn (`built[i]` is whether the `i`-th one was built,
        or what `_prepare_build_directory` raised for it). An exception leaves
        `build` at once, before the summary is updated; otherwise the summary
        is updated with the count, and a RuntimeError naming the failures is
        raised when there were ABIs and none was built. */
    method Build(st: Store, cmake: Result<Option<string>>, ninja: Result<Option<string>>, ndk: Result<Option<string>>,
                 targetAbis: seq<string>, built: seq<Result<bool>>) returns (r: Result<Option<string>>)
      requires |built| == |targetAbis|
      modifies this`buildSuccess, this`buildSummary, this`changedValues
      ensures var pre := CheckPrerequisites(st, paths, cmakelistsPath, cmake, ninja, ndk);
        pre.Err? ==> r == Err(pre.error)
      ensures var pre := CheckPrerequisites(st, paths, cmakelistsPath, cmake, ninja, ndk);
        pre.Ok? && pre.value.Unmet? ==> r == Ok(None)
      ensures var pre := CheckPrerequisites(st, paths, cmakelistsPath, cmake, ninja, ndk);
        !(pre.Ok? && pre.value.Ready?) ==>
          buildSuccess == old(buildSuccess) && buildSummary == old(buildSummary) && changedValues == old(changedValues)
      ensures var pre := CheckPrerequisites(st, paths, cmakelistsPath, cmake, ninja, ndk);
        pre.Ok? && pre.value.Ready? && FirstRaised(built) < |built| ==>
          r == Err(built[FirstRaised(built)].error) &&
          buildSuccess == old(buildSuccess) && buildSummary == old(buildSummary) && changedValues == old(changedValues)
      ensures var pre := CheckPrerequisites(st, paths, cmakelistsPath, cmake, ninja, ndk);
        pre.Ok? && pre.value.Ready? && FirstRaised(built) == |built| ==>
          var outcomes := Built(built);
          var k := CountBuilt(outcomes);
          (r.Err? <==> k == 0 && |targetAbis| > 0) &&
          (r.Err? ==> r.error == Error(RuntimeError, "Native build failed for all ABIs: " + Join(FailedAbis(targetAbis, outcomes), ", "))) &&
          (r.Ok? ==> r.value == Some(JoinPath(cppDir, "build"))) &&
          (k > 0 ==>
            buildSuccess &&
            buildSummary == old(buildSummary)[NATIVE_BUILD := SuccessText(k, |targetAbis|)] &&
            changedValues == old(changedValues) + [ChangedValue("Native Libraries", "Not built", BuiltForText(targetAbis, k))]) &&
          (k == 0 ==>
            buildSuccess == old(buildSuccess) && buildSummary == old(buildSummary) && changedValues == old(changedValues))
    {
      var pre := CheckPrerequisites(st, paths, cmakelistsPath, cmake, ninja, ndk);
      if pre.Err? {
        return Err(pre.error);
      }
      if pre.value.Unmet? {
        return Ok(None);
      }
      var successCount := 0;
      var failed: seq<string> := [];
      ghost var outcomes: seq<bool> := [];
      var i := 0;
      while i < |targetAbis|
        invariant 0 <= i <= |targetAbis|
        invariant forall j :: 0 <= j < i ==> built[j].Ok?
        invariant |outcomes| == i && forall j :: 0 <= j < i ==> outcomes[j] == built[j].value
        invariant successCount == CountBuilt(outcomes)
        invariant failed == FailedAbis(targetAbis[..i], outcomes)
        invariant buildSuccess == old(buildSuccess) && buildSummary == old(buildSummary) && changedValues == old(changedValues)
      {
        if built[i].Err? {
          RaisedAt(built, i);
          return Err(built[i].error);
        }
        assert (outcomes + [built[i].value])[..i] == outcomes;
        assert targetAbis[..i + 1][..i] == targetAbis[..i];
        if built[i].value {
          successCount := successCount + 1;
        } else {
          failed := failed + [targetAbis[i]];
        }
        outcomes := outcomes + [built[i].value];
        i := i + 1;
      }
      assert targetAbis[..i] == targetAbis;
      assert outcomes == Built(built);
      UpdateBuildSummary(targetAbis, successCount);
      if successCount == 0 && |targetAbis| > 0 {
        return Err(Error(RuntimeError, "Native build failed for all ABIs: " + Join(failed, ", ")));
      }
      return Ok(Some(JoinPath(cppDir, "build")));
    }
  }

  /** An ABI that raised after every earlier one returned is where the loop
      stops. */
  lemma RaisedAt(results: seq<Result<bool>>, i: nat)
    requires i < |results| && results[i].Err?
    requires forall j :: 0 <= j < i ==> results[j].Ok?
    ensures FirstRaised(results) == i
  {
  }

  /** `NativeBuilder(paths, cmakelists_path=...)`: the constructor's errors,
      or a fresh builder that has built nothing yet. */
  method NewNativeBuilder(paths: map<string, string>, cmakelists: Option<string>) returns (r: Result<NativeBuilder>)
    ensures r.Err? <==> ConstructionError(paths, cmakelists).Some?
    ensures r.Err? ==> r.error == ConstructionError(paths, cmakelists).value
    ensures r.Ok? ==> (fresh(r.value) && r.value.paths == paths && r.value.projectRoot == paths["project_root"] &&
      r.value.cmakelistsPath == cmakelists.value && r.value.cppDir == Parent(cmakelists.value) &&
      !r.value.buildSuccess && r.value.buildSummary == map[] && r.value.changedValues == [])
  {
    var e := ConstructionError(paths, cmakelists);
    if e.Some? {
      return Err(e.value);
    }
    var b := new NativeBuilder(paths, cmakelists.value);
    return Ok(b);
  }

  /** The failure raised when nothing was built names every target ABI. */
  lemma AllFailedMessage(abis: seq<string>, built: seq<bool>)
    requires |abis| == |built|
    ensures CountBuilt(built) == 0 ==>
      "Native build failed for all ABIs: " + Join(FailedAbis(abis, built), ", ") ==
      "Native build failed for all ABIs: " + Join(abis, ", ")
  {
    NoneBuilt(abis, built);
  }
}
