/** `abi_filter.py`: keeping only the configured ABI directories under the
    decompiled APK's `lib` directory and removing the others. The file system
    is the shared `Disk`; the names `iterdir` and `glob` list, in their order,
    are parameters. */
module AbiFilter {
  import opened Wrappers
  import opened Text
  import opened Fs

  /** `ALL_ABIS`: the only directory names the filter looks at. */
  const ALL_ABIS: set<string> := {"armeabi", "armeabi-v7a", "arm64-v8a", "x86", "x86_64", "mips", "mips64"}

  /** No recognised ABI name holds a path separator. */
  lemma AbiNamesFlat(n: string)
    requires n in ALL_ABIS
    ensures '/' !in n
  {
  }

  /** `config["abi"]`, each of its keys present or not. */
  datatype AbiConfig = AbiConfig(keepOnly: Option<seq<string>>, removeOthers: Option<bool>, warnIfMissing: Option<bool>)

  /** The elements of a list, as `set(...)` gives them. */
  function Names(s: seq<string>): (r: set<string>)
    ensures forall n :: n in r <==> n in s
  {
    set i | 0 <= i < |s| :: s[i]
  }

  /** Each name of `names`, as a path inside `dir`. */
  function Paths(dir: string, names: seq<string>): (r: seq<string>)
    ensures |r| == |names| && forall i :: 0 <= i < |names| ==> r[i] == JoinPath(dir, names[i])
  {
    seq(|names|, i requires 0 <= i < |names| => JoinPath(dir, names[i]))
  }

  /** The files left after removing the trees of `names` inside `lib`, one after the other. */
  function RemoveAllFiles(files: map<string, string>, lib: string, names: seq<string>): map<string, string> {
    if names == [] then files
    else TreeRemovedFiles(RemoveAllFiles(files, lib, names[..|names| - 1]), JoinPath(lib, names[|names| - 1]))
  }

  function RemoveAllDirs(dirs: set<string>, lib: string, names: seq<string>): set<string> {
    if names == [] then dirs
    else TreeRemovedDirs(RemoveAllDirs(dirs, lib, names[..|names| - 1]), JoinPath(lib, names[|names| - 1]))
  }

  /** Removing the trees loses exactly the files below one of them and alters no content. */
  lemma {:induction false} RemoveAllFilesExactly(files: map<string, string>, lib: string, names: seq<string>, p: string)
    ensures p in RemoveAllFiles(files, lib, names) <==>
            p in files && forall n :: n in names ==> !Below(p, JoinPath(lib, n))
    ensures p in RemoveAllFiles(files, lib, names) ==> RemoveAllFiles(files, lib, names)[p] == files[p]
  {
    if names != [] {
      var init := names[..|names| - 1];
      RemoveAllFilesExactly(files, lib, init, p);
      assert names == init + [names[|names| - 1]];
    }
  }

  /** Removing the trees loses exactly the directories below one of them. */
  lemma {:induction false} RemoveAllDirsExactly(dirs: set<string>, lib: string, names: seq<string>, d: string)
    ensures d in RemoveAllDirs(dirs, lib, names) <==>
            d in dirs && forall n :: n in names ==> !Below(d, JoinPath(lib, n))
  {
    if names != [] {
      var init := names[..|names| - 1];
      RemoveAllDirsExactly(dirs, lib, init, d);
      assert names == init + [names[|names| - 1]];
    }
  }

  /** Two distinct separator-free names never lie below one another. */
  lemma SiblingNotBelow(lib: string, n: string, m: string)
    requires '/' !in n && n != m
    ensures !Below(JoinPath(lib, n), JoinPath(lib, m))
  {
    var p, q := JoinPath(lib, n), JoinPath(lib, m);
    assert p[|lib| + 1..] == n && q[|lib| + 1..] == m;
    assert |n| > |m| ==> p[|q|] == n[|m|];
  }

  // ---------------------------------------------------------------------------
  // The decisions, as functions
  // ---------------------------------------------------------------------------

  /** `_find_abi_directories`' choice among the names listed in `lib`:
      directories with a recognised ABI name, in listing order. */
  function AbiDirs(lib: string, names: seq<string>, dirs: set<string>): (r: seq<string>)
    ensures forall n :: n in r <==> n in names && JoinPath(lib, n) in dirs && n in ALL_ABIS
    ensures r == [] <==> forall n :: n in names ==> JoinPath(lib, n) !in dirs || n !in ALL_ABIS
    ensures |r| <= |names|
  {
    if names == [] then []
    else
      var init := names[..|names| - 1];
      var n := names[|names| - 1];
      assert forall m :: m in names <==> m in init || m == n by {
        assert names == init + [n];
      }
      var rest := AbiDirs(lib, init, dirs);
      if JoinPath(lib, n) in dirs && n in ALL_ABIS then rest + [n] else rest
  }

  /** The found directories the loop of `filter` keeps, in order. */
  function Kept(found: seq<string>, keep: set<string>, removeOthers: bool): (r: seq<string>)
    ensures forall n :: n in r <==> n in found && (n in keep || !removeOthers)
  {
    if found == [] then []
    else
      var init := found[..|found| - 1];
      var n := found[|found| - 1];
      assert forall m :: m in found <==> m in init || m == n by {
        assert found == init + [n];
      }
      var rest := Kept(init, keep, removeOthers);
      if n in keep || !removeOthers then rest + [n] else rest
  }

  /** The found directories the loop of `filter` removes, in order. */
  function Removed(found: seq<string>, keep: set<string>, removeOthers: bool): (r: seq<string>)
    ensures forall n :: n in r <==> n in found && n !in keep && removeOthers
  {
    if found == [] then []
    else
      var init := found[..|found| - 1];
      var n := found[|found| - 1];
      assert forall m :: m in found <==> m in init || m == n by {
        assert found == init + [n];
      }
      var rest := Removed(init, keep, removeOthers);
      if n !in keep && removeOthers then rest + [n] else rest
  }

  /** Every found directory is either kept or removed, and with
      `remove_others` false every one is kept. */
  lemma {:induction false} KeptRemovedPartition(found: seq<string>, keep: set<string>, removeOthers: bool)
    ensures |Kept(found, keep, removeOthers)| + |Removed(found, keep, removeOthers)| == |found|
    ensures !removeOthers ==> Kept(found, keep, removeOthers) == found && Removed(found, keep, removeOthers) == []
  {
    if found != [] {
      var init := found[..|found| - 1];
      KeptRemovedPartition(init, keep, removeOthers);
      assert found == init + [found[|found| - 1]];
    }
  }

  /** `_check_missing_abis`: the requested ABIs that were not found. */
  function MissingAbis(keep: set<string>, found: seq<string>): (m: set<string>)
    ensures forall a :: a in m <==> a in keep && a !in found
    ensures m <= keep
  {
    keep - Names(found)
  }

  /** What `filter` decides: the names it keeps and removes and the
      requested ABIs it warns about. */
  datatype Plan = Plan(kept: seq<string>, removed: seq<string>, warned: set<string>)

  const NOTHING: Plan := Plan([], [], {})

  /** The warning of `_check_missing_abis`, given only when `warn_if_missing` is set. */
  function Warned(warnIfMissing: bool, keep: set<string>, found: seq<string>): (w: set<string>)
    ensures warnIfMissing ==> w == MissingAbis(keep, found)
    ensures !warnIfMissing ==> w == {}
  {
    if warnIfMissing then MissingAbis(keep, found) else {}
  }

  /** `get_library_files`' `glob("*.so")` over the names listed in a directory. */
  function SoFiles(dir: string, names: seq<string>): (r: seq<string>)
    ensures forall p :: p in r <==> exists n :: n in names && EndsWith(n, ".so") && p == JoinPath(dir, n)
  {
    if names == [] then []
    else
      var init := names[..|names| - 1];
      var n := names[|names| - 1];
      assert forall m :: m in names <==> m in init || m == n by {
        assert names == init + [n];
      }
      var rest := SoFiles(dir, init);
      if EndsWith(n, ".so") then rest + [JoinPath(dir, n)] else rest
  }

  /** `glob` on something that is not a directory yields nothing. */
  function Glob(dirs: set<string>, dir: string, names: seq<string>): (r: seq<string>)
    ensures dir !in dirs ==> r == []
  {
    if dir in dirs then SoFiles(dir, names) else []
  }

  /** The library files of every kept directory, in order. */
  function AllLibraryFiles(dirs: set<string>, kept: seq<string>, listings: map<string, seq<string>>): seq<string> {
    if kept == [] then []
    else
      var d := kept[|kept| - 1];
      AllLibraryFiles(dirs, kept[..|kept| - 1], listings) + Glob(dirs, d, if d in listings then listings[d] else [])
  }

  // ---------------------------------------------------------------------------
  // The filter object
  // ---------------------------------------------------------------------------

  class ABIFilter {
    const moddedDir: string
    const libDir: string
    const keepAbis: set<string>
    const removeOthers: bool
    const warnIfMissing: bool

    /** `ABIFilter(modded_dir, config)`: `keep_only` defaults to none,
        `remove_others` and `warn_if_missing` to true. */
    constructor (moddedDir: string, abi: Option<AbiConfig>)
      ensures this.moddedDir == moddedDir && libDir == JoinPath(moddedDir, "lib")
      ensures abi.None? ==> keepAbis == {} && removeOthers && warnIfMissing
      ensures abi.Some? ==> keepAbis == Names(abi.value.keepOnly.GetOr([]))
      ensures abi.Some? ==> removeOthers == abi.value.removeOthers.GetOr(true)
      ensures abi.Some? ==> warnIfMissing == abi.value.warnIfMissing.GetOr(true)
    {
      this.moddedDir := moddedDir;
      libDir := JoinPath(moddedDir, "lib");
      var c := abi.GetOr(AbiConfig(None, None, None));
      keepAbis := Names(c.keepOnly.GetOr([]));
      removeOthers := c.removeOthers.GetOr(true);
      warnIfMissing := c.warnIfMissing.GetOr(true);
    }

    /** What `filter` does with the file system it finds and the names
        `iterdir` lists in `lib`. A `lib` that is a file makes `iterdir`
        raise. */
    function FilterPlan(files: map<string, string>, dirs: set<string>, listing: seq<string>): (r: Result<Plan>)
    {
      if libDir !in files && libDir !in dirs then Ok(NOTHING)
      else if keepAbis == {} then Ok(NOTHING)
      else if libDir !in dirs then Err(Error(OSError, "[Errno 20] Not a directory: '" + libDir + "'"))
      else
        var found := AbiDirs(libDir, listing, dirs);
        if found == [] then Ok(NOTHING)
        else Ok(Plan(Kept(found, keepAbis, removeOthers), Removed(found, keepAbis, removeOthers),
                     Warned(warnIfMissing, keepAbis, found)))
    }

    /** Without a `lib` directory, without ABIs to keep, or without any
        recognised ABI directory, `filter` keeps, removes and warns about nothing. */
    lemma FilterNothing(files: map<string, string>, dirs: set<string>, listing: seq<string>)
      requires (libDir !in files && libDir !in dirs) || keepAbis == {} ||
               (libDir in dirs && forall n :: n in listing && n in ALL_ABIS ==> JoinPath(libDir, n) !in dirs)
      ensures FilterPlan(files, dirs, listing) == Ok(NOTHING)
    {
    }

    /** `filter` raises only when `lib` is a file and there are ABIs to keep. */
    lemma FilterRaises(files: map<string, string>, dirs: set<string>, listing: seq<string>)
      ensures FilterPlan(files, dirs, listing).Err? <==> libDir in files && libDir !in dirs && keepAbis != {}
    {
    }

    /** A directory is kept iff it is a listed directory with a recognised
        name that is to be kept or `remove_others` is false; it is removed iff
        it is such a directory that is not to be kept and `remove_others` is
        true; the warning names the requested ABIs that were not found. */
    lemma FilterDecides(files: map<string, string>, dirs: set<string>, listing: seq<string>, n: string)
      requires libDir in dirs && keepAbis != {}
      requires FilterPlan(files, dirs, listing) != Ok(NOTHING)
      ensures var p := FilterPlan(files, dirs, listing).value;
        (n in p.kept <==> n in listing && JoinPath(libDir, n) in dirs && n in ALL_ABIS && (n in keepAbis || !removeOthers)) &&
        (n in p.removed <==> n in listing && JoinPath(libDir, n) in dirs && n in ALL_ABIS && n !in keepAbis && removeOthers) &&
        (n in p.warned <==> warnIfMissing && n in keepAbis && !(n in listing && JoinPath(libDir, n) in dirs && n in ALL_ABIS))
    {
    }

    /** `filter` neither loses nor duplicates a found directory, and with
        `remove_others` false it removes nothing. */
    lemma FilterAccounts(files: map<string, string>, dirs: set<string>, listing: seq<string>)
      requires FilterPlan(files, dirs, listing).Ok?
      ensures var p := FilterPlan(files, dirs, listing).value;
        |p.kept| + |p.removed| == |AbiDirs(libDir, listing, dirs)| || p == NOTHING
      ensures !removeOthers ==> FilterPlan(files, dirs, listing).value.removed == []
    {
      KeptRemovedPartition(AbiDirs(libDir, listing, dirs), keepAbis, removeOthers);
    }

    /** After `filter`, every kept directory is still there, a file is gone
        iff it lay below a removed directory, and no remaining file changed. */
    lemma FilterSurvivors(files: map<string, string>, dirs: set<string>, listing: seq<string>, p: string)
      requires FilterPlan(files, dirs, listing).Ok?
      ensures var plan := FilterPlan(files, dirs, listing).value;
        (forall n :: n in plan.kept ==> JoinPath(libDir, n) in RemoveAllDirs(dirs, libDir, plan.removed)) &&
        (p in RemoveAllFiles(files, libDir, plan.removed) <==>
           p in files && forall n :: n in plan.removed ==> !Below(p, JoinPath(libDir, n))) &&
        (p in RemoveAllFiles(files, libDir, plan.removed) ==> RemoveAllFiles(files, libDir, plan.removed)[p] == files[p])
    {
      var plan := FilterPlan(files, dirs, listing).value;
      RemoveAllFilesExactly(files, libDir, plan.removed, p);
      forall n | n in plan.kept
        ensures JoinPath(libDir, n) in RemoveAllDirs(dirs, libDir, plan.removed)
      {
        KeptSurvives(dirs, listing, n);
      }
    }

    lemma KeptSurvives(dirs: set<string>, listing: seq<string>, n: string)
      requires libDir in dirs
      requires n in Kept(AbiDirs(libDir, listing, dirs), keepAbis, removeOthers)
      ensures JoinPath(libDir, n) in RemoveAllDirs(dirs, libDir, Removed(AbiDirs(libDir, listing, dirs), keepAbis, removeOthers))
    {
      var removed := Removed(AbiDirs(libDir, listing, dirs), keepAbis, removeOthers);
      RemoveAllDirsExactly(dirs, libDir, removed, JoinPath(libDir, n));
      AbiNamesFlat(n);
      forall m | m in removed
        ensures !Below(JoinPath(libDir, n), JoinPath(libDir, m))
      {
        SiblingNotBelow(libDir, n, m);
      }
    }

    /** `_find_abi_directories`, as the loop over the listing it is. */
    method FindAbiDirectories(disk: Disk, listing: seq<string>) returns (found: seq<string>)
      requires libDir in disk.dirs
      ensures found == AbiDirs(libDir, listing, disk.dirs)
    {
      found := [];
      var i := 0;
      while i < |listing|
        invariant 0 <= i <= |listing|
        invariant found == AbiDirs(libDir, listing[..i], disk.dirs)
      {
        assert listing[..i + 1][..i] == listing[..i];
        var n := listing[i];
        if JoinPath(libDir, n) in disk.dirs && n in ALL_ABIS {
          found := found + [n];
        }
        i := i + 1;
      }
      assert listing[..i] == listing;
    }

    /** The loop of `filter`: each found directory is kept or removed in turn. */
    method Partition(disk: Disk, found: seq<string>) returns (kept: seq<string>, removed: seq<string>)
      modifies disk
      ensures kept == Kept(found, keepAbis, removeOthers) && removed == Removed(found, keepAbis, removeOthers)
      ensures disk.files == RemoveAllFiles(old(disk.files), libDir, removed)
      ensures disk.dirs == RemoveAllDirs(old(disk.dirs), libDir, removed)
    {
      kept, removed := [], [];
      var i := 0;
      while i < |found|
        invariant 0 <= i <= |found|
        invariant kept == Kept(found[..i], keepAbis, removeOthers)
        invariant removed == Removed(found[..i], keepAbis, removeOthers)
        invariant disk.files == RemoveAllFiles(old(disk.files), libDir, removed)
        invariant disk.dirs == RemoveAllDirs(old(disk.dirs), libDir, removed)
      {
        assert found[..i + 1][..i] == found[..i];
        var n := found[i];
        if n in keepAbis {
          kept := kept + [n];
        } else if removeOthers {
          RemoveTree(disk, JoinPath(libDir, n));
          removed := removed + [n];
          assert removed[..|removed| - 1] == Removed(found[..i], keepAbis, removeOthers);
        } else {
          kept := kept + [n];
        }
        i := i + 1;
      }
      assert found[..i] == found;
    }

    /** `filter`: the kept directories as paths and the ABIs warned about,
        with the removals made on the disk. */
    method Filter(disk: Disk, listing: seq<string>) returns (r: Result<seq<string>>, warned: set<string>)
      modifies disk
      ensures var plan := FilterPlan(old(disk.files), old(disk.dirs), listing);
        (plan.Err? ==> r == Err(plan.error) && warned == {}) &&
        (plan.Ok? ==> r == Ok(Paths(libDir, plan.value.kept)) && warned == plan.value.warned &&
                      disk.files == RemoveAllFiles(old(disk.files), libDir, plan.value.removed) &&
                      disk.dirs == RemoveAllDirs(old(disk.dirs), libDir, plan.value.removed))
      ensures FilterPlan(old(disk.files), old(disk.dirs), listing).Err? ==> disk.files == old(disk.files) && disk.dirs == old(disk.dirs)
    {
      warned := {};
      if libDir !in disk.files && libDir !in disk.dirs {
        return Ok([]), warned;
      }
      if keepAbis == {} {
        return Ok([]), warned;
      }
      if libDir !in disk.dirs {
        return Err(Error(OSError, "[Errno 20] Not a directory: '" + libDir + "'")), warned;
      }
      var found := FindAbiDirectories(disk, listing);
      if found == [] {
        return Ok([]), warned;
      }
      warned := Warned(warnIfMissing, keepAbis, found);
      var kept, removed := Partition(disk, found);
      r := Ok(Paths(libDir, kept));
    }

    /** `get_library_files(abi)`: nothing when the ABI directory is absent. */
    function LibraryFiles(files: map<string, string>, dirs: set<string>, abi: string, listing: seq<string>): (r: seq<string>)
      ensures JoinPath(libDir, abi) !in files && JoinPath(libDir, abi) !in dirs ==> r == []
      ensures forall p :: p in r <==>
        JoinPath(libDir, abi) in dirs && exists n :: n in listing && EndsWith(n, ".so") && p == JoinPath(JoinPath(libDir, abi), n)
    {
      var dir := JoinPath(libDir, abi);
      if dir !in files && dir !in dirs then [] else Glob(dirs, dir, listing)
    }

    /** The loop of `get_all_library_files` over the kept directories. */
    method CollectLibraryFiles(dirs: set<string>, kept: seq<string>, listings: map<string, seq<string>>)
      returns (libFiles: seq<string>)
      ensures libFiles == AllLibraryFiles(dirs, kept, listings)
    {
      libFiles := [];
      var i := 0;
      while i < |kept|
        invariant 0 <= i <= |kept|
        invariant libFiles == AllLibraryFiles(dirs, kept[..i], listings)
      {
        assert kept[..i + 1][..i] == kept[..i];
        var d := kept[i];
        libFiles := libFiles + Glob(dirs, d, if d in listings then listings[d] else []);
        i := i + 1;
      }
      assert kept[..i] == kept;
    }

    /** `get_all_library_files`: `filter`, then the library files of every kept directory. */
    method GetAllLibraryFiles(disk: Disk, listing: seq<string>, listings: map<string, seq<string>>)
      returns (r: Result<seq<string>>)
      modifies disk
      ensures var plan := FilterPlan(old(disk.files), old(disk.dirs), listing);
        (plan.Err? ==> r == Err(plan.error)) &&
        (plan.Ok? ==> r == Ok(AllLibraryFiles(disk.dirs, Paths(libDir, plan.value.kept), listings)))
    {
      var kept, _ := Filter(disk, listing);
      if kept.Err? {
        return Err(kept.error);
      }
      var libFiles := CollectLibraryFiles(disk.dirs, kept.value, listings);
      r := Ok(libFiles);
    }
  }
}
