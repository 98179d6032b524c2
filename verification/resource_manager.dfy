/** `resource_manager.py`: merging the project's resource tree into the
    decompiled APK's `res` directory, and listing how the two differ. The
    source tree is a value (its directory listing, in the order `iterdir`
    gives); the target is the file system, changed in place. */
module ResourceManager {
  import opened Wrappers
  import opened Text
  import opened Fs

  /** An entry of the source resource tree. */
  datatype Resource = ResFile(name: string, content: string) | ResDir(name: string, items: seq<Resource>)

  /** The source directory as `merge_resources` finds it. */
  datatype Source = Absent | NotADirectory | Tree(items: seq<Resource>)

  /** `ResourceManager(paths, config)`: where the source and the target
      resources are. `mainDir` and `resDir` default to `main` and `res`. */
  datatype Manager = Manager(srcDir: string, moddedDir: string, mainDir: string, resDir: string) {
    function SourceRes(): string {
      JoinPath(JoinPath(srcDir, mainDir), resDir)
    }
    function TargetRes(): string {
      JoinPath(moddedDir, "res")
    }
  }

  /** The constructor: `source_structure.main` and `.res` when configured. */
  function NewManager(srcDir: string, moddedDir: string, main: Option<string>, res: Option<string>): (m: Manager)
    ensures m.SourceRes() == JoinPath(JoinPath(srcDir, main.GetOr("main")), res.GetOr("res"))
    ensures m.TargetRes() == JoinPath(moddedDir, "res")
  {
    Manager(srcDir, moddedDir, main.GetOr("main"), res.GetOr("res"))
  }

  /** The files and directories of `a` are all still in `b`. */
  predicate Grows(a: Store, b: Store) {
    a.files.Keys <= b.files.Keys && a.dirs <= b.dirs
  }

  // ---------------------------------------------------------------------------
  // Merging, as functions
  // ---------------------------------------------------------------------------

  /** `_merge_file(source, target)`: the copy happens when the target is
      missing or is not a regular file with the same content
      (`filecmp.cmp(..., shallow=False)` is false for a directory). `copy2`
      onto a directory writes into it, under the source's name. */
  function PutFile(st: Store, name: string, content: string, target: string): (r: (Store, bool))
    ensures Grows(st, r.0) && r.0.dirs == st.dirs
    ensures r.1 <==> target in st.dirs || target !in st.files || st.files[target] != content
    ensures target !in st.dirs ==> target in r.0.files && r.0.files[target] == content
    ensures target !in st.dirs ==> r.0.files == st.files[target := content]
    ensures target in st.dirs ==> r.0.files == st.files[JoinPath(target, name) := content]
  {
    if target in st.dirs then (Store(st.files[JoinPath(target, name) := content], st.dirs), true)
    else if target !in st.files || st.files[target] != content then (Store(st.files[target := content], st.dirs), true)
    else (st, false)
  }

  /** `_merge_directory(source, target)`: the target directory is made, then
      every entry is merged; an exception ends the whole merge. */
  function MergeDir(st: Store, items: seq<Resource>, target: string): (r: Result<Store>)
    ensures r.Ok? ==> Grows(st, r.value) && target in r.value.dirs
    decreases items, 1
  {
    match MakeDir(st, target)
    case Err(e) => Err(e)
    case Ok(made) =>
      match MergeItems(made, items, target, 0)
      case Err(e) => Err(e)
      case Ok(done) => Ok(done.0)
  }

  /** The loop over the entries of a source directory from `i` on: the
      resulting file system and how many files at this level were copied. */
  function MergeItems(st: Store, items: seq<Resource>, target: string, i: nat): (r: Result<(Store, nat)>)
    requires i <= |items|
    ensures r.Ok? ==> Grows(st, r.value.0) && r.value.1 <= |items| - i
    decreases items, 0, |items| - i
  {
    if i == |items| then Ok((st, 0))
    else
      match items[i]
      case ResDir(name, sub) =>
        (match MergeDir(st, sub, JoinPath(target, name))
         case Err(e) => Err(e)
         case Ok(next) => MergeItems(next, items, target, i + 1))
      case ResFile(name, content) =>
        var (next, copied) := PutFile(st, name, content, JoinPath(target, name));
        match MergeItems(next, items, target, i + 1)
        case Err(e) => Err(e)
        case Ok(rest) => Ok((rest.0, rest.1 + if copied then 1 else 0))
  }

  /** The number of directories among the entries from `i` on. */
  function DirCount(items: seq<Resource>, i: nat): (n: nat)
    requires i <= |items|
    ensures n <= |items| - i
    decreases |items| - i
  {
    if i == |items| then 0 else DirCount(items, i + 1) + if items[i].ResDir? then 1 else 0
  }

  /** The files under `dir` at any depth: what `os.walk` counts. */
  function FilesUnder(st: Store, dir: string): set<string> {
    set p | p in st.files && StartsWith(p, dir + "/")
  }

  /** `_count_files(dir)`. */
  function CountFiles(st: Store, dir: string): nat {
    |FilesUnder(st, dir)|
  }

  /** A subset has no more elements. */
  lemma {:induction false} SubsetCard<T>(a: set<T>, b: set<T>)
    requires a <= b
    ensures |a| <= |b|
    decreases |a|
  {
    if a != {} {
      var x :| x in a;
      SubsetCard(a - {x}, b - {x});
    }
  }

  /** A merge never loses a target file, so the total never drops. */
  lemma CountGrows(a: Store, b: Store, dir: string)
    requires Grows(a, b)
    ensures CountFiles(a, dir) <= CountFiles(b, dir)
  {
    SubsetCard(FilesUnder(a, dir), FilesUnder(b, dir));
  }

  /** `merge_resources()` as a function: the merged directory count and the
      total number of target files, or the exception. */
  function MergeResourcesSpec(m: Manager, st: Store, source: Source): (r: Result<(Store, (nat, nat))>)
    ensures !source.Tree? ==> r.Ok? && r.value.0 == st && r.value.1.0 == 0
    ensures !source.Tree? && (m.TargetRes() in st.files || m.TargetRes() in st.dirs) ==> r.value.1.1 == CountFiles(st, m.TargetRes())
    ensures source.Tree? && r.Ok? ==>
      (Grows(st, r.value.0) && m.TargetRes() in r.value.0.dirs && r.value.1.0 == DirCount(source.items, 0)
       && r.value.1.1 == CountFiles(r.value.0, m.TargetRes()))
  {
    var target := m.TargetRes();
    if !source.Tree? then Ok((st, (0, if target in st.files || target in st.dirs then CountFiles(st, target) else 0)))
    else
      match MakeDir(st, target)
      case Err(e) => Err(e)
      case Ok(made) =>
        match MergeItems(made, source.items, target, 0)
        case Err(e) => Err(e)
        case Ok(done) => Ok((done.0, (DirCount(source.items, 0), CountFiles(done.0, target))))
  }

  // ---------------------------------------------------------------------------
  // Merging, in place
  // ---------------------------------------------------------------------------

  /** `_merge_file`. */
  method MergeFile(disk: Disk, name: string, content: string, target: string) returns (copied: bool)
    modifies disk
    ensures (Store(disk.files, disk.dirs), copied) == PutFile(Store(old(disk.files), old(disk.dirs)), name, content, target)
  {
    if target in disk.dirs {
      disk.files := disk.files[JoinPath(target, name) := content];
      return true;
    }
    if target !in disk.files || disk.files[target] != content {
      disk.files := disk.files[target := content];
      return true;
    }
    return false;
  }

  /** `mkdir(parents=True, exist_ok=True)`. */
  method MakeDirectory(disk: Disk, dir: string) returns (r: Result<bool>)
    modifies disk
    ensures var spec := MakeDir(Store(old(disk.files), old(disk.dirs)), dir);
      r.Ok? == spec.Ok? && (r.Err? ==> r.error == spec.error && disk.files == old(disk.files) && disk.dirs == old(disk.dirs))
      && (r.Ok? ==> Store(disk.files, disk.dirs) == spec.value)
  {
    if dir in disk.dirs {
      return Ok(true);
    }
    if dir in disk.files {
      return Err(Error(OSError, "[Errno 17] File exists: '" + dir + "'"));
    }
    disk.dirs := disk.dirs + {dir};
    return Ok(true);
  }

  /** `_merge_directory`: it answers True whenever it returns. */
  method MergeDirectory(disk: Disk, items: seq<Resource>, target: string) returns (r: Result<bool>)
    modifies disk
    ensures var spec := MergeDir(Store(old(disk.files), old(disk.dirs)), items, target);
      r.Ok? == spec.Ok? && (r.Ok? ==> r.value && Store(disk.files, disk.dirs) == spec.value)
      && (r.Err? ==> r.error == spec.error)
    decreases items, 1
  {
    var made := MakeDirectory(disk, target);
    if made.Err? {
      return Err(made.error);
    }
    var walked := MergeEntries(disk, items, target);
    if walked.Err? {
      return Err(walked.error);
    }
    return Ok(true);
  }

  /** The loop of `_merge_directory` and `_merge_all_items` over the entries
      of one source directory: the number of files copied at this level. */
  method MergeEntries(disk: Disk, items: seq<Resource>, target: string) returns (r: Result<nat>)
    modifies disk
    ensures var spec := MergeItems(Store(old(disk.files), old(disk.dirs)), items, target, 0);
      r.Ok? == spec.Ok? && (r.Ok? ==> r.value == spec.value.1 && Store(disk.files, disk.dirs) == spec.value.0)
      && (r.Err? ==> r.error == spec.error)
    decreases items, 0
  {
    ghost var start := Store(disk.files, disk.dirs);
    var updated := 0;
    var i := 0;
    while i < |items|
      invariant i <= |items|
      invariant MergeItems(start, items, target, 0) == Shifted(MergeItems(Store(disk.files, disk.dirs), items, target, i), updated)
    {
      var item := items[i];
      if item.ResDir? {
        var sub := MergeDirectory(disk, item.items, JoinPath(target, item.name));
        if sub.Err? {
          return Err(sub.error);
        }
      } else {
        var copied := MergeFile(disk, item.name, item.content, JoinPath(target, item.name));
        if copied {
          updated := updated + 1;
        }
      }
      i := i + 1;
    }
    return Ok(updated);
  }

  /** A loop result with `k` more files counted. */
  function Shifted(r: Result<(Store, nat)>, k: nat): (s: Result<(Store, nat)>)
    ensures s.Ok? == r.Ok? && (s.Err? ==> s.error == r.error)
    ensures s.Ok? ==> s.value == (r.value.0, r.value.1 + k)
  {
    match r
    case Err(e) => Err(e)
    case Ok(v) => Ok((v.0, v.1 + k))
  }

  /** `_merge_all_items`: the loop over the top level of the source, counting
      the directories merged (every one, since `_merge_directory` answers
      True) and the files copied. */
  method MergeAllItems(disk: Disk, items: seq<Resource>, target: string) returns (r: Result<(nat, nat)>)
    modifies disk
    ensures var spec := MergeItems(Store(old(disk.files), old(disk.dirs)), items, target, 0);
      r.Ok? == spec.Ok? && (r.Err? ==> r.error == spec.error)
      && (r.Ok? ==> r.value == (DirCount(items, 0), spec.value.1) && Store(disk.files, disk.dirs) == spec.value.0)
  {
    ghost var start := Store(disk.files, disk.dirs);
    var mergedDirs := 0;
    var mergedFiles := 0;
    var i := 0;
    while i < |items|
      invariant i <= |items|
      invariant MergeItems(start, items, target, 0) == Shifted(MergeItems(Store(disk.files, disk.dirs), items, target, i), mergedFiles)
      invariant DirCount(items, 0) == DirCount(items, i) + mergedDirs
    {
      var item := items[i];
      if item.ResDir? {
        var merged := MergeDirectory(disk, item.items, JoinPath(target, item.name));
        if merged.Err? {
          return Err(merged.error);
        }
        if merged.value {
          mergedDirs := mergedDirs + 1;
        }
      } else {
        var copied := MergeFile(disk, item.name, item.content, JoinPath(target, item.name));
        if copied {
          mergedFiles := mergedFiles + 1;
        }
      }
      i := i + 1;
    }
    return Ok((mergedDirs, mergedFiles));
  }

  /** `_count_files`: the walk's file count. */
  method CountTargetFiles(disk: Disk, dir: string) returns (n: nat)
    ensures n == CountFiles(Store(disk.files, disk.dirs), dir)
  {
    n := |set p | p in disk.files && StartsWith(p, dir + "/")|;
  }

  /** `merge_resources()`: `source` is what the source resource directory
      holds, if it is a directory. */
  method MergeResources(m: Manager, disk: Disk, source: Source) returns (r: Result<(nat, nat)>)
    modifies disk
    ensures var spec := MergeResourcesSpec(m, Store(old(disk.files), old(disk.dirs)), source);
      r.Ok? == spec.Ok? && (r.Err? ==> r.error == spec.error)
      && (r.Ok? ==> r.value == spec.value.1 && Store(disk.files, disk.dirs) == spec.value.0)
  {
    var target := m.TargetRes();
    if !source.Tree? {
      if disk.Exists(target) {
        var total := CountTargetFiles(disk, target);
        return Ok((0, total));
      }
      return Ok((0, 0));
    }
    var made := MakeDirectory(disk, target);
    if made.Err? {
      return Err(made.error);
    }
    var merged := MergeAllItems(disk, source.items, target);
    if merged.Err? {
      return Err(merged.error);
    }
    var total := CountTargetFiles(disk, target);
    return Ok((merged.value.0, total));
  }

  // ---------------------------------------------------------------------------
  // `list_resource_differences`
  // ---------------------------------------------------------------------------

  /** A path relative to the resource root: `Path.relative_to` written out. */
  function RelJoin(rel: string, name: string): string {
    if rel == "" then name else rel + "/" + name
  }

  /** The files of a source tree as `os.walk` visits them (top-down: the files
      of a directory in listing order, then each subdirectory in turn), with
      their relative paths and contents. */
  function WalkFiles(items: seq<Resource>, rel: string): seq<(string, string)>
    decreases items, 1
  {
    HereFiles(items, rel, 0) + SubWalks(items, rel, 0)
  }

  /** The files directly in a directory, from entry `i` on. */
  function HereFiles(items: seq<Resource>, rel: string, i: nat): seq<(string, string)>
    requires i <= |items|
    decreases |items| - i
  {
    if i == |items| then []
    else (if items[i].ResFile? then [(RelJoin(rel, items[i].name), items[i].content)] else []) + HereFiles(items, rel, i + 1)
  }

  /** The walks of the subdirectories from entry `i` on. */
  function SubWalks(items: seq<Resource>, rel: string, i: nat): seq<(string, string)>
    requires i <= |items|
    decreases items, 0, |items| - i
  {
    if i == |items| then []
    else
      match items[i]
      case ResDir(name, sub) => WalkFiles(sub, RelJoin(rel, name)) + SubWalks(items, rel, i + 1)
      case ResFile(_, _) => SubWalks(items, rel, i + 1)
  }

  /** Every relative path that exists in the source tree, files and
      directories alike. */
  function Paths(items: seq<Resource>, rel: string): set<string>
    decreases items, 1
  {
    PathsFrom(items, rel, 0)
  }

  function PathsFrom(items: seq<Resource>, rel: string, i: nat): set<string>
    requires i <= |items|
    decreases items, 0, |items| - i
  {
    if i == |items| then {}
    else
      var here := {RelJoin(rel, items[i].name)};
      match items[i]
      case ResDir(name, sub) => here + Paths(sub, RelJoin(rel, name)) + PathsFrom(items, rel, i + 1)
      case ResFile(_, _) => here + PathsFrom(items, rel, i + 1)
  }

  /** Every file the walk visits is a path of the source tree. */
  lemma {:induction false} WalkInPaths(items: seq<Resource>, rel: string, k: nat)
    requires k < |WalkFiles(items, rel)|
    ensures WalkFiles(items, rel)[k].0 in Paths(items, rel)
    decreases items, 1
  {
    var here := HereFiles(items, rel, 0);
    if k < |here| {
      HereInPaths(items, rel, 0, k);
    } else {
      SubWalksInPaths(items, rel, 0, k - |here|);
    }
  }

  lemma {:induction false} HereInPaths(items: seq<Resource>, rel: string, i: nat, k: nat)
    requires i <= |items| && k < |HereFiles(items, rel, i)|
    ensures HereFiles(items, rel, i)[k].0 in PathsFrom(items, rel, i)
    decreases |items| - i
  {
    if items[i].ResFile? && k == 0 {
    } else {
      var skip := if items[i].ResFile? then 1 else 0;
      HereInPaths(items, rel, i + 1, k - skip);
    }
  }

  lemma {:induction false} SubWalksInPaths(items: seq<Resource>, rel: string, i: nat, k: nat)
    requires i <= |items| && k < |SubWalks(items, rel, i)|
    ensures SubWalks(items, rel, i)[k].0 in PathsFrom(items, rel, i)
    decreases items, 0, |items| - i
  {
    match items[i]
    case ResDir(name, sub) =>
      var inner := WalkFiles(sub, RelJoin(rel, name));
      if k < |inner| {
        WalkInPaths(sub, RelJoin(rel, name), k);
      } else {
        SubWalksInPaths(items, rel, i + 1, k - |inner|);
      }
    case ResFile(_, _) =>
      SubWalksInPaths(items, rel, i + 1, k);
  }

  /** `_check_source_file`'s two tests on the target path. */
  predicate TargetMissing(st: Store, targetRes: string, rel: string) {
    var target := JoinPath(targetRes, rel);
    target !in st.files && target !in st.dirs
  }

  predicate TargetDiffers(st: Store, targetRes: string, rel: string, content: string) {
    var target := JoinPath(targetRes, rel);
    !TargetMissing(st, targetRes, rel) && (target in st.dirs || st.files[target] != content)
  }

  /** The `new` list: source files whose target path does not exist, in walk order. */
  function NewFiles(st: Store, targetRes: string, walk: seq<(string, string)>): seq<string>
    decreases |walk|
  {
    if walk == [] then []
    else
      var last := walk[|walk| - 1];
      NewFiles(st, targetRes, walk[..|walk| - 1]) + if TargetMissing(st, targetRes, last.0) then [last.0] else []
  }

  /** The `updated` list: source files whose target exists and is not the same
      regular file. */
  function UpdatedFiles(st: Store, targetRes: string, walk: seq<(string, string)>): seq<string>
    decreases |walk|
  {
    if walk == [] then []
    else
      var last := walk[|walk| - 1];
      UpdatedFiles(st, targetRes, walk[..|walk| - 1]) + if TargetDiffers(st, targetRes, last.0, last.1) then [last.0] else []
  }

  /** The `missing` list: target files with no source path of that name. */
  function MissingFiles(sourcePaths: set<string>, targetWalk: seq<string>): seq<string>
    decreases |targetWalk|
  {
    if targetWalk == [] then []
    else
      var last := targetWalk[|targetWalk| - 1];
      MissingFiles(sourcePaths, targetWalk[..|targetWalk| - 1]) + if last !in sourcePaths then [last] else []
  }

  /** The three lists of `list_resource_differences` (`new` is `added` here). */
  datatype Differences = Differences(added: seq<string>, updated: seq<string>, missing: seq<string>)

  /** A path is listed as new exactly when a walked source file has it and
      its target does not exist. */
  lemma {:induction false} NewExactly(st: Store, targetRes: string, walk: seq<(string, string)>, rel: string)
    ensures rel in NewFiles(st, targetRes, walk) <==>
      (exists k :: 0 <= k < |walk| && walk[k].0 == rel) && TargetMissing(st, targetRes, rel)
    decreases |walk|
  {
    if walk != [] {
      var init := walk[..|walk| - 1];
      NewExactly(st, targetRes, init, rel);
      assert forall k :: 0 <= k < |init| ==> init[k] == walk[k];
      if rel == walk[|walk| - 1].0 {
        assert walk[|walk| - 1].0 == rel;
      }
    }
  }

  /** A path is listed as updated exactly when a walked source file has it
      and its target exists but is not that file's content. */
  lemma {:induction false} UpdatedExactly(st: Store, targetRes: string, walk: seq<(string, string)>, rel: string)
    ensures rel in UpdatedFiles(st, targetRes, walk) <==>
      exists k :: 0 <= k < |walk| && walk[k].0 == rel && TargetDiffers(st, targetRes, rel, walk[k].1)
    decreases |walk|
  {
    if walk != [] {
      var init := walk[..|walk| - 1];
      UpdatedExactly(st, targetRes, init, rel);
      assert forall k :: 0 <= k < |init| ==> init[k] == walk[k];
    }
  }

  /** A source file the walk visits is never reported missing. */
  lemma WalkedNotMissing(items: seq<Resource>, targetWalk: seq<string>, k: nat)
    requires k < |WalkFiles(items, "")|
    ensures WalkFiles(items, "")[k].0 !in MissingFiles(Paths(items, ""), targetWalk)
  {
    WalkInPaths(items, "", k);
    MissingExactly(Paths(items, ""), targetWalk, WalkFiles(items, "")[k].0);
  }

  /** No path is both new and updated. */
  lemma NewUpdatedDisjoint(st: Store, targetRes: string, walk: seq<(string, string)>, rel: string)
    ensures !(rel in NewFiles(st, targetRes, walk) && rel in UpdatedFiles(st, targetRes, walk))
  {
    NewExactly(st, targetRes, walk, rel);
    UpdatedExactly(st, targetRes, walk, rel);
  }

  /** A path is listed as missing exactly when the target walk has it and the
      source has no such path. */
  lemma {:induction false} MissingExactly(sourcePaths: set<string>, targetWalk: seq<string>, rel: string)
    ensures rel in MissingFiles(sourcePaths, targetWalk) <==> rel in targetWalk && rel !in sourcePaths
    decreases |targetWalk|
  {
    if targetWalk != [] {
      var init := targetWalk[..|targetWalk| - 1];
      MissingExactly(sourcePaths, init, rel);
      assert targetWalk == init + [targetWalk[|targetWalk| - 1]];
    }
  }

  /** `list_resource_differences` as a function: `{}` without a source; the
      missing list only when the target exists. `targetWalk` is the relative
      paths of the target's files in the order `os.walk` gives. */
  function Differ(m: Manager, st: Store, source: Source, targetWalk: seq<string>): Option<Differences> {
    if source.Absent? then None
    else
      var walk := if source.Tree? then WalkFiles(source.items, "") else [];
      var paths := if source.Tree? then Paths(source.items, "") else {};
      var target := m.TargetRes();
      var missing := if target in st.files || target in st.dirs then MissingFiles(paths, targetWalk) else [];
      Some(Differences(NewFiles(st, target, walk), UpdatedFiles(st, target, walk), missing))
  }

  /** `_find_source_differences`: the loop appending to the two lists. */
  method SourceDifferences(st: Store, targetRes: string, walk: seq<(string, string)>) returns (added: seq<string>, updated: seq<string>)
    ensures added == NewFiles(st, targetRes, walk) && updated == UpdatedFiles(st, targetRes, walk)
  {
    added, updated := [], [];
    for i := 0 to |walk|
      invariant added == NewFiles(st, targetRes, walk[..i]) && updated == UpdatedFiles(st, targetRes, walk[..i])
    {
      assert walk[..i + 1][..i] == walk[..i];
      var (rel, content) := walk[i];
      if TargetMissing(st, targetRes, rel) {
        added := added + [rel];
      } else if TargetDiffers(st, targetRes, rel, content) {
        updated := updated + [rel];
      }
    }
    assert walk[..|walk|] == walk;
  }

  /** `_find_missing_in_target`: the loop appending to the missing list. */
  method MissingInTarget(sourcePaths: set<string>, targetWalk: seq<string>) returns (missing: seq<string>)
    ensures missing == MissingFiles(sourcePaths, targetWalk)
  {
    missing := [];
    for i := 0 to |targetWalk|
      invariant missing == MissingFiles(sourcePaths, targetWalk[..i])
    {
      assert targetWalk[..i + 1][..i] == targetWalk[..i];
      if targetWalk[i] !in sourcePaths {
        missing := missing + [targetWalk[i]];
      }
    }
    assert targetWalk[..|targetWalk|] == targetWalk;
  }

  /** `list_resource_differences()`. */
  method ListResourceDifferences(m: Manager, disk: Disk, source: Source, targetWalk: seq<string>) returns (d: Option<Differences>)
    ensures d == Differ(m, Store(disk.files, disk.dirs), source, targetWalk)
  {
    if source.Absent? {
      return None;
    }
    var st := Store(disk.files, disk.dirs);
    var walk := if source.Tree? then WalkFiles(source.items, "") else [];
    var target := m.TargetRes();
    var added, updated := SourceDifferences(st, target, walk);
    var missing := [];
    if disk.Exists(target) {
      var paths := if source.Tree? then Paths(source.items, "") else {};
      missing := MissingInTarget(paths, targetWalk);
    }
    return Some(Differences(added, updated, missing));
  }
}
