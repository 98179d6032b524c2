/** The file system as the modelled code sees it: a map from path to text
    content for regular files and a set of directory paths. Paths are plain
    strings joined with "/". */
module Fs {
  import opened Wrappers
  import opened Text
  import opened Order

  /** `Path(dir) / name` for a relative `name`. */
  function JoinPath(dir: string, name: string): (p: string)
    ensures |p| == |dir| + 1 + |name|
    ensures p[..|dir|] == dir && p[|dir|] == '/' && p[|dir| + 1..] == name
  {
    dir + "/" + name
  }

  /** `Path(s)` for the text of a path: the empty path is `.`. */
  function PurePath(s: string): (r: string)
    ensures r != ""
    ensures s != "" ==> r == s
  {
    if s == "" then "." else s
  }

  /** `root / p` for a relative `p`: `.` adds nothing. */
  function JoinRoot(root: string, p: string): string {
    if p == "." then root else JoinPath(root, p)
  }

  /** The last component of a path, as `Path.name` gives it. */
  function BaseName(p: string): (r: string)
    ensures '/' !in r && |r| <= |p| && r == p[|p| - |r|..]
  {
    if p == [] || p[|p| - 1] == '/' then []
    else BaseName(p[..|p| - 1]) + [p[|p| - 1]]
  }

  /** The name of a path made by joining a name without separators is that name. */
  lemma {:induction false} BaseNameJoin(dir: string, name: string)
    requires '/' !in name
    ensures BaseName(JoinPath(dir, name)) == name
    decreases |name|
  {
    var p := JoinPath(dir, name);
    if name != [] {
      var init := name[..|name| - 1];
      assert p[..|p| - 1] == JoinPath(dir, init);
      BaseNameJoin(dir, init);
      assert name == init + [name[|name| - 1]];
    }
  }

  /** `Path.parent`: the text before the last "/", "/" for an entry of the
      root, "." for a name without a directory. */
  function Parent(p: string): string {
    var n := |BaseName(p)|;
    if n == |p| then "."
    else if n == |p| - 1 then "/"
    else p[..|p| - n - 1]
  }

  /** The parent of `dir/name` is `dir`. */
  lemma ParentJoin(dir: string, name: string)
    requires '/' !in name && dir != ""
    ensures Parent(JoinPath(dir, name)) == dir
  {
    BaseNameJoin(dir, name);
  }

  /** The index of the last `c` in `s`, or -1 (`str.rfind`). */
  function RFind(s: string, c: char): (i: int)
    ensures -1 <= i < |s|
    ensures i >= 0 ==> s[i] == c && forall j :: i < j < |s| ==> s[j] != c
    ensures i == -1 ==> c !in s
  {
    if s == [] then -1
    else if s[|s| - 1] == c then |s| - 1
    else RFind(s[..|s| - 1], c)
  }

  /** `Path.suffix`: from the last dot on, unless that dot starts or ends the name. */
  function Suffix(name: string): (r: string)
    ensures r == [] || (r[0] == '.' && EndsWith(name, r) && |r| < |name| && '.' !in r[1..])
  {
    var i := RFind(name, '.');
    if 0 < i < |name| - 1 then name[i..] else ""
  }

  /** The last `c` found by `RFind`. */
  lemma RFindLast(s: string, c: char, k: nat)
    requires k < |s| && s[k] == c && forall j :: k < j < |s| ==> s[j] != c
    ensures RFind(s, c) == k
  {
    assert c in s;
  }

  /** The file system as a value: the specification of the methods below. */
  datatype Store = Store(files: map<string, string>, dirs: set<string>)

  /** `Path(dir).mkdir(parents=True, exist_ok=True)` below an existing
      directory: FileExistsError when a file is in the way. */
  function MakeDir(st: Store, dir: string): (r: Result<Store>)
    ensures r.Ok? <==> dir !in st.files || dir in st.dirs
    ensures r.Ok? ==> r.value.files == st.files && r.value.dirs == st.dirs + {dir}
  {
    if dir in st.dirs then Ok(st)
    else if dir in st.files then Err(Error(OSError, "[Errno 17] File exists: '" + dir + "'"))
    else Ok(Store(st.files, st.dirs + {dir}))
  }

  /** `Path(p).exists()`. */
  predicate Exists(st: Store, p: string) {
    p in st.files || p in st.dirs
  }

  /** The first of `paths` that exists. */
  function FirstExisting(st: Store, paths: seq<string>): Option<string> {
    FirstWhere(paths, p => Exists(st, p))
  }

  /** What `dir` lists, in Python's order; nothing when no listing is given. */
  function Listed(listings: map<string, seq<string>>, dir: string): seq<string> {
    if dir in listings then listings[dir] else []
  }

  /** `Path(dir).iterdir()`, given what each directory lists (in Python's
      order): NotADirectoryError for a file, FileNotFoundError for a missing
      path. */
  function IterDir(st: Store, dir: string, listings: map<string, seq<string>>): (r: Result<seq<string>>)
    ensures r.Ok? <==> dir in st.dirs
    ensures r.Ok? ==> r.value == Listed(listings, dir)
  {
    if dir in st.dirs then Ok(Listed(listings, dir))
    else if dir in st.files then Err(Error(OSError, "[Errno 20] Not a directory: '" + dir + "'"))
    else Err(Error(OSError, "[Errno 2] No such file or directory: '" + dir + "'"))
  }

  /** The listed names of `dir` that are directories, in listing order
      (`[item for item in dir.iterdir() if item.is_dir()]`, by name). */
  function SubDirNames(dirs: set<string>, dir: string, names: seq<string>): (r: seq<string>)
    ensures forall n :: n in r <==> n in names && JoinPath(dir, n) in dirs
    ensures |r| <= |names|
  {
    if names == [] then []
    else
      var init := names[..|names| - 1];
      var n := names[|names| - 1];
      assert forall m :: m in names <==> m in init || m == n by {
        assert names == init + [n];
      }
      SubDirNames(dirs, dir, init) + (if JoinPath(dir, n) in dirs then [n] else [])
  }

  /** The shared, mutable file system. */
  class Disk {
    var files: map<string, string>
    var dirs: set<string>

    constructor(files: map<string, string>, dirs: set<string>)
      ensures this.files == files && this.dirs == dirs
    {
      this.files := files;
      this.dirs := dirs;
    }

    /** `Path.exists()`. */
    predicate Exists(p: string)
      reads this
    {
      p in files || p in dirs
    }

    /** Carrying out an operation whose outcome on the file system is
        already known: a new state is taken over, an exception leaves the
        disk as it was. */
    method Commit(outcome: Result<Store>) returns (r: Result<()>)
      modifies this
      ensures outcome.Ok? ==> r.Ok? && Store(files, dirs) == outcome.value
      ensures outcome.Err? ==> r == Err(outcome.error) && files == old(files) && dirs == old(dirs)
    {
      if outcome.Ok? {
        files, dirs := outcome.value.files, outcome.value.dirs;
        r := Ok(());
      } else {
        r := Err(outcome.error);
      }
    }

    /** Opening `p` for writing in text mode and writing `content`. */
    method WriteText(p: string, content: string)
      modifies this
      ensures files == old(files)[p := content]
      ensures dirs == old(dirs)
    {
      files := files[p := content];
    }
  }

  // ---------------------------------------------------------------------------
  // Removing a directory tree
  // ---------------------------------------------------------------------------

  /** `p` is `dir` itself or lies somewhere below it. */
  predicate Below(p: string, dir: string) {
    p == dir || StartsWith(p, dir + "/")
  }

  function TreeRemovedFiles(files: map<string, string>, dir: string): map<string, string> {
    map p | p in files && !Below(p, dir) :: files[p]
  }

  function TreeRemovedDirs(dirs: set<string>, dir: string): set<string> {
    set d | d in dirs && !Below(d, dir)
  }

  /** `shutil.rmtree(dir, ignore_errors=True)` on a directory. */
  method RemoveTree(disk: Disk, dir: string)
    modifies disk
    ensures disk.files == TreeRemovedFiles(old(disk.files), dir)
    ensures disk.dirs == TreeRemovedDirs(old(disk.dirs), dir)
  {
    disk.files := TreeRemovedFiles(disk.files, dir);
    disk.dirs := TreeRemovedDirs(disk.dirs, dir);
  }
}
