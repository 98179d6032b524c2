/** `tool_finder.py`: locating CMake, Ninja, the NDK and the Java home. The
    operating system's name, what `shutil.which` finds, the environment, the
    home directory, the file system and what each directory lists are
    parameters. */
module ToolFinder {
  import opened Wrappers
  import opened Text
  import opened Fs
  import opened Order
  import PlatformUtils

  // ---------------------------------------------------------------------------
  // Platform paths
  // ---------------------------------------------------------------------------

  /** An executable's file name: `.exe` is added on Windows. */
  function ExeName(system: string, tool: string): string {
    if system == "Windows" then tool + ".exe" else tool
  }

  /** `_get_cmake_paths`: the fixed places CMake is looked for. */
  function CmakePaths(system: string, home: string): seq<string> {
    if system == "Windows" then
      ["C:/Program Files/CMake/bin/cmake.exe", "C:/Program Files (x86)/CMake/bin/cmake.exe",
       JoinPath(home, "AppData/Local/Programs/CMake/bin/cmake.exe")]
    else if system == "Darwin" then
      ["/Applications/CMake.app/Contents/bin/cmake", "/usr/local/bin/cmake", "/opt/homebrew/bin/cmake",
       "/opt/local/bin/cmake"]
    else
      ["/usr/bin/cmake", "/usr/local/bin/cmake", "/snap/bin/cmake", JoinPath(home, ".local/bin/cmake"),
       "/opt/cmake/bin/cmake"]
  }

  /** `_get_ninja_paths`: the fixed places Ninja is looked for. */
  function NinjaPaths(system: string, home: string): seq<string> {
    var exe := ExeName(system, "ninja");
    if system == "Windows" then
      [JoinPath("C:/Program Files/Ninja", exe), JoinPath(JoinPath(home, "AppData/Local/Programs/Ninja"), exe),
       JoinPath("C:/tools/ninja", exe)]
    else if system == "Darwin" then
      [JoinPath("/usr/local/bin", exe), JoinPath("/opt/homebrew/bin", exe), JoinPath("/opt/local/bin", exe)]
    else
      [JoinPath("/usr/bin", exe), JoinPath("/usr/local/bin", exe), JoinPath("/snap/bin", exe),
       JoinPath(JoinPath(home, ".local/bin"), exe)]
  }

  // ---------------------------------------------------------------------------
  // First match
  // ---------------------------------------------------------------------------

  /** The loop of `_find_sdk_ninja` and of the fixed-place searches: the
      first candidate that passes the test. */
  method FirstWhereLoop(s: seq<string>, ok: string -> bool) returns (r: Option<string>)
    ensures r == FirstWhere(s, ok)
  {
    var i := 0;
    while i < |s|
      invariant 0 <= i <= |s|
      invariant FirstWhere(s, ok) == FirstWhere(s[i..], ok)
    {
      assert s[i..][1..] == s[i + 1..];
      if ok(s[i]) {
        return Some(s[i]);
      }
      i := i + 1;
    }
    r := None;
  }

  // ---------------------------------------------------------------------------
  // NDK versions
  // ---------------------------------------------------------------------------

  /** The `(major, minor, patch)` tuple `_parse_ndk_version` returns. */
  type Version = (nat, nat, nat)

  /** The ASCII digits of `s`, in order (`"".join(c for c in part if c.isdigit())`). */
  function KeepDigits(s: string): (r: string)
    ensures forall i :: 0 <= i < |r| ==> IsDigit(r[i])
  {
    if s == [] then []
    else (if IsDigit(s[0]) then [s[0]] else []) + KeepDigits(s[1..])
  }

  /** Digits are all kept. */
  lemma {:induction false} KeepAllDigits(s: string)
    requires forall i :: 0 <= i < |s| ==> IsDigit(s[i])
    ensures KeepDigits(s) == s
  {
    if s != [] {
      KeepAllDigits(s[1..]);
    }
  }

  /** A part's number: its digits read as an integer, 0 when it has none. */
  function PartValue(part: string): nat {
    DigitsValue(KeepDigits(part))
  }

  /** The name with every `android-ndk-` and then every `ndk-` removed. */
  function NdkStem(name: string): string {
    ReplaceAll(ReplaceAll(name, "android-ndk-", ""), "ndk-", "")
  }

  /** `_parse_ndk_version` of a directory name. */
  function NdkVersion(name: string): (v: Version)
    ensures var parts := Split(NdkStem(name), ".");
      v.0 == PartValue(parts[0]) &&
      v.1 == (if |parts| > 1 then PartValue(parts[1]) else 0) &&
      v.2 == (if |parts| > 2 then PartValue(parts[2]) else 0)
  {
    PartsVersion(Split(NdkStem(name), "."))
  }

  /** The version the first three dot-separated parts give, missing ones 0. */
  function PartsVersion(parts: seq<string>): (v: Version)
    requires |parts| >= 1
    ensures v.0 == PartValue(parts[0])
    ensures v.1 == (if |parts| > 1 then PartValue(parts[1]) else 0)
    ensures v.2 == (if |parts| > 2 then PartValue(parts[2]) else 0)
  {
    var nums := Padded(Values(parts[..if |parts| < 3 then |parts| else 3]));
    (nums[0], nums[1], nums[2])
  }

  /** The values of the parts, in order. */
  function Values(parts: seq<string>): (r: seq<nat>)
    ensures |r| == |parts| && forall i :: 0 <= i < |parts| ==> r[i] == PartValue(parts[i])
  {
    if parts == [] then []
    else
      var rest := Values(parts[1..]);
      assert forall i :: 1 <= i < |parts| ==> parts[i] == parts[1..][i - 1];
      [PartValue(parts[0])] + rest
  }

  /** Zeros appended up to three numbers. */
  function Padded(nums: seq<nat>): (r: seq<nat>)
    requires |nums| <= 3
    ensures |r| == 3 && r[..|nums|] == nums && forall i :: |nums| <= i < 3 ==> r[i] == 0
    decreases 3 - |nums|
  {
    if |nums| == 3 then nums else Padded(nums + [0])
  }

  /** `_parse_ndk_version`, its loops written out. */
  method ParseNdkVersion(path: string) returns (v: Version)
    ensures v == NdkVersion(BaseName(path))
  {
    v := ParseParts(Split(NdkStem(BaseName(path)), "."));
  }

  /** The loops of `_parse_ndk_version` over the dot-separated parts. */
  method ParseParts(parts: seq<string>) returns (v: Version)
    requires |parts| >= 1
    ensures v == PartsVersion(parts)
  {
    var nums: seq<nat> := [];
    var i := 0;
    while i < |parts| && i < 3
      invariant 0 <= i <= |parts| && i <= 3
      invariant nums == Values(parts[..i])
    {
      nums := nums + [PartValue(parts[i])];
      i := i + 1;
    }
    while |nums| < 3
      invariant |nums| <= 3
      invariant forall j :: 0 <= j < |nums| ==> nums[j] == if j < |parts| then PartValue(parts[j]) else 0
      decreases 3 - |nums|
    {
      nums := nums + [0];
    }
    v := (nums[0], nums[1], nums[2]);
    ghost var w := PartsVersion(parts);
    assert v.0 == w.0 && v.1 == w.1 && v.2 == w.2;
  }

  /** A text without `n` has nothing for `NdkStem` to remove. */
  lemma NoNdkMarkerStem(s: string)
    requires 'n' !in s
    ensures NdkStem(s) == s
  {
    Absent(s, "android-ndk-", 1);
    Absent(s, "ndk-", 0);
    ReplaceAllAbsent(s, "android-ndk-", "");
    ReplaceAllAbsent(s, "ndk-", "");
  }

  /** The value of a part written as `str(n)`. */
  lemma PartValueNatStr(n: nat)
    ensures PartValue(NatStr(n)) == n && '.' !in NatStr(n) && 'n' !in NatStr(n)
  {
    KeepAllDigits(NatStr(n));
  }

  /** A side-by-side name `a.b.c` parses to `(a, b, c)`. */
  lemma DottedVersion(a: nat, b: nat, c: nat)
    ensures NdkVersion(NatStr(a) + "." + NatStr(b) + "." + NatStr(c)) == (a, b, c)
  {
    var x, y, z := NatStr(a), NatStr(b), NatStr(c);
    PartValueNatStr(a);
    PartValueNatStr(b);
    PartValueNatStr(c);
    NoNdkMarkerStem(x + "." + y + "." + z);
    SplitThree(x, y, z);
  }

  /** An old-style `android-ndk-r<N><letter>` name parses to `(N, 0, 0)`:
      the prefix goes, and neither the `r` nor the letter is a digit. */
  lemma OldStyleVersion(n: nat, letter: char)
    requires IsLowerAscii(letter) && letter != 'n'
    ensures NdkVersion("android-ndk-" + ['r'] + NatStr(n) + [letter]) == (n, 0, 0)
  {
    var d := NatStr(n);
    PartValueNatStr(n);
    var t := ['r'] + d + [letter];
    assert 'n' !in t && '.' !in t;
    assert "android-ndk-" + ['r'] + d + [letter] == "android-ndk-" + t;
    OldStyleStem(t);
    OnePartVersion("android-ndk-" + t, t);
    OldStyleDigits(d, letter);
  }

  /** Only the `android-ndk-` prefix goes from a name whose rest has no `n`. */
  lemma OldStyleStem(t: string)
    requires 'n' !in t
    ensures NdkStem("android-ndk-" + t) == t
  {
    Absent(t, "android-ndk-", 1);
    StripPrefixOnce("android-ndk-", t);
    Absent(t, "ndk-", 0);
    ReplaceAllAbsent(t, "ndk-", "");
  }

  /** A stem without dots is the major version alone. */
  lemma OnePartVersion(name: string, t: string)
    requires NdkStem(name) == t && '.' !in t
    ensures NdkVersion(name) == (PartValue(t), 0, 0)
  {
    SplitNoDot(t);
  }

  /** The digits of `r<digits><letter>` are the digits. */
  lemma OldStyleDigits(d: string, letter: char)
    requires forall i :: 0 <= i < |d| ==> IsDigit(d[i])
    requires !IsDigit(letter)
    ensures KeepDigits(['r'] + d + [letter]) == d
  {
    var t := d + [letter];
    assert KeepDigits(t) == d by {
      KeepDigitsAppend(d, [letter]);
      KeepDigitsOne(letter);
      KeepAllDigits(d);
    }
    var s := ['r'] + t;
    assert s[1..] == t;
    assert ['r'] + d + [letter] == s;
  }

  lemma KeepDigitsOne(c: char)
    ensures KeepDigits([c]) == if IsDigit(c) then [c] else []
  {
    assert [c][1..] == [];
  }

  /** `replace(p, "")` on `p + t`, when `t` holds no `p`, gives `t`. */
  lemma StripPrefixOnce(p: string, t: string)
    requires |p| > 0 && !Contains(t, p)
    ensures ReplaceAll(p + t, p, "") == t
  {
    var s := p + t;
    assert s[..|p|] == p && s[|p|..] == t;
    ReplaceAllAbsent(t, p, "");
  }

  lemma {:induction false} KeepDigitsAppend(s: string, t: string)
    ensures KeepDigits(s + t) == KeepDigits(s) + KeepDigits(t)
    decreases |s|
  {
    if s != [] {
      assert (s + t)[0] == s[0];
      assert (s + t)[1..] == s[1..] + t;
      KeepDigitsAppend(s[1..], t);
      var h := if IsDigit(s[0]) then [s[0]] else [];
      assert KeepDigits(s + t) == h + KeepDigits(s[1..] + t);
      assert KeepDigits(s) == h + KeepDigits(s[1..]);
    } else {
      assert s + t == t;
    }
  }

  /** The version of each candidate's directory name. */
  function NdkKeys(paths: seq<string>): (r: seq<Triple>)
    ensures |r| == |paths| && forall i :: 0 <= i < |paths| ==> r[i] == NdkVersion(BaseName(paths[i]))
  {
    seq(|paths|, i requires 0 <= i < |paths| => NdkVersion(BaseName(paths[i])))
  }

  /** Sorting keeps the elements. */
  lemma DescendingMembers(names: seq<string>)
    ensures forall w :: w in names <==> w in SortStringsDescending(names)
  {
    var versions := SortStringsDescending(names);
    forall w ensures w in names <==> w in versions {
      assert w in names <==> w in multiset(names);
      assert w in versions <==> w in multiset(versions);
    }
  }

  /** In a descending sequence, the first element that passes `ok` is at
      least as large as every element that passes. */
  lemma FirstInDescending(versions: seq<string>, ok: string -> bool, k: nat)
    requires forall i, j :: 0 <= i < j < |versions| ==> StrLe(versions[j], versions[i])
    requires k < |versions| && ok(versions[k]) && forall j :: 0 <= j < k ==> !ok(versions[j])
    ensures forall w :: w in versions && ok(w) ==> StrLe(w, versions[k])
  {
    forall w | w in versions && ok(w) ensures StrLe(w, versions[k]) {
      var j :| 0 <= j < |versions| && versions[j] == w;
      if j == k {
        StrLeTotal(w, w);
      }
    }
  }

  /** The first name that passes `ok` when the names are tried latest
      first: the largest name that passes. */
  function LatestWith(names: seq<string>, ok: string -> bool): (found: Option<string>)
    ensures found.None? <==> forall w :: w in names ==> !ok(w)
    ensures found.Some? ==> found.value in names && ok(found.value)
    ensures found.Some? ==> forall w :: w in names && ok(w) ==> StrLe(w, found.value)
  {
    var versions := SortStringsDescending(names);
    DescendingMembers(names);
    var found := FirstWhere(versions, ok);
    if found.Some? then
      var k :| 0 <= k < |versions| && versions[k] == found.value && ok(versions[k]) && forall j :: 0 <= j < k ==> !ok(versions[j]);
      FirstInDescending(versions, ok, k);
      found
    else found
  }

  /** `find_cmake` and `find_ninja` once the three probes are made: PATH,
      then the SDK, then the fixed places. */
  function Probe(onPath: Option<string>, sdk: Result<Option<string>>, st: Store, fixed: seq<string>): Result<Option<string>> {
    if PlatformUtils.Found(onPath) then Ok(onPath)
    else
      match sdk
      case Err(e) => Err(e)
      case Ok(found) => if found.Some? then Ok(found) else Ok(FirstExisting(st, fixed))
  }

  /** The probes in priority order: a hit on PATH wins, then one in the SDK,
      then the first existing fixed place; nothing is found only when all
      three fail. */
  lemma ProbeOrder(onPath: Option<string>, sdk: Result<Option<string>>, st: Store, fixed: seq<string>)
    ensures PlatformUtils.Found(onPath) ==> Probe(onPath, sdk, st, fixed) == Ok(onPath)
    ensures !PlatformUtils.Found(onPath) && sdk.Ok? && sdk.value.Some? ==> Probe(onPath, sdk, st, fixed) == sdk
    ensures !PlatformUtils.Found(onPath) && sdk.Err? ==> Probe(onPath, sdk, st, fixed) == sdk
    ensures Probe(onPath, sdk, st, fixed) == Ok(None) <==>
      !PlatformUtils.Found(onPath) && sdk == Ok(None) && forall k :: 0 <= k < |fixed| ==> !Exists(st, fixed[k])
    ensures forall k :: (0 <= k < |fixed| && !PlatformUtils.Found(onPath) && sdk == Ok(None) && Exists(st, fixed[k]) &&
      (forall j :: 0 <= j < k ==> !Exists(st, fixed[j]))) ==> Probe(onPath, sdk, st, fixed) == Ok(Some(fixed[k]))
  {
    var first := FirstExisting(st, fixed);
    if first.Some? {
      var k :| 0 <= k < |fixed| && fixed[k] == first.value && Exists(st, fixed[k]) && forall j :: 0 <= j < k ==> !Exists(st, fixed[j]);
      forall k' | 0 <= k' < |fixed| && Exists(st, fixed[k']) && (forall j :: 0 <= j < k' ==> !Exists(st, fixed[j]))
        ensures first == Some(fixed[k'])
      {
        assert !(k < k') && !(k' < k);
      }
    }
  }

  // ---------------------------------------------------------------------------
  // The finder
  // ---------------------------------------------------------------------------

  /** The entries `dir/<name>` of the listed names that are directories. */
  function DirEntries(dirs: set<string>, dir: string, names: seq<string>): (r: seq<string>)
    ensures forall p :: p in r <==> exists n :: n in names && JoinPath(dir, n) in dirs && p == JoinPath(dir, n)
  {
    var subs := SubDirNames(dirs, dir, names);
    var r := seq(|subs|, i requires 0 <= i < |subs| => JoinPath(dir, subs[i]));
    assert forall p :: p in r ==> exists n :: n in names && JoinPath(dir, n) in dirs && p == JoinPath(dir, n) by {
      forall p | p in r ensures exists n :: n in names && JoinPath(dir, n) in dirs && p == JoinPath(dir, n) {
        var i :| 0 <= i < |r| && r[i] == p;
        assert subs[i] in subs;
      }
    }
    assert forall n :: n in names && JoinPath(dir, n) in dirs ==> JoinPath(dir, n) in r by {
      forall n | n in names && JoinPath(dir, n) in dirs ensures JoinPath(dir, n) in r {
        var i :| 0 <= i < |subs| && subs[i] == n;
        assert r[i] == JoinPath(dir, n);
      }
    }
    r
  }

  class ToolFinder {
    const androidSdk: Option<string>
    const system: string

    /** The SDK path as given (normalising it is not modelled) and the
        platform `get_platform_info` reports. */
    constructor (androidSdk: Option<string>, system: string)
      ensures this.androidSdk == androidSdk && this.system == system
    {
      this.androidSdk := androidSdk;
      this.system := system;
    }

    /** A configured SDK that exists. */
    predicate HasSdk(st: Store) {
      androidSdk.Some? && Exists(st, androidSdk.value)
    }

    function CmakeDir(): string
      requires androidSdk.Some?
    {
      JoinPath(androidSdk.value, "cmake")
    }

    /** `<sdk>/cmake/<version>/bin/<tool>`. */
    function SdkTool(version: string, tool: string): string
      requires androidSdk.Some?
    {
      JoinPath(JoinPath(JoinPath(CmakeDir(), version), "bin"), ExeName(system, tool))
    }

    /** The test the SDK searches make of a version name: a directory that
        holds `bin/<tool>`. */
    function HoldsTool(st: Store, tool: string): string -> bool
      requires androidSdk.Some?
    {
      v => JoinPath(CmakeDir(), v) in st.dirs && Exists(st, SdkTool(v, tool))
    }

    /** A listed version directory of the SDK's `cmake` that holds `bin/<tool>`. */
    predicate HasSdkTool(st: Store, listings: map<string, seq<string>>, version: string, tool: string) {
      HasSdk(st) && CmakeDir() in st.dirs && version in Listed(listings, CmakeDir()) && HoldsTool(st, tool)(version)
    }

    /** The versions that hold `tool` are the listed subdirectories that hold it. */
    lemma SdkHolds(st: Store, listings: map<string, seq<string>>, tool: string)
      requires HasSdk(st) && CmakeDir() in st.dirs
      ensures forall v :: HasSdkTool(st, listings, v, tool) <==>
        v in SubDirNames(st.dirs, CmakeDir(), Listed(listings, CmakeDir())) && HoldsTool(st, tool)(v)
    {
    }

    /** `_find_sdk_cmake`: the version directories are tried latest name first. */
    function SdkCmake(st: Store, listings: map<string, seq<string>>): (r: Result<Option<string>>) {
      if !HasSdk(st) || !Exists(st, CmakeDir()) then Ok(None)
      else
        match IterDir(st, CmakeDir(), listings)
        case Err(e) => Err(e)
        case Ok(names) =>
          var found := LatestWith(SubDirNames(st.dirs, CmakeDir(), names), HoldsTool(st, "cmake"));
          Ok(if found.Some? then Some(SdkTool(found.value, "cmake")) else None)
    }

    /** The version directories `_find_sdk_cmake` tries, latest name first. */
    lemma SdkCmakeTries(st: Store, listings: map<string, seq<string>>)
      requires HasSdk(st) && CmakeDir() in st.dirs
      ensures var found := LatestWith(SubDirNames(st.dirs, CmakeDir(), Listed(listings, CmakeDir())), HoldsTool(st, "cmake"));
        SdkCmake(st, listings) == Ok(if found.Some? then Some(SdkTool(found.value, "cmake")) else None)
    {
      assert IterDir(st, CmakeDir(), listings) == Ok(Listed(listings, CmakeDir()));
    }

    /** `iterdir` raises when the SDK's `cmake` is a file. */
    lemma SdkCmakeFails(st: Store, listings: map<string, seq<string>>)
      ensures SdkCmake(st, listings).Err? <==> HasSdk(st) && CmakeDir() in st.files && CmakeDir() !in st.dirs
    {
      if HasSdk(st) && CmakeDir() in st.dirs {
        SdkCmakeTries(st, listings);
      }
    }

    /** No CMake is found in the SDK only when no listed version has `bin/cmake`. */
    lemma SdkCmakeMissing(st: Store, listings: map<string, seq<string>>)
      ensures SdkCmake(st, listings) == Ok(None) <==>
        SdkCmake(st, listings).Ok? && forall v :: !HasSdkTool(st, listings, v, "cmake")
    {
      if HasSdk(st) && CmakeDir() in st.dirs {
        SdkCmakeTries(st, listings);
        SdkHolds(st, listings, "cmake");
      }
    }

    /** The SDK's CMake is that of the version directory with the largest
        name that has `bin/cmake`. */
    lemma SdkCmakeLatest(st: Store, listings: map<string, seq<string>>)
      ensures SdkCmake(st, listings).Ok? && SdkCmake(st, listings).value.Some? ==>
        exists v :: (HasSdkTool(st, listings, v, "cmake") && SdkCmake(st, listings).value.value == SdkTool(v, "cmake") &&
                     forall w :: HasSdkTool(st, listings, w, "cmake") ==> StrLe(w, v))
    {
      if HasSdk(st) && CmakeDir() in st.dirs {
        SdkCmakeTries(st, listings);
        SdkHolds(st, listings, "cmake");
        var found := LatestWith(SubDirNames(st.dirs, CmakeDir(), Listed(listings, CmakeDir())), HoldsTool(st, "cmake"));
        if found.Some? {
          assert HasSdkTool(st, listings, found.value, "cmake");
        }
      }
    }

    /** `_find_sdk_ninja`: the version directories in listing order. */
    function SdkNinja(st: Store, listings: map<string, seq<string>>): (r: Result<Option<string>>) {
      if !HasSdk(st) || !Exists(st, CmakeDir()) then Ok(None)
      else
        match IterDir(st, CmakeDir(), listings)
        case Err(e) => Err(e)
        case Ok(names) =>
          var found := FirstWhere(names, HoldsTool(st, "ninja"));
          Ok(if found.Some? then Some(SdkTool(found.value, "ninja")) else None)
    }

    /** The version directories `_find_sdk_ninja` tries, in listing order. */
    lemma SdkNinjaTries(st: Store, listings: map<string, seq<string>>)
      requires HasSdk(st) && CmakeDir() in st.dirs
      ensures var found := FirstWhere(Listed(listings, CmakeDir()), HoldsTool(st, "ninja"));
        SdkNinja(st, listings) == Ok(if found.Some? then Some(SdkTool(found.value, "ninja")) else None)
    {
      assert IterDir(st, CmakeDir(), listings) == Ok(Listed(listings, CmakeDir()));
    }

    /** `iterdir` raises when the SDK's `cmake` is a file. */
    lemma SdkNinjaFails(st: Store, listings: map<string, seq<string>>)
      ensures SdkNinja(st, listings).Err? <==> HasSdk(st) && CmakeDir() in st.files && CmakeDir() !in st.dirs
    {
      if HasSdk(st) && CmakeDir() in st.dirs {
        SdkNinjaTries(st, listings);
      }
    }

    /** No Ninja is found in the SDK only when no listed version has `bin/ninja`. */
    lemma SdkNinjaMissing(st: Store, listings: map<string, seq<string>>)
      ensures SdkNinja(st, listings) == Ok(None) <==>
        SdkNinja(st, listings).Ok? && forall v :: !HasSdkTool(st, listings, v, "ninja")
    {
      if HasSdk(st) && CmakeDir() in st.dirs {
        SdkNinjaTries(st, listings);
        var names := Listed(listings, CmakeDir());
        assert forall v :: HasSdkTool(st, listings, v, "ninja") <==> v in names && HoldsTool(st, "ninja")(v);
      }
    }

    /** The SDK's Ninja is that of the first listed version directory that
        has `bin/ninja`. */
    lemma SdkNinjaFirst(st: Store, listings: map<string, seq<string>>)
      ensures SdkNinja(st, listings).Ok? && SdkNinja(st, listings).value.Some? ==>
        HasSdk(st) && CmakeDir() in st.dirs && (var names := Listed(listings, CmakeDir());
        exists k :: (0 <= k < |names| && HoldsTool(st, "ninja")(names[k]) &&
                     SdkNinja(st, listings).value.value == SdkTool(names[k], "ninja") &&
                     forall j :: 0 <= j < k ==> !HoldsTool(st, "ninja")(names[j])))
    {
      if HasSdk(st) && CmakeDir() in st.dirs {
        SdkNinjaTries(st, listings);
      }
    }

    /** `find_cmake`. */
    function FindCmake(st: Store, listings: map<string, seq<string>>, which: PlatformUtils.Which, home: string): Result<Option<string>> {
      Probe(PlatformUtils.FindExecutable("cmake", which, system, [], {}), SdkCmake(st, listings), st, CmakePaths(system, home))
    }

    /** `find_ninja`. */
    function FindNinja(st: Store, listings: map<string, seq<string>>, which: PlatformUtils.Which, home: string): Result<Option<string>> {
      Probe(PlatformUtils.FindExecutable("ninja", which, system, [], {}), SdkNinja(st, listings), st, NinjaPaths(system, home))
    }

    /** `_collect_ndk_paths`: the directories under `ndk`, then
        `ndk-bundle` when it exists, then the directories under
        `ndk/side-by-side`; `iterdir` raises for a file in place of either
        directory. */
    function NdkCandidates(st: Store, listings: map<string, seq<string>>): (r: Result<seq<string>>)
      ensures androidSdk.None? ==> r == Ok([])
      ensures androidSdk.Some? ==>
        var ndk := JoinPath(androidSdk.value, "ndk");
        var bundle := JoinPath(androidSdk.value, "ndk-bundle");
        var side := JoinPath(ndk, "side-by-side");
        (r.Err? <==> (ndk in st.files && ndk !in st.dirs) || (side in st.files && side !in st.dirs)) &&
        (r.Ok? ==> forall p :: p in r.value <==>
          (ndk in st.dirs && exists n :: n in Listed(listings, ndk) && JoinPath(ndk, n) in st.dirs && p == JoinPath(ndk, n)) ||
          (p == bundle && Exists(st, bundle)) ||
          (side in st.dirs && exists n :: n in Listed(listings, side) && JoinPath(side, n) in st.dirs && p == JoinPath(side, n)))
    {
      if androidSdk.None? then Ok([])
      else
        var ndk := JoinPath(androidSdk.value, "ndk");
        var bundle := JoinPath(androidSdk.value, "ndk-bundle");
        var side := JoinPath(ndk, "side-by-side");
        var first := if Exists(st, ndk) then IterDir(st, ndk, listings) else Ok([]);
        var third := if Exists(st, side) then IterDir(st, side, listings) else Ok([]);
        if first.Err? then Err(first.error)
        else if third.Err? then Err(third.error)
        else
          Ok(DirEntries(st.dirs, ndk, first.value) + (if Exists(st, bundle) then [bundle] else []) +
             DirEntries(st.dirs, side, third.value))
    }

    /** `find_ndk`. */
    function FindNdk(st: Store, listings: map<string, seq<string>>): (r: Result<Option<string>>)
      ensures r == Ok(None) <==> !HasSdk(st) || NdkCandidates(st, listings) == Ok([])
      ensures r.Err? <==> HasSdk(st) && NdkCandidates(st, listings).Err?
    {
      if !HasSdk(st) then Ok(None)
      else
        match NdkCandidates(st, listings)
        case Err(e) => Err(e)
        case Ok(paths) => if paths == [] then Ok(None) else Ok(Some(paths[FirstMaxTriple(NdkKeys(paths))]))
    }

    /** The NDK found is a candidate with the largest version, and the
        first such in collection order. */
    lemma FindNdkLatest(st: Store, listings: map<string, seq<string>>)
      requires FindNdk(st, listings).Ok? && FindNdk(st, listings).value.Some?
      ensures var paths := NdkCandidates(st, listings).value;
        var ndk := FindNdk(st, listings).value.value;
        exists k :: (0 <= k < |paths| && paths[k] == ndk &&
          (forall j :: 0 <= j < |paths| ==> TripleLe(NdkVersion(BaseName(paths[j])), NdkVersion(BaseName(ndk)))) &&
          (forall j :: 0 <= j < k ==> !TripleLe(NdkVersion(BaseName(ndk)), NdkVersion(BaseName(paths[j])))))
    {
      var paths := NdkCandidates(st, listings).value;
      var k := FirstMaxTriple(NdkKeys(paths));
      assert paths[k] == FindNdk(st, listings).value.value;
    }

    /** `find_java_home`: `JAVA_HOME` when it holds `bin/java`; otherwise the
        directory above the `bin` that holds the `java` on PATH, provided
        that `bin` also holds `javac`. */
    function FindJavaHome(st: Store, environ: map<string, string>, which: PlatformUtils.Which): (r: Option<string>) {
      if "JAVA_HOME" in environ && environ["JAVA_HOME"] != "" &&
         Exists(st, JoinPath(JoinPath(environ["JAVA_HOME"], "bin"), ExeName(system, "java"))) then
        Some(environ["JAVA_HOME"])
      else
        var java := PlatformUtils.FindExecutable("java", which, system, [], {});
        if !PlatformUtils.Found(java) then None
        else
          var bin := Parent(java.value);
          if BaseName(bin) == "bin" && Exists(st, JoinPath(JoinPath(Parent(bin), "bin"), ExeName(system, "javac"))) then
            Some(Parent(bin))
          else None
    }

    /** A `JAVA_HOME` that holds `bin/java` is the answer. */
    lemma JavaHomeFromEnvironment(st: Store, environ: map<string, string>, which: PlatformUtils.Which)
      requires "JAVA_HOME" in environ && environ["JAVA_HOME"] != ""
      requires Exists(st, JoinPath(JoinPath(environ["JAVA_HOME"], "bin"), ExeName(system, "java")))
      ensures FindJavaHome(st, environ, which) == Some(environ["JAVA_HOME"])
    {
    }

    /** Otherwise a `java` found at `<home>/bin/<exe>` gives `<home>` exactly
        when `<home>/bin` also holds `javac`. */
    lemma JavaHomeFromPath(st: Store, environ: map<string, string>, which: PlatformUtils.Which, home: string, exe: string)
      requires !("JAVA_HOME" in environ && environ["JAVA_HOME"] != "" &&
                 Exists(st, JoinPath(JoinPath(environ["JAVA_HOME"], "bin"), ExeName(system, "java"))))
      requires '/' !in exe && exe != "" && home != ""
      requires PlatformUtils.FindExecutable("java", which, system, [], {}) == Some(JoinPath(JoinPath(home, "bin"), exe))
      ensures FindJavaHome(st, environ, which) ==
        if Exists(st, JoinPath(JoinPath(home, "bin"), ExeName(system, "javac"))) then Some(home) else None
    {
      var bin := JoinPath(home, "bin");
      ParentJoin(bin, exe);
      ParentJoin(home, "bin");
      BaseNameJoin(home, "bin");
    }

    /** Nothing is found when `JAVA_HOME` does not hold `bin/java` and no
        `java` is on PATH. */
    lemma JavaHomeMissing(st: Store, environ: map<string, string>, which: PlatformUtils.Which)
      requires !("JAVA_HOME" in environ && environ["JAVA_HOME"] != "" &&
                 Exists(st, JoinPath(JoinPath(environ["JAVA_HOME"], "bin"), ExeName(system, "java"))))
      requires !PlatformUtils.Found(PlatformUtils.FindExecutable("java", which, system, [], {}))
      ensures FindJavaHome(st, environ, which).None?
    {
    }
  }
}
