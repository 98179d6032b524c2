/** `apk_signer.py`: choosing the newest build-tools directory of the SDK,
    locating `zipalign` and `apksigner` in it, and the command lines of the
    alignment, signing and verification runs. The file system, what each
    directory lists, what `shutil.which` finds and the outcome of each run
    are parameters. */
module ApkSigner {
  import opened Wrappers
  import opened Text
  import opened Fs
  import opened Order
  import PlatformUtils

  /** The names `locate_tools` accepts for each tool, in the order tried. */
  const ZIPALIGN_NAMES: seq<string> := ["zipalign", "zipalign.exe", "zipalign.bat"]
  const APKSIGNER_NAMES: seq<string> := ["apksigner", "apksigner.jar", "apksigner.bat", "apksigner.sh"]

  // ---------------------------------------------------------------------------
  // Build-tools versions
  // ---------------------------------------------------------------------------

  /** `_collect_build_tools`'s test of a directory name: its first two
      dot-separated parts (or its only part) are digit strings. */
  predicate IsVersionName(name: string) {
    var parts := Split(name, ".");
    forall k :: 0 <= k < |parts| && k < 2 ==> IsDigits(parts[k])
  }

  /** Whether `_collect_build_tools` keeps the listed entry `name`. */
  predicate Kept(dirs: set<string>, dir: string, name: string) {
    JoinPath(dir, name) in dirs && IsVersionName(name)
  }

  /** `_collect_build_tools`: the subdirectories with a version name, in
      listing order. */
  function VersionDirs(dirs: set<string>, dir: string, names: seq<string>): (r: seq<string>)
    ensures |r| <= |names|
    ensures forall i :: 0 <= i < |names| && Kept(dirs, dir, names[i]) ==> JoinPath(dir, names[i]) in r
    ensures forall p :: p in r ==> exists i :: 0 <= i < |names| && Kept(dirs, dir, names[i]) && p == JoinPath(dir, names[i])
  {
    if names == [] then []
    else
      var init := names[..|names| - 1];
      var last := names[|names| - 1];
      var rest := VersionDirs(dirs, dir, init);
      assert forall i :: 0 <= i < |init| ==> init[i] == names[i];
      rest + (if Kept(dirs, dir, last) then [JoinPath(dir, last)] else [])
  }

  /** The loop of `_collect_build_tools` over the listing of the directory. */
  method CollectBuildTools(dirs: set<string>, dir: string, names: seq<string>) returns (versions: seq<string>)
    ensures versions == VersionDirs(dirs, dir, names)
  {
    versions := [];
    var i := 0;
    while i < |names|
      invariant 0 <= i <= |names|
      invariant versions == VersionDirs(dirs, dir, names[..i])
    {
      assert names[..i + 1][..i] == names[..i];
      if JoinPath(dir, names[i]) in dirs && IsVersionName(names[i]) {
        versions := versions + [JoinPath(dir, names[i])];
      }
      i := i + 1;
    }
    assert names[..i] == names;
  }

  /** `version_key`: the first three parts read by `int`, missing ones 0; a
      part `int` rejects makes the whole key `(0, 0, 0)`. */
  function VersionKey(name: string): Triple {
    KeyOf(PyInt, Split(name, "."))
  }

  /** `version_key` over the dot-separated parts, `read` being Python's `int`. */
  function KeyOf(read: string -> Option<int>, parts: seq<string>): Triple {
    var major := if |parts| > 0 then read(parts[0]) else Some(0);
    var minor := if |parts| > 1 then read(parts[1]) else Some(0);
    var patch := if |parts| > 2 then read(parts[2]) else Some(0);
    if major.Some? && minor.Some? && patch.Some? then (major.value, minor.value, patch.value) else (0, 0, 0)
  }

  /** A name `a.b.c` of plain numbers has the key `(a, b, c)`. */
  lemma VersionKeyDotted(a: nat, b: nat, c: nat)
    ensures VersionKey(NatStr(a) + "." + NatStr(b) + "." + NatStr(c)) == (a, b, c)
  {
    NatStrKey(a);
    NatStrKey(b);
    NatStrKey(c);
    SplitThree(NatStr(a), NatStr(b), NatStr(c));
  }

  /** A name `a.b` has the key `(a, b, 0)`. */
  lemma VersionKeyTwoParts(a: nat, b: nat)
    ensures VersionKey(NatStr(a) + "." + NatStr(b)) == (a, b, 0)
  {
    NatStrKey(a);
    NatStrKey(b);
    SplitTwoParts(NatStr(a), NatStr(b));
  }

  /** One part that `int` rejects among the first three, as in `34.0.0-rc1`,
      gives the key `(0, 0, 0)`, below every released version. */
  lemma VersionKeyRejected(name: string, k: nat)
    requires k < 3 && k < |Split(name, ".")| && PyInt(Split(name, ".")[k]).None?
    ensures VersionKey(name) == (0, 0, 0)
  {
  }

  lemma NatStrKey(n: nat)
    ensures PyInt(NatStr(n)) == Some(n as int) && '.' !in NatStr(n)
  {
    PyIntDigits(NatStr(n));
  }

  /** The keys of the candidates' directory names. */
  function Keys(versions: seq<string>): (r: seq<Triple>)
    ensures |r| == |versions| && forall i :: 0 <= i < |versions| ==> r[i] == VersionKey(BaseName(versions[i]))
  {
    seq(|versions|, i requires 0 <= i < |versions| => VersionKey(BaseName(versions[i])))
  }

  /** `_select_latest_build_tools`: the head of the stable descending sort by key. */
  function SelectLatest(versions: seq<string>): (r: string)
    requires |versions| > 0
  {
    versions[FirstMaxTriple(Keys(versions))]
  }

  /** The directory chosen has a largest key, and is the first such in
      listing order. */
  lemma SelectLatestMax(versions: seq<string>)
    requires |versions| > 0
    ensures exists k :: (0 <= k < |versions| && versions[k] == SelectLatest(versions) &&
      (forall j :: 0 <= j < |versions| ==> TripleLe(VersionKey(BaseName(versions[j])), VersionKey(BaseName(versions[k])))) &&
      (forall j :: 0 <= j < k ==> !TripleLe(VersionKey(BaseName(versions[k])), VersionKey(BaseName(versions[j])))))
  {
    var k := FirstMaxTriple(Keys(versions));
    assert versions[k] == SelectLatest(versions);
  }

  // ---------------------------------------------------------------------------
  // Tool lookup
  // ---------------------------------------------------------------------------

  /** `build_tools / name` for each alternative name. */
  function AltPaths(dir: string, names: seq<string>): (r: seq<string>)
    ensures |r| == |names| && forall i :: 0 <= i < |names| ==> r[i] == JoinPath(dir, names[i])
  {
    seq(|names|, i requires 0 <= i < |names| => JoinPath(dir, names[i]))
  }

  /** The name `shutil.which` is asked for: the tool's name without `.exe`
      and `.bat`. */
  function WhichName(tool: string): string {
    ReplaceAll(ReplaceAll(tool, ".exe", ""), ".bat", "")
  }

  /** `_find_tool`: the exact name in the build-tools directory, else the
      first alternative there that exists, else what `which` finds. */
  function FindTool(st: Store, which: PlatformUtils.Which, dir: string, tool: string, alternatives: seq<string>): Result<string> {
    var exact := JoinPath(dir, tool);
    var alt := FirstExisting(st, AltPaths(dir, alternatives));
    var chosen := if Exists(st, exact) then exact else if alt.Some? then alt.value else exact;
    if Exists(st, chosen) then Ok(chosen)
    else
      var found := which(WhichName(tool));
      if PlatformUtils.Found(found) then Ok(found.value)
      else Err(Error(FileNotFoundError, tool + " not found"))
  }

  /** The lookup order of `_find_tool`, and FileNotFoundError exactly when
      every place fails. */
  lemma FindToolOrder(st: Store, which: PlatformUtils.Which, dir: string, tool: string, alternatives: seq<string>)
    ensures Exists(st, JoinPath(dir, tool)) ==> FindTool(st, which, dir, tool, alternatives) == Ok(JoinPath(dir, tool))
    ensures forall k :: (0 <= k < |alternatives| && !Exists(st, JoinPath(dir, tool)) &&
      Exists(st, JoinPath(dir, alternatives[k])) && (forall j :: 0 <= j < k ==> !Exists(st, JoinPath(dir, alternatives[j])))) ==>
        FindTool(st, which, dir, tool, alternatives) == Ok(JoinPath(dir, alternatives[k]))
    ensures (!Exists(st, JoinPath(dir, tool)) && forall k :: 0 <= k < |alternatives| ==> !Exists(st, JoinPath(dir, alternatives[k]))) ==>
      FindTool(st, which, dir, tool, alternatives) ==
        if PlatformUtils.Found(which(WhichName(tool))) then Ok(which(WhichName(tool)).value)
        else Err(Error(FileNotFoundError, tool + " not found"))
  {
    var paths := AltPaths(dir, alternatives);
    var alt := FirstExisting(st, paths);
    forall k | 0 <= k < |alternatives| && !Exists(st, JoinPath(dir, tool)) &&
      Exists(st, JoinPath(dir, alternatives[k])) && (forall j :: 0 <= j < k ==> !Exists(st, JoinPath(dir, alternatives[j])))
      ensures FindTool(st, which, dir, tool, alternatives) == Ok(JoinPath(dir, alternatives[k]))
    {
      assert alt.Some?;
      var m :| 0 <= m < |paths| && paths[m] == alt.value && Exists(st, paths[m]) && forall j :: 0 <= j < m ==> !Exists(st, paths[j]);
      assert m == k;
    }
  }

  /** The loop of `_find_tool`, with its `break`. */
  method FindToolLoop(st: Store, which: PlatformUtils.Which, dir: string, tool: string, alternatives: seq<string>)
    returns (r: Result<string>)
    ensures r == FindTool(st, which, dir, tool, alternatives)
  {
    var paths := AltPaths(dir, alternatives);
    var toolPath := JoinPath(dir, tool);
    if !Exists(st, toolPath) {
      var i := 0;
      while i < |alternatives|
        invariant 0 <= i <= |alternatives|
        invariant FirstExisting(st, paths) == FirstExisting(st, paths[i..])
      {
        assert paths[i..][1..] == paths[i + 1..];
        var altPath := JoinPath(dir, alternatives[i]);
        if Exists(st, altPath) {
          toolPath := altPath;
          break;
        }
        i := i + 1;
      }
    }
    if !Exists(st, toolPath) {
      var found := which(WhichName(tool));
      if PlatformUtils.Found(found) {
        r := Ok(found.value);
      } else {
        r := Err(Error(FileNotFoundError, tool + " not found"));
      }
    } else {
      r := Ok(toolPath);
    }
  }

  // ---------------------------------------------------------------------------
  // Commands
  // ---------------------------------------------------------------------------

  /** `apksigner.suffix == ".jar"`. */
  predicate IsJar(path: string) {
    Suffix(BaseName(path)) == ".jar"
  }

  /** How the signer is started: through `java -jar` for a jar, directly otherwise. */
  function Launcher(apksigner: string): seq<string> {
    if IsJar(apksigner) then ["java", "-jar", apksigner] else [apksigner]
  }

  /** The launcher starts with `java -jar` exactly for a jar, and ends with
      the signer's path. */
  lemma LauncherShape(apksigner: string)
    ensures var l := Launcher(apksigner);
      |l| > 0 && l[|l| - 1] == apksigner &&
      (IsJar(apksigner) <==> |l| == 3 && l[0] == "java" && l[1] == "-jar")
  {
  }

  /** `_build_command`. */
  function SignCommand(apksigner: string, input: string, output: string,
                       keystore: string, alias: string, password: string, keyPassword: string): seq<string> {
    Launcher(apksigner) + ["sign"] + Flatten(SignOptions(output, keystore, alias, password, keyPassword)) + [input]
  }

  /** The options `_build_command` passes, in its order: the keystore, the
      alias, both passwords behind `pass:`, the four signature schemes
      enabled, and the output path. */
  function SignOptions(output: string, keystore: string, alias: string, password: string, keyPassword: string): seq<(string, string)> {
    [("--ks", keystore), ("--ks-key-alias", alias),
     ("--ks-pass", "pass:" + password), ("--key-pass", "pass:" + keyPassword),
     ("--v1-signing-enabled", "true"), ("--v2-signing-enabled", "true"),
     ("--v3-signing-enabled", "true"), ("--v4-signing-enabled", "true"),
     ("--out", output)]
  }

  /** The options written out, each name followed by its value. */
  function Flatten(options: seq<(string, string)>): (r: seq<string>)
    ensures |r| == 2 * |options|
  {
    if options == [] then [] else [options[0].0, options[0].1] + Flatten(options[1..])
  }

  /** An option name: it starts with `--`. */
  predicate IsOption(s: string) {
    |s| >= 2 && s[0] == '-' && s[1] == '-'
  }

  /** How `apksigner` reads what follows its subcommand: `--option value`
      pairs in order, then the APK; None when the arguments do not have
      that shape. */
  function ReadOptions(args: seq<string>): (r: Option<(seq<(string, string)>, string)>)
    ensures r.Some? ==> |args| == 2 * |r.value.0| + 1 && r.value.1 == args[|args| - 1]
    decreases |args|
  {
    if |args| == 1 then Some(([], args[0]))
    else if |args| >= 2 && IsOption(args[0]) then
      match ReadOptions(args[2..])
      case None => None
      case Some(parsed) => Some(([(args[0], args[1])] + parsed.0, parsed.1))
    else None
  }

  /** Options with proper names, written out before a last argument, are
      read back as they were. */
  lemma {:induction false} ReadFlattened(options: seq<(string, string)>, last: string)
    requires forall k :: 0 <= k < |options| ==> IsOption(options[k].0)
    ensures ReadOptions(Flatten(options) + [last]) == Some((options, last))
    decreases |options|
  {
    if options != [] {
      var args := Flatten(options) + [last];
      assert args[2..] == Flatten(options[1..]) + [last];
      ReadFlattened(options[1..], last);
      assert options == [options[0]] + options[1..];
    }
  }

  /** A command made of a launcher, a subcommand, written-out options and a
      last argument is read back into those parts. */
  lemma CommandRead(launcher: seq<string>, sub: string, options: seq<(string, string)>, last: string)
    requires forall k :: 0 <= k < |options| ==> IsOption(options[k].0)
    ensures var cmd := launcher + [sub] + Flatten(options) + [last];
      var n := |launcher|;
      cmd[..n] == launcher && cmd[n] == sub && ReadOptions(cmd[n + 1..]) == Some((options, last))
  {
    CommandParts(launcher, sub, Flatten(options), last);
    ReadFlattened(options, last);
  }

  /** Where the parts of such a command sit. */
  lemma CommandParts(launcher: seq<string>, sub: string, flat: seq<string>, last: string)
    ensures var cmd := launcher + [sub] + flat + [last];
      var n := |launcher|;
      cmd[..n] == launcher && cmd[n] == sub && cmd[n + 1..] == flat + [last]
  {
    var head := launcher + [sub];
    var rest := flat + [last];
    var cmd := launcher + [sub] + flat + [last];
    assert cmd == head + rest;
    assert cmd[..|head|] == head;
    assert cmd[|head|..] == rest;
    assert head[..|launcher|] == launcher;
  }

  /** Every option `_build_command` passes has a proper option name. */
  lemma SignOptionNames(output: string, keystore: string, alias: string, password: string, keyPassword: string)
    ensures var options := SignOptions(output, keystore, alias, password, keyPassword);
      forall k :: 0 <= k < |options| ==> IsOption(options[k].0)
  {
  }

  /** The signer reads back from `_build_command` exactly the options it
      was given, in order, and the input APK as the last argument. */
  lemma SignCommandRead(apksigner: string, input: string, output: string,
                        keystore: string, alias: string, password: string, keyPassword: string)
    ensures var cmd := SignCommand(apksigner, input, output, keystore, alias, password, keyPassword);
      var n := |Launcher(apksigner)|;
      cmd[..n] == Launcher(apksigner) && cmd[n] == "sign" &&
      ReadOptions(cmd[n + 1..]) == Some((SignOptions(output, keystore, alias, password, keyPassword), input))
  {
    SignOptionNames(output, keystore, alias, password, keyPassword);
    CommandRead(Launcher(apksigner), "sign", SignOptions(output, keystore, alias, password, keyPassword), input);
  }

  /** `_build_verify_command`. */
  function VerifyCommand(apksigner: string, signed: string): seq<string> {
    if IsJar(apksigner) then ["java", "-jar", apksigner, "verify", "--verbose", "--print-certs", signed]
    else [apksigner, "verify", "--verbose", "--print-certs", signed]
  }

  /** The verification command is the launcher, `verify` with its two
      flags, and the signed APK. */
  lemma VerifyCommandShape(apksigner: string, signed: string)
    ensures VerifyCommand(apksigner, signed) == Launcher(apksigner) + ["verify", "--verbose", "--print-certs", signed]
  {
    var tail := ["verify", "--verbose", "--print-certs", signed];
    if IsJar(apksigner) {
      assert ["java", "-jar", apksigner] + tail == ["java", "-jar", apksigner, "verify", "--verbose", "--print-certs", signed];
    } else {
      assert [apksigner] + tail == [apksigner, "verify", "--verbose", "--print-certs", signed];
    }
  }

  /** The command `zipalign` runs: forced overwrite, page alignment, 4-byte alignment. */
  function ZipalignCommand(zipalign: string, input: string, output: string): seq<string> {
    [zipalign, "-f", "-p", "4", input, output]
  }

  // ---------------------------------------------------------------------------
  // Results
  // ---------------------------------------------------------------------------

  /** `_check_result`: RuntimeError with the step's name and the output,
      `stderr` when there is any and `stdout` otherwise, cut to 500 characters. */
  function CheckResult(p: PlatformUtils.Completed, step: string): Result<()> {
    if p.returncode != 0 then
      Err(Error(RuntimeError, step + " failed: " + PlatformUtils.Truncated(PlatformUtils.ErrorOutput(p))))
    else Ok(())
  }

  /** `_check_result` accepts exactly a zero return code and raises the same
      error as `run_command_checked` with the prefix `<step> failed`. */
  lemma CheckResultAsChecked(cmd: seq<string>, p: PlatformUtils.Completed, step: string)
    ensures CheckResult(p, step).Ok? <==> p.returncode == 0
    ensures var checked := PlatformUtils.RunCommandChecked(cmd, PlatformUtils.Ran(p), step + " failed");
      CheckResult(p, step).Err? ==> checked.Err? && checked.error == CheckResult(p, step).error
  {
    if p.returncode != 0 {
      var out := PlatformUtils.Truncated(PlatformUtils.ErrorOutput(p));
      assert step + " failed: " + out == step + " failed" + ": " + out;
    }
  }

  /** `zipalign`: the run, then `_check_result` under the name `zipalign`. */
  function Zipalign(zipalign: string, input: string, output: string, launch: PlatformUtils.Launch): Result<()> {
    match PlatformUtils.RunCommand(ZipalignCommand(zipalign, input, output), launch)
    case Err(e) => Err(e)
    case Ok(p) => CheckResult(p, "zipalign")
  }

  /** Alignment succeeds exactly when `zipalign` starts and returns 0; every
      failure is a RuntimeError. */
  lemma ZipalignOutcome(zipalign: string, input: string, output: string, launch: PlatformUtils.Launch)
    ensures Zipalign(zipalign, input, output, launch).Ok? <==> launch.Ran? && launch.process.returncode == 0
    ensures Zipalign(zipalign, input, output, launch).Err? ==> Zipalign(zipalign, input, output, launch).error.kind == RuntimeError
  {
  }

  // ---------------------------------------------------------------------------
  // The signer
  // ---------------------------------------------------------------------------

  class ApkSigner {
    const androidSdk: string

    /** The SDK path as given; the platform name and the UTF-8 set-up are
        not modelled. */
    constructor (androidSdk: string)
      ensures this.androidSdk == androidSdk
    {
      this.androidSdk := androidSdk;
    }

    function BuildToolsDir(): string {
      JoinPath(androidSdk, "build-tools")
    }

    /** `find_build_tools`. */
    function FindBuildTools(st: Store, listings: map<string, seq<string>>): Result<string> {
      var dir := BuildToolsDir();
      if !Exists(st, dir) then Err(Error(FileNotFoundError, "Android build-tools directory not found"))
      else
        match IterDir(st, dir, listings)
        case Err(e) => Err(e)
        case Ok(names) =>
          var versions := VersionDirs(st.dirs, dir, names);
          if versions == [] then Err(Error(FileNotFoundError, "No build-tools versions found"))
          else Ok(SelectLatest(versions))
    }

    /** A missing build-tools directory, or one without a version directory,
        raises FileNotFoundError; a file in its place makes `iterdir` raise. */
    lemma FindBuildToolsFails(st: Store, listings: map<string, seq<string>>)
      ensures var r := FindBuildTools(st, listings);
        !Exists(st, BuildToolsDir()) ==> r == Err(Error(FileNotFoundError, "Android build-tools directory not found"))
      ensures var r := FindBuildTools(st, listings);
        BuildToolsDir() in st.files && BuildToolsDir() !in st.dirs ==> r.Err? && r.error.kind == OSError
      ensures var r := FindBuildTools(st, listings); var dir := BuildToolsDir();
        dir in st.dirs ==>
          (r.Err? <==> forall i :: 0 <= i < |Listed(listings, dir)| ==> !Kept(st.dirs, dir, Listed(listings, dir)[i])) &&
          (r.Err? ==> r.error == Error(FileNotFoundError, "No build-tools versions found"))
    {
      var dir := BuildToolsDir();
      if dir in st.dirs {
        var names := Listed(listings, dir);
        assert IterDir(st, dir, listings) == Ok(names);
        var versions := VersionDirs(st.dirs, dir, names);
        if versions == [] {
          assert forall i :: 0 <= i < |names| ==> !Kept(st.dirs, dir, names[i]);
        } else {
          assert versions[0] in versions;
        }
      }
    }

    /** The build-tools directory chosen is a listed version directory with
        the largest key. */
    lemma FindBuildToolsLatest(st: Store, listings: map<string, seq<string>>)
      requires FindBuildTools(st, listings).Ok?
      ensures var dir := BuildToolsDir(); var names := Listed(listings, dir);
        var found := FindBuildTools(st, listings).value;
        dir in st.dirs &&
        (exists i :: 0 <= i < |names| && Kept(st.dirs, dir, names[i]) && found == JoinPath(dir, names[i])) &&
        forall v :: v in VersionDirs(st.dirs, dir, names) ==> TripleLe(VersionKey(BaseName(v)), VersionKey(BaseName(found)))
    {
      var dir := BuildToolsDir();
      var names := Listed(listings, dir);
      assert IterDir(st, dir, listings) == Ok(names);
      var versions := VersionDirs(st.dirs, dir, names);
      SelectLatestMax(versions);
      var k :| 0 <= k < |versions| && versions[k] == SelectLatest(versions) &&
        (forall j :: 0 <= j < |versions| ==> TripleLe(VersionKey(BaseName(versions[j])), VersionKey(BaseName(versions[k]))));
      assert versions[k] in versions;
      forall v | v in versions ensures TripleLe(VersionKey(BaseName(v)), VersionKey(BaseName(versions[k]))) {
        var j :| 0 <= j < |versions| && versions[j] == v;
      }
    }

    /** `locate_tools`: `zipalign` first, then `apksigner`; the first lookup
        that fails raises. */
    function LocateTools(st: Store, which: PlatformUtils.Which, buildTools: string): (r: Result<(string, string)>)
      ensures r.Ok? <==> FindTool(st, which, buildTools, "zipalign", ZIPALIGN_NAMES).Ok? &&
                         FindTool(st, which, buildTools, "apksigner", APKSIGNER_NAMES).Ok?
      ensures r.Ok? ==> r.value == (FindTool(st, which, buildTools, "zipalign", ZIPALIGN_NAMES).value,
                                    FindTool(st, which, buildTools, "apksigner", APKSIGNER_NAMES).value)
      ensures FindTool(st, which, buildTools, "zipalign", ZIPALIGN_NAMES).Err? ==>
        r == Err(FindTool(st, which, buildTools, "zipalign", ZIPALIGN_NAMES).error)
    {
      var zipalign := FindTool(st, which, buildTools, "zipalign", ZIPALIGN_NAMES);
      if zipalign.Err? then Err(zipalign.error)
      else
        var apksigner := FindTool(st, which, buildTools, "apksigner", APKSIGNER_NAMES);
        if apksigner.Err? then Err(apksigner.error)
        else Ok((zipalign.value, apksigner.value))
    }
  }
}
