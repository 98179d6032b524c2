/** `apk_builder.py`: rebuilding the APK with apktool, and the one retry after
    stripping the multidex attribute from the manifest when apktool rejects
    it. The outcomes of the runs are parameters; the manifest is a file of
    the disk. */
module ApkBuilder {
  import opened Wrappers
  import opened Text
  import opened Fs
  import opened Scan
  import PlatformUtils

  /** The text in apktool's error output that triggers the retry. */
  const MULTIDEX_MARKER := "android:multiDexEnabled"

  /** The attributes `_remove_multidex_from_manifest` removes, in order. */
  const ANDROID_MULTIDEX := "android:multiDexEnabled=\"true\""
  const PLAIN_MULTIDEX := "multiDexEnabled=\"true\""

  // ---------------------------------------------------------------------------
  // Removing the attribute
  // ---------------------------------------------------------------------------

  /** `\s+` followed by `x` at `i`: a whitespace run starting at `i` whose end
      begins `x`. */
  predicate SpacedAt(s: string, x: string, i: nat) {
    i < |s| && IsSpace(s[i]) && StartsWith(s[SkipSpace(s, i)..], x)
  }

  /** `re.sub(r'\s+' + x, "", s)` for a literal `x` that starts with a
      character other than whitespace: a whitespace run is dropped together
      with the `x` after it, and kept when `x` does not follow; scanning
      goes on after each removal. */
  function RemoveSpaced(s: string, x: string): (r: string)
    requires |x| > 0 && !IsSpace(x[0])
    ensures |r| <= |s|
    decreases |s|
  {
    if s == [] then []
    else if IsSpace(s[0]) then
      var j := SkipSpace(s, 0);
      if StartsWith(s[j..], x) then RemoveSpaced(s[j + |x|..], x)
      else s[..j] + RemoveSpaced(s[j..], x)
    else [s[0]] + RemoveSpaced(s[1..], x)
  }

  /** Moving past a prefix shifts the whitespace runs with it. */
  lemma SkipSpaceShift(s: string, k: nat, i: nat)
    requires k <= |s|
    ensures SkipSpace(s[k..], i) + k == SkipSpace(s, i + k)
    decreases |s| - i
  {
    if i < |s[k..]| && IsSpace(s[k..][i]) {
      SkipSpaceShift(s, k, i + 1);
    }
  }

  /** Without a whitespace run followed by `x`, nothing is removed. */
  lemma {:induction false} RemoveNothing(s: string, x: string)
    requires |x| > 0 && !IsSpace(x[0])
    requires forall i :: 0 <= i < |s| ==> !SpacedAt(s, x, i)
    ensures RemoveSpaced(s, x) == s
    decreases |s|
  {
    if s != [] {
      if IsSpace(s[0]) {
        var j := SkipSpace(s, 0);
        assert !SpacedAt(s, x, 0);
        NoneSpacedAfter(s, x, j);
        RemoveNothing(s[j..], x);
        assert s[..j] + s[j..] == s;
      } else {
        NoneSpacedAfter(s, x, 1);
        RemoveNothing(s[1..], x);
      }
    }
  }

  /** What follows a prefix has no whitespace run followed by `x` when the
      whole text has none. */
  lemma NoneSpacedAfter(s: string, x: string, k: nat)
    requires k <= |s|
    requires forall i :: 0 <= i < |s| ==> !SpacedAt(s, x, i)
    ensures forall i :: 0 <= i < |s[k..]| ==> !SpacedAt(s[k..], x, i)
  {
    var t := s[k..];
    forall i | 0 <= i < |t| ensures !SpacedAt(t, x, i) {
      assert t[i] == s[i + k];
      SkipSpaceShift(s, k, i);
      assert t[SkipSpace(t, i)..] == s[SkipSpace(s, i + k)..];
      assert !SpacedAt(s, x, i + k);
    }
  }

  /** No whitespace in `x`. */
  predicate NoSpace(x: string) {
    forall i :: 0 <= i < |x| ==> !IsSpace(x[i])
  }

  /** Text that ends in a character other than whitespace and text that
      starts with whitespace are treated on their own when joined: no
      removal spans the join. */
  lemma {:induction false} RemoveJoined(a: string, t: string, x: string)
    requires |x| > 0 && NoSpace(x)
    requires a == [] || !IsSpace(a[|a| - 1])
    requires |t| > 0 && IsSpace(t[0])
    ensures RemoveSpaced(a + t, x) == RemoveSpaced(a, x) + RemoveSpaced(t, x)
    decreases |a|, 1
  {
    if a == [] {
      assert a + t == t;
    } else if IsSpace(a[0]) && StartsWith(a[SkipSpace(a, 0)..], x) {
      JoinedRunRemoved(a, t, x);
    } else if IsSpace(a[0]) {
      JoinedRunKept(a, t, x);
    } else {
      RemoveJoined(a[1..], t, x);
      JoinedAfterChar(a, t, x);
    }
  }

  /** `RemoveJoined` when `a` starts with whitespace followed by `x`. */
  lemma {:induction false} JoinedRunRemoved(a: string, t: string, x: string)
    requires |x| > 0 && NoSpace(x)
    requires |a| > 0 && IsSpace(a[0]) && !IsSpace(a[|a| - 1])
    requires |t| > 0 && IsSpace(t[0])
    requires StartsWith(a[SkipSpace(a, 0)..], x)
    ensures RemoveSpaced(a + t, x) == RemoveSpaced(a, x) + RemoveSpaced(t, x)
    decreases |a|, 0
  {
    AppendSkip(a, t);
    StartsWithin(a, t, SkipSpace(a, 0), x);
    DropJoin(a, t, SkipSpace(a, 0) + |x|);
    RemoveJoined(a[SkipSpace(a, 0) + |x|..], t, x);
    JoinedAfterRemoval(a, t, x);
  }

  /** `RemoveJoined` when `a` starts with whitespace not followed by `x`. */
  lemma {:induction false} JoinedRunKept(a: string, t: string, x: string)
    requires |x| > 0 && NoSpace(x)
    requires |a| > 0 && IsSpace(a[0]) && !IsSpace(a[|a| - 1])
    requires |t| > 0 && IsSpace(t[0])
    requires !StartsWith(a[SkipSpace(a, 0)..], x)
    ensures RemoveSpaced(a + t, x) == RemoveSpaced(a, x) + RemoveSpaced(t, x)
    decreases |a|, 0
  {
    var j := SkipSpace(a, 0);
    AppendSkip(a, t);
    StartsWithin(a, t, j, x);
    DropJoin(a, t, j);
    RemoveJoined(a[j..], t, x);
    JoinedAfterRun(a, t, x, j);
  }

  /** The step of `RemoveJoined` where `a` starts with a run followed by `x`. */
  lemma JoinedAfterRemoval(a: string, t: string, x: string)
    requires |x| > 0 && NoSpace(x)
    requires |a| > 0 && IsSpace(a[0]) && !IsSpace(a[|a| - 1])
    requires |t| > 0 && IsSpace(t[0])
    requires SkipSpace(a + t, 0) == SkipSpace(a, 0) && StartsWith(a[SkipSpace(a, 0)..], x)
    requires StartsWith((a + t)[SkipSpace(a, 0)..], x)
    requires RemoveSpaced(a[SkipSpace(a, 0) + |x|..] + t, x)
      == RemoveSpaced(a[SkipSpace(a, 0) + |x|..], x) + RemoveSpaced(t, x)
    ensures RemoveSpaced(a + t, x) == RemoveSpaced(a, x) + RemoveSpaced(t, x)
  {
    var s := a + t;
    var j := SkipSpace(a, 0);
    var rest := a[j + |x|..];
    assert s[0] == a[0];
    assert SkipSpace(s, 0) == j;
    assert s[SkipSpace(s, 0) + |x|..] == rest + t;
    assert a[SkipSpace(a, 0) + |x|..] == rest;
    UnfoldRemoved(s, x);
    UnfoldRemoved(a, x);
    assert RemoveSpaced(s, x) == RemoveSpaced(rest + t, x);
    assert RemoveSpaced(a, x) == RemoveSpaced(rest, x);
  }

  /** The step of `RemoveJoined` where `a` starts with a run not followed by
      `x`. */
  lemma JoinedAfterRun(a: string, t: string, x: string, j: nat)
    requires |x| > 0 && !IsSpace(x[0])
    requires |a| > 0 && IsSpace(a[0]) && j <= |a|
    requires SkipSpace(a + t, 0) == j && SkipSpace(a, 0) == j
    requires !StartsWith(a[j..], x) && !StartsWith(a[j..] + t, x)
    requires RemoveSpaced(a[j..] + t, x) == RemoveSpaced(a[j..], x) + RemoveSpaced(t, x)
    ensures RemoveSpaced(a + t, x) == RemoveSpaced(a, x) + RemoveSpaced(t, x)
  {
    var run, rest := a[..j], a[j..];
    assert RemoveSpaced(a + t, x) == run + RemoveSpaced(rest + t, x) by {
      SplitJoin(a, t, j);
      UnfoldRunAt(a + t, run, rest + t, x);
    }
    assert RemoveSpaced(a, x) == run + RemoveSpaced(rest, x) by {
      assert a == run + rest;
      UnfoldRunAt(a, run, rest, x);
    }
    Associative(run, RemoveSpaced(rest, x), RemoveSpaced(t, x));
  }

  /** The step of `RemoveJoined` where `a` starts with another character. */
  lemma JoinedAfterChar(a: string, t: string, x: string)
    requires |x| > 0 && NoSpace(x)
    requires |a| > 0 && !IsSpace(a[0])
    requires RemoveSpaced(a[1..] + t, x) == RemoveSpaced(a[1..], x) + RemoveSpaced(t, x)
    ensures RemoveSpaced(a + t, x) == RemoveSpaced(a, x) + RemoveSpaced(t, x)
  {
    var u := a[1..] + t;
    SplitJoin(a, t, 1);
    assert a[..1] == [a[0]];
    UnfoldCharAt(a + t, a[0], u, x);
    UnfoldCharAt(a, a[0], a[1..], x);
    Associative([a[0]], RemoveSpaced(a[1..], x), RemoveSpaced(t, x));
  }

  /** Unfolding one character other than whitespace. */
  lemma UnfoldCharAt(s: string, c: char, u: string, x: string)
    requires |x| > 0 && !IsSpace(x[0])
    requires s == [c] + u && !IsSpace(c)
    ensures RemoveSpaced(s, x) == [c] + RemoveSpaced(u, x)
  {
    assert s[0] == c && s[1..] == u;
  }

  /** Unfolding a whitespace run `run` that `x` does not follow. */
  lemma UnfoldRunAt(s: string, run: string, u: string, x: string)
    requires |x| > 0 && !IsSpace(x[0])
    requires s == run + u && |run| > 0 && SkipSpace(s, 0) == |run| && IsSpace(s[0])
    requires !StartsWith(u, x)
    ensures RemoveSpaced(s, x) == run + RemoveSpaced(u, x)
  {
    assert s[..SkipSpace(s, 0)] == run && s[SkipSpace(s, 0)..] == u;
  }

  /** Dropping a prefix of `a` from `a + t`; what is left of `a` ends as `a`
      does. */
  lemma DropJoin(a: string, t: string, j: nat)
    requires j <= |a|
    ensures (a + t)[j..] == a[j..] + t
    ensures j < |a| ==> a[j..][|a| - j - 1] == a[|a| - 1]
  {
  }

  /** Cutting `a` at `j` inside `a + t`. */
  lemma SplitJoin(a: string, t: string, j: nat)
    requires j <= |a|
    ensures a + t == a[..j] + (a[j..] + t)
  {
    assert a == a[..j] + a[j..];
  }

  /** Concatenation is associative. */
  lemma Associative(p: string, q: string, r: string)
    ensures p + (q + r) == (p + q) + r
  {
  }

  /** A whitespace run followed by `x` is removed together with `x`. */
  lemma RemoveLeading(ws: string, x: string, b: string)
    requires |x| > 0 && NoSpace(x)
    requires |ws| > 0 && forall i :: 0 <= i < |ws| ==> IsSpace(ws[i])
    ensures RemoveSpaced(ws + x + b, x) == RemoveSpaced(b, x)
  {
    var s := ws + x + b;
    assert s == ws + (x + b);
    RunTo(s, 0, |ws|);
    assert s[|ws|..] == x + b;
    assert StartsWith(s[|ws|..], x) by {
      assert (x + b)[..|x|] == x;
    }
    assert s[|ws| + |x|..] == b;
    UnfoldRemoved(s, x);
  }

  /** An occurrence of `x` after whitespace, behind text that ends in a
      character other than whitespace, is removed with that whitespace; the
      text on either side is treated on its own. */
  lemma RemoveOccurrence(a: string, ws: string, x: string, b: string)
    requires |x| > 0 && NoSpace(x)
    requires a == [] || !IsSpace(a[|a| - 1])
    requires |ws| > 0 && forall i :: 0 <= i < |ws| ==> IsSpace(ws[i])
    ensures RemoveSpaced(a + ws + x + b, x) == RemoveSpaced(a, x) + RemoveSpaced(b, x)
  {
    var t := ws + x + b;
    assert a + ws + x + b == a + t;
    RemoveJoined(a, t, x);
    RemoveLeading(ws, x, b);
  }

  /** Unfolding a whitespace run that `x` follows. */
  lemma UnfoldRemoved(s: string, x: string)
    requires |x| > 0 && !IsSpace(x[0])
    requires s != [] && IsSpace(s[0]) && StartsWith(s[SkipSpace(s, 0)..], x)
    ensures SkipSpace(s, 0) + |x| <= |s|
    ensures RemoveSpaced(s, x) == RemoveSpaced(s[SkipSpace(s, 0) + |x|..], x)
  {
  }

  /** A run of whitespace from `i` up to a character other than whitespace
      at `e` ends at `e`. */
  lemma RunTo(s: string, i: nat, e: nat)
    requires i <= e < |s| && !IsSpace(s[e])
    requires forall k :: i <= k < e ==> IsSpace(s[k])
    ensures SkipSpace(s, i) == e
    decreases e - i
  {
    if i < e {
      RunTo(s, i + 1, e);
    }
  }

  /** A whitespace run at the start of `a`, which ends in another character,
      ends at the same place in `a + t`. */
  lemma AppendSkip(a: string, t: string)
    requires |a| > 0 && IsSpace(a[0]) && !IsSpace(a[|a| - 1])
    ensures SkipSpace(a + t, 0) == SkipSpace(a, 0) && SkipSpace(a, 0) < |a|
  {
    var j := SkipSpace(a, 0);
    if j == |a| {
      assert false;
    }
    RunTo(a + t, 0, j);
  }

  /** A text `x` without whitespace cannot run from `a` into a `t` that
      starts with whitespace. */
  lemma StartsWithin(a: string, t: string, j: nat, x: string)
    requires j < |a| && |t| > 0 && IsSpace(t[0]) && NoSpace(x)
    ensures StartsWith((a + t)[j..], x) <==> StartsWith(a[j..], x)
    ensures StartsWith(a[j..], x) ==> j + |x| <= |a|
  {
    var s := a + t;
    assert s[j..][|a| - j] == t[0];
    if StartsWith(s[j..], x) && j + |x| <= |a| {
      assert a[j..][..|x|] == s[j..][..|x|];
    }
    if StartsWith(a[j..], x) {
      assert s[j..][..|x|] == a[j..][..|x|];
    }
  }

  /** Neither attribute contains whitespace. */
  lemma MultidexPatternsUnspaced()
    ensures NoSpace(ANDROID_MULTIDEX) && NoSpace(PLAIN_MULTIDEX)
  {
    forall i | 0 <= i < |ANDROID_MULTIDEX| ensures !IsSpace(ANDROID_MULTIDEX[i]) {
      AsciiSpace(ANDROID_MULTIDEX[i]);
    }
    forall i | 0 <= i < |PLAIN_MULTIDEX| ensures !IsSpace(PLAIN_MULTIDEX[i]) {
      AsciiSpace(PLAIN_MULTIDEX[i]);
    }
  }

  /** `_remove_multidex_from_manifest`: the Android-namespaced attribute
      first, then the plain one. */
  function RemoveMultidex(content: string): (r: string)
    ensures |r| <= |content|
  {
    MultidexPatternsUnspaced();
    RemoveSpaced(RemoveSpaced(content, ANDROID_MULTIDEX), PLAIN_MULTIDEX)
  }

  /** A manifest in which neither attribute follows whitespace is written
      back as it was. */
  lemma RemoveMultidexKeeps(content: string)
    requires forall i :: 0 <= i < |content| ==> !SpacedAt(content, ANDROID_MULTIDEX, i)
    requires forall i :: 0 <= i < |content| ==> !SpacedAt(content, PLAIN_MULTIDEX, i)
    ensures RemoveMultidex(content) == content
  {
    MultidexPatternsUnspaced();
    RemoveNothing(content, ANDROID_MULTIDEX);
    RemoveNothing(content, PLAIN_MULTIDEX);
  }

  /** The first pass drops ` android:multiDexEnabled="true"` with the
      whitespace before it, and the second pass then sees the two sides on
      their own; likewise for the plain attribute in the second pass. */
  lemma RemoveMultidexOccurrence(a: string, ws: string, b: string)
    requires a == [] || !IsSpace(a[|a| - 1])
    requires |ws| > 0 && forall i :: 0 <= i < |ws| ==> IsSpace(ws[i])
    ensures RemoveSpaced(a + ws + ANDROID_MULTIDEX + b, ANDROID_MULTIDEX)
      == RemoveSpaced(a, ANDROID_MULTIDEX) + RemoveSpaced(b, ANDROID_MULTIDEX)
    ensures RemoveSpaced(a + ws + PLAIN_MULTIDEX + b, PLAIN_MULTIDEX)
      == RemoveSpaced(a, PLAIN_MULTIDEX) + RemoveSpaced(b, PLAIN_MULTIDEX)
  {
    MultidexPatternsUnspaced();
    RemoveOccurrence(a, ws, ANDROID_MULTIDEX, b);
    RemoveOccurrence(a, ws, PLAIN_MULTIDEX, b);
  }

  // ---------------------------------------------------------------------------
  // Building
  // ---------------------------------------------------------------------------

  const MANIFEST_FILE := "AndroidManifest.xml"
  const BUILD_STEP := "apktool build"
  const RETRY_STEP := "apktool build (after removing multidex)"

  /** The command of `build`. */
  function BuildCommand(apktoolJar: string, moddedDir: string, outputApk: string): seq<string> {
    ["java", "-jar", apktoolJar, "b", moddedDir, "-o", outputApk]
  }

  /** The command builds (`b`) the modded directory with apktool into the
      output APK (`-o`). */
  lemma BuildCommandShape(apktoolJar: string, moddedDir: string, outputApk: string)
    ensures var cmd := BuildCommand(apktoolJar, moddedDir, outputApk);
      |cmd| == 7 && cmd[..3] == ["java", "-jar", apktoolJar] && cmd[3] == "b" && cmd[4] == moddedDir
      && cmd[|cmd| - 2..] == ["-o", outputApk]
  {
  }

  /** `_check_result`. */
  function CheckResult(p: PlatformUtils.Completed, step: string): Result<()> {
    if p.returncode != 0 then
      Err(Error(RuntimeError, step + " failed: " + PlatformUtils.Truncated(PlatformUtils.ErrorOutput(p))))
    else Ok(())
  }

  /** `_check_result` accepts exactly a zero return code and raises the error
      `run_command_checked` raises with the prefix `<step> failed`: stderr,
      else stdout, cut to 500 characters and `...`. */
  lemma CheckResultAsChecked(cmd: seq<string>, p: PlatformUtils.Completed, step: string)
    ensures CheckResult(p, step).Ok? <==> p.returncode == 0
    ensures var checked := PlatformUtils.RunCommandChecked(cmd, PlatformUtils.Ran(p), step + " failed");
      CheckResult(p, step).Err? ==> checked.Err? && checked.error == CheckResult(p, step).error
  {
    if p.returncode != 0 {
      var out := PlatformUtils.Truncated(PlatformUtils.ErrorOutput(p));
      assert step + " failed: " + out == step + " failed" + ": " + out;
    }
  }

  /** The condition of the retry in `build`. */
  predicate NeedsRetry(p: PlatformUtils.Completed) {
    p.returncode != 0 && Contains(p.stderr, MULTIDEX_MARKER)
  }

  /** What `build` returns and the files it leaves, given the file system
      and the outcomes of the first run and, when there is one, the rebuild. */
  function BuildSpec(files: map<string, string>, dirs: set<string>, cmd: seq<string>, moddedDir: string,
                     first: PlatformUtils.Launch, second: PlatformUtils.Launch): (Result<bool>, map<string, string>)
  {
    match PlatformUtils.RunCommand(cmd, first)
    case Err(e) => (Err(e), files)
    case Ok(p) =>
      if !NeedsRetry(p) then
        (match CheckResult(p, BUILD_STEP) case Err(e) => Err(e) case Ok(_) => Ok(true), files)
      else RetrySpec(files, dirs, cmd, moddedDir, second)
  }

  /** `_retry_without_multidex`. */
  function RetrySpec(files: map<string, string>, dirs: set<string>, cmd: seq<string>, moddedDir: string,
                     second: PlatformUtils.Launch): (Result<bool>, map<string, string>)
  {
    var manifest := JoinPath(moddedDir, MANIFEST_FILE);
    if manifest in files then
      var files' := files[manifest := RemoveMultidex(files[manifest])];
      match PlatformUtils.RunCommand(cmd, second)
      case Err(e) => (Err(e), files')
      case Ok(p) => (match CheckResult(p, RETRY_STEP) case Err(e) => Err(e) case Ok(_) => Ok(true), files')
    else if manifest in dirs then
      (Err(Error(OSError, "[Errno 21] Is a directory: '" + manifest + "'")), files)
    else (Ok(false), files)
  }

  /** Without the multidex complaint there is no retry: the files stay as
      they were, and the build succeeds exactly on a zero return code. */
  lemma NoRetryWithoutMarker(files: map<string, string>, dirs: set<string>, cmd: seq<string>, moddedDir: string,
                             p: PlatformUtils.Completed, second: PlatformUtils.Launch)
    requires p.returncode == 0 || !Contains(p.stderr, MULTIDEX_MARKER)
    ensures var (r, files') := BuildSpec(files, dirs, cmd, moddedDir, PlatformUtils.Ran(p), second);
      files' == files && (r == Ok(true) <==> p.returncode == 0)
      && (r.Err? <==> p.returncode != 0)
      && (r.Err? ==> r.error == CheckResult(p, BUILD_STEP).error)
  {
  }

  /** A failure that names `android:multiDexEnabled` retries, and a retry
      without the manifest reports `False`, changes nothing and does not
      depend on a rebuild. */
  lemma RetryWithoutManifest(files: map<string, string>, dirs: set<string>, cmd: seq<string>, moddedDir: string,
                             p: PlatformUtils.Completed, second: PlatformUtils.Launch, other: PlatformUtils.Launch)
    requires NeedsRetry(p)
    requires JoinPath(moddedDir, MANIFEST_FILE) !in files && JoinPath(moddedDir, MANIFEST_FILE) !in dirs
    ensures BuildSpec(files, dirs, cmd, moddedDir, PlatformUtils.Ran(p), second) == (Ok(false), files)
    ensures BuildSpec(files, dirs, cmd, moddedDir, PlatformUtils.Ran(p), other) == (Ok(false), files)
  {
  }

  /** A retry with the manifest rewrites it without the attribute, changes
      no other file, and succeeds exactly when the rebuild returns 0; the
      outcome of the first run beyond its complaint does not matter. */
  lemma RetryWithManifest(files: map<string, string>, dirs: set<string>, cmd: seq<string>, moddedDir: string,
                          p: PlatformUtils.Completed, second: PlatformUtils.Launch)
    requires NeedsRetry(p)
    requires JoinPath(moddedDir, MANIFEST_FILE) in files
    ensures var manifest := JoinPath(moddedDir, MANIFEST_FILE);
      var (r, files') := BuildSpec(files, dirs, cmd, moddedDir, PlatformUtils.Ran(p), second);
      files'.Keys == files.Keys && files'[manifest] == RemoveMultidex(files[manifest])
      && (forall f :: f in files && f != manifest ==> files'[f] == files[f])
      && (r == Ok(true) <==> second.Ran? && second.process.returncode == 0)
      && (r.Err? <==> !(second.Ran? && second.process.returncode == 0))
      && (second.Ran? && r.Err? ==> r.error == CheckResult(second.process, RETRY_STEP).error)
  {
  }

  /** `build` never reports `False` except for a retry without a manifest,
      and a process that does not start is a RuntimeError. */
  lemma BuildFalseOnlyWithoutManifest(files: map<string, string>, dirs: set<string>, cmd: seq<string>, moddedDir: string,
                                      first: PlatformUtils.Launch, second: PlatformUtils.Launch)
    ensures var (r, _) := BuildSpec(files, dirs, cmd, moddedDir, first, second);
      r == Ok(false) <==>
        first.Ran? && NeedsRetry(first.process) && JoinPath(moddedDir, MANIFEST_FILE) !in files
        && JoinPath(moddedDir, MANIFEST_FILE) !in dirs
    ensures !first.Ran? ==>
      (BuildSpec(files, dirs, cmd, moddedDir, first, second).0.Err?
       && BuildSpec(files, dirs, cmd, moddedDir, first, second).0.error.kind == RuntimeError)
  {
  }

  class ApkBuilder {
    const apktoolJar: string

    constructor (apktoolJar: string)
      ensures this.apktoolJar == apktoolJar
    {
      this.apktoolJar := apktoolJar;
    }

    /** `build`: run apktool; on a failure that names the multidex
        attribute, `_retry_without_multidex` instead of the check. */
    method Build(disk: Disk, moddedDir: string, outputApk: string,
                 first: PlatformUtils.Launch, second: PlatformUtils.Launch) returns (r: Result<bool>)
      modifies disk
      ensures (r, disk.files) == BuildSpec(old(disk.files), old(disk.dirs), BuildCommand(apktoolJar, moddedDir, outputApk), moddedDir, first, second)
      ensures disk.dirs == old(disk.dirs)
    {
      var cmd := BuildCommand(apktoolJar, moddedDir, outputApk);
      var result := PlatformUtils.RunCommand(cmd, first);
      if result.Err? {
        return Err(result.error);
      }
      if result.value.returncode != 0 && Contains(result.value.stderr, MULTIDEX_MARKER) {
        r := RetryWithoutMultidex(disk, moddedDir, cmd, second);
        return;
      }
      var checked := CheckResult(result.value, BUILD_STEP);
      if checked.Err? {
        return Err(checked.error);
      }
      return Ok(true);
    }

    /** `_retry_without_multidex`. */
    method RetryWithoutMultidex(disk: Disk, moddedDir: string, cmd: seq<string>, second: PlatformUtils.Launch)
      returns (r: Result<bool>)
      modifies disk
      ensures (r, disk.files) == RetrySpec(old(disk.files), old(disk.dirs), cmd, moddedDir, second)
      ensures disk.dirs == old(disk.dirs)
    {
      var manifest := JoinPath(moddedDir, MANIFEST_FILE);
      if manifest in disk.files {
        RemoveMultidexFromManifest(disk, manifest);
        var result := PlatformUtils.RunCommand(cmd, second);
        if result.Err? {
          return Err(result.error);
        }
        var checked := CheckResult(result.value, RETRY_STEP);
        if checked.Err? {
          return Err(checked.error);
        }
        return Ok(true);
      }
      if manifest in disk.dirs {
        return Err(Error(OSError, "[Errno 21] Is a directory: '" + manifest + "'"));
      }
      return Ok(false);
    }

    /** `_remove_multidex_from_manifest`: read, rewrite, write back. */
    static method RemoveMultidexFromManifest(disk: Disk, manifest: string)
      requires manifest in disk.files
      modifies disk
      ensures disk.files == old(disk.files)[manifest := RemoveMultidex(old(disk.files)[manifest])]
      ensures disk.dirs == old(disk.dirs)
    {
      var content := disk.files[manifest];
      disk.WriteText(manifest, RemoveMultidex(content));
    }
  }
}
