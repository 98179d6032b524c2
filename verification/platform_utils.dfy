/** `platform_utils.py`: running commands and checking their results, the
    argument files handed to the compilers, the compiler error report, and the
    search for an executable. The operating system's name, `shutil.which`, the
    environment and the existing paths are parameters. */
module PlatformUtils {
  import opened Wrappers
  import opened Text
  import opened Fs

  // ---------------------------------------------------------------------------
  // Platforms and executables
  // ---------------------------------------------------------------------------

  /** `platform.system()` names with a Unix flavour. */
  const UNIX_SYSTEMS := ["Linux", "Darwin", "FreeBSD", "OpenBSD", "NetBSD"]

  /** `_get_platform_extensions`: the suffixes tried after a bare name. */
  function PlatformExtensions(system: string): (exts: seq<string>)
    ensures |exts| > 0 && exts[0] == ""
    ensures system == "Windows" ==> exts == ["", ".exe", ".bat", ".cmd", ".ps1"]
    ensures system != "Windows" && system in UNIX_SYSTEMS ==> exts == ["", ".sh", ".bash"]
    ensures system != "Windows" && system !in UNIX_SYSTEMS ==> exts == [""]
  {
    if system == "Windows" then ["", ".exe", ".bat", ".cmd", ".ps1"]
    else if system in UNIX_SYSTEMS then ["", ".sh", ".bash"]
    else [""]
  }

  /** `shutil.which`: the path of an executable on PATH, or None. */
  type Which = string -> Option<string>

  /** A path as Python tests it: None and "" are falsy. */
  predicate Found(p: Option<string>) {
    p.Some? && p.value != ""
  }

  /** The first extension from `i` on for which `which(name + ext)` finds something. */
  function WhichFirst(which: Which, name: string, exts: seq<string>, i: nat): (r: Option<string>)
    requires i <= |exts|
    ensures r.Some? ==> exists k :: i <= k < |exts| && Found(which(name + exts[k])) && r == which(name + exts[k])
    ensures r.None? ==> forall k :: i <= k < |exts| ==> !Found(which(name + exts[k]))
    decreases |exts| - i
  {
    if i == |exts| then None
    else if Found(which(name + exts[i])) then which(name + exts[i])
    else WhichFirst(which, name, exts, i + 1)
  }

  /** `_search_in_paths`: the first existing `dir/(name + ext)`, directories
      outermost and only those that exist. */
  function SearchInPaths(name: string, exts: seq<string>, paths: seq<string>, existing: set<string>): (r: Option<string>)
    ensures r.Some? ==> exists d, e :: (0 <= d < |paths| && 0 <= e < |exts|
      && paths[d] in existing && r.value == JoinPath(paths[d], name + exts[e]) && r.value in existing)
    ensures r.None? ==> forall d, e :: (0 <= d < |paths| && 0 <= e < |exts| && paths[d] in existing
      ==> JoinPath(paths[d], name + exts[e]) !in existing)
  {
    if paths == [] then None
    else
      var here := if paths[0] in existing then FirstExisting(paths[0], name, exts, 0, existing) else None;
      if here.Some? then here
      else
        var rest := SearchInPaths(name, exts, paths[1..], existing);
        assert rest.Some? ==> exists d, e :: (0 <= d < |paths| && 0 <= e < |exts|
          && paths[d] in existing && rest.value == JoinPath(paths[d], name + exts[e]) && rest.value in existing) by {
          if rest.Some? {
            var d, e :| 0 <= d < |paths[1..]| && 0 <= e < |exts| && paths[1..][d] in existing
              && rest.value == JoinPath(paths[1..][d], name + exts[e]) && rest.value in existing;
            assert paths[d + 1] == paths[1..][d];
          }
        }
        assert rest.None? ==> forall d, e :: (0 <= d < |paths| && 0 <= e < |exts| && paths[d] in existing
          ==> JoinPath(paths[d], name + exts[e]) !in existing) by {
          if rest.None? {
            forall d, e | 0 <= d < |paths| && 0 <= e < |exts| && paths[d] in existing
              ensures JoinPath(paths[d], name + exts[e]) !in existing
            {
              if d > 0 {
                assert paths[d] == paths[1..][d - 1];
              }
            }
          }
        }
        rest
  }

  /** The first extension from `i` on whose file exists in `dir`. */
  function FirstExisting(dir: string, name: string, exts: seq<string>, i: nat, existing: set<string>): (r: Option<string>)
    requires i <= |exts|
    ensures r.Some? ==> exists e :: i <= e < |exts| && r.value == JoinPath(dir, name + exts[e]) && r.value in existing
    ensures r.None? ==> forall e :: i <= e < |exts| ==> JoinPath(dir, name + exts[e]) !in existing
    decreases |exts| - i
  {
    if i == |exts| then None
    else if JoinPath(dir, name + exts[i]) in existing then Some(JoinPath(dir, name + exts[i]))
    else FirstExisting(dir, name, exts, i + 1, existing)
  }

  /** `find_executable(name, additional_paths)`. */
  function FindExecutable(name: string, which: Which, system: string, additional: seq<string>, existing: set<string>): Option<string> {
    if Found(which(name)) then which(name)
    else
      var exts := PlatformExtensions(system);
      var w := WhichFirst(which, name, exts, 0);
      if w.Some? then w
      else if additional != [] then SearchInPaths(name, exts, additional, existing)
      else None
  }

  /** The search order: PATH under the bare name, then PATH with each platform
      extension, then the extra directories; nothing is found only when every
      probe fails. */
  lemma FindExecutableOrder(name: string, which: Which, system: string, additional: seq<string>, existing: set<string>)
    ensures Found(which(name)) ==> FindExecutable(name, which, system, additional, existing) == which(name)
    ensures var exts := PlatformExtensions(system);
      !Found(which(name)) && WhichFirst(which, name, exts, 0).Some? ==>
        FindExecutable(name, which, system, additional, existing) == WhichFirst(which, name, exts, 0)
    ensures var exts := PlatformExtensions(system);
      FindExecutable(name, which, system, additional, existing).None? <==>
        (forall k :: 0 <= k < |exts| ==> !Found(which(name + exts[k])))
        && (forall d, e :: (0 <= d < |additional| && 0 <= e < |exts| && additional[d] in existing
              ==> JoinPath(additional[d], name + exts[e]) !in existing))
  {
    var exts := PlatformExtensions(system);
    assert name + exts[0] == name;
  }

  /** `find_executable`, its loops written out. */
  method FindExecutableLoop(name: string, which: Which, system: string, additional: seq<string>, existing: set<string>)
    returns (path: Option<string>)
    ensures path == FindExecutable(name, which, system, additional, existing)
  {
    var direct := which(name);
    if Found(direct) {
      return direct;
    }
    var exts := PlatformExtensions(system);
    for i := 0 to |exts|
      invariant WhichFirst(which, name, exts, 0) == WhichFirst(which, name, exts, i)
    {
      var candidate := which(name + exts[i]);
      if Found(candidate) {
        return candidate;
      }
    }
    if additional == [] {
      return None;
    }
    path := SearchLoop(name, exts, additional, existing);
  }

  /** `_search_in_paths`, its loops written out. */
  method SearchLoop(name: string, exts: seq<string>, paths: seq<string>, existing: set<string>) returns (path: Option<string>)
    ensures path == SearchInPaths(name, exts, paths, existing)
  {
    for d := 0 to |paths|
      invariant SearchInPaths(name, exts, paths, existing) == SearchInPaths(name, exts, paths[d..], existing)
    {
      assert paths[d..][1..] == paths[d + 1..];
      if paths[d] in existing {
        for e := 0 to |exts|
          invariant FirstExisting(paths[d], name, exts, 0, existing) == FirstExisting(paths[d], name, exts, e, existing)
        {
          var file := JoinPath(paths[d], name + exts[e]);
          if file in existing {
            return Some(file);
          }
        }
      }
    }
    return None;
  }

  // ---------------------------------------------------------------------------
  // Running commands
  // ---------------------------------------------------------------------------

  /** `subprocess.CompletedProcess` with captured text output. */
  datatype Completed = Completed(returncode: int, stdout: string, stderr: string)

  /** What `subprocess.run` does: complete, or raise FileNotFoundError or
      another launch error (with its text). */
  datatype Launch = Ran(process: Completed) | NotFound(error: string) | LaunchFailed(error: string)

  const MAX_ERROR_LENGTH := 500

  /** `msg[:500] + "..."` for a message longer than 500 characters. */
  function Truncated(s: string): (r: string)
    ensures |s| <= MAX_ERROR_LENGTH ==> r == s
    ensures |s| > MAX_ERROR_LENGTH ==> |r| == MAX_ERROR_LENGTH + 3
    ensures |s| > MAX_ERROR_LENGTH ==> r[..MAX_ERROR_LENGTH] == s[..MAX_ERROR_LENGTH] && r[MAX_ERROR_LENGTH..] == "..."
  {
    if |s| > MAX_ERROR_LENGTH then s[..MAX_ERROR_LENGTH] + "..." else s
  }

  /** `result.stderr if result.stderr else result.stdout`. */
  function ErrorOutput(p: Completed): string {
    if p.stderr != "" then p.stderr else p.stdout
  }

  /** `run_command(cmd)`: the launch errors become RuntimeError. */
  function RunCommand(cmd: seq<string>, launch: Launch): (r: Result<Completed>)
    ensures r.Ok? <==> launch.Ran?
    ensures r.Ok? ==> r.value == launch.process
    ensures r.Err? ==> r.error.kind == RuntimeError
  {
    match launch
    case Ran(p) => Ok(p)
    case NotFound(e) => Err(Error(RuntimeError, "Command not found: " + Join(cmd, " ") + "\nError: " + e))
    case LaunchFailed(e) => Err(Error(RuntimeError, "Failed to run command: " + e))
  }

  /** `run_command_checked(cmd, error_prefix)`. */
  function RunCommandChecked(cmd: seq<string>, launch: Launch, prefix: string): Result<Completed> {
    var r := RunCommand(cmd, launch);
    if r.Err? then r
    else if r.value.returncode != 0 then Err(Error(RuntimeError, prefix + ": " + Truncated(ErrorOutput(r.value))))
    else r
  }

  /** The checked run succeeds exactly for a launched process with return code
      0; a non-zero code raises RuntimeError with the prefix and the output,
      cut to 500 characters. */
  lemma RunCheckedOutcome(cmd: seq<string>, launch: Launch, prefix: string)
    ensures var r := RunCommandChecked(cmd, launch, prefix);
      (r.Ok? <==> launch.Ran? && launch.process.returncode == 0) && (r.Ok? ==> r.value == launch.process)
    ensures var r := RunCommandChecked(cmd, launch, prefix);
      r.Err? ==> r.error.kind == RuntimeError
    ensures var r := RunCommandChecked(cmd, launch, prefix);
      launch.Ran? && launch.process.returncode != 0 ==>
        r.Err? && StartsWith(r.error.message, prefix + ": ")
        && |r.error.message| <= |prefix| + 2 + MAX_ERROR_LENGTH + 3
  {
    var r := RunCommandChecked(cmd, launch, prefix);
    if launch.Ran? && launch.process.returncode != 0 {
      var head := prefix + ": ";
      assert r.error.message == head + Truncated(ErrorOutput(launch.process));
      assert r.error.message[..|head|] == head;
    }
  }

  /** Text cut by `Truncated` keeps the start of the original. */
  lemma TruncatedPrefix(s: string)
    ensures |Truncated(s)| <= MAX_ERROR_LENGTH + 3
    ensures var n := if |s| < MAX_ERROR_LENGTH then |s| else MAX_ERROR_LENGTH;
      Truncated(s)[..n] == s[..n]
  {
  }

  /** The values `run_command` passes to `subprocess.run` for its own keyword arguments. */
  datatype KwValue = Flag(b: bool) | Str(s: string) | Environment(env: map<string, string>)

  const UTF8_LOCALE := "C.UTF-8"
  const UTF8_ENCODING := "utf-8"

  /** The defaults of `run_command`, in their order; `env` is a copy of the
      environment with the encoding variables set. */
  function Defaults(environ: map<string, string>): (d: seq<(string, KwValue)>)
    ensures |d| == 6
  {
    [("capture_output", Flag(true)), ("text", Flag(true)), ("encoding", Str(UTF8_ENCODING)),
     ("errors", Str("replace")), ("shell", Flag(false)),
     ("env", Environment(environ["PYTHONIOENCODING" := UTF8_ENCODING]["LC_ALL" := UTF8_LOCALE]))]
  }

  function DefaultKeys(d: seq<(string, KwValue)>): set<string> {
    set i | 0 <= i < |d| :: d[i].0
  }

  /** The keyword arguments after filling in the defaults `d`, in order, for
      every key not yet present. */
  function FillDefaults(kwargs: map<string, KwValue>, d: seq<(string, KwValue)>): map<string, KwValue>
    decreases |d|
  {
    if d == [] then kwargs
    else
      var m := FillDefaults(kwargs, d[..|d| - 1]);
      var key := d[|d| - 1].0;
      if key !in m then m[key := d[|d| - 1].1] else m
  }

  /** What the caller gave stays, every default key is present, and a default
      the caller did not give has the first value listed for it. */
  lemma {:induction false} FillDefaultsKeeps(kwargs: map<string, KwValue>, d: seq<(string, KwValue)>)
    ensures FillDefaults(kwargs, d).Keys == kwargs.Keys + DefaultKeys(d)
    ensures forall k :: k in kwargs ==> FillDefaults(kwargs, d)[k] == kwargs[k]
    decreases |d|
  {
    if d != [] {
      var init := d[..|d| - 1];
      FillDefaultsKeeps(kwargs, init);
      assert DefaultKeys(d) == DefaultKeys(init) + {d[|d| - 1].0} by {
        assert forall j :: 0 <= j < |init| ==> d[j] == init[j];
      }
    }
  }

  lemma {:induction false} FillDefaultsAdds(kwargs: map<string, KwValue>, d: seq<(string, KwValue)>, i: nat)
    requires i < |d| && d[i].0 !in kwargs
    requires forall j :: 0 <= j < i ==> d[j].0 != d[i].0
    ensures d[i].0 in FillDefaults(kwargs, d) && FillDefaults(kwargs, d)[d[i].0] == d[i].1
    decreases |d|
  {
    var init := d[..|d| - 1];
    FillDefaultsKeeps(kwargs, init);
    if i < |d| - 1 {
      FillDefaultsAdds(kwargs, init, i);
    } else {
      assert d[i].0 !in DefaultKeys(init);
    }
  }

  /** The six default keys are distinct. */
  lemma DefaultsDistinct(environ: map<string, string>)
    ensures forall i, j :: 0 <= i < j < 6 ==> Defaults(environ)[i].0 != Defaults(environ)[j].0
  {
  }

  /** `run_command`'s loop over its defaults. */
  method MergeKwargs(kwargs: map<string, KwValue>, environ: map<string, string>) returns (merged: map<string, KwValue>)
    ensures merged == FillDefaults(kwargs, Defaults(environ))
  {
    var defaults := Defaults(environ);
    merged := kwargs;
    for i := 0 to |defaults|
      invariant merged == FillDefaults(kwargs, defaults[..i])
    {
      assert defaults[..i + 1][..i] == defaults[..i];
      var key := defaults[i].0;
      if key !in merged {
        merged := merged[key := defaults[i].1];
      }
    }
    assert defaults[..|defaults|] == defaults;
  }

  // ---------------------------------------------------------------------------
  // `create_arg_file`
  // ---------------------------------------------------------------------------

  /** An argument as the compilers' callers pass it: a path (written resolved
      to an absolute path) or any other value (written with `str`). */
  datatype Arg = PathArg(path: string) | TextArg(text: string)

  function EscapeChar(c: char): string {
    if c == '\\' then "\\\\" else if c == '"' then "\\\"" else [c]
  }

  /** Backslashes and double quotes each preceded by a backslash. */
  function Escaped(s: string): (r: string)
    ensures ' ' in s <==> ' ' in r
    ensures '\n' in s <==> '\n' in r
  {
    if s == [] then [] else EscapeChar(s[0]) + Escaped(s[1..])
  }

  /** The two `replace` calls, backslashes first, escape character by character. */
  lemma {:induction false} EscapedByReplace(s: string)
    ensures ReplaceAll(ReplaceAll(s, "\\", "\\\\"), "\"", "\\\"") == Escaped(s)
  {
    ReplaceAllChar(s, '\\', "\\\\");
    ReplaceAllChar(ReplaceChar(s, '\\', "\\\\"), '"', "\\\"");
    ReplaceTwice(s);
  }

  lemma {:induction false} ReplaceTwice(s: string)
    ensures ReplaceChar(ReplaceChar(s, '\\', "\\\\"), '"', "\\\"") == Escaped(s)
    decreases |s|
  {
    if s != [] {
      var h := if s[0] == '\\' then "\\\\" else [s[0]];
      assert ReplaceChar(s, '\\', "\\\\") == h + ReplaceChar(s[1..], '\\', "\\\\");
      ReplaceCharAppend(h, ReplaceChar(s[1..], '\\', "\\\\"), '"', "\\\"");
      ReplaceTwice(s[1..]);
      if s[0] == '\\' {
        assert ReplaceChar(h, '"', "\\\"") == "\\\\" by {
          assert ReplaceChar(h[1..], '"', "\\\"") == "\\";
        }
      } else if s[0] == '"' {
        assert ReplaceChar(h, '"', "\\\"") == "\\\"";
      } else {
        assert ReplaceChar(h, '"', "\\\"") == [s[0]];
      }
    }
  }

  /** The text written for one argument, without its line break: escaped, and
      in double quotes when it contains a space. */
  function ArgText(a: Arg, resolve: string -> string): string {
    var s := match a
      case PathArg(p) => resolve(p)
      case TextArg(t) => t;
    var e := ReplaceAll(ReplaceAll(s, "\\", "\\\\"), "\"", "\\\"");
    if ' ' in e then "\"" + e + "\"" else e
  }

  /** The value an argument stands for. */
  function ArgValue(a: Arg, resolve: string -> string): string {
    match a
    case PathArg(p) => resolve(p)
    case TextArg(t) => t
  }

  /** The contents of the argument file: one line per argument. */
  function ArgFileText(args: seq<Arg>, resolve: string -> string): string
    decreases |args|
  {
    if args == [] then "" else ArgFileText(args[..|args| - 1], resolve) + ArgText(args[|args| - 1], resolve) + "\n"
  }

  /** `create_arg_file`'s loop, writing one line per argument. */
  method WriteArgFile(args: seq<Arg>, resolve: string -> string) returns (text: string)
    ensures text == ArgFileText(args, resolve)
  {
    text := "";
    for i := 0 to |args|
      invariant text == ArgFileText(args[..i], resolve)
    {
      assert args[..i + 1][..i] == args[..i];
      text := text + ArgText(args[i], resolve) + "\n";
    }
    assert args[..|args|] == args;
  }

  /** Reading escapes back: a backslash makes the next character literal. */
  function Unescaped(s: string): string {
    if s == [] then []
    else if s[0] == '\\' && |s| > 1 then [s[1]] + Unescaped(s[2..])
    else [s[0]] + Unescaped(s[1..])
  }

  lemma {:induction false} UnescapedEscaped(s: string)
    ensures Unescaped(Escaped(s)) == s
    decreases |s|
  {
    if s != [] {
      var e := Escaped(s);
      assert e == EscapeChar(s[0]) + Escaped(s[1..]);
      UnescapedEscaped(s[1..]);
      if s[0] == '\\' || s[0] == '"' {
        assert e[0] == '\\' && e[1] == s[0] && e[2..] == Escaped(s[1..]);
      } else {
        assert e[0] == s[0] && e[1..] == Escaped(s[1..]);
      }
    }
  }

  /** How a reader of the argument file takes one line back: a line with a
      space loses its surrounding quotes, then escapes are undone. */
  function ReadArg(line: string): string {
    var body := if ' ' in line && |line| >= 2 then line[1..|line| - 1] else line;
    Unescaped(body)
  }

  /** Each line of the argument file reads back as the argument's value. */
  lemma ReadArgText(a: Arg, resolve: string -> string)
    ensures ReadArg(ArgText(a, resolve)) == ArgValue(a, resolve)
  {
    var s := ArgValue(a, resolve);
    EscapedByReplace(s);
    var e := Escaped(s);
    UnescapedEscaped(s);
    if ' ' in e {
      var q := "\"" + e + "\"";
      assert q[1..|q| - 1] == e;
      assert ' ' in q by {
        var j :| 0 <= j < |e| && e[j] == ' ';
        assert q[j + 1] == ' ';
      }
    }
  }

  // ---------------------------------------------------------------------------
  // `format_compiler_error`
  // ---------------------------------------------------------------------------

  const MAX_ERROR_LINES := 20

  /** The report line for the stripped line `text` at 1-based position `n`. */
  function Entry(n: nat, text: string): string {
    "  [" + NatStr(n) + "] " + text + "\n"
  }

  /** Each line stripped. */
  function StripAll(lines: seq<string>): (r: seq<string>)
    ensures |r| == |lines|
    ensures forall i :: 0 <= i < |lines| ==> r[i] == Strip(lines[i])
  {
    if lines == [] then [] else [Strip(lines[0])] + StripAll(lines[1..])
  }

  /** The reported lines among the first `n` stripped ones, with their 1-based
      positions: blank lines are skipped but counted. */
  function Entries(stripped: seq<string>, n: nat): (r: seq<(nat, string)>)
    requires n <= |stripped|
    ensures |r| <= n
  {
    if n == 0 then []
    else Entries(stripped, n - 1) + if stripped[n - 1] != "" then [(n, stripped[n - 1])] else []
  }

  /** The text of the report lines. */
  function Render(es: seq<(nat, string)>): string
    decreases |es|
  {
    if es == [] then "" else Render(es[..|es| - 1]) + Entry(es[|es| - 1].0, es[|es| - 1].1)
  }

  function ErrorHeader(compilerName: string, returncode: int): string {
    compilerName + " compilation failed (code: " + IntStr(returncode) + ")\n"
  }

  /** The first 20 lines of the stripped error output, or none without any. */
  function ReportedLines(stderr: string): (lines: seq<string>)
    ensures |lines| <= MAX_ERROR_LINES
  {
    if stderr == "" then []
    else
      var all := Split(Strip(stderr), "\n");
      if |all| > MAX_ERROR_LINES then all[..MAX_ERROR_LINES] else all
  }

  /** The report of a failed compilation: the header, then the numbered
      non-blank lines among the first 20 of the error output. */
  function CompilerError(p: Completed, compilerName: string): string {
    var stripped := StripAll(ReportedLines(p.stderr));
    ErrorHeader(compilerName, p.returncode) + Render(Entries(stripped, |stripped|))
  }

  /** `run_compiler_with_args`: the compiler runs on `@argfile`; a non-zero
      return code raises RuntimeError with the compiler error report. The
      argument file's name (process id and clock) is a parameter. */
  function RunCompilerWithArgs(compiler: string, argfile: string, launch: Launch, compilerName: string): (r: Result<Completed>)
    ensures r.Ok? <==> launch.Ran? && launch.process.returncode == 0
    ensures r.Ok? ==> r.value == launch.process
    ensures launch.Ran? && launch.process.returncode != 0 ==>
      r == Err(Error(RuntimeError, CompilerError(launch.process, compilerName)))
    ensures launch.NotFound? ==> r == RunCommand([compiler, "@" + argfile], launch)
  {
    var run := RunCommand([compiler, "@" + argfile], launch);
    if run.Err? then run
    else if run.value.returncode != 0 then Err(Error(RuntimeError, CompilerError(run.value, compilerName)))
    else run
  }

  /** `format_compiler_error(result, compiler_name)`. */
  method FormatCompilerError(p: Completed, compilerName: string) returns (msg: string)
    ensures msg == CompilerError(p, compilerName)
  {
    msg := ErrorHeader(compilerName, p.returncode);
    if p.stderr != "" {
      var report := ReportLines(ReportedLines(p.stderr));
      msg := msg + report;
    }
  }

  /** The loop of `format_compiler_error` over the reported lines. */
  method ReportLines(lines: seq<string>) returns (report: string)
    ensures var stripped := StripAll(lines);
      report == Render(Entries(stripped, |stripped|))
  {
    report := "";
    ghost var stripped := StripAll(lines);
    for i := 0 to |lines|
      invariant report == Render(Entries(stripped, i))
    {
      var line := Strip(lines[i]);
      RenderStep(stripped, i);
      if line != "" {
        report := report + Entry(i + 1, line);
      }
    }
  }

  lemma RenderStep(stripped: seq<string>, i: nat)
    requires i < |stripped|
    ensures stripped[i] != "" ==> Render(Entries(stripped, i + 1)) == Render(Entries(stripped, i)) + Entry(i + 1, stripped[i])
    ensures stripped[i] == "" ==> Entries(stripped, i + 1) == Entries(stripped, i)
  {
    var es := Entries(stripped, i);
    if stripped[i] != "" {
      assert (es + [(i + 1, stripped[i])])[..|es|] == es;
    }
  }

  /** Every non-blank line among the first `n` has its numbered entry. */
  lemma {:induction false} EntriesHold(stripped: seq<string>, n: nat, k: nat)
    requires k < n <= |stripped| && stripped[k] != ""
    ensures (k + 1, stripped[k]) in Entries(stripped, n)
    decreases n
  {
    if k < n - 1 {
      EntriesHold(stripped, n - 1, k);
    }
  }

  /** Every entry is the numbered entry of a non-blank line among the first `n`. */
  lemma {:induction false} EntriesSound(stripped: seq<string>, n: nat, x: (nat, string))
    requires n <= |stripped| && x in Entries(stripped, n)
    ensures 0 < x.0 <= n && stripped[x.0 - 1] != "" && x.1 == stripped[x.0 - 1]
    decreases n
  {
    var last := if stripped[n - 1] != "" then [(n, stripped[n - 1])] else [];
    assert Entries(stripped, n) == Entries(stripped, n - 1) + last;
    if x !in last {
      EntriesSound(stripped, n - 1, x);
    }
  }

  /** Blank lines add nothing to the report. */
  lemma {:induction false} EntriesBlank(stripped: seq<string>, n: nat)
    requires n <= |stripped|
    requires forall k :: 0 <= k < n ==> stripped[k] == ""
    ensures Entries(stripped, n) == []
    decreases n
  {
    if n > 0 {
      EntriesBlank(stripped, n - 1);
    }
  }
}
