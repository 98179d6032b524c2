/** `decompiler.py`: running apktool to decode the source APK into the output
    directory, after removing what was there, and turning a failing run into
    an error message. The outcome of the run is a parameter. */
module Decompiler {
  import opened Wrappers
  import opened Text
  import opened Fs
  import PlatformUtils

  const MAX_ERROR_OUTPUT_LENGTH := 500
  const LAST_LINES_TO_SHOW := 3

  /** `_truncate_error`: the first 500 characters and `...` for a longer
      text. */
  function TruncateError(s: string): string {
    if |s| > MAX_ERROR_OUTPUT_LENGTH then s[..MAX_ERROR_OUTPUT_LENGTH] + "..." else s
  }

  /** The truncation is the one `run_command_checked` applies: a text of at
      most 500 characters stays as it is, a longer one keeps its first 500
      and gains `...`. */
  lemma TruncateAsPlatform(s: string)
    ensures TruncateError(s) == PlatformUtils.Truncated(s)
    ensures |s| <= MAX_ERROR_OUTPUT_LENGTH ==> TruncateError(s) == s
    ensures |s| > MAX_ERROR_OUTPUT_LENGTH ==>
      |TruncateError(s)| == MAX_ERROR_OUTPUT_LENGTH + 3 && StartsWith(TruncateError(s), s[..MAX_ERROR_OUTPUT_LENGTH])
  {
    if |s| > MAX_ERROR_OUTPUT_LENGTH {
      var t := TruncateError(s);
      assert t[..MAX_ERROR_OUTPUT_LENGTH] == s[..MAX_ERROR_OUTPUT_LENGTH];
    }
  }

  /** `_get_error_output`: `stderr` when not empty, else `stdout` when not
      empty, else a fixed text. */
  function GetErrorOutput(p: PlatformUtils.Completed): (r: string)
    ensures r != ""
    ensures p.stderr != "" ==> r == p.stderr
    ensures p.stderr == "" && p.stdout != "" ==> r == p.stdout
    ensures p.stderr == "" && p.stdout == "" ==> r == "No error output"
  {
    var out := PlatformUtils.ErrorOutput(p);
    if out != "" then out else "No error output"
  }

  /** `_get_last_lines`: the last three lines when there are more. */
  function LastLines(lines: seq<string>): (r: seq<string>)
    ensures |r| == if |lines| > LAST_LINES_TO_SHOW then LAST_LINES_TO_SHOW else |lines|
    ensures r == lines[|lines| - |r|..]
  {
    if |lines| > LAST_LINES_TO_SHOW then lines[|lines| - LAST_LINES_TO_SHOW..] else lines
  }

  /** `_build_command`. */
  function BuildCommand(apktoolJar: string, sourceApk: string, outputDir: string): seq<string> {
    ["java", "-jar", apktoolJar, "d", "-f", sourceApk, "-o", outputDir]
  }

  /** The command decodes (`d`) the source APK with apktool, forcing (`-f`)
      the output into the output directory (`-o`). */
  lemma BuildCommandShape(apktoolJar: string, sourceApk: string, outputDir: string)
    ensures var cmd := BuildCommand(apktoolJar, sourceApk, outputDir);
      cmd[..3] == ["java", "-jar", apktoolJar] && cmd[3] == "d" && "-f" in cmd[3..] &&
      cmd[|cmd| - 2] == "-o" && cmd[|cmd| - 1] == outputDir && sourceApk in cmd[4..|cmd| - 2]
  {
    var cmd := BuildCommand(apktoolJar, sourceApk, outputDir);
    assert cmd[3..][1] == "-f";
    assert cmd[4..|cmd| - 2][1] == sourceApk;
  }

  /** `_run_command`: a process that cannot be started raises RuntimeError
      naming the command. */
  function RunCommand(cmd: seq<string>, launch: PlatformUtils.Launch): (r: Result<PlatformUtils.Completed>)
    ensures r.Ok? <==> launch.Ran?
    ensures r.Ok? ==> r.value == launch.process
    ensures r.Err? ==> r.error.kind == RuntimeError && StartsWith(r.error.message, "Failed to run command " + Join(cmd, " ") + ": ")
  {
    match launch
    case Ran(p) => Ok(p)
    case NotFound(e) => Err(Error(RuntimeError, "Failed to run command " + Join(cmd, " ") + ": " + e))
    case LaunchFailed(e) => Err(Error(RuntimeError, "Failed to run command " + Join(cmd, " ") + ": " + e))
  }

  /** `_check_result`. */
  function CheckResult(p: PlatformUtils.Completed): Result<()> {
    if p.returncode != 0 then
      Err(Error(RuntimeError, "Apktool failed with code " + IntStr(p.returncode) + ":\n" + TruncateError(GetErrorOutput(p))))
    else Ok(())
  }

  /** A run fails exactly on a non-zero code; the message names the code on
      its first line and gives the error output, never empty and at most
      503 characters, after it. */
  lemma CheckResultOutcome(p: PlatformUtils.Completed)
    ensures CheckResult(p).Ok? <==> p.returncode == 0
    ensures CheckResult(p).Err? ==>
      var header := "Apktool failed with code " + IntStr(p.returncode) + ":\n";
      var msg := CheckResult(p).error.message;
      CheckResult(p).error.kind == RuntimeError &&
      StartsWith(msg, header) && |header| < |msg| <= |header| + MAX_ERROR_OUTPUT_LENGTH + 3
  {
    if p.returncode != 0 {
      var header := "Apktool failed with code " + IntStr(p.returncode) + ":\n";
      var body := TruncateError(GetErrorOutput(p));
      assert (header + body)[..|header|] == header;
    }
  }

  class Decompiler {
    const apktoolJar: string
    const sourceApk: string
    const outputDir: string

    constructor (apktoolJar: string, sourceApk: string, outputDir: string)
      ensures this.apktoolJar == apktoolJar && this.sourceApk == sourceApk && this.outputDir == outputDir
    {
      this.apktoolJar := apktoolJar;
      this.sourceApk := sourceApk;
      this.outputDir := outputDir;
    }

    /** What `decompile` reports for the run of apktool. */
    function Outcome(launch: PlatformUtils.Launch): Result<()> {
      match RunCommand(BuildCommand(apktoolJar, sourceApk, outputDir), launch)
      case Err(e) => Err(e)
      case Ok(p) => CheckResult(p)
    }

    /** Decompiling succeeds exactly when apktool starts and returns 0;
        every failure is a RuntimeError. */
    lemma OutcomeExactly(launch: PlatformUtils.Launch)
      ensures Outcome(launch).Ok? <==> launch.Ran? && launch.process.returncode == 0
      ensures Outcome(launch).Err? ==> Outcome(launch).error.kind == RuntimeError
    {
    }

    /** `decompile`: `_prepare_output_directory` removes the output
        directory's tree (a file in its place makes `rmtree` fail, which
        it ignores), then apktool runs and its result is checked. */
    method Decompile(disk: Disk, launch: PlatformUtils.Launch) returns (r: Result<()>)
      modifies disk
      ensures outputDir in old(disk.dirs) ==>
        disk.files == TreeRemovedFiles(old(disk.files), outputDir) && disk.dirs == TreeRemovedDirs(old(disk.dirs), outputDir)
      ensures outputDir !in old(disk.dirs) ==> disk.files == old(disk.files) && disk.dirs == old(disk.dirs)
      ensures r == Outcome(launch)
    {
      if outputDir in disk.dirs {
        RemoveTree(disk, outputDir);
      }
      var cmd := BuildCommand(apktoolJar, sourceApk, outputDir);
      var result := RunCommand(cmd, launch);
      if result.Err? {
        return Err(result.error);
      }
      r := CheckResult(result.value);
    }
  }
}
