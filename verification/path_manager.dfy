/** `path_manager.py`: classifying and resolving the path strings of
    `build_config.json`, and filling the table of named project paths.
    The platform name, the environment, the home directories and
    `Path.resolve` are parameters. */
module PathManager {
  import opened Wrappers
  import opened Text
  import opened Fs
  import opened PyJson

  const WINDOWS := "windows"

  /** What the resolver needs from its surroundings: the project root, the
      lowered platform name, the environment, the home directory of each
      user (`""` for the current one) and `Path.resolve`. */
  datatype Resolver = Resolver(
    projectRoot: string,
    system: string,
    environ: map<string, string>,
    homes: map<string, string>,
    resolvePath: string -> string)

  predicate IsSep(c: char) {
    c == '/' || c == '\\'
  }

  /** `Path(s).is_absolute()` on the platform: POSIX needs a leading `/`;
      Windows needs a drive followed by a separator, or a UNC prefix. */
  predicate PathIsAbsolute(system: string, s: string) {
    if system == WINDOWS then
      (|s| >= 3 && s[1] == ':' && IsSep(s[2])) || (|s| >= 2 && IsSep(s[0]) && IsSep(s[1]))
    else
      StartsWith(s, "/")
  }

  /** `is_absolute_path` on a string. */
  predicate LooksAbsolute(system: string, s: string) {
    (system == WINDOWS && ((|s| >= 2 && s[1] == ':') || StartsWith(s, "\\\\")))
    || StartsWith(s, "/")
    || StartsWith(s, "file://")
    || (Contains(s, "${") && Contains(s, "}"))
  }

  /** `is_absolute_path`: anything but a string is not absolute. */
  predicate IsAbsolutePath(system: string, v: Json) {
    v.JString? && LooksAbsolute(system, v.s)
  }

  /** A non-string is never absolute; a path the platform calls absolute
      on POSIX is one; a `~` path is absolute only when it holds both `${`
      and `}` (or, on Windows, has `:` second). */
  lemma IsAbsolutePathCases(system: string, v: Json)
    ensures !v.JString? ==> !IsAbsolutePath(system, v)
    ensures v.JString? && system != WINDOWS && PathIsAbsolute(system, v.s) ==> IsAbsolutePath(system, v)
    ensures v.JString? && StartsWith(v.s, "~") ==>
      (IsAbsolutePath(system, v) <==>
        (Contains(v.s, "${") && Contains(v.s, "}")) || (system == WINDOWS && |v.s| >= 2 && v.s[1] == ':'))
  {
    if v.JString? && StartsWith(v.s, "~") {
      assert v.s[0] == '~';
      assert !StartsWith(v.s, "/") && !StartsWith(v.s, "file://") && !StartsWith(v.s, "\\\\") by {
        assert "/"[0] != '~' && "file://"[0] != '~' && "\\\\"[0] != '~';
      }
    }
  }

  /** `~` alone and `~/…` without `${` are not absolute. */
  lemma TildeNotAbsolute(system: string, rest: string)
    requires NoVarOpen("~" + rest)
    ensures !IsAbsolutePath(system, JString("~" + rest)) || (system == WINDOWS && |rest| >= 1 && rest[0] == ':')
  {
    var s := "~" + rest;
    IsAbsolutePathCases(system, JString(s));
    assert StartsWith(s, "~");
    assert !Contains(s, "${") by {
      forall i | 0 <= i <= |s| - 2 ensures !OccursAt(s, "${", i) {
        assert !(s[i] == '$' && s[i + 1] == '{');
        VarOpenAt(s, i);
      }
    }
  }

  /** `${` occurs at `i` exactly when its two characters are there. */
  lemma VarOpenAt(s: string, i: int)
    requires 0 <= i <= |s| - 2
    ensures OccursAt(s, "${", i) <==> s[i] == '$' && s[i + 1] == '{'
  {
    assert s[i..i + 2] == [s[i], s[i + 1]];
  }

  // ---------------------------------------------------------------------------
  // `${NAME}` expansion
  // ---------------------------------------------------------------------------

  /** `re.sub(r"\$\{([^}]+)\}", ...)`: each `${NAME}` with a non-empty name
      becomes the variable's value, or stays as it is when the variable is
      not set; the scan goes on after the closing brace. */
  function ExpandEnv(s: string, env: map<string, string>): (r: string)
    decreases |s|
  {
    if |s| < 2 then s
    else if s[0] == '$' && s[1] == '{' && FindFrom(s, "}", 2) > 2 then
      var j := FindFrom(s, "}", 2);
      (if s[2..j] in env then env[s[2..j]] else s[..j + 1]) + ExpandEnv(s[j + 1..], env)
    else [s[0]] + ExpandEnv(s[1..], env)
  }

  /** No `${` starts anywhere in `s`. */
  predicate NoVarOpen(s: string) {
    forall i :: 0 <= i < |s| - 1 ==> !(s[i] == '$' && s[i + 1] == '{')
  }

  /** Text without `${` is left untouched. */
  lemma {:induction false} ExpandEnvPlain(s: string, env: map<string, string>)
    requires NoVarOpen(s)
    ensures ExpandEnv(s, env) == s
    decreases |s|
  {
    if |s| >= 2 {
      assert !(s[0] == '$' && s[1] == '{');
      assert NoVarOpen(s[1..]) by {
        forall i | 0 <= i < |s[1..]| - 1 ensures !(s[1..][i] == '$' && s[1..][i + 1] == '{') {
          assert s[1..][i] == s[i + 1] && s[1..][i + 1] == s[i + 2];
        }
      }
      ExpandEnvPlain(s[1..], env);
      assert [s[0]] + s[1..] == s;
    }
  }

  /** With no variable set, nothing changes: an undefined `${NAME}` stays
      literally in place. */
  lemma {:induction false} ExpandEnvUnset(s: string)
    ensures ExpandEnv(s, map[]) == s
    decreases |s|
  {
    if |s| >= 2 {
      if s[0] == '$' && s[1] == '{' && FindFrom(s, "}", 2) > 2 {
        var j := FindFrom(s, "}", 2);
        ExpandEnvUnset(s[j + 1..]);
        assert s[..j + 1] + s[j + 1..] == s;
      } else {
        ExpandEnvUnset(s[1..]);
        assert [s[0]] + s[1..] == s;
      }
    }
  }

  /** The value a `${name}` stands for. */
  function VarValue(name: string, env: map<string, string>): string {
    if name in env then env[name] else "${" + name + "}"
  }

  /** A `${name}` after plain text is replaced by the variable's value (or
      kept), and the scan goes on with the rest. */
  lemma {:induction false} ExpandEnvVariable(a: string, name: string, b: string, env: map<string, string>)
    requires NoVarOpen(a) && name != [] && '}' !in name
    ensures ExpandEnv(a + ("${" + name + "}" + b), env) == a + (VarValue(name, env) + ExpandEnv(b, env))
    decreases |a|
  {
    var t := "${" + name + "}" + b;
    if a == [] {
      assert a + t == t;
      VarAtStart(name, b, env);
    } else {
      assert NoVarOpen(a[1..]) by {
        forall i | 0 <= i < |a[1..]| - 1 ensures !(a[1..][i] == '$' && a[1..][i + 1] == '{') {
          assert a[1..][i] == a[i + 1] && a[1..][i + 1] == a[i + 2];
        }
      }
      ExpandEnvVariable(a[1..], name, b, env);
      PlainStep(a, t);
      ExpandSkip(a + t, env);
      ConsAssoc(a, VarValue(name, env) + ExpandEnv(b, env));
    }
  }

  lemma PlainStep(a: string, t: string)
    requires a != [] && NoVarOpen(a) && |t| > 0 && t[0] == '$'
    ensures (a + t)[1..] == a[1..] + t && (a + t)[0] == a[0]
    ensures !((a + t)[0] == '$' && (a + t)[1] == '{')
  {
    if |a| >= 2 {
      assert (a + t)[1] == a[1];
    }
  }

  /** A position that does not open a variable is copied. */
  lemma ExpandSkip(s: string, env: map<string, string>)
    requires |s| >= 2 && !(s[0] == '$' && s[1] == '{')
    ensures ExpandEnv(s, env) == [s[0]] + ExpandEnv(s[1..], env)
  {
  }

  lemma ConsAssoc(a: string, x: string)
    requires a != []
    ensures [a[0]] + (a[1..] + x) == a + x
  {
    assert [a[0]] + a[1..] == a;
  }

  lemma VarAtStart(name: string, b: string, env: map<string, string>)
    requires name != [] && '}' !in name
    ensures ExpandEnv("${" + name + "}" + b, env) == VarValue(name, env) + ExpandEnv(b, env)
  {
    var s := "${" + name + "}" + b;
    var j := |name| + 2;
    assert s[j] == '}';
    assert forall k :: 2 <= k < j ==> s[k] == name[k - 2];
    FindFromAt(s, "}", 2, j);
    assert s[2..j] == name;
    assert s[..j + 1] == "${" + name + "}";
    assert s[j + 1..] == b;
  }

  // ---------------------------------------------------------------------------
  // `resolve`
  // ---------------------------------------------------------------------------

  /** Where the user name after `~` ends: at the first `/`, or the end. */
  function TildeEnd(s: string): (i: nat)
    requires StartsWith(s, "~")
    ensures 1 <= i <= |s| && (i < |s| ==> s[i] == '/') && '/' !in s[1..i]
  {
    1 + IndexOrEnd(s[1..], '/')
  }

  /** `Path(s).expanduser()` for a path starting with `~`: the named user's
      home (the current user's for `~` alone), or RuntimeError when it is
      not known. */
  function ExpandUser(s: string, homes: map<string, string>): Result<string>
    requires StartsWith(s, "~")
  {
    var i := TildeEnd(s);
    if s[1..i] in homes then Ok(homes[s[1..i]] + s[i..])
    else Err(Error(RuntimeError, "Could not determine home directory."))
  }

  /** The Windows drive-relative form `C:x`, which `resolve` turns into
      `C:/x`. */
  predicate DriveRelative(system: string, s: string) {
    system == WINDOWS && |s| >= 2 && s[1] == ':' && (|s| == 2 || !IsSep(s[2]))
  }

  /** `C:` followed by `/` and the rest, with every `\` turned into `/`. */
  function FixDrive(s: string): string
    requires |s| >= 2
  {
    ReplaceChar(s[..2] + "/" + s[2..], '\\', "/")
  }

  /** `resolve` once the expanded text is known: an absolute path as it
      is, the Windows form `C:x` as `C:/x`, anything else inside the project
      root. */
  function ResolveExpanded(res: Resolver, e: string): string {
    if PathIsAbsolute(res.system, e) then res.resolvePath(e)
    else if LooksAbsolute(res.system, e) && DriveRelative(res.system, e) then res.resolvePath(FixDrive(e))
    else res.resolvePath(JoinRoot(res.projectRoot, PurePath(e)))
  }

  /** `resolve` on a string that is not blank. */
  function ResolveText(res: Resolver, s: string): Result<Option<string>> {
    if StartsWith(s, "~") then
      match ExpandUser(s, res.homes)
      case Err(e) => Err(e)
      case Ok(p) => Ok(Some(res.resolvePath(p)))
    else Ok(Some(ResolveExpanded(res, ExpandEnv(s, res.environ))))
  }

  /** `resolve(path_value, context)`. */
  function Resolve(res: Resolver, v: Json, context: string): Result<Option<string>> {
    if v.JNull? then Ok(None)
    else if !v.JString? then
      Err(Error(ValueError, "Path must be string, got <class '" + TypeName(v) + "'> for " + context))
    else if Strip(v.s) == "" then Ok(None)
    else ResolveText(res, v.s)
  }

  /** None and blank strings give no path; any other value that is not a
      string raises ValueError naming its type and the context; a path that
      is not blank is resolved, `~` first and `${}` after. */
  lemma ResolveEmpty(res: Resolver, v: Json, context: string)
    ensures Resolve(res, v, context) == Ok(None) <==> v.JNull? || (v.JString? && Strip(v.s) == "")
    ensures !v.JNull? && !v.JString? ==>
      Resolve(res, v, context) == Err(Error(ValueError, "Path must be string, got <class '" + TypeName(v) + "'> for " + context))
    ensures Resolve(res, v, context).Err? && Resolve(res, v, context).error.kind == ValueError ==>
      !v.JNull? && !v.JString?
  {
    if v.JString? && Strip(v.s) != "" {
      if StartsWith(v.s, "~") {
        var x := ExpandUser(v.s, res.homes);
        assert x.Err? ==> x.error.kind == RuntimeError;
      }
    }
  }

  /** A leading `~` is expanded: `~` alone or `~/…` to the current user's
      home, before any `${}` expansion. */
  lemma ResolveHome(res: Resolver, rest: string, context: string)
    requires rest == [] || rest[0] == '/'
    requires "" in res.homes
    ensures Resolve(res, JString("~" + rest), context) == Ok(Some(res.resolvePath(res.homes[""] + rest)))
  {
    var s := "~" + rest;
    assert s[0] == '~' && s[1..] == rest;
    assert StartsWith(s, "~");
    AsciiSpace('~');
    NotBlank(s);
    assert TildeEnd(s) == 1;
    assert s[1..1] == "" && s[1..] == rest;
  }

  /** Text that is not blank and does not start with `~` is resolved after
      `${}` expansion. */
  lemma ResolveAfterExpansion(res: Resolver, s: string, context: string)
    requires Strip(s) != "" && !StartsWith(s, "~")
    ensures Resolve(res, JString(s), context) == Ok(Some(ResolveExpanded(res, ExpandEnv(s, res.environ))))
    ensures NoVarOpen(s) ==> Resolve(res, JString(s), context) == Ok(Some(ResolveExpanded(res, s)))
  {
    if NoVarOpen(s) {
      ExpandEnvPlain(s, res.environ);
    }
  }

  /** A path the platform calls absolute is resolved as it is. */
  lemma AbsoluteKept(res: Resolver, e: string)
    requires PathIsAbsolute(res.system, e)
    ensures ResolveExpanded(res, e) == res.resolvePath(e)
  {
  }

  /** On Windows `C:x` is resolved as `C:/x`, which the platform calls
      absolute and which has no backslash. */
  lemma DriveRelativeFixed(res: Resolver, e: string)
    requires DriveRelative(res.system, e)
    ensures ResolveExpanded(res, e) == res.resolvePath(FixDrive(e))
    ensures |FixDrive(e)| >= 3 && FixDrive(e)[1..3] == ":/" && '\\' !in FixDrive(e)
    ensures PathIsAbsolute(res.system, FixDrive(e))
  {
    FixDriveShape(e);
    assert !PathIsAbsolute(res.system, e);
    assert LooksAbsolute(res.system, e);
  }

  lemma FixDriveShape(e: string)
    requires |e| >= 2 && e[1] == ':'
    ensures var q := FixDrive(e);
      |q| >= 3 && q[1..3] == ":/" && '\\' !in q
  {
    var t := e[..2] + "/" + e[2..];
    var rest := e[2..];
    assert t == [e[0]] + (":/" + rest) by {
      assert e[..2] == [e[0]] + ":";
    }
    var h := ReplaceChar([e[0]], '\\', "/");
    var m := ReplaceChar(":/" + rest, '\\', "/");
    assert ReplaceChar(t, '\\', "/") == h + m by {
      ReplaceCharAppend([e[0]], ":/" + rest, '\\', "/");
    }
    assert m == ":/" + ReplaceChar(rest, '\\', "/") by {
      ReplaceCharAppend(":/", rest, '\\', "/");
      ColonSlashKept();
    }
    assert |h| == 1;
    assert (h + m)[1..3] == ":/";
    NoCharAfterReplace(t, '\\', "/");
  }

  lemma ColonSlashKept()
    ensures ReplaceChar(":/", '\\', "/") == ":/"
  {
  }

  /** Anything else is resolved inside the project root. */
  lemma RelativeInRoot(res: Resolver, e: string)
    requires !PathIsAbsolute(res.system, e) && !DriveRelative(res.system, e)
    ensures ResolveExpanded(res, e) == res.resolvePath(JoinRoot(res.projectRoot, PurePath(e)))
    ensures StartsWith(JoinRoot(res.projectRoot, PurePath(e)), res.projectRoot)
  {
    if PurePath(e) != "." {
      var j := JoinPath(res.projectRoot, PurePath(e));
      assert j[..|res.projectRoot|] == res.projectRoot;
    }
  }

  // ---------------------------------------------------------------------------
  // The table of paths
  // ---------------------------------------------------------------------------

  /** One entry of a `_resolve_*` loop: the configuration key, the key of
      the path table, the context named in errors, and the default that
      makes the entry unconditional. */
  datatype Rule = Rule(configKey: string, pathKey: string, context: string, default: Option<string>)

  const DIRECTORY_RULES := [
    Rule("original_game", "original_game_dir", "original_game_dir", Some("OriginalGame")),
    Rule("modded", "modded_dir", "modded_dir", Some("ModdedGame")),
    Rule("src", "src_dir", "src_dir", Some("src"))]

  const DECOMPILED_RULE := Rule("decompiled", "decompiled_dir", "decompiled_dir", None)

  const TOOL_RULES := [
    Rule("apktool", "apktool_jar", "apktool", None),
    Rule("baksmali", "baksmali_jar", "baksmali", None),
    Rule("smali", "smali_jar", "smali", None)]

  const OUTPUT_RULES := [
    Rule("build", "build_output_dir", "build_output_dir", None),
    Rule("logs", "logs_dir", "logs_dir", None),
    Rule("temp", "temp_dir", "temp_dir", None)]

  const DEFAULT_KEYSTORE := "keystore.json"

  const KEYSTORE_RULE := Rule("keystore", "keystore_config", "keystore_config", Some(DEFAULT_KEYSTORE))

  const DIRECTORY_KEYS := {"original_game_dir", "modded_dir", "src_dir"}
  const TOOL_KEYS := {"apktool_jar", "baksmali_jar", "smali_jar"}
  const OUTPUT_KEYS := {"build_output_dir", "logs_dir", "temp_dir"}
  /** The keys `get_paths` always fills. */
  const ALWAYS_KEYS := {"project_root"} + DIRECTORY_KEYS + {"keystore_config"}
  /** The keys the `_resolve_*` stages can add, stage by stage. */
  const ADDED_KEYS := (DIRECTORY_KEYS + {"decompiled_dir"}) + (TOOL_KEYS + {"android_sdk"}) + OUTPUT_KEYS + {"libs_dir"} + {"keystore_config"}
  /** Every key `get_paths` can fill. */
  const ALL_KEYS := {"project_root"} + ADDED_KEYS

  type Paths = map<string, Option<string>>

  /** `resolver.resolve(value, context)`. */
  type ResolveFn = (Json, string) -> Result<Option<string>>

  /** `section.get(key)` on a section known to be a dictionary, else None. */
  function Configured(section: Json, key: string): Json {
    if section.JObject? then Get(section.fields, key) else JNull
  }

  /** Whether a rule sets its key: always with a default, else when the
      configured value is true. */
  predicate Sets(section: Json, rule: Rule) {
    rule.default.Some? || Truthy(Configured(section, rule.configKey))
  }

  /** `config_val or default`. */
  function RuleValue(section: Json, rule: Rule): Json
    requires Sets(section, rule)
  {
    if Truthy(Configured(section, rule.configKey)) then Configured(section, rule.configKey)
    else JString(rule.default.value)
  }

  /** The table holds the rule's key, resolved from `config_val or
      default`. */
  predicate Resolved(resolve: ResolveFn, section: Json, rule: Rule, table: Paths) {
    Sets(section, rule) && resolve(RuleValue(section, rule), rule.context).Ok? &&
    rule.pathKey in table && table[rule.pathKey] == resolve(RuleValue(section, rule), rule.context).value
  }

  /** One pass of a `_resolve_*` loop. */
  function ApplyRule(resolve: ResolveFn, section: Json, rule: Rule, paths: Paths): Result<Paths> {
    match DictGet(section, rule.configKey, JNull)
    case Err(e) => Err(e)
    case Ok(val) =>
      if Truthy(val) || rule.default.Some? then
        match resolve(if Truthy(val) then val else JString(rule.default.value), rule.context)
        case Err(e) => Err(e)
        case Ok(p) => Ok(paths[rule.pathKey := p])
      else Ok(paths)
  }

  /** A whole `_resolve_*` loop, first rule first. */
  function ApplyRules(resolve: ResolveFn, section: Json, rules: seq<Rule>, paths: Paths): Result<Paths>
    decreases |rules|
  {
    if rules == [] then Ok(paths)
    else
      match ApplyRule(resolve, section, rules[0], paths)
      case Err(e) => Err(e)
      case Ok(p) => ApplyRules(resolve, section, rules[1..], p)
  }

  predicate DistinctKeys(rules: seq<Rule>) {
    forall i, j :: 0 <= i < j < |rules| ==> rules[i].pathKey != rules[j].pathKey
  }

  /** The keys the rules set, and all the keys they name. */
  function SetKeys(section: Json, rules: seq<Rule>): set<string>
    decreases |rules|
  {
    if rules == [] then {}
    else (if Sets(section, rules[0]) then {rules[0].pathKey} else {}) + SetKeys(section, rules[1..])
  }

  function RuleKeys(rules: seq<Rule>): set<string>
    decreases |rules|
  {
    if rules == [] then {} else {rules[0].pathKey} + RuleKeys(rules[1..])
  }

  /** A key is set exactly when some rule for it sets; every such key is
      one the rules name. */
  lemma {:induction false} SetKeysExactly(section: Json, rules: seq<Rule>, key: string)
    ensures key in SetKeys(section, rules) <==> exists k :: 0 <= k < |rules| && rules[k].pathKey == key && Sets(section, rules[k])
    ensures key in RuleKeys(rules) <==> exists k :: 0 <= k < |rules| && rules[k].pathKey == key
    decreases |rules|
  {
    if rules != [] {
      SetKeysExactly(section, rules[1..], key);
      forall k | 0 < k < |rules| ensures rules[1..][k - 1] == rules[k] { }
      if exists k :: 0 <= k < |rules| && rules[k].pathKey == key {
        var k :| 0 <= k < |rules| && rules[k].pathKey == key;
        if k > 0 {
          assert rules[1..][k - 1].pathKey == key;
        }
      }
      if exists k :: 0 <= k < |rules| && rules[k].pathKey == key && Sets(section, rules[k]) {
        var k :| 0 <= k < |rules| && rules[k].pathKey == key && Sets(section, rules[k]);
        if k > 0 {
          assert rules[1..][k - 1].pathKey == key && Sets(section, rules[1..][k - 1]);
        }
      }
    }
  }

  /** One rule adds its key exactly when it sets, resolved from
      `config_val or default`, and changes nothing else. */
  lemma ApplyRuleOutcome(resolve: ResolveFn, section: Json, rule: Rule, paths: Paths)
    ensures var r := ApplyRule(resolve, section, rule, paths);
      r.Ok? ==> (section.JObject? && r.value.Keys == paths.Keys + (if Sets(section, rule) then {rule.pathKey} else {})
        && (Sets(section, rule) ==>
          resolve(RuleValue(section, rule), rule.context).Ok? &&
          r.value[rule.pathKey] == resolve(RuleValue(section, rule), rule.context).value)
        && (forall key :: key in paths && key != rule.pathKey ==> r.value[key] == paths[key]))
    ensures !section.JObject? ==> ApplyRule(resolve, section, rule, paths).Err? && ApplyRule(resolve, section, rule, paths).error.kind == AttributeError
  {
  }

  /** A loop adds exactly the keys of the rules that set: a default, or a
      true configured value; a section that is not a dictionary raises
      AttributeError as soon as there is a rule. */
  lemma {:induction false} ApplyRulesKeys(resolve: ResolveFn, section: Json, rules: seq<Rule>, paths: Paths)
    ensures var r := ApplyRules(resolve, section, rules, paths);
      r.Ok? ==> r.value.Keys == paths.Keys + SetKeys(section, rules)
    ensures rules != [] && !section.JObject? ==>
      ApplyRules(resolve, section, rules, paths).Err? && ApplyRules(resolve, section, rules, paths).error.kind == AttributeError
    decreases |rules|
  {
    if rules != [] {
      ApplyRuleOutcome(resolve, section, rules[0], paths);
      var step := ApplyRule(resolve, section, rules[0], paths);
      if step.Ok? {
        ApplyRulesKeys(resolve, section, rules[1..], step.value);
      }
    }
  }

  /** A loop leaves every key no rule names as it was. */
  lemma {:induction false} ApplyRulesOthers(resolve: ResolveFn, section: Json, rules: seq<Rule>, paths: Paths, key: string)
    requires key in paths && key !in RuleKeys(rules)
    ensures var r := ApplyRules(resolve, section, rules, paths);
      r.Ok? ==> key in r.value && r.value[key] == paths[key]
    decreases |rules|
  {
    if rules != [] {
      ApplyRuleOutcome(resolve, section, rules[0], paths);
      var step := ApplyRule(resolve, section, rules[0], paths);
      if step.Ok? {
        ApplyRulesOthers(resolve, section, rules[1..], step.value, key);
      }
    }
  }

  /** With distinct keys, each rule that sets leaves its key resolved from
      `config_val or default`. */
  lemma {:induction false} ApplyRulesValue(resolve: ResolveFn, section: Json, rules: seq<Rule>, paths: Paths, k: nat)
    requires DistinctKeys(rules) && k < |rules| && Sets(section, rules[k])
    ensures var r := ApplyRules(resolve, section, rules, paths);
      r.Ok? ==> Resolved(resolve, section, rules[k], r.value)
    decreases |rules|
  {
    ApplyRuleOutcome(resolve, section, rules[0], paths);
    var step := ApplyRule(resolve, section, rules[0], paths);
    if step.Ok? {
      assert DistinctKeys(rules[1..]) by {
        forall i, j | 0 <= i < j < |rules[1..]| ensures rules[1..][i].pathKey != rules[1..][j].pathKey {
          assert rules[1..][i] == rules[i + 1] && rules[1..][j] == rules[j + 1];
        }
      }
      if k > 0 {
        assert rules[1..][k - 1] == rules[k];
        ApplyRulesValue(resolve, section, rules[1..], step.value, k - 1);
      } else {
        SetKeysExactly(section, rules[1..], rules[0].pathKey);
        assert rules[0].pathKey !in RuleKeys(rules[1..]) by {
          forall m | 0 <= m < |rules[1..]| ensures rules[1..][m].pathKey != rules[0].pathKey {
            assert rules[1..][m] == rules[m + 1];
          }
        }
        ApplyRulesOthers(resolve, section, rules[1..], step.value, rules[0].pathKey);
      }
    }
  }

  /** The directory rules name and always set their three keys. */
  lemma DirectoryKeys(section: Json)
    ensures SetKeys(section, DIRECTORY_RULES) == DIRECTORY_KEYS && RuleKeys(DIRECTORY_RULES) == DIRECTORY_KEYS
    ensures DistinctKeys(DIRECTORY_RULES)
  {
    var r := DIRECTORY_RULES;
    assert r[1..][1..][1..] == [];
    assert SetKeys(section, r[1..][1..]) == {"src_dir"};
    assert RuleKeys(r[1..][1..]) == {"src_dir"};
  }

  lemma ToolKeys()
    ensures RuleKeys(TOOL_RULES) == TOOL_KEYS && DistinctKeys(TOOL_RULES)
  {
    var r := TOOL_RULES;
    assert r[1..][1..][1..] == [];
    assert RuleKeys(r[1..][1..]) == {"smali_jar"};
  }

  lemma OutputKeys()
    ensures RuleKeys(OUTPUT_RULES) == OUTPUT_KEYS && DistinctKeys(OUTPUT_RULES)
  {
    var r := OUTPUT_RULES;
    assert r[1..][1..][1..] == [];
    assert RuleKeys(r[1..][1..]) == {"temp_dir"};
  }

  /** The rules set only keys they name. */
  lemma {:induction false} SetKeysWithin(section: Json, rules: seq<Rule>)
    ensures SetKeys(section, rules) <= RuleKeys(rules)
    decreases |rules|
  {
    if rules != [] {
      SetKeysWithin(section, rules[1..]);
    }
  }

  lemma RootNotAdded()
    ensures "project_root" !in ADDED_KEYS
  {
  }

  /** A stage keeps every key, adds only keys from `added`, and changes
      no value outside `added`. */
  predicate Grows(before: Paths, after: Paths, added: set<string>) {
    before.Keys <= after.Keys <= before.Keys + added &&
    forall key :: key in before && key !in added ==> after[key] == before[key]
  }

  lemma GrowsTrans(a: Paths, b: Paths, c: Paths, x: set<string>, y: set<string>)
    requires Grows(a, b, x) && Grows(b, c, y)
    ensures Grows(a, c, x + y)
  {
  }

  /** The five stages of `get_paths` put together. */
  lemma StagesKeys(start: Paths, r1: Paths, r2: Paths, r3: Paths, r4: Paths, r5: Paths)
    requires start.Keys == {"project_root"}
    requires Grows(start, r1, DIRECTORY_KEYS + {"decompiled_dir"}) && DIRECTORY_KEYS <= r1.Keys
    requires Grows(r1, r2, TOOL_KEYS + {"android_sdk"}) && Grows(r2, r3, OUTPUT_KEYS)
    requires Grows(r3, r4, {"libs_dir"}) && Grows(r4, r5, {"keystore_config"}) && "keystore_config" in r5
    ensures ALWAYS_KEYS <= r5.Keys <= ALL_KEYS && r5["project_root"] == start["project_root"]
  {
    var a1 := DIRECTORY_KEYS + {"decompiled_dir"};
    var a2 := TOOL_KEYS + {"android_sdk"};
    GrowsTrans(start, r1, r2, a1, a2);
    GrowsTrans(start, r2, r3, a1 + a2, OUTPUT_KEYS);
    GrowsTrans(start, r3, r4, a1 + a2 + OUTPUT_KEYS, {"libs_dir"});
    GrowsTrans(start, r4, r5, a1 + a2 + OUTPUT_KEYS + {"libs_dir"}, {"keystore_config"});
    assert Grows(start, r5, ADDED_KEYS);
    RootNotAdded();
    assert r1.Keys <= r5.Keys;
  }

  /** `PathManager._load_config`: the decoded file, or `{}` when the file
      is missing, is a directory or is not JSON. */
  function LoadConfig(st: Store, configPath: string, decode: string -> Decoded): (r: Json)
    ensures !(configPath in st.files && decode(st.files[configPath]).Parsed?) ==> r == JObject(map[])
    ensures configPath in st.files && decode(st.files[configPath]).Parsed? ==> r == decode(st.files[configPath]).value
  {
    if configPath in st.files then
      match decode(st.files[configPath])
      case Parsed(v) => v
      case DecodeError(_) => JObject(map[])
    else JObject(map[])
  }

  class PathManager {
    const projectRoot: string
    /** `config.get("paths", {})` as read when the manager was made. */
    const pathsConfig: Json
    const resolver: Resolver
    /** What `SDKDetector.find_sdk` reports. */
    const detectedSdk: Option<string>

    constructor (projectRoot: string, pathsConfig: Json, resolver: Resolver, detectedSdk: Option<string>)
      ensures this.projectRoot == projectRoot && this.pathsConfig == pathsConfig
      ensures this.resolver == resolver && this.detectedSdk == detectedSdk
    {
      this.projectRoot := projectRoot;
      this.pathsConfig := pathsConfig;
      this.resolver := resolver;
      this.detectedSdk := detectedSdk;
    }

    /** The resolver's `resolve`. */
    function Resolving(): ResolveFn {
      (v: Json, context: string) => Resolve(resolver, v, context)
    }

    /** The rules of one loop applied in order to the table. */
    method ApplyAll(section: Json, rules: seq<Rule>, paths: Paths) returns (r: Result<Paths>)
      ensures r == ApplyRules(Resolving(), section, rules, paths)
    {
      var current := paths;
      var k := 0;
      while k < |rules|
        invariant 0 <= k <= |rules|
        invariant ApplyRules(Resolving(), section, rules[k..], current) == ApplyRules(Resolving(), section, rules, paths)
      {
        assert rules[k..][0] == rules[k] && rules[k..][1..] == rules[k + 1..];
        var step := ApplyRule(Resolving(), section, rules[k], current);
        if step.Err? {
          return Err(step.error);
        }
        current := step.value;
        k := k + 1;
      }
      return Ok(current);
    }

    /** What `_resolve_directory_paths` leaves in the table. */
    function DirectoryPaths(paths: Paths): Result<Paths> {
      match DictGet(pathsConfig, "directories", JObject(map[]))
      case Err(e) => Err(e)
      case Ok(dirs) =>
        match ApplyRules(Resolving(), dirs, DIRECTORY_RULES, paths)
        case Err(e) => Err(e)
        case Ok(p) => ApplyRules(Resolving(), dirs, [DECOMPILED_RULE], p)
    }

    /** `_resolve_directory_paths`. */
    method ResolveDirectoryPaths(paths: Paths) returns (r: Result<Paths>)
      ensures r == DirectoryPaths(paths)
    {
      var dirs := DictGet(pathsConfig, "directories", JObject(map[]));
      if dirs.Err? {
        return Err(dirs.error);
      }
      var fixed := ApplyAll(dirs.value, DIRECTORY_RULES, paths);
      if fixed.Err? {
        return Err(fixed.error);
      }
      r := ApplyAll(dirs.value, [DECOMPILED_RULE], fixed.value);
    }

    /** What `_resolve_tool_paths` leaves in the table. */
    function ToolPaths(paths: Paths): Result<Paths> {
      match DictGet(pathsConfig, "tools", JObject(map[]))
      case Err(e) => Err(e)
      case Ok(tools) =>
        match ApplyRules(Resolving(), tools, TOOL_RULES, paths)
        case Err(e) => Err(e)
        case Ok(p) =>
          var sdk := Get(tools.fields, "android_sdk");
          if Truthy(sdk) then
            match Resolve(resolver, sdk, "android_sdk")
            case Err(e) => Err(e)
            case Ok(q) => Ok(p["android_sdk" := q])
          else if detectedSdk.Some? then Ok(p["android_sdk" := detectedSdk])
          else Ok(p)
    }

    /** `_resolve_tool_paths`. */
    method ResolveToolPaths(paths: Paths) returns (r: Result<Paths>)
      ensures r == ToolPaths(paths)
    {
      var tools := DictGet(pathsConfig, "tools", JObject(map[]));
      if tools.Err? {
        return Err(tools.error);
      }
      var p := ApplyAll(tools.value, TOOL_RULES, paths);
      if p.Err? {
        return p;
      }
      var sdk := Get(tools.value.fields, "android_sdk");
      if Truthy(sdk) {
        var q := Resolve(resolver, sdk, "android_sdk");
        if q.Err? {
          return Err(q.error);
        }
        return Ok(p.value["android_sdk" := q.value]);
      } else if detectedSdk.Some? {
        return Ok(p.value["android_sdk" := detectedSdk]);
      }
      return p;
    }

    /** What `_resolve_output_paths` leaves in the table. */
    function OutputPaths(paths: Paths): Result<Paths> {
      match DictGet(pathsConfig, "output", JObject(map[]))
      case Err(e) => Err(e)
      case Ok(output) => ApplyRules(Resolving(), output, OUTPUT_RULES, paths)
    }

    /** `_resolve_output_paths`. */
    method ResolveOutputPaths(paths: Paths) returns (r: Result<Paths>)
      ensures r == OutputPaths(paths)
    {
      var output := DictGet(pathsConfig, "output", JObject(map[]));
      if output.Err? {
        return Err(output.error);
      }
      r := ApplyAll(output.value, OUTPUT_RULES, paths);
    }

    /** What `_resolve_libs_path` leaves in the table: the libraries
        directory only when configured and resolved to a path. */
    function LibsPath(paths: Paths): Result<Paths> {
      match DictGet(pathsConfig, "download_dependencies", JObject(map[]))
      case Err(e) => Err(e)
      case Ok(download) =>
        match DictGet(download, "libs", JNull)
        case Err(e) => Err(e)
        case Ok(libs) =>
          if !Truthy(libs) then Ok(paths)
          else
            match Resolve(resolver, libs, "libs_dir")
            case Err(e) => Err(e)
            case Ok(q) => if q.None? then Ok(paths) else Ok(paths["libs_dir" := q])
    }

    /** `_resolve_libs_path`. */
    method ResolveLibsPath(paths: Paths) returns (r: Result<Paths>)
      ensures r == LibsPath(paths)
    {
      var download := DictGet(pathsConfig, "download_dependencies", JObject(map[]));
      if download.Err? {
        return Err(download.error);
      }
      var libs := DictGet(download.value, "libs", JNull);
      if libs.Err? {
        return Err(libs.error);
      }
      if !Truthy(libs.value) {
        return Ok(paths);
      }
      var q := Resolve(resolver, libs.value, "libs_dir");
      if q.Err? {
        return Err(q.error);
      }
      if q.value.None? {
        return Ok(paths);
      }
      return Ok(paths["libs_dir" := q.value]);
    }

    /** What `_resolve_keystore_path` leaves in the table: the keystore
        rule applied to the top of the configuration. */
    function KeystorePath(paths: Paths): Result<Paths> {
      ApplyRule(Resolving(), pathsConfig, KEYSTORE_RULE, paths)
    }

    /** `_resolve_keystore_path`. */
    method ResolveKeystorePath(paths: Paths) returns (r: Result<Paths>)
      ensures r == KeystorePath(paths)
    {
      var keystore := DictGet(pathsConfig, "keystore", JNull);
      if keystore.Err? {
        return Err(keystore.error);
      }
      var val := if Truthy(keystore.value) then keystore.value else JString(DEFAULT_KEYSTORE);
      var q := Resolve(resolver, val, "keystore_config");
      if q.Err? {
        return Err(q.error);
      }
      return Ok(paths["keystore_config" := q.value]);
    }

    /** `paths_config.get(name, {})` when the configuration is a
        dictionary. */
    function Section(name: string): Json {
      match DictGet(pathsConfig, name, JObject(map[]))
      case Ok(v) => v
      case Err(_) => JNull
    }

    /** The three directories are always set, each from its configured
        value when that is true and from OriginalGame, ModdedGame or src
        otherwise; the decompiled directory is set only when configured;
        nothing else changes. */
    lemma DirectoryStage(paths: Paths)
      ensures var r := DirectoryPaths(paths);
        var dirs := Section("directories");
        r.Ok? ==>
          (r.value.Keys == paths.Keys + DIRECTORY_KEYS + SetKeys(dirs, [DECOMPILED_RULE])
          && (forall k :: 0 <= k < |DIRECTORY_RULES| ==> Resolved(Resolving(), dirs, DIRECTORY_RULES[k], r.value))
          && (forall key :: key in paths && key !in DIRECTORY_KEYS && key != "decompiled_dir" ==> key in r.value && r.value[key] == paths[key]))
      ensures !pathsConfig.JObject? ==> DirectoryPaths(paths).Err?
    {
      DirectoryStageKeys(paths);
      DirectoryStageValues(paths);
      DirectoryStageOthers(paths);
    }

    lemma DirectoryStageKeys(paths: Paths)
      ensures var r := DirectoryPaths(paths);
        r.Ok? ==> r.value.Keys == paths.Keys + DIRECTORY_KEYS + SetKeys(Section("directories"), [DECOMPILED_RULE])
    {
      var dirs := Section("directories");
      var r := DirectoryPaths(paths);
      if r.Ok? {
        var p := ApplyRules(Resolving(), dirs, DIRECTORY_RULES, paths).value;
        assert r == ApplyRules(Resolving(), dirs, [DECOMPILED_RULE], p);
        DirectoryKeys(dirs);
        ApplyRulesKeys(Resolving(), dirs, DIRECTORY_RULES, paths);
        ApplyRulesKeys(Resolving(), dirs, [DECOMPILED_RULE], p);
      }
    }

    lemma DirectoryStageValues(paths: Paths)
      ensures var r := DirectoryPaths(paths);
        r.Ok? ==> forall k :: 0 <= k < |DIRECTORY_RULES| ==> Resolved(Resolving(), Section("directories"), DIRECTORY_RULES[k], r.value)
    {
      var dirs := Section("directories");
      var r := DirectoryPaths(paths);
      if r.Ok? {
        var p := ApplyRules(Resolving(), dirs, DIRECTORY_RULES, paths).value;
        assert r == ApplyRules(Resolving(), dirs, [DECOMPILED_RULE], p);
        forall k | 0 <= k < |DIRECTORY_RULES| ensures Resolved(Resolving(), dirs, DIRECTORY_RULES[k], r.value) {
          ApplyRulesValue(Resolving(), dirs, DIRECTORY_RULES, paths, k);
          ApplyRulesOthers(Resolving(), dirs, [DECOMPILED_RULE], p, DIRECTORY_RULES[k].pathKey);
        }
      }
    }

    lemma DirectoryStageOthers(paths: Paths)
      ensures var r := DirectoryPaths(paths);
        r.Ok? ==> forall key :: key in paths && key !in DIRECTORY_KEYS && key != "decompiled_dir" ==> key in r.value && r.value[key] == paths[key]
      ensures !pathsConfig.JObject? ==> DirectoryPaths(paths).Err?
    {
      var dirs := Section("directories");
      var r := DirectoryPaths(paths);
      if r.Ok? {
        var p := ApplyRules(Resolving(), dirs, DIRECTORY_RULES, paths).value;
        assert r == ApplyRules(Resolving(), dirs, [DECOMPILED_RULE], p);
        forall key | key in paths && key !in DIRECTORY_KEYS && key != "decompiled_dir" ensures key in r.value && r.value[key] == paths[key] {
          ApplyRulesOthers(Resolving(), dirs, DIRECTORY_RULES, paths, key);
          ApplyRulesOthers(Resolving(), dirs, [DECOMPILED_RULE], p, key);
        }
      }
    }

    /** A tool is set only when configured; the SDK from its configured
        value, or else from the detector when it finds one; nothing else
        changes. */
    lemma ToolStage(paths: Paths)
      ensures var r := ToolPaths(paths);
        var tools := Section("tools");
        var sdk := Configured(tools, "android_sdk");
        r.Ok? ==>
          (r.value.Keys == paths.Keys + SetKeys(tools, TOOL_RULES) + (if Truthy(sdk) || detectedSdk.Some? then {"android_sdk"} else {})
          && (forall k :: 0 <= k < |TOOL_RULES| && Sets(tools, TOOL_RULES[k]) ==> Resolved(Resolving(), tools, TOOL_RULES[k], r.value))
          && (Truthy(sdk) ==> Resolve(resolver, sdk, "android_sdk").Ok? && "android_sdk" in r.value && r.value["android_sdk"] == Resolve(resolver, sdk, "android_sdk").value)
          && (!Truthy(sdk) && detectedSdk.Some? ==> "android_sdk" in r.value && r.value["android_sdk"] == detectedSdk)
          && (forall key :: key in paths && key !in TOOL_KEYS && key != "android_sdk" ==> key in r.value && r.value[key] == paths[key]))
      ensures !pathsConfig.JObject? ==> ToolPaths(paths).Err?
    {
      var tools := Section("tools");
      var r := ToolPaths(paths);
      if r.Ok? {
        var p := ApplyRules(Resolving(), tools, TOOL_RULES, paths).value;
        ToolKeys();
        ApplyRulesKeys(Resolving(), tools, TOOL_RULES, paths);
        forall k | 0 <= k < |TOOL_RULES| && Sets(tools, TOOL_RULES[k]) ensures Resolved(Resolving(), tools, TOOL_RULES[k], r.value) {
          ApplyRulesValue(Resolving(), tools, TOOL_RULES, paths, k);
        }
        forall key | key in paths && key !in TOOL_KEYS && key != "android_sdk" ensures key in r.value && r.value[key] == paths[key] {
          ApplyRulesOthers(Resolving(), tools, TOOL_RULES, paths, key);
        }
      }
    }

    /** An output directory is set only when configured; nothing else
        changes. */
    lemma OutputStage(paths: Paths)
      ensures var r := OutputPaths(paths);
        var output := Section("output");
        r.Ok? ==>
          (r.value.Keys == paths.Keys + SetKeys(output, OUTPUT_RULES)
          && (forall k :: 0 <= k < |OUTPUT_RULES| && Sets(output, OUTPUT_RULES[k]) ==> Resolved(Resolving(), output, OUTPUT_RULES[k], r.value))
          && (forall key :: key in paths && key !in OUTPUT_KEYS ==> key in r.value && r.value[key] == paths[key]))
      ensures !pathsConfig.JObject? ==> OutputPaths(paths).Err?
    {
      var output := Section("output");
      var r := OutputPaths(paths);
      if r.Ok? {
        OutputKeys();
        ApplyRulesKeys(Resolving(), output, OUTPUT_RULES, paths);
        forall k | 0 <= k < |OUTPUT_RULES| && Sets(output, OUTPUT_RULES[k]) ensures Resolved(Resolving(), output, OUTPUT_RULES[k], r.value) {
          ApplyRulesValue(Resolving(), output, OUTPUT_RULES, paths, k);
        }
        forall key | key in paths && key !in OUTPUT_KEYS ensures key in r.value && r.value[key] == paths[key] {
          ApplyRulesOthers(Resolving(), output, OUTPUT_RULES, paths, key);
        }
      }
    }

    /** The libraries directory is set only when configured and resolved to
        a path; nothing else changes. */
    lemma LibsStage(paths: Paths)
      ensures var r := LibsPath(paths);
        var libs := Configured(Section("download_dependencies"), "libs");
        r.Ok? ==>
          (r.value.Keys == paths.Keys + (if Truthy(libs) && Resolve(resolver, libs, "libs_dir") != Ok(None) then {"libs_dir"} else {})
          && (Truthy(libs) && Resolve(resolver, libs, "libs_dir") != Ok(None) ==> r.value["libs_dir"] == Resolve(resolver, libs, "libs_dir").value)
          && (forall key :: key in paths && key != "libs_dir" ==> r.value[key] == paths[key]))
      ensures !pathsConfig.JObject? ==> LibsPath(paths).Err?
    {
    }

    /** The keystore configuration is always set, from the configured value
        when that is true and from `keystore.json` otherwise; nothing else
        changes. */
    lemma KeystoreStage(paths: Paths)
      ensures var r := KeystorePath(paths);
        var keystore := Configured(pathsConfig, "keystore");
        r.Ok? ==>
          (r.value.Keys == paths.Keys + {"keystore_config"}
          && r.value["keystore_config"] == Resolve(resolver, if Truthy(keystore) then keystore else JString(DEFAULT_KEYSTORE), "keystore_config").value
          && (forall key :: key in paths && key != "keystore_config" ==> r.value[key] == paths[key]))
      ensures pathsConfig.JObject? ==>
        (KeystorePath(paths).Err? <==> Resolve(resolver, RuleValue(pathsConfig, KEYSTORE_RULE), "keystore_config").Err?)
    {
      ApplyRuleOutcome(Resolving(), pathsConfig, KEYSTORE_RULE, paths);
    }

    lemma DirectoryGrows(paths: Paths)
      ensures DirectoryPaths(paths).Ok? ==>
        Grows(paths, DirectoryPaths(paths).value, DIRECTORY_KEYS + {"decompiled_dir"}) && DIRECTORY_KEYS <= DirectoryPaths(paths).value.Keys
    {
      DirectoryStage(paths);
      SetKeysWithin(Section("directories"), [DECOMPILED_RULE]);
      assert RuleKeys([DECOMPILED_RULE]) == {"decompiled_dir"};
    }

    lemma ToolGrows(paths: Paths)
      ensures ToolPaths(paths).Ok? ==> Grows(paths, ToolPaths(paths).value, TOOL_KEYS + {"android_sdk"})
    {
      ToolStage(paths);
      SetKeysWithin(Section("tools"), TOOL_RULES);
      ToolKeys();
    }

    lemma OutputGrows(paths: Paths)
      ensures OutputPaths(paths).Ok? ==> Grows(paths, OutputPaths(paths).value, OUTPUT_KEYS)
    {
      OutputStage(paths);
      SetKeysWithin(Section("output"), OUTPUT_RULES);
      OutputKeys();
    }

    lemma LibsGrows(paths: Paths)
      ensures LibsPath(paths).Ok? ==> Grows(paths, LibsPath(paths).value, {"libs_dir"})
    {
      LibsStage(paths);
    }

    lemma KeystoreGrows(paths: Paths)
      ensures KeystorePath(paths).Ok? ==>
        Grows(paths, KeystorePath(paths).value, {"keystore_config"}) && "keystore_config" in KeystorePath(paths).value
    {
      KeystoreStage(paths);
    }

    /** `get_paths` always holds the project root, the three directories and
        the keystore configuration, and nothing but the known keys; the
        project root is the manager's. */
    lemma PathTableKeys()
      ensures var r := PathTable();
        r.Ok? ==> ALWAYS_KEYS <= r.value.Keys <= ALL_KEYS && r.value["project_root"] == Some(projectRoot)
      ensures !pathsConfig.JObject? ==> PathTable().Err?
    {
      var start := map["project_root" := Some(projectRoot)];
      var r1 := DirectoryPaths(start);
      assert !pathsConfig.JObject? ==> r1.Err? by {
        DirectoryStage(start);
      }
      if r1.Ok? {
        DirectoryGrows(start);
        var r2 := ToolPaths(r1.value);
        if r2.Ok? {
          ToolGrows(r1.value);
          var r3 := OutputPaths(r2.value);
          if r3.Ok? {
            OutputGrows(r2.value);
            var r4 := LibsPath(r3.value);
            if r4.Ok? {
              LibsGrows(r3.value);
              var r5 := KeystorePath(r4.value);
              if r5.Ok? {
                KeystoreGrows(r4.value);
                assert PathTable() == r5;
                StagesKeys(start, r1.value, r2.value, r3.value, r4.value, r5.value);
              }
            }
          }
        }
      }
    }

    /** What `get_paths` returns: the project root, then each group of
        paths in turn; the first error stops it. */
    function PathTable(): Result<Paths> {
      var start := map["project_root" := Some(projectRoot)];
      match DirectoryPaths(start)
      case Err(e) => Err(e)
      case Ok(p1) =>
        match ToolPaths(p1)
        case Err(e) => Err(e)
        case Ok(p2) =>
          match OutputPaths(p2)
          case Err(e) => Err(e)
          case Ok(p3) =>
            match LibsPath(p3)
            case Err(e) => Err(e)
            case Ok(p4) => KeystorePath(p4)
    }

    /** `get_paths`. */
    method GetPaths() returns (r: Result<Paths>)
      ensures r == PathTable()
    {
      var paths: Paths := map["project_root" := Some(projectRoot)];
      var step := ResolveDirectoryPaths(paths);
      if step.Err? {
        return step;
      }
      step := ResolveToolPaths(step.value);
      if step.Err? {
        return step;
      }
      step := ResolveOutputPaths(step.value);
      if step.Err? {
        return step;
      }
      step := ResolveLibsPath(step.value);
      if step.Err? {
        return step;
      }
      r := ResolveKeystorePath(step.value);
    }
  }
}
