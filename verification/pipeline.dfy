/** The pipeline execution engine (pipeline_manager.py): an interpreter for an
    ordered list of step strings such as `"build_apk"`, `"tools.copy('a', 'b')"`
    or `"smali_updater.SmaliUpdater.update_build_config()"`.

    The engine is modelled twice, on purpose:
    - a pure layer (`SplitNameAndArgs`, `ResolveSpec`, `ExecuteSpec`, `RunSpec`
      over an `EngineState` value) that the lemmas talk about, and
    - the `PipelineManager` class, whose methods update its caches and result
      list step by step and are proved to compute exactly what the pure layer says.

    Python reflection (`importlib`, `getattr`, `inspect.signature`), the literal
    parser and the body of each step are outside the model: modules and classes
    are attribute tables, the literal parser is a parameter, and what a step does
    when called is an oracle. */
module Pipeline {
  import opened Wrappers
  import opened Text
  import opened Order
  import opened PyObjects
  import Host

  // ===========================================================================
  // Data
  // ===========================================================================

  datatype StepStatus = Pending | Running | Success | Failed | Skipped

  /** One entry of `results`: the step's display name, and the error text for a
      failed step (durations are not modelled). */
  datatype StepRecord = Succeeded(step: string) | FailedStep(step: string, error: string)

  /** A literal value as `ast.literal_eval` produced it, kept as its source text. */
  datatype Literal = Literal(text: string)

  datatype Args = Args(positional: seq<Literal>, keywords: map<string, Literal>)

  const NO_ARGS := Args([], map[])

  /** A value the engine passes to an auto-constructed class, by parameter name. */
  datatype Injected =
    | PathEntry(key: string, path: Option<string>)    // build_tool.paths.get(key)
    | PathsTable                                       // build_tool.paths
    | ConfigObject(present: bool)                      // build_tool.config
    | NoLogger                                         // None
    | FoundFile(key: string, path: Option<string>)    // build_tool.found_files.get(key)

  /** An auto-constructed helper object. `serial` is its identity: two instances
      are the same object exactly when their serials agree. */
  datatype Instance = Instance(className: string, cls: ClassDef, args: seq<Injected>, serial: nat)

  /** What a step name resolves to. */
  datatype Target =
    | HostMethod(name: string)
    | ModuleFunction(moduleName: string, name: string)
    | BoundMethod(instance: Instance, methodName: string)

  datatype Call = Call(target: Target, args: Args)

  /** How a called step ends: it returns, raises a `Warning`, or raises anything else. */
  datatype Outcome = Returned | RaisedWarning(message: string) | Raised(message: string)

  /** What calling a step does to the state the engine can see: its outcome,
      whether it logged a warning on the host, and the `found_files` it stored. */
  datatype Effect = Effect(outcome: Outcome, logsWarning: bool, setsFoundFiles: Option<map<string, string>>)

  /** What the operator prompt produced: nothing before the timeout (or an input
      error), or a typed line. */
  datatype PromptAnswer = TimedOut | Answered(line: string)

  /** The world outside the engine: the effect of calling step number `n`, and
      the answer to the prompt shown after step `n` with the given timeout. */
  datatype Oracles = Oracles(invoke: (nat, Call) -> Effect, prompt: (nat, int) -> PromptAnswer)

  /** What stays fixed during a run: the host's attribute table, `paths` and
      whether `config` is set; the importable modules; the literal parser; and
      the `pipeline_behavior` table. */
  datatype Context = Context(
    attributes: seq<Attribute>,
    paths: map<string, string>,
    hasConfig: bool,
    importable: map<string, ModuleDef>,
    parseLiterals: string -> Result<Args>,
    behavior: PipelineBehavior)

  /** What changes during a run: the host's warning flag and `found_files`, the
      module and instance caches, and the next fresh instance identity. */
  datatype EngineState = EngineState(
    warnings: bool,
    foundFiles: Option<map<string, string>>,
    modules: map<string, ModuleDef>,
    instances: map<string, Instance>,
    nextSerial: nat)

  datatype StepOutcome = StepOutcome(record: StepRecord, keepGoing: bool, state: EngineState)

  datatype RunOutcome = RunOutcome(records: seq<StepRecord>, ok: bool, state: EngineState)

  // ===========================================================================
  // Configuration and the failure policy
  // ===========================================================================

  /** The table used when the configuration has no `pipeline_behavior`. */
  const DEFAULT_BEHAVIOR := PipelineBehavior(Some(true), Some(false), Some(30))

  function LoadBehavior(configured: Option<PipelineBehavior>): (b: PipelineBehavior)
    ensures configured.None? ==> b.stopOnError == Some(true) && b.stopOnWarning == Some(false) && b.timeoutSeconds == Some(30)
    ensures configured.Some? ==> b == configured.value
  {
    configured.GetOr(DEFAULT_BEHAVIOR)
  }

  /** `pipeline_config.get(stop_key, True)`. */
  function StopsOn(b: PipelineBehavior, isWarning: bool): bool {
    (if isWarning then b.stopOnWarning else b.stopOnError).GetOr(true)
  }

  function PromptTimeout(b: PipelineBehavior): int {
    b.timeoutSeconds.GetOr(30)
  }

  /** The decision rule of `ask_continue_with_timeout`. */
  function ContinueAnswer(a: PromptAnswer): (keep: bool)
    ensures a.TimedOut? ==> keep
    ensures a.Answered? ==> (keep <==> Strip(Lower(a.line)) in {"y", "yes"})
  {
    match a
    case TimedOut => true
    case Answered(line) => var t := Strip(Lower(line)); t == "y" || t == "yes"
  }

  /** The value `_on_step_error` returns. */
  function ContinueAfterFailure(b: PipelineBehavior, o: Oracles, isWarning: bool, num: nat): bool {
    if StopsOn(b, isWarning) then ContinueAnswer(o.prompt(num, PromptTimeout(b))) else true
  }

  // ===========================================================================
  // Splitting a step string
  // ===========================================================================

  /** `PipelineStep.display_name`: the raw text before the first "(", stripped. */
  function DisplayNameOf(raw: string): string {
    Strip(raw[..IndexOrEnd(raw, '(')])
  }

  function CannotParseStep(s: string): Error {
    Error(ValueError, "Cannot parse step string: '" + s + "'")
  }

  /** `_split_name_and_args`: the match of `^(?P<name>[^(]+?)(?:\((?P<args>.*)\))?$`
      (with DOTALL, so `$` also matches before one final newline), the name
      stripped. */
  function SplitNameAndArgs(s: string): Result<(string, Option<string>)> {
    var p := IndexOrEnd(s, '(');
    if p == 0 then Err(CannotParseStep(s))
    else if p == |s| then Ok((Strip(s), None))
    else if s[|s| - 1] == ')' then Ok((Strip(s[..p]), Some(s[p + 1..|s| - 1])))
    else if |s| >= 2 && s[|s| - 1] == '\n' && s[|s| - 2] == ')' then Ok((Strip(s[..p]), Some(s[p + 1..|s| - 2])))
    else Err(CannotParseStep(s))
  }

  // The regular expression, stated directly: a name of at least one character
  // without "(", then optionally a parenthesised group, then the end anchor.

  predicate EndsAt(s: string, k: int) {
    k == |s| || (0 <= k && k + 1 == |s| && s[k] == '\n')
  }

  predicate NamePart(s: string, n: int) {
    1 <= n <= |s| && forall j :: 0 <= j < n ==> s[j] != '('
  }

  /** A match without the argument group, the name being `s[..n]`. */
  predicate BareMatch(s: string, n: int) {
    NamePart(s, n) && EndsAt(s, n)
  }

  /** A match with the argument group `s[n + 1..q]`. */
  predicate CallMatch(s: string, n: int, q: int) {
    NamePart(s, n) && n < q < |s| && s[n] == '(' && s[q] == ')' && EndsAt(s, q + 1)
  }

  /** The split fails exactly when the pattern does not match. */
  lemma SplitMatchesPattern(s: string)
    ensures SplitNameAndArgs(s).Err? <==>
      (forall n :: !BareMatch(s, n)) && (forall n, q :: !CallMatch(s, n, q))
    ensures SplitNameAndArgs(s).Err? ==> SplitNameAndArgs(s).error == CannotParseStep(s)
  {
    var p := IndexOrEnd(s, '(');
    if p == 0 {
      NoNameBeforeParen(s);
    } else if p == |s| {
      assert BareMatch(s, |s|);
    } else {
      MatchesAroundParen(s);
      if s[|s| - 1] == ')' {
        assert CallMatch(s, p, |s| - 1);
      } else if |s| >= 2 && s[|s| - 1] == '\n' && s[|s| - 2] == ')' {
        assert CallMatch(s, p, |s| - 2);
      }
    }
  }

  /** A successful split returns the match a backtracking matcher finds: the
      argument group when one fits (the longest one), the stripped name before it. */
  lemma SplitFollowsMatch(s: string)
    ensures SplitNameAndArgs(s).Ok? && SplitNameAndArgs(s).value.1.None? ==>
      (forall n, q :: !CallMatch(s, n, q))
      && exists n :: BareMatch(s, n) && SplitNameAndArgs(s).value.0 == Strip(s[..n])
    ensures SplitNameAndArgs(s).Ok? && SplitNameAndArgs(s).value.1.Some? ==>
      exists n, q :: CallMatch(s, n, q)
        && SplitNameAndArgs(s).value == (Strip(s[..n]), Some(s[n + 1..q]))
        && forall q' :: CallMatch(s, n, q') ==> q' <= q
  {
    var p := IndexOrEnd(s, '(');
    if p == 0 {
    } else if p == |s| {
      assert BareMatch(s, |s|);
      assert s[..|s|] == s;
      NoCallWithoutParen(s);
    } else {
      MatchesAroundParen(s);
      if s[|s| - 1] == ')' {
        assert CallMatch(s, p, |s| - 1);
      } else if |s| >= 2 && s[|s| - 1] == '\n' && s[|s| - 2] == ')' {
        assert CallMatch(s, p, |s| - 2);
      }
    }
  }

  /** A text that is empty or starts with "(" has no name part. */
  lemma NoNameBeforeParen(s: string)
    requires IndexOrEnd(s, '(') == 0
    ensures forall n :: !NamePart(s, n)
  {
    forall n ensures !NamePart(s, n) {
      if 1 <= n <= |s| {
        assert s[0] == '(';
      }
    }
  }

  /** Without "(" there is no argument group. */
  lemma NoCallWithoutParen(s: string)
    requires IndexOrEnd(s, '(') == |s|
    ensures forall n, q :: !CallMatch(s, n, q)
  {
  }

  /** With a "(" there is no bare match, and a call match opens its group at the
      first "(" and closes it at the end, or before one final newline. */
  lemma MatchesAroundParen(s: string)
    requires 0 < IndexOrEnd(s, '(') < |s|
    ensures forall n :: !BareMatch(s, n)
    ensures forall n, q :: CallMatch(s, n, q) ==>
      n == IndexOrEnd(s, '(') && (q == |s| - 1 || (q == |s| - 2 && s[|s| - 1] == '\n'))
  {
    var p := IndexOrEnd(s, '(');
    assert s[p] == '(';
    forall n | NamePart(s, n) ensures n <= p {
    }
    forall n ensures !BareMatch(s, n) {
      if NamePart(s, n) {
        assert n <= p;
        if n == p {
          assert s[n] == '(';
        }
      }
    }
    forall n, q | CallMatch(s, n, q) ensures n == p {
      assert n <= p;
    }
  }

  /** Text made of whitespace in front of a string does not change its strip. */
  lemma StripLeadingSpace(w: string, x: string)
    requires forall i :: 0 <= i < |w| ==> IsSpace(w[i])
    ensures Strip(w + x) == Strip(x)
  {
    LStripPrependSpace(w, x);
  }

  lemma StripIdempotent(s: string)
    ensures Strip(Strip(s)) == Strip(s)
  {
    StripShape(s);
    StripNoop(Strip(s));
  }

  /** Where the first "(" of a string is, given the first "(" of its core
      `t` between whitespace margins. */
  lemma FirstParenAroundCore(raw: string, k: int, t: string)
    requires Framed(raw, k, t)
    ensures IndexOrEnd(raw, '(') == if IndexOrEnd(t, '(') == |t| then |raw| else k + IndexOrEnd(t, '(')
  {
    var p := IndexOrEnd(t, '(');
    AsciiSpace('(');
    assert forall i :: k <= i < k + |t| ==> raw[i] == t[i - k];
    if p < |t| {
      assert raw[k + p] == '(';
    }
  }

  lemma SplitName(s: string)
    requires SplitNameAndArgs(s).Ok?
    ensures var p := IndexOrEnd(s, '(');
      SplitNameAndArgs(s).value.0 == if p == |s| then Strip(s) else Strip(s[..p])
  {
  }

  /** The name the engine resolves is the display name recorded for the step. */
  lemma DisplayNameAgrees(raw: string)
    requires SplitNameAndArgs(Strip(raw)).Ok?
    ensures SplitNameAndArgs(Strip(raw)).value.0 == DisplayNameOf(raw)
  {
    var t := Strip(raw);
    SplitName(t);
    if IndexOrEnd(t, '(') == |t| {
      DisplayNameWithoutParen(raw);
    } else {
      DisplayNameWithParen(raw);
    }
  }

  lemma DisplayNameWithoutParen(raw: string)
    requires IndexOrEnd(Strip(raw), '(') == |Strip(raw)|
    ensures DisplayNameOf(raw) == Strip(raw)
  {
    StripShape(raw);
    FirstParenAroundCore(raw, |raw| - |LStrip(raw)|, Strip(raw));
    assert raw[..|raw|] == raw;
    StripIdempotent(raw);
  }

  lemma DisplayNameWithParen(raw: string)
    requires IndexOrEnd(Strip(raw), '(') < |Strip(raw)|
    ensures DisplayNameOf(raw) == Strip(Strip(raw)[..IndexOrEnd(Strip(raw), '(')])
  {
    var t := Strip(raw);
    var k := |raw| - |LStrip(raw)|;
    StripShape(raw);
    FirstParenAroundCore(raw, k, t);
    NameBeforeParen(raw, k, t);
  }

  /** The text before the first "(" of `raw` is the margin and the core's text before its "(". */
  lemma NameBeforeParen(raw: string, k: nat, t: string)
    requires Framed(raw, k, t)
    requires IndexOrEnd(t, '(') < |t| && IndexOrEnd(raw, '(') == k + IndexOrEnd(t, '(')
    ensures DisplayNameOf(raw) == Strip(t[..IndexOrEnd(t, '(')])
  {
    var p := IndexOrEnd(t, '(');
    assert raw[..k + p] == raw[..k] + t[..p];
    StripLeadingSpace(raw[..k], t[..p]);
  }

  // ===========================================================================
  // Arguments
  // ===========================================================================

  function CannotParseArgs(text: string, reason: string): Error {
    Error(ValueError, "Cannot parse arguments '" + text + "': " + reason
      + "\nOnly literal values are supported: strings, numbers, booleans, None, lists, dicts.")
  }

  /** `_parse_args`: blank text gives no arguments; anything else goes to the
      literal parser, whose failure becomes a ValueError naming the stripped text. */
  function ParseArgs(parseLiterals: string -> Result<Args>, text: string): (r: Result<Args>)
    ensures Strip(text) == "" ==> r == Ok(NO_ARGS)
    ensures Strip(text) != "" && parseLiterals(Strip(text)).Ok? ==> r == parseLiterals(Strip(text))
    ensures Strip(text) != "" && parseLiterals(Strip(text)).Err? ==>
      r == Err(CannotParseArgs(Strip(text), parseLiterals(Strip(text)).error.message))
  {
    var t := Strip(text);
    if t == "" then Ok(NO_ARGS)
    else match parseLiterals(t)
      case Ok(a) => Ok(a)
      case Err(e) => Err(CannotParseArgs(t, e.message))
  }

  // ===========================================================================
  // Resolution
  // ===========================================================================

  predicate IsDunder(name: string) {
    StartsWith(name, "__") && EndsWith(name, "__")
  }

  /** A name `list_available_steps` reports: an attribute of the host that is
      not a dunder name and whose value is callable. */
  predicate IsStepName(attributes: seq<Attribute>, name: string) {
    (exists i :: 0 <= i < |attributes| && attributes[i].name == name)
    && !IsDunder(name) && IsCallable(GetAttr(attributes, name))
  }

  /** The step names among `attributes[i..]`, in table order. */
  function StepNamesFrom(attributes: seq<Attribute>, i: nat): (r: seq<string>)
    requires i <= |attributes|
    ensures forall x :: x in r <==>
      (exists j :: i <= j < |attributes| && attributes[j].name == x)
      && !IsDunder(x) && IsCallable(GetAttr(attributes, x))
    decreases |attributes| - i
  {
    if i == |attributes| then []
    else
      var name := attributes[i].name;
      var rest := StepNamesFrom(attributes, i + 1);
      if !IsDunder(name) && IsCallable(GetAttr(attributes, name)) then [name] + rest else rest
  }

  /** `list_available_steps`. */
  function AvailableSteps(attributes: seq<Attribute>): (r: seq<string>)
    ensures SortedStrings(r)
    ensures forall x :: x in r <==> IsStepName(attributes, x)
  {
    var names := StepNamesFrom(attributes, 0);
    var r := SortStrings(names);
    assert forall x :: x in r <==> x in names by {
      forall x ensures x in r <==> x in names {
        assert x in r <==> x in multiset(r);
        assert x in names <==> x in multiset(names);
      }
    }
    r
  }

  /** The names among `names` that contain `name`, ignoring case, in order. */
  function SimilarNames(names: seq<string>, name: string): (r: seq<string>)
    ensures forall x :: x in r <==> x in names && Contains(Lower(x), Lower(name))
    ensures SortedStrings(names) ==> SortedStrings(r)
  {
    if names == [] then []
    else
      var rest := SimilarNames(names[1..], name);
      assert forall x :: x in names <==> x == names[0] || x in names[1..] by {
        assert names == [names[0]] + names[1..];
      }
      if Contains(Lower(names[0]), Lower(name)) then
        assert SortedStrings(names) ==> forall j :: 0 <= j < |rest| ==> StrLe(names[0], rest[j]) by {
          if SortedStrings(names) {
            forall j | 0 <= j < |rest| ensures StrLe(names[0], rest[j]) {
              assert rest[j] in names[1..];
              var k :| 0 <= k < |names[1..]| && names[1..][k] == rest[j];
              assert names[k + 1] == rest[j];
            }
          }
        }
        [names[0]] + rest
      else rest
  }

  /** The suggestions in the "not found on ApkForge" message. */
  function Hints(attributes: seq<Attribute>, name: string): seq<string> {
    var similar := SimilarNames(AvailableSteps(attributes), name);
    if |similar| <= 5 then similar else similar[..5]
  }

  /** At most five suggestions, in sorted order, each an available step that
      contains the name case-insensitively; none only when no step does. */
  lemma HintsAreSimilarSteps(attributes: seq<Attribute>, name: string)
    ensures var h := Hints(attributes, name);
      |h| <= 5 && SortedStrings(h)
      && (forall x :: x in h ==> IsStepName(attributes, x) && Contains(Lower(x), Lower(name)))
      && (h == [] <==> forall x :: IsStepName(attributes, x) ==> !Contains(Lower(x), Lower(name)))
  {
    var similar := SimilarNames(AvailableSteps(attributes), name);
    var h := Hints(attributes, name);
    assert forall x :: x in h ==> x in similar;
    if h == [] {
      assert similar == [];
    } else {
      assert h[0] in similar;
    }
  }

  function HintText(hints: seq<string>): string {
    if hints == [] then "" else "\n  Did you mean one of: " + Join(hints, ", ")
  }

  function NotFoundOnHost(attributes: seq<Attribute>, name: string): Error {
    Error(AttributeError, "Method '" + name + "' not found on ApkForge." + HintText(Hints(attributes, name))
      + "\n  For functions in other files use: 'module_name.function_name'")
  }

  /** `_resolve_build_tool_method`. */
  function ResolveHostMethod(c: Context, name: string): (r: Result<Target>)
    ensures r.Ok? <==> IsCallable(GetAttr(c.attributes, name))
    ensures r.Ok? ==> r.value == HostMethod(name)
    ensures GetAttr(c.attributes, name).NoneValue? ==> r == Err(NotFoundOnHost(c.attributes, name))
  {
    var v := GetAttr(c.attributes, name);
    if v.NoneValue? then Err(NotFoundOnHost(c.attributes, name))
    else if !IsCallable(v) then Err(Error(TypeError, "'" + name + "' exists on ApkForge but is not callable."))
    else Ok(HostMethod(name))
  }

  function NotFoundIn(attr: string, owner: string): Error {
    Error(AttributeError, "'" + attr + "' not found in '" + owner + "'.")
  }

  /** `_getattr_or_raise`: a missing or None-valued attribute is an error. */
  function GetAttrOrRaise(attrs: seq<Attribute>, attr: string, owner: string): (r: Result<Value>)
    ensures r.Err? <==> GetAttr(attrs, attr).NoneValue?
    ensures r.Err? ==> r.error == NotFoundIn(attr, owner)
    ensures r.Ok? ==> r.value == GetAttr(attrs, attr)
  {
    var v := GetAttr(attrs, attr);
    if v.NoneValue? then Err(NotFoundIn(attr, owner)) else Ok(v)
  }

  function ImportFailure(m: string): Error {
    Error(ImportError, "Cannot import module '" + m + "': No module named '" + m + "'\n"
      + "  Make sure the file '" + m + ".py' exists and is on the Python path.")
  }

  /** `_import_module`: a cached module is returned as is; otherwise the module
      is imported and cached, and a failed import caches nothing. */
  function ImportSpec(c: Context, st: EngineState, m: string): (r: (Result<ModuleDef>, EngineState))
    ensures Advances(st, r.1) && r.1.instances == st.instances && r.1.nextSerial == st.nextSerial
    ensures m in st.modules ==> r == (Ok(st.modules[m]), st)
    ensures r.0.Ok? ==> m in r.1.modules && r.1.modules[m] == r.0.value
    ensures r.0.Err? ==> r.1 == st
  {
    if m in st.modules then (Ok(st.modules[m]), st)
    else if m == "" then (Err(Error(ValueError, "Empty module name")), st)
    else if m in c.importable then (Ok(c.importable[m]), st.(modules := st.modules[m := c.importable[m]]))
    else (Err(ImportFailure(m)), st)
  }

  /** The constructor parameters the engine knows how to fill. */
  const INJECTABLE: set<string> :=
    {"modded_dir", "android_sdk", "paths", "config", "logger", "apktool_jar", "baksmali_jar", "source_apk"}

  function Lookup(m: map<string, string>, key: string): Option<string> {
    if key in m then Some(m[key]) else None
  }

  /** The value `param_map[p]()` produces, or None when `p` is not a known parameter. */
  function Inject(c: Context, found: Option<map<string, string>>, p: string): (v: Option<Injected>)
    ensures v.Some? <==> p in INJECTABLE
  {
    if p == "modded_dir" || p == "android_sdk" then Some(PathEntry(p, Lookup(c.paths, p)))
    else if p == "paths" then Some(PathsTable)
    else if p == "config" then Some(ConfigObject(c.hasConfig))
    else if p == "logger" then Some(NoLogger)
    else if p == "apktool_jar" || p == "baksmali_jar" || p == "source_apk" then
      Some(FoundFile(p, if found.Some? then Lookup(found.value, p) else None))
    else None
  }

  datatype Injection = Injected(args: seq<Injected>) | Unknown(param: string)

  /** The constructor arguments for `params`, or the first parameter the engine cannot fill. */
  function InjectAll(c: Context, found: Option<map<string, string>>, params: seq<string>): Injection
    decreases |params|
  {
    if params == [] then Injected([])
    else match InjectAll(c, found, params[..|params| - 1])
      case Unknown(p) => Unknown(p)
      case Injected(args) =>
        match Inject(c, found, params[|params| - 1])
        case None => Unknown(params[|params| - 1])
        case Some(v) => Injected(args + [v])
  }

  /** All parameters known gives one argument per parameter, in order; otherwise
      the reported parameter is the first unknown one. */
  lemma {:induction false} InjectAllMeaning(c: Context, found: Option<map<string, string>>, params: seq<string>)
    ensures InjectAll(c, found, params).Injected? <==> forall i :: 0 <= i < |params| ==> params[i] in INJECTABLE
    ensures InjectAll(c, found, params).Injected? ==>
      var args := InjectAll(c, found, params).args;
      |args| == |params| && forall i :: 0 <= i < |params| ==> Inject(c, found, params[i]) == Some(args[i])
    ensures InjectAll(c, found, params).Unknown? ==>
      exists k :: 0 <= k < |params| && params[k] == InjectAll(c, found, params).param
        && params[k] !in INJECTABLE && forall i :: 0 <= i < k ==> params[i] in INJECTABLE
    decreases |params|
  {
    if params != [] {
      var init := params[..|params| - 1];
      InjectAllMeaning(c, found, init);
      assert forall i :: 0 <= i < |init| ==> init[i] == params[i];
    }
  }

  /** Once a prefix of the parameters meets an unknown one, so do all the parameters. */
  lemma {:induction false} InjectAllStopsAtUnknown(c: Context, found: Option<map<string, string>>, params: seq<string>, n: nat)
    requires n <= |params| && InjectAll(c, found, params[..n]).Unknown?
    ensures InjectAll(c, found, params) == InjectAll(c, found, params[..n])
    decreases |params|
  {
    if n < |params| {
      var init := params[..|params| - 1];
      assert init[..n] == params[..n];
      InjectAllStopsAtUnknown(c, found, init, n);
    } else {
      assert params[..n] == params;
    }
  }

  /** Python's `type(a).__name__` for an injected argument. Paths are `pathlib`
      objects; the POSIX class name is used. */
  function TypeName(a: Injected): string {
    match a
    case PathEntry(_, p) => if p.Some? then "PosixPath" else "NoneType"
    case PathsTable => "dict"
    case ConfigObject(present) => if present then "ProjectConfig" else "NoneType"
    case NoLogger => "NoneType"
    case FoundFile(_, p) => if p.Some? then "PosixPath" else "NoneType"
  }

  /** The `repr` of the list of type names. */
  function TypeNameList(args: seq<Injected>): string {
    "[" + Join(QuotedTypeNames(args), ", ") + "]"
  }

  function QuotedTypeNames(args: seq<Injected>): (r: seq<string>)
    ensures |r| == |args|
  {
    if args == [] then [] else ["'" + TypeName(args[0]) + "'"] + QuotedTypeNames(args[1..])
  }

  function UnknownParameter(className: string, p: string): Error {
    Error(RuntimeError, "Cannot auto-instantiate '" + className + "'.\n"
      + "  Unknown required parameter: '" + p + "'\n"
      + "  Pass constructor args directly in the pipeline step:\n"
      + "  e.g. \"module." + className + ".method('arg1', 'arg2')\"\n"
      + "  Or instantiate it manually and add it to the build_tool.")
  }

  /** `_auto_create_instance`, the new object getting identity `serial`. */
  function AutoCreateSpec(c: Context, found: Option<map<string, string>>, cls: ClassDef, className: string, serial: nat): Result<Instance> {
    if cls.required == [] then
      match cls.constructorError
      case Some(e) => Err(Error(RuntimeError, "Cannot instantiate '" + className + "()': " + e))
      case None => Ok(Instance(className, cls, [], serial))
    else
      match InjectAll(c, found, cls.required)
      case Unknown(p) => Err(UnknownParameter(className, p))
      case Injected(args) =>
        match cls.constructorError
        case Some(e) => Err(Error(RuntimeError, "Failed to instantiate '" + className + "' with args " + TypeNameList(args) + ": " + e))
        case None => Ok(Instance(className, cls, args, serial))
  }

  /** Auto-construction succeeds exactly when every required parameter is known
      and the constructor does not raise; the instance then gets one argument per
      required parameter and the identity it was offered. */
  lemma AutoCreateMeaning(c: Context, found: Option<map<string, string>>, cls: ClassDef, className: string, serial: nat)
    ensures var r := AutoCreateSpec(c, found, cls, className, serial);
      (r.Ok? <==> cls.constructorError.None? && forall i :: 0 <= i < |cls.required| ==> cls.required[i] in INJECTABLE)
      && (r.Ok? ==> r.value.className == className && r.value.cls == cls && r.value.serial == serial
                    && |r.value.args| == |cls.required|
                    && forall i :: 0 <= i < |cls.required| ==> Inject(c, found, cls.required[i]) == Some(r.value.args[i]))
      && (r.Err? ==> r.error.kind == RuntimeError)
  {
    InjectAllMeaning(c, found, cls.required);
  }

  /** `_get_or_create_instance`: the cache is keyed by the class name alone. */
  function InstanceSpec(c: Context, st: EngineState, cls: ClassDef, className: string): (r: (Result<Instance>, EngineState))
    ensures Advances(st, r.1) && r.1.modules == st.modules
    ensures className in st.instances ==> r == (Ok(st.instances[className]), st)
    ensures r.0.Ok? ==> className in r.1.instances && r.1.instances[className] == r.0.value
    ensures Coherent(st) ==> Coherent(r.1)
    ensures Coherent(st) && r.0.Ok? && className !in st.instances ==>
      forall k :: k in st.instances ==> st.instances[k].serial != r.0.value.serial
  {
    AutoCreateMeaning(c, st.foundFiles, cls, className, st.nextSerial);
    if className in st.instances then (Ok(st.instances[className]), st)
    else match AutoCreateSpec(c, st.foundFiles, cls, className, st.nextSerial)
      case Err(e) => (Err(e), st)
      case Ok(inst) => (Ok(inst), st.(instances := st.instances[className := inst], nextSerial := st.nextSerial + 1))
  }

  function ClassNotCallable(name: string, moduleName: string, attr: string): Error {
    Error(ValueError, "'" + name + "' is a class, not callable directly.\n"
      + "Use '" + moduleName + "." + attr + ".method_name' to call a method.")
  }

  function TooManyDotsError(name: string): Error {
    Error(ValueError, "Too many dots in '" + name + "'. Maximum supported depth is 'module.ClassName.method'.")
  }

  /** The two-part case of `_resolve_callable`: a function of a module. */
  function ResolveModuleAttribute(c: Context, st: EngineState, name: string, moduleName: string, attrName: string): (r: (Result<Target>, EngineState))
    ensures Advances(st, r.1) && r.1.instances == st.instances && r.1.nextSerial == st.nextSerial
    ensures r.0.Ok? ==> r.0.value == ModuleFunction(moduleName, attrName)
  {
    var (m, st1) := ImportSpec(c, st, moduleName);
    if m.Err? then (Err(m.error), st1)
    else
      var attr := GetAttrOrRaise(m.value.members, attrName, moduleName);
      if attr.Err? then (Err(attr.error), st1)
      else if attr.value.Class? then (Err(ClassNotCallable(name, moduleName, attrName)), st1)
      else if attr.value.Function? then (Ok(ModuleFunction(moduleName, attrName)), st1)
      else (Err(Error(TypeError, "'" + name + "' is not callable (type: " + attr.value.typeName + ")")), st1)
  }

  /** The three-part case of `_resolve_callable`: a method of the cached (or
      newly constructed) instance of a module's class. */
  function ResolveInstanceMethod(c: Context, st: EngineState, moduleName: string, className: string, methodName: string): (r: (Result<Target>, EngineState))
    ensures Advances(st, r.1)
    ensures Coherent(st) ==> Coherent(r.1)
    ensures r.0.Ok? ==>
      (r.0.value.BoundMethod? && r.0.value.methodName == methodName
       && className in r.1.instances && r.1.instances[className] == r.0.value.instance)
  {
    var (m, st1) := ImportSpec(c, st, moduleName);
    if m.Err? then (Err(m.error), st1)
    else
      var cls := GetAttrOrRaise(m.value.members, className, moduleName);
      if cls.Err? then (Err(cls.error), st1)
      else if !cls.value.Class? then (Err(Error(TypeError, "'" + moduleName + "." + className + "' is not a class.")), st1)
      else
        var (inst, st2) := InstanceSpec(c, st1, cls.value.cls, className);
        if inst.Err? then (Err(inst.error), st2)
        else
          var meth := GetAttrOrRaise(inst.value.cls.members, methodName, className);
          if meth.Err? then (Err(meth.error), st2)
          else if !IsCallable(meth.value) then (Err(Error(TypeError, "'" + className + "." + methodName + "' is not callable.")), st2)
          else (Ok(BoundMethod(inst.value, methodName)), st2)
  }

  /** `_resolve_callable`, dispatching on the number of dot-separated parts. */
  function ResolveSpec(c: Context, st: EngineState, name: string): (r: (Result<Target>, EngineState))
    ensures Advances(st, r.1)
    ensures Coherent(st) ==> Coherent(r.1)
    ensures r.0.Ok? && r.0.value.BoundMethod? ==>
      var parts := Split(name, ".");
      |parts| == 3 && parts[1] in r.1.instances && r.1.instances[parts[1]] == r.0.value.instance
  {
    var parts := Split(name, ".");
    if |parts| == 1 then (ResolveHostMethod(c, name), st)
    else if |parts| == 2 then ResolveModuleAttribute(c, st, name, parts[0], parts[1])
    else if |parts| == 3 then ResolveInstanceMethod(c, st, parts[0], parts[1], parts[2])
    else (Err(TooManyDotsError(name)), st)
  }

  /** The first half of `_parse_step`: strip, split, and parse the arguments. */
  function ParseHead(parseLiterals: string -> Result<Args>, raw: string): Result<(string, Args)> {
    var split := SplitNameAndArgs(Strip(raw));
    if split.Err? then Err(split.error)
    else
      var (name, argText) := split.value;
      var args := if argText.None? then Ok(NO_ARGS) else ParseArgs(parseLiterals, argText.value);
      if args.Err? then Err(args.error) else Ok((name, args.value))
  }

  /** `_parse_step`: strip, split, parse the arguments, and only then resolve the name. */
  function ParseStepSpec(c: Context, st: EngineState, raw: string): (r: (Result<Call>, EngineState))
    ensures Advances(st, r.1)
    ensures Coherent(st) ==> Coherent(r.1)
  {
    match ParseHead(c.parseLiterals, raw)
    case Err(e) => (Err(e), st)
    case Ok((name, args)) =>
      var (target, st1) := ResolveSpec(c, st, name);
      if target.Err? then (Err(target.error), st1) else (Ok(Call(target.value, args)), st1)
  }

  // ===========================================================================
  // Executing steps
  // ===========================================================================

  const WARNINGS_MESSAGE := "Step completed with warnings"

  /** `_on_step_error`: one failed record, then the failure policy decides. */
  function OnStepErrorSpec(c: Context, o: Oracles, st: EngineState, name: string, message: string, isWarning: bool, num: nat): StepOutcome {
    StepOutcome(FailedStep(name, message), ContinueAfterFailure(c.behavior, o, isWarning, num), st)
  }

  /** The state after a step was called: the warning flag is set if the step
      logged a warning, and `found_files` is what the step stored, if anything. */
  function AfterCall(st: EngineState, e: Effect): EngineState {
    st.(warnings := st.warnings || e.logsWarning,
        foundFiles := if e.setsFoundFiles.Some? then e.setsFoundFiles else st.foundFiles)
  }

  /** `_execute_step` for step number `num`. */
  function ExecuteSpec(c: Context, o: Oracles, st: EngineState, raw: string, num: nat): (r: StepOutcome)
    ensures r.record.step == DisplayNameOf(raw)
    ensures !r.keepGoing ==> r.record.FailedStep?
    ensures !r.keepGoing ==> (StopsOn(c.behavior, true) || StopsOn(c.behavior, false))
                             && !ContinueAnswer(o.prompt(num, PromptTimeout(c.behavior)))
    ensures Extends(st, r.state)
    ensures Coherent(st) ==> Coherent(r.state)
  {
    var name := DisplayNameOf(raw);
    var (parsed, st1) := ParseStepSpec(c, st, raw);
    if parsed.Err? then OnStepErrorSpec(c, o, st1, name, parsed.error.message, false, num)
    else CompleteCall(c, o, st1, name, o.invoke(num, parsed.value), num)
  }

  /** The part of `_execute_step` after the step was called with `effect`. */
  function CompleteCall(c: Context, o: Oracles, st: EngineState, name: string, effect: Effect, num: nat): (r: StepOutcome)
    ensures r.record.step == name
    ensures !r.keepGoing ==> r.record.FailedStep?
    ensures !r.keepGoing ==> (StopsOn(c.behavior, true) || StopsOn(c.behavior, false))
                             && !ContinueAnswer(o.prompt(num, PromptTimeout(c.behavior)))
    ensures r.state.modules == st.modules && r.state.instances == st.instances && r.state.nextSerial == st.nextSerial
  {
    var st2 := AfterCall(st, effect);
    match effect.outcome
    case RaisedWarning(m) => OnStepErrorSpec(c, o, st2, name, m, true, num)
    case Raised(m) => OnStepErrorSpec(c, o, st2, name, m, false, num)
    case Returned =>
      if st2.warnings && c.behavior.stopOnWarning.GetOr(false) then
        OnStepErrorSpec(c, o, st2.(warnings := false), name, WARNINGS_MESSAGE, true, num)
      else StepOutcome(Succeeded(name), true, st2)
  }

  /** What attempting one step does: the step's record, whether the run goes
      on, and the state after it, given the state, the step string and its number. */
  type StepExecutor = (EngineState, string, nat) -> StepOutcome

  /** `_execute_step` under one context and one set of oracles. */
  function Executor(c: Context, o: Oracles): StepExecutor {
    (st: EngineState, raw: string, num: nat) => ExecuteSpec(c, o, st, raw, num)
  }

  /** `run`'s loop over `steps`, each attempted by `exec`, the first of them numbered `num`. */
  function RunWith(exec: StepExecutor, st: EngineState, steps: seq<string>, num: nat): RunOutcome
    decreases |steps|
  {
    if steps == [] then RunOutcome([], true, st)
    else
      var out := exec(st, steps[0], num);
      var rest := if out.keepGoing then RunWith(exec, out.state, steps[1..], num + 1) else RunOutcome([], true, out.state);
      RunOutcome([out.record] + rest.records, out.record.Succeeded? && rest.ok, rest.state)
  }

  /** `run`'s loop over `steps`, the first of them numbered `num`. */
  function RunSpec(c: Context, o: Oracles, st: EngineState, steps: seq<string>, num: nat): RunOutcome {
    RunWith(Executor(c, o), st, steps, num)
  }

  // ===========================================================================
  // Properties of a run
  // ===========================================================================

  /** Every record an executor produces carries the step's display name. */
  ghost predicate NamesSteps(exec: StepExecutor) {
    forall st, raw, num :: exec(st, raw, num).record.step == DisplayNameOf(raw)
  }

  /** An executor asks to stop only after a failed step. */
  ghost predicate StopsOnlyOnFailure(exec: StepExecutor) {
    forall st, raw, num :: !exec(st, raw, num).keepGoing ==> exec(st, raw, num).record.FailedStep?
  }

  /** An executor never asks to stop. */
  ghost predicate NeverStops(exec: StepExecutor) {
    forall st, raw, num :: exec(st, raw, num).keepGoing
  }

  /** An executor only lets the caches grow and keeps them coherent. */
  ghost predicate KeepsCoherent(exec: StepExecutor) {
    forall st, raw, num :: Coherent(st) ==> Extends(st, exec(st, raw, num).state) && Coherent(exec(st, raw, num).state)
  }

  /** Every attempt of a step is recorded under the step's display name. */
  lemma ExecutorNamesSteps(c: Context, o: Oracles)
    ensures NamesSteps(Executor(c, o))
  {
    var exec := Executor(c, o);
    forall st, raw, num ensures exec(st, raw, num).record.step == DisplayNameOf(raw) {
      assert exec(st, raw, num) == ExecuteSpec(c, o, st, raw, num);
    }
  }

  /** An attempt of a step asks to stop only when the step failed. */
  lemma ExecutorStopsOnlyOnFailure(c: Context, o: Oracles)
    ensures StopsOnlyOnFailure(Executor(c, o))
  {
    var exec := Executor(c, o);
    forall st, raw, num ensures !exec(st, raw, num).keepGoing ==> exec(st, raw, num).record.FailedStep? {
      assert exec(st, raw, num) == ExecuteSpec(c, o, st, raw, num);
    }
  }

  /** An attempt of a step only lets the caches grow and keeps them coherent. */
  lemma ExecutorKeepsCoherent(c: Context, o: Oracles)
    ensures KeepsCoherent(Executor(c, o))
  {
    var exec := Executor(c, o);
    forall st, raw, num ensures Coherent(st) ==> Extends(st, exec(st, raw, num).state) && Coherent(exec(st, raw, num).state) {
      assert exec(st, raw, num) == ExecuteSpec(c, o, st, raw, num);
    }
  }

  lemma {:induction false} RunWithLength(exec: StepExecutor, st: EngineState, steps: seq<string>, num: nat)
    ensures var r := RunWith(exec, st, steps, num);
      |r.records| <= |steps| && (|steps| > 0 ==> |r.records| > 0)
    decreases |steps|
  {
    if steps != [] {
      var out := exec(st, steps[0], num);
      if out.keepGoing {
        RunWithLength(exec, out.state, steps[1..], num + 1);
      }
    }
  }

  lemma {:induction false} RunWithNames(exec: StepExecutor, st: EngineState, steps: seq<string>, num: nat)
    requires NamesSteps(exec)
    ensures var r := RunWith(exec, st, steps, num);
      |r.records| <= |steps| && forall k :: 0 <= k < |r.records| ==> r.records[k].step == DisplayNameOf(steps[k])
    decreases |steps|
  {
    if steps != [] {
      var out := exec(st, steps[0], num);
      if out.keepGoing {
        RunWithNames(exec, out.state, steps[1..], num + 1);
      }
    }
  }

  /** One record per attempted step, in list order, named by its display name;
      the steps attempted are a non-empty prefix of a non-empty list. */
  lemma RunRecordsFollowSteps(c: Context, o: Oracles, st: EngineState, steps: seq<string>, num: nat)
    ensures var r := RunSpec(c, o, st, steps, num);
      |r.records| <= |steps| && (|steps| > 0 ==> |r.records| > 0)
      && forall k :: 0 <= k < |r.records| ==> r.records[k].step == DisplayNameOf(steps[k])
  {
    RunWithLength(Executor(c, o), st, steps, num);
    ExecutorNamesSteps(c, o);
    RunWithNames(Executor(c, o), st, steps, num);
  }

  predicate AllSucceeded(rs: seq<StepRecord>) {
    forall k :: 0 <= k < |rs| ==> rs[k].Succeeded?
  }

  lemma AllSucceededCons(x: StepRecord, rs: seq<StepRecord>)
    ensures AllSucceeded([x] + rs) <==> x.Succeeded? && AllSucceeded(rs)
  {
    var xs := [x] + rs;
    if x.Succeeded? && AllSucceeded(rs) {
      forall k | 0 <= k < |xs| ensures xs[k].Succeeded? {
        if k > 0 { assert xs[k] == rs[k - 1]; }
      }
    }
    if AllSucceeded(xs) {
      assert xs[0] == x;
      forall k | 0 <= k < |rs| ensures rs[k].Succeeded? {
        assert xs[k + 1] == rs[k];
      }
    }
  }

  lemma {:induction false} RunWithOk(exec: StepExecutor, st: EngineState, steps: seq<string>, num: nat)
    ensures RunWith(exec, st, steps, num).ok <==> AllSucceeded(RunWith(exec, st, steps, num).records)
    decreases |steps|
  {
    if steps != [] {
      var out := exec(st, steps[0], num);
      var rest := if out.keepGoing then RunWith(exec, out.state, steps[1..], num + 1) else RunOutcome([], true, out.state);
      if out.keepGoing {
        RunWithOk(exec, out.state, steps[1..], num + 1);
      }
      AllSucceededCons(out.record, rest.records);
    }
  }

  /** The run reports success exactly when no attempted step failed. */
  lemma RunOkIffNoFailure(c: Context, o: Oracles, st: EngineState, steps: seq<string>, num: nat)
    ensures RunSpec(c, o, st, steps, num).ok <==> AllSucceeded(RunSpec(c, o, st, steps, num).records)
  {
    RunWithOk(Executor(c, o), st, steps, num);
  }

  /** A run stops early only right after a failed step, for any executor that
      asks to stop only after a failure, as `_execute_step` does. */
  lemma {:induction false} RunWithStops(exec: StepExecutor, st: EngineState, steps: seq<string>, num: nat)
    requires StopsOnlyOnFailure(exec)
    ensures var r := RunWith(exec, st, steps, num);
      0 < |r.records| < |steps| ==> r.records[|r.records| - 1].FailedStep?
    decreases |steps|
  {
    if steps != [] {
      var out := exec(st, steps[0], num);
      if out.keepGoing {
        RunWithStops(exec, out.state, steps[1..], num + 1);
        RunWithLength(exec, out.state, steps[1..], num + 1);
      }
    }
  }

  lemma {:induction false} RunWithAll(exec: StepExecutor, st: EngineState, steps: seq<string>, num: nat)
    requires NeverStops(exec)
    ensures |RunWith(exec, st, steps, num).records| == |steps|
    decreases |steps|
  {
    if steps != [] {
      var out := exec(st, steps[0], num);
      RunWithAll(exec, out.state, steps[1..], num + 1);
    }
  }

  /** A policy that stops on nothing makes the run attempt every step. */
  lemma RunAllWhenNeverStopping(c: Context, o: Oracles, st: EngineState, steps: seq<string>, num: nat)
    requires c.behavior.stopOnError == Some(false) && c.behavior.stopOnWarning == Some(false)
    ensures |RunSpec(c, o, st, steps, num).records| == |steps|
  {
    var exec := Executor(c, o);
    forall st, raw, num ensures exec(st, raw, num).keepGoing {
      assert exec(st, raw, num) == ExecuteSpec(c, o, st, raw, num);
    }
    RunWithAll(exec, st, steps, num);
  }

  /** When every prompt answer means "continue", every step is attempted. */
  lemma RunAllWhenOperatorContinues(c: Context, o: Oracles, st: EngineState, steps: seq<string>, num: nat)
    requires forall n: nat, t: int :: ContinueAnswer(o.prompt(n, t))
    ensures |RunSpec(c, o, st, steps, num).records| == |steps|
  {
    var exec := Executor(c, o);
    forall st, raw, num ensures exec(st, raw, num).keepGoing {
      assert exec(st, raw, num) == ExecuteSpec(c, o, st, raw, num);
    }
    RunWithAll(exec, st, steps, num);
  }

  // ---------------------------------------------------------------------------
  // Caches
  // ---------------------------------------------------------------------------

  predicate SubMap<K, V(==)>(a: map<K, V>, b: map<K, V>) {
    forall k :: k in a ==> k in b && b[k] == a[k]
  }

  /** `b` is a later state than `a`: the caches only gain entries, and identities only grow. */
  predicate Extends(a: EngineState, b: EngineState) {
    SubMap(a.modules, b.modules) && SubMap(a.instances, b.instances) && a.nextSerial <= b.nextSerial
  }

  /** `b` extends `a` and the host's flag and `found_files` are untouched:
      what parsing and resolving a step may do to the state. */
  predicate Advances(a: EngineState, b: EngineState) {
    Extends(a, b) && b.warnings == a.warnings && b.foundFiles == a.foundFiles
  }

  /** Every cached instance sits under its own class name, has an identity
      below `nextSerial`, and no two cached instances share an identity. */
  predicate Coherent(st: EngineState) {
    (forall k :: k in st.instances ==> st.instances[k].className == k && st.instances[k].serial < st.nextSerial)
    && (forall k1, k2 :: k1 in st.instances && k2 in st.instances && k1 != k2 ==>
          st.instances[k1].serial != st.instances[k2].serial)
  }

  /** A cached instance is returned whatever class object is offered. */
  lemma InstanceReused(c: Context, st: EngineState, cls: ClassDef, className: string)
    requires className in st.instances
    ensures InstanceSpec(c, st, cls, className) == (Ok(st.instances[className]), st)
  {
  }

  /** Two three-part names with the same class part resolve to the same object,
      however many steps ran in between and whichever module each one names. */
  lemma SameClassNameSameInstance(c: Context, st: EngineState, name1: string, later: EngineState, name2: string)
    requires Coherent(st)
    requires var (r, st1) := ResolveSpec(c, st, name1); r.Ok? && r.value.BoundMethod? && Extends(st1, later)
    requires |Split(name2, ".")| == 3 && Split(name2, ".")[1] == Split(name1, ".")[1]
    requires ResolveSpec(c, later, name2).0.Ok?
    ensures ResolveSpec(c, later, name2).0.value.BoundMethod?
    ensures ResolveSpec(c, later, name2).0.value.instance == ResolveSpec(c, st, name1).0.value.instance
  {
    var parts2 := Split(name2, ".");
    var (m, l1) := ImportSpec(c, later, parts2[0]);
  }

  /** Arguments are parsed before the name is resolved: a step whose text
      cannot be split or whose arguments cannot be parsed is rejected with
      every cache as it was, whatever the name refers to. */
  lemma ArgumentsParsedFirst(c: Context, st: EngineState, raw: string)
    requires ParseHead(c.parseLiterals, raw).Err?
    ensures ParseStepSpec(c, st, raw) == (Err(ParseHead(c.parseLiterals, raw).error), st)
  {
  }

  /** Argument text the literal parser rejects makes the step's text fail with
      the argument error. */
  lemma BadArgumentsFailHead(parseLiterals: string -> Result<Args>, raw: string)
    requires SplitNameAndArgs(Strip(raw)).Ok?
    requires var argText := SplitNameAndArgs(Strip(raw)).value.1;
      argText.Some? && parseLiterals(Strip(argText.value)).Err? && Strip(argText.value) != ""
    ensures ParseHead(parseLiterals, raw) ==
      Err(CannotParseArgs(Strip(SplitNameAndArgs(Strip(raw)).value.1.value),
                          parseLiterals(Strip(SplitNameAndArgs(Strip(raw)).value.1.value)).error.message))
  {
  }

  /** A name with four or more dotted parts is rejected before anything is imported. */
  lemma TooManyDots(c: Context, st: EngineState, name: string)
    requires |Split(name, ".")| >= 4
    ensures ResolveSpec(c, st, name).1 == st
    ensures ResolveSpec(c, st, name).0.Err? && ResolveSpec(c, st, name).0.error.kind == ValueError
  {
  }

  lemma {:induction false} RunWithExtends(exec: StepExecutor, st: EngineState, steps: seq<string>, num: nat)
    requires KeepsCoherent(exec) && Coherent(st)
    ensures Extends(st, RunWith(exec, st, steps, num).state) && Coherent(RunWith(exec, st, steps, num).state)
    decreases |steps|
  {
    if steps != [] {
      var out := exec(st, steps[0], num);
      if out.keepGoing {
        RunWithExtends(exec, out.state, steps[1..], num + 1);
      }
    }
  }

  /** Over a whole run the caches only grow and stay coherent. */
  lemma RunExtends(c: Context, o: Oracles, st: EngineState, steps: seq<string>, num: nat)
    requires Coherent(st)
    ensures Extends(st, RunSpec(c, o, st, steps, num).state) && Coherent(RunSpec(c, o, st, steps, num).state)
  {
    ExecutorKeepsCoherent(c, o);
    RunWithExtends(Executor(c, o), st, steps, num);
  }

  // ---------------------------------------------------------------------------
  // Warnings
  // ---------------------------------------------------------------------------

  /** A parsed step is called, and what follows depends only on the call's effect. */
  lemma ParsedStepIsCalled(c: Context, o: Oracles, st: EngineState, raw: string, num: nat)
    requires ParseStepSpec(c, st, raw).0.Ok?
    ensures var (parsed, st1) := ParseStepSpec(c, st, raw);
      ExecuteSpec(c, o, st, raw, num) == CompleteCall(c, o, st1, DisplayNameOf(raw), o.invoke(num, parsed.value), num)
      && st1.warnings == st.warnings
  {
  }

  /** After a normal return the step fails with the warnings message exactly
      when the flag is up and `stop_on_warning` is set, which clears the flag. */
  lemma ReturnedCall(c: Context, o: Oracles, st: EngineState, name: string, e: Effect, num: nat)
    requires e.outcome.Returned?
    ensures var out := CompleteCall(c, o, st, name, e, num);
      var warned := st.warnings || e.logsWarning;
      if warned && c.behavior.stopOnWarning.GetOr(false) then
        out.record == FailedStep(name, WARNINGS_MESSAGE) && !out.state.warnings
        && out.keepGoing == ContinueAfterFailure(c.behavior, o, true, num)
      else
        out.record == Succeeded(name) && out.keepGoing && out.state.warnings == warned
  {
  }

  /** A call that raises is a failure and leaves the flag as the call left it. */
  lemma RaisingCall(c: Context, o: Oracles, st: EngineState, name: string, e: Effect, num: nat)
    requires !e.outcome.Returned?
    ensures var out := CompleteCall(c, o, st, name, e, num);
      out.record.FailedStep? && out.state.warnings == (st.warnings || e.logsWarning)
  {
  }

  /** After a normal return, warnings on the host (new or left from earlier
      steps) turn the step into a warning failure when `stop_on_warning` is set,
      and the flag is cleared; otherwise the step succeeds and the flag stays. */
  lemma WarningPromotion(c: Context, o: Oracles, st: EngineState, raw: string, num: nat)
    requires ParseStepSpec(c, st, raw).0.Ok?
    requires o.invoke(num, ParseStepSpec(c, st, raw).0.value).outcome.Returned?
    ensures var out := ExecuteSpec(c, o, st, raw, num);
      var warned := st.warnings || o.invoke(num, ParseStepSpec(c, st, raw).0.value).logsWarning;
      if warned && c.behavior.stopOnWarning.GetOr(false) then
        out.record == FailedStep(DisplayNameOf(raw), WARNINGS_MESSAGE) && !out.state.warnings
        && out.keepGoing == ContinueAfterFailure(c.behavior, o, true, num)
      else
        out.record == Succeeded(DisplayNameOf(raw)) && out.keepGoing && out.state.warnings == warned
  {
    var (parsed, st1) := ParseStepSpec(c, st, raw);
    ParsedStepIsCalled(c, o, st, raw, num);
    ReturnedCall(c, o, st1, DisplayNameOf(raw), o.invoke(num, parsed.value), num);
  }

  /** A warning flag raised by an earlier step and never cleared makes the next
      normally returning step fail once `stop_on_warning` is set, even if that
      step logged nothing itself. */
  lemma StaleWarningFailsNextStep(c: Context, o: Oracles, st: EngineState, raw: string, num: nat)
    requires st.warnings && c.behavior.stopOnWarning == Some(true)
    requires ParseStepSpec(c, st, raw).0.Ok?
    requires o.invoke(num, ParseStepSpec(c, st, raw).0.value) == Effect(Returned, false, None)
    ensures ExecuteSpec(c, o, st, raw, num).record.FailedStep?
  {
    var (parsed, st1) := ParseStepSpec(c, st, raw);
    ParsedStepIsCalled(c, o, st, raw, num);
    ReturnedCall(c, o, st1, DisplayNameOf(raw), o.invoke(num, parsed.value), num);
  }

  /** A step that raises leaves the warning flag set if anything set it. */
  lemma RaisingStepKeepsWarnings(c: Context, o: Oracles, st: EngineState, raw: string, num: nat)
    requires ParseStepSpec(c, st, raw).0.Ok?
    requires !o.invoke(num, ParseStepSpec(c, st, raw).0.value).outcome.Returned?
    ensures ExecuteSpec(c, o, st, raw, num).record.FailedStep?
    ensures ExecuteSpec(c, o, st, raw, num).state.warnings == (st.warnings || o.invoke(num, ParseStepSpec(c, st, raw).0.value).logsWarning)
  {
    var (parsed, st1) := ParseStepSpec(c, st, raw);
    ParsedStepIsCalled(c, o, st, raw, num);
    RaisingCall(c, o, st1, DisplayNameOf(raw), o.invoke(num, parsed.value), num);
  }

  /** A step that cannot be parsed or resolved fails without being called, and
      the policy for errors decides whether the run goes on. */
  lemma UnresolvedStepFails(c: Context, o: Oracles, st: EngineState, raw: string, num: nat)
    requires ParseStepSpec(c, st, raw).0.Err?
    ensures var out := ExecuteSpec(c, o, st, raw, num);
      out.record == FailedStep(DisplayNameOf(raw), ParseStepSpec(c, st, raw).0.error.message)
      && out.keepGoing == ContinueAfterFailure(c.behavior, o, false, num)
      && out.state == ParseStepSpec(c, st, raw).1
  {
  }

  // ---------------------------------------------------------------------------
  // Report counts
  // ---------------------------------------------------------------------------

  function CountSucceeded(rs: seq<StepRecord>): (n: nat)
    ensures n <= |rs|
  {
    if rs == [] then 0 else CountSucceeded(rs[..|rs| - 1]) + (if rs[|rs| - 1].Succeeded? then 1 else 0)
  }

  function CountFailed(rs: seq<StepRecord>): (n: nat)
    ensures n <= |rs|
  {
    if rs == [] then 0 else CountFailed(rs[..|rs| - 1]) + (if rs[|rs| - 1].FailedStep? then 1 else 0)
  }

  /** Every record is counted exactly once, and no failure counted means none happened. */
  lemma {:induction false} CountsPartition(rs: seq<StepRecord>)
    ensures CountSucceeded(rs) + CountFailed(rs) == |rs|
    ensures CountFailed(rs) == 0 <==> forall k :: 0 <= k < |rs| ==> rs[k].Succeeded?
    decreases |rs|
  {
    if rs != [] {
      var init := rs[..|rs| - 1];
      CountsPartition(init);
      assert forall k :: 0 <= k < |init| ==> init[k] == rs[k];
    }
  }

  /** A finished prefix of a run followed by the run of the remaining steps. */
  function Glue(done: seq<StepRecord>, ok: bool, rest: RunOutcome): RunOutcome {
    RunOutcome(done + rest.records, ok && rest.ok, rest.state)
  }

  lemma GlueEmpty(r: RunOutcome)
    ensures Glue([], true, r) == r
  {
    assert [] + r.records == r.records;
  }

  lemma GlueStep(done: seq<StepRecord>, ok: bool, record: StepRecord, rest: RunOutcome)
    ensures Glue(done, ok, RunOutcome([record] + rest.records, record.Succeeded? && rest.ok, rest.state))
         == Glue(done + [record], ok && record.Succeeded?, rest)
  {
    assert done + ([record] + rest.records) == (done + [record]) + rest.records;
  }

  /** One step of `run`'s loop, seen from the remaining steps. */
  lemma RunWithStep(exec: StepExecutor, st: EngineState, steps: seq<string>, i: nat, num: nat)
    requires i < |steps|
    ensures var out := exec(st, steps[i], num);
      RunWith(exec, st, steps[i..], num) ==
        if out.keepGoing then
          var rest := RunWith(exec, out.state, steps[i + 1..], num + 1);
          RunOutcome([out.record] + rest.records, out.record.Succeeded? && rest.ok, rest.state)
        else RunOutcome([out.record], out.record.Succeeded?, out.state)
  {
    assert steps[i..][0] == steps[i];
    assert steps[i..][1..] == steps[i + 1..];
  }

  /** One iteration of `run`'s loop: the executed step's record is appended, and
      either the run ends there or it goes on with the remaining steps. */
  lemma RunLoopAdvance(exec: StepExecutor, start: EngineState, steps: seq<string>, i: nat,
                       st: EngineState, done: seq<StepRecord>, ok: bool)
    requires i < |steps|
    requires RunWith(exec, start, steps, 1) == Glue(done, ok, RunWith(exec, st, steps[i..], i + 1))
    ensures var out := exec(st, steps[i], i + 1);
      var whole := RunWith(exec, start, steps, 1);
      (out.keepGoing ==>
        whole == Glue(done + [out.record], ok && out.record.Succeeded?, RunWith(exec, out.state, steps[i + 1..], i + 2)))
      && (!out.keepGoing ==> whole == RunOutcome(done + [out.record], ok && out.record.Succeeded?, out.state))
  {
    var out := exec(st, steps[i], i + 1);
    RunWithStep(exec, st, steps, i, i + 1);
    if out.keepGoing {
      GlueStep(done, ok, out.record, RunWith(exec, out.state, steps[i + 1..], i + 2));
    } else {
      GlueStep(done, ok, out.record, RunOutcome([], true, out.state));
      assert [out.record] + [] == [out.record];
    }
  }

  // ===========================================================================
  // The imperative engine
  // ===========================================================================

  class PipelineStep {
    const raw: string
    var status: StepStatus
    var error: Option<string>

    constructor (raw: string)
      ensures this.raw == raw && status == Pending && error == None
    {
      this.raw := raw;
      status := Pending;
      error := None;
    }

    function DisplayName(): string {
      DisplayNameOf(raw)
    }
  }

  class PipelineManager {
    const host: Host.ApkForge
    const importable: map<string, ModuleDef>
    const parseLiterals: string -> Result<Args>
    /** `pipeline_config`, read once from the host's configuration. */
    const pipelineConfig: PipelineBehavior
    var moduleCache: map<string, ModuleDef>
    var instanceCache: map<string, Instance>
    var nextSerial: nat
    var results: seq<StepRecord>

    constructor (host: Host.ApkForge, importable: map<string, ModuleDef>, parseLiterals: string -> Result<Args>)
      ensures this.host == host && this.importable == importable && this.parseLiterals == parseLiterals
      ensures pipelineConfig == LoadBehavior(host.pipelineBehavior)
      ensures moduleCache == map[] && instanceCache == map[] && nextSerial == 0 && results == []
    {
      this.host := host;
      this.importable := importable;
      this.parseLiterals := parseLiterals;
      pipelineConfig := LoadBehavior(host.pipelineBehavior);
      moduleCache := map[];
      instanceCache := map[];
      nextSerial := 0;
      results := [];
    }

    function Ctx(): Context {
      Context(host.attributes, host.paths, host.hasConfig, importable, parseLiterals, pipelineConfig)
    }

    function State(): EngineState
      reads this, host
    {
      EngineState(host.warningsOccurred, host.foundFiles, moduleCache, instanceCache, nextSerial)
    }

    /** `list_available_steps`. */
    method ListAvailableSteps() returns (names: seq<string>)
      ensures SortedStrings(names)
      ensures forall x :: x in names <==> IsStepName(host.attributes, x)
    {
      names := AvailableSteps(host.attributes);
    }

    method ImportModule(m: string) returns (r: Result<ModuleDef>)
      modifies this`moduleCache
      ensures (r, State()) == ImportSpec(Ctx(), old(State()), m)
    {
      if m in moduleCache {
        return Ok(moduleCache[m]);
      }
      if m == "" {
        return Err(Error(ValueError, "Empty module name"));
      }
      if m !in importable {
        return Err(ImportFailure(m));
      }
      moduleCache := moduleCache[m := importable[m]];
      r := Ok(importable[m]);
    }

    /** `_auto_create_instance`: fills the constructor arguments one parameter
        at a time and stops at the first one it does not know. */
    method AutoCreateInstance(cls: ClassDef, className: string) returns (r: Result<Instance>)
      ensures r == AutoCreateSpec(Ctx(), host.foundFiles, cls, className, nextSerial)
    {
      var params := cls.required;
      if params == [] {
        if cls.constructorError.Some? {
          return Err(Error(RuntimeError, "Cannot instantiate '" + className + "()': " + cls.constructorError.value));
        }
        return Ok(Instance(className, cls, [], nextSerial));
      }
      var args: seq<Injected> := [];
      var i := 0;
      while i < |params|
        invariant 0 <= i <= |params|
        invariant InjectAll(Ctx(), host.foundFiles, params[..i]) == Injected(args)
      {
        assert params[..i + 1][..i] == params[..i];
        var v := Inject(Ctx(), host.foundFiles, params[i]);
        if v.None? {
          InjectAllStopsAtUnknown(Ctx(), host.foundFiles, params, i + 1);
          return Err(UnknownParameter(className, params[i]));
        }
        args := args + [v.value];
        i := i + 1;
      }
      assert params[..i] == params;
      if cls.constructorError.Some? {
        return Err(Error(RuntimeError, "Failed to instantiate '" + className + "' with args "
          + TypeNameList(args) + ": " + cls.constructorError.value));
      }
      r := Ok(Instance(className, cls, args, nextSerial));
    }

    method GetOrCreateInstance(cls: ClassDef, className: string) returns (r: Result<Instance>)
      modifies this`instanceCache, this`nextSerial
      ensures (r, State()) == InstanceSpec(Ctx(), old(State()), cls, className)
    {
      if className in instanceCache {
        return Ok(instanceCache[className]);
      }
      r := AutoCreateInstance(cls, className);
      if r.Ok? {
        instanceCache := instanceCache[className := r.value];
        nextSerial := nextSerial + 1;
      }
    }

    method ResolveCallable(name: string) returns (r: Result<Target>)
      modifies this`moduleCache, this`instanceCache, this`nextSerial
      ensures (r, State()) == ResolveSpec(Ctx(), old(State()), name)
    {
      var parts := Split(name, ".");
      if |parts| == 1 {
        return ResolveHostMethod(Ctx(), name);
      }
      if |parts| >= 4 {
        return Err(Error(ValueError, "Too many dots in '" + name + "'. Maximum supported depth is 'module.ClassName.method'."));
      }
      var m := ImportModule(parts[0]);
      if m.Err? {
        return Err(m.error);
      }
      var attr := GetAttrOrRaise(m.value.members, parts[1], parts[0]);
      if attr.Err? {
        return Err(attr.error);
      }
      if |parts| == 2 {
        if attr.value.Class? {
          return Err(Error(ValueError, "'" + name + "' is a class, not callable directly.\n"
            + "Use '" + parts[0] + "." + parts[1] + ".method_name' to call a method."));
        }
        if attr.value.Function? {
          return Ok(ModuleFunction(parts[0], parts[1]));
        }
        return Err(Error(TypeError, "'" + name + "' is not callable (type: " + attr.value.typeName + ")"));
      }
      if !attr.value.Class? {
        return Err(Error(TypeError, "'" + parts[0] + "." + parts[1] + "' is not a class."));
      }
      var inst := GetOrCreateInstance(attr.value.cls, parts[1]);
      if inst.Err? {
        return Err(inst.error);
      }
      var meth := GetAttrOrRaise(inst.value.cls.members, parts[2], parts[1]);
      if meth.Err? {
        return Err(meth.error);
      }
      if !IsCallable(meth.value) {
        return Err(Error(TypeError, "'" + parts[1] + "." + parts[2] + "' is not callable."));
      }
      r := Ok(BoundMethod(inst.value, parts[2]));
    }

    method ParseStep(raw: string) returns (r: Result<Call>)
      modifies this`moduleCache, this`instanceCache, this`nextSerial
      ensures (r, State()) == ParseStepSpec(Ctx(), old(State()), raw)
    {
      var head := ParseHead(parseLiterals, raw);
      if head.Err? {
        return Err(head.error);
      }
      var (name, args) := head.value;
      var target := ResolveCallable(name);
      if target.Err? {
        return Err(target.error);
      }
      r := Ok(Call(target.value, args));
    }

    method OnStepError(o: Oracles, step: PipelineStep, message: string, isWarning: bool, num: nat) returns (keepGoing: bool)
      modifies this`results, step
      ensures step.status == Failed && step.error == Some(message)
      ensures results == old(results) + [FailedStep(step.DisplayName(), message)]
      ensures keepGoing == ContinueAfterFailure(pipelineConfig, o, isWarning, num)
    {
      step.status := Failed;
      step.error := Some(message);
      results := results + [FailedStep(step.DisplayName(), message)];
      keepGoing := true;
      if StopsOn(pipelineConfig, isWarning) {
        var answer := o.prompt(num, PromptTimeout(pipelineConfig));
        keepGoing := ContinueAnswer(answer);
      }
    }

    /** `_execute_step`. */
    method ExecuteStep(o: Oracles, step: PipelineStep, num: nat) returns (keepGoing: bool)
      modifies this, host, step
      ensures var out := ExecuteSpec(Ctx(), o, old(State()), step.raw, num);
        keepGoing == out.keepGoing && State() == out.state
        && results == old(results) + [out.record]
        && (step.status == Failed <==> out.record.FailedStep?)
        && (step.status == Success <==> out.record.Succeeded?)
        && (out.record.FailedStep? ==> step.error == Some(out.record.error))
    {
      step.status := Running;
      var parsed := ParseStep(step.raw);
      if parsed.Err? {
        keepGoing := OnStepError(o, step, parsed.error.message, false, num);
        return;
      }
      var effect := o.invoke(num, parsed.value);
      keepGoing := FinishStep(o, step, effect, num);
    }

    /** What `_execute_step` does once the step function was called. */
    method FinishStep(o: Oracles, step: PipelineStep, effect: Effect, num: nat) returns (keepGoing: bool)
      modifies this`results, host, step
      ensures var out := CompleteCall(Ctx(), o, old(State()), step.DisplayName(), effect, num);
        keepGoing == out.keepGoing && State() == out.state
        && results == old(results) + [out.record]
        && (step.status == Failed <==> out.record.FailedStep?)
        && (step.status == Success <==> out.record.Succeeded?)
        && (out.record.FailedStep? ==> step.error == Some(out.record.error))
    {
      if effect.logsWarning {
        host.LogWarning(WARNINGS_MESSAGE);
      }
      if effect.setsFoundFiles.Some? {
        host.StoreFoundFiles(effect.setsFoundFiles.value);
      }
      assert State() == AfterCall(old(State()), effect);
      match effect.outcome {
        case RaisedWarning(m) =>
          keepGoing := OnStepError(o, step, m, true, num);
        case Raised(m) =>
          keepGoing := OnStepError(o, step, m, false, num);
        case Returned =>
          var warned := host.HasWarnings();
          if warned && pipelineConfig.stopOnWarning.GetOr(false) {
            host.warningsOccurred := false;
            keepGoing := OnStepError(o, step, WARNINGS_MESSAGE, true, num);
          } else {
            step.status := Success;
            results := results + [Succeeded(step.DisplayName())];
            keepGoing := true;
          }
      }
    }

    /** `run`: attempts the steps in order, numbered from 1, until one of them
        says to stop; `results` starts empty. */
    method Run(o: Oracles, steps: seq<string>) returns (ok: bool)
      modifies this, host
      ensures var r := RunSpec(Ctx(), o, old(State()), steps, 1);
        results == r.records && ok == r.ok && State() == r.state
    {
      results := [];
      ok := true;
      var i := 0;
      ghost var start := State();
      assert steps[0..] == steps;
      GlueEmpty(RunSpec(Ctx(), o, start, steps, 1));
      assert RunSpec(Ctx(), o, start, steps, 1) == Glue(results, ok, RunSpec(Ctx(), o, State(), steps[i..], i + 1));
      while i < |steps|
        invariant 0 <= i <= |steps|
        invariant RunSpec(Ctx(), o, start, steps, 1) == Glue(results, ok, RunSpec(Ctx(), o, State(), steps[i..], i + 1))
      {
        ghost var before := State();
        ghost var done := results;
        ghost var okBefore := ok;
        var step := new PipelineStep(steps[i]);
        var keep := ExecuteStep(o, step, i + 1);
        if step.status == Failed {
          ok := false;
        }
        assert Executor(Ctx(), o)(before, steps[i], i + 1) == ExecuteSpec(Ctx(), o, before, steps[i], i + 1);
        RunLoopAdvance(Executor(Ctx(), o), start, steps, i, before, done, okBefore);
        if !keep {
          break;
        }
        i := i + 1;
      }
    }

    /** The counts `save_report` writes. */
    method ReportCounts() returns (successCount: nat, failedCount: nat)
      ensures successCount == CountSucceeded(results) && failedCount == CountFailed(results)
      ensures successCount + failedCount == |results|
    {
      successCount, failedCount := 0, 0;
      var i := 0;
      while i < |results|
        invariant 0 <= i <= |results|
        invariant successCount == CountSucceeded(results[..i]) && failedCount == CountFailed(results[..i])
      {
        assert results[..i + 1][..i] == results[..i];
        if results[i].Succeeded? {
          successCount := successCount + 1;
        } else {
          failedCount := failedCount + 1;
        }
        i := i + 1;
      }
      assert results[..i] == results;
      CountsPartition(results);
    }
  }
}
