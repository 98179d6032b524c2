/** `project_config.py`: the build settings read from `build_config.json`,
    their override from the environment, the few queries the pipeline asks
    of them, and the module-global configuration behind `get_config`. The
    values are kept as `json.load` gives them: the dataclass checks no
    types. */
module ProjectConfig {
  import opened Wrappers
  import opened Text
  import opened Fs
  import opened PyJson

  const CONFIG_FILE := "build_config.json"
  const KEY_ERROR_PREFIX := "Missing required key in build_config.json: "
  const LOAD_ERROR_PREFIX := "Could not load config: "
  const NOT_INITIALIZED := "Project config not initialized. Call init_project_config first."

  // ---------------------------------------------------------------------------
  // `load`
  // ---------------------------------------------------------------------------

  /** `v[key]` with a string key: a dictionary gives its value or raises
      KeyError naming the key; anything else raises TypeError. */
  function Subscript(v: Json, key: string): (r: Result<Json>)
    ensures r.Ok? <==> v.JObject? && key in v.fields
    ensures r.Ok? ==> r.value == v.fields[key]
    ensures r.Err? ==> (r.error.kind == KeyError <==> v.JObject?)
  {
    match v
    case JObject(fields) =>
      if key in fields then Ok(fields[key]) else Err(Error(KeyError, "'" + key + "'"))
    case JArray(_) => Err(Error(TypeError, "list indices must be integers or slices, not str"))
    case JString(_) => Err(Error(TypeError, "string indices must be integers, not 'str'"))
    case _ => Err(Error(TypeError, "'" + TypeName(v) + "' object is not subscriptable"))
  }

  /** A required setting: `data[section][key]`. */
  datatype Required = Required(section: string, key: string)

  /** The required settings, in the order the constructor call reads them. */
  const REQUIRED := [
    Required("version", "code"), Required("version", "name"),
    Required("app", "name"), Required("app", "package_id"),
    Required("build", "type"), Required("build", "target_dex_index"), Required("build", "auto_multidex"),
    Required("dex_placement", "prefer_existing"), Required("dex_placement", "create_new_if_full"),
    Required("dex_placement", "max_files_per_dex"),
    Required("custom_rules", "skip_files"), Required("custom_rules", "force_multidex"),
    Required("custom_rules", "min_sdk_version"),
    Required("paths", "additional_smali_dirs"), Required("paths", "keystore")]

  /** `data[section][key]`. */
  function Lookup(data: Json, req: Required): Result<Json> {
    match Subscript(data, req.section)
    case Err(e) => Err(e)
    case Ok(s) => Subscript(s, req.key)
  }

  /** The required settings read in order; the first lookup that raises
      stops the reading. */
  function ReadAll(data: Json, reqs: seq<Required>): (r: Result<seq<Json>>)
    ensures r.Ok? ==> |r.value| == |reqs|
    decreases |reqs|
  {
    if reqs == [] then Ok([])
    else
      match Lookup(data, reqs[0])
      case Err(e) => Err(e)
      case Ok(v) =>
        match ReadAll(data, reqs[1..])
        case Err(e) => Err(e)
        case Ok(vs) => Ok([v] + vs)
  }

  /** A lookup that finds a dictionary without the key it needs. */
  predicate KeyMissing(data: Json, req: Required) {
    data.JObject? &&
    (req.section !in data.fields ||
     (data.fields[req.section].JObject? && req.key !in data.fields[req.section].fields))
  }

  /** Every section a lookup finds is a dictionary. */
  predicate SectionsAreObjects(data: Json, reqs: seq<Required>) {
    data.JObject? &&
    forall k :: 0 <= k < |reqs| && reqs[k].section in data.fields ==> data.fields[reqs[k].section].JObject?
  }

  /** Reading succeeds exactly when every lookup does, and gives each value
      in order; a KeyError comes from a dictionary lacking its key, and a
      dictionary whose sections are dictionaries raises KeyError as soon as
      one key is missing. */
  lemma {:induction false} ReadAllOutcome(data: Json, reqs: seq<Required>)
    ensures var r := ReadAll(data, reqs);
      r.Ok? <==> forall k :: 0 <= k < |reqs| ==> Lookup(data, reqs[k]).Ok?
    ensures var r := ReadAll(data, reqs);
      r.Ok? ==> forall k :: 0 <= k < |reqs| ==> r.value[k] == Lookup(data, reqs[k]).value
    ensures var r := ReadAll(data, reqs);
      r.Err? && r.error.kind == KeyError ==> exists k :: 0 <= k < |reqs| && KeyMissing(data, reqs[k])
    ensures data.JObject? && SectionsAreObjects(data, reqs) && (exists k :: 0 <= k < |reqs| && KeyMissing(data, reqs[k])) ==>
      ReadAll(data, reqs).Err? && ReadAll(data, reqs).error.kind == KeyError
    decreases |reqs|
  {
    if reqs != [] {
      ReadAllOutcome(data, reqs[1..]);
      forall k | 0 < k < |reqs| ensures reqs[1..][k - 1] == reqs[k] { }
      var r := ReadAll(data, reqs);
      var head := Lookup(data, reqs[0]);
      if head.Ok? {
        if r.Ok? {
          var rest := ReadAll(data, reqs[1..]).value;
          assert r.value == [head.value] + rest;
          forall k | 0 <= k < |reqs| ensures r.value[k] == Lookup(data, reqs[k]).value {
            if k > 0 {
              assert r.value[k] == rest[k - 1];
            }
          }
        }
        if r.Err? && r.error.kind == KeyError {
          var k :| 0 <= k < |reqs[1..]| && KeyMissing(data, reqs[1..][k]);
          assert KeyMissing(data, reqs[k + 1]);
        }
        if data.JObject? && SectionsAreObjects(data, reqs) && (exists k :: 0 <= k < |reqs| && KeyMissing(data, reqs[k])) {
          var k :| 0 <= k < |reqs| && KeyMissing(data, reqs[k]);
          LookupMissing(data, reqs[0]);
          assert k != 0;
          assert KeyMissing(data, reqs[1..][k - 1]);
          assert SectionsAreObjects(data, reqs[1..]) by {
            forall m | 0 <= m < |reqs[1..]| && reqs[1..][m].section in data.fields
              ensures data.fields[reqs[1..][m].section].JObject?
            {
              assert reqs[1..][m] == reqs[m + 1];
            }
          }
        }
      } else {
        if r.error.kind == KeyError {
          LookupKeyError(data, reqs[0]);
        }
        if data.JObject? && SectionsAreObjects(data, reqs) {
          LookupSections(data, reqs[0]);
        }
      }
    }
  }

  lemma LookupMissing(data: Json, req: Required)
    ensures KeyMissing(data, req) ==> Lookup(data, req).Err? && Lookup(data, req).error.kind == KeyError
  {
  }

  lemma LookupKeyError(data: Json, req: Required)
    requires Lookup(data, req).Err? && Lookup(data, req).error.kind == KeyError
    ensures KeyMissing(data, req)
  {
  }

  lemma LookupSections(data: Json, req: Required)
    requires data.JObject? && Lookup(data, req).Err?
    requires req.section in data.fields ==> data.fields[req.section].JObject?
    ensures Lookup(data, req).error.kind == KeyError
  {
  }

  /** Every field of the dataclass, as read. */
  datatype Record = Record(
    versionCode: Json, versionName: Json, appName: Json, applicationId: Json,
    buildType: Json, targetDexIndex: Json, autoMultidex: Json,
    preferExistingDex: Json, createNewDexIfFull: Json, maxFilesPerDex: Json,
    skipFiles: Json, forceMultidex: Json, minSdkVersion: Json,
    additionalSmaliDirs: Json, keystorePath: Json,
    abiKeepOnly: Json, abiRemoveOthers: Json, abiWarnIfMissing: Json, buildAbis: Json,
    rawConfig: Json)

  /** The fields read from required keys, in the order of REQUIRED. */
  function RequiredFields(rec: Record): seq<Json> {
    [rec.versionCode, rec.versionName, rec.appName, rec.applicationId,
     rec.buildType, rec.targetDexIndex, rec.autoMultidex,
     rec.preferExistingDex, rec.createNewDexIfFull, rec.maxFilesPerDex,
     rec.skipFiles, rec.forceMultidex, rec.minSdkVersion,
     rec.additionalSmaliDirs, rec.keystorePath]
  }

  /** The dataclass built from the required values and the `abi` section;
      the `abi` lookups run after the required ones. */
  function Construct(data: Json, abi: Json, vs: seq<Json>): (r: Result<Record>)
    requires |vs| == 15
    ensures r.Ok? <==> abi.JObject?
    ensures r.Ok? ==> RequiredFields(r.value) == vs && r.value.rawConfig == data
    ensures r.Ok? ==>
      r.value.abiKeepOnly == (if "keep_only" in abi.fields then abi.fields["keep_only"] else JArray([])) &&
      r.value.abiRemoveOthers == (if "remove_others" in abi.fields then abi.fields["remove_others"] else JBool(true)) &&
      r.value.abiWarnIfMissing == (if "warn_if_missing" in abi.fields then abi.fields["warn_if_missing"] else JBool(true)) &&
      r.value.buildAbis == (if "build_abis" in abi.fields then abi.fields["build_abis"] else JArray([]))
  {
    if !abi.JObject? then Err(Error(AttributeError, "'" + TypeName(abi) + "' object has no attribute 'get'"))
    else
      var rec := Record(vs[0], vs[1], vs[2], vs[3], vs[4], vs[5], vs[6], vs[7], vs[8], vs[9],
        vs[10], vs[11], vs[12], vs[13], vs[14],
        DictGet(abi, "keep_only", JArray([])).value, DictGet(abi, "remove_others", JBool(true)).value,
        DictGet(abi, "warn_if_missing", JBool(true)).value, DictGet(abi, "build_abis", JArray([])).value, data);
      assert RequiredFields(rec) == vs;
      Ok(rec)
  }

  /** `", ".join(v)` on a value that is true: strings, dictionaries and
      lists of strings join; anything else raises TypeError. */
  function JoinError(v: Json): Option<string> {
    match v
    case JArray(items) =>
      var i := FirstNonString(items, 0);
      if i < |items| then Some("sequence item " + IntStr(i) + ": expected str instance, " + TypeName(items[i]) + " found")
      else None
    case JString(_) => None
    case JObject(_) => None
    case _ => Some("can only join an iterable")
  }

  /** The index of the first item at or after `i` that is not a string, or
      the length. */
  function FirstNonString(items: seq<Json>, i: nat): (j: nat)
    requires i <= |items|
    ensures i <= j <= |items| && (j < |items| ==> !items[j].JString?)
    ensures forall k :: i <= k < j ==> items[k].JString?
    decreases |items| - i
  {
    if i == |items| || !items[i].JString? then i else FirstNonString(items, i + 1)
  }

  /** `len(v)`: numbers and booleans have none. */
  function LenError(v: Json): Option<string> {
    if v.JArray? || v.JString? || v.JObject? then None
    else Some("object of type '" + TypeName(v) + "' has no len()")
  }

  /** What `_print_summary` raises: it joins the ABI lists and counts the
      extra smali directories when they are true. */
  function SummaryError(rec: Record): Option<string> {
    if Truthy(rec.abiKeepOnly) && JoinError(rec.abiKeepOnly).Some? then JoinError(rec.abiKeepOnly)
    else if Truthy(rec.buildAbis) && JoinError(rec.buildAbis).Some? then JoinError(rec.buildAbis)
    else if Truthy(rec.additionalSmaliDirs) then LenError(rec.additionalSmaliDirs)
    else None
  }

  /** The `try` block of `load` on the decoded file, before its handlers. */
  function ParseRecord(data: Json): Result<Record> {
    ParseWith(data, REQUIRED)
  }

  /** The `try` block over a list of required settings. */
  function ParseWith(data: Json, reqs: seq<Required>): Result<Record>
    requires |reqs| == 15
  {
    match DictGet(data, "abi", JObject(map[]))
    case Err(e) => Err(e)
    case Ok(abi) =>
      match ReadAll(data, reqs)
      case Err(e) => Err(e)
      case Ok(vs) =>
        match Construct(data, abi, vs)
        case Err(e) => Err(e)
        case Ok(rec) =>
          match SummaryError(rec)
          case Some(m) => Err(Error(TypeError, m))
          case None => Ok(rec)
  }

  /** The `try` block succeeds only on a dictionary, and then holds every
      required value in order and the whole data; a KeyError comes from a
      required key missing from a dictionary, and such a key in a
      dictionary whose sections and `abi` are dictionaries raises KeyError. */
  lemma ParseWithOutcome(data: Json, reqs: seq<Required>)
    requires |reqs| == 15
    ensures var r := ParseWith(data, reqs);
      r.Ok? ==> (data.JObject? && r.value.rawConfig == data &&
        forall k :: 0 <= k < |reqs| ==> Lookup(data, reqs[k]) == Ok(RequiredFields(r.value)[k]))
    ensures var r := ParseWith(data, reqs);
      r.Err? && r.error.kind == KeyError ==> exists k :: 0 <= k < |reqs| && KeyMissing(data, reqs[k])
    ensures (data.JObject? && SectionsAreObjects(data, reqs) &&
      ("abi" in data.fields ==> data.fields["abi"].JObject?) &&
      (exists k :: 0 <= k < |reqs| && KeyMissing(data, reqs[k]))) ==>
        ParseWith(data, reqs).Err? && ParseWith(data, reqs).error.kind == KeyError
  {
    ReadAllOutcome(data, reqs);
  }

  /** The handlers of `load`: KeyError is raised again with its own text,
      any other exception becomes RuntimeError. */
  function Rewrap(e: Error): Error {
    if e.kind == KeyError then Error(KeyError, KEY_ERROR_PREFIX + e.message)
    else Error(RuntimeError, LOAD_ERROR_PREFIX + e.message)
  }

  /** `ProjectConfig.load(project_root)`. */
  function LoadSpec(st: Store, projectRoot: string, decode: string -> Decoded): Result<Record> {
    var path := JoinPath(projectRoot, CONFIG_FILE);
    if !Exists(st, path) then
      Err(Error(FileNotFoundError, "build_config.json not found at " + path +
        "\nPlease create build_config.json in the project root directory."))
    else if path !in st.files then
      Err(Rewrap(Error(OSError, "[Errno 21] Is a directory: '" + path + "'")))
    else
      match decode(st.files[path])
      case DecodeError(m) => Err(Rewrap(Error(ValueError, m)))
      case Parsed(data) =>
        match ParseRecord(data)
        case Err(e) => Err(Rewrap(e))
        case Ok(rec) => Ok(rec)
  }

  /** The file `load` reads, as `json.load` decodes it. */
  function Decoding(st: Store, projectRoot: string, decode: string -> Decoded): Option<Json> {
    var path := JoinPath(projectRoot, CONFIG_FILE);
    if path in st.files && decode(st.files[path]).Parsed? then Some(decode(st.files[path]).value) else None
  }

  /** A missing file raises FileNotFoundError; every other failure is a
      KeyError or a RuntimeError; a loaded configuration comes from a
      decoded dictionary and holds each required `data[section][key]` in
      order, and the whole data as its raw configuration. */
  lemma LoadOutcome(st: Store, projectRoot: string, decode: string -> Decoded)
    ensures !Exists(st, JoinPath(projectRoot, CONFIG_FILE)) ==>
      LoadSpec(st, projectRoot, decode).Err? && LoadSpec(st, projectRoot, decode).error.kind == FileNotFoundError
    ensures var r := LoadSpec(st, projectRoot, decode);
      r.Err? && Exists(st, JoinPath(projectRoot, CONFIG_FILE)) ==> r.error.kind == KeyError || r.error.kind == RuntimeError
    ensures var r := LoadSpec(st, projectRoot, decode);
      r.Ok? ==> (Decoding(st, projectRoot, decode).Some? &&
        var data := Decoding(st, projectRoot, decode).value;
        data.JObject? && r.value.rawConfig == data &&
        forall k :: 0 <= k < |REQUIRED| ==> Lookup(data, REQUIRED[k]) == Ok(RequiredFields(r.value)[k]))
  {
    var d := Decoding(st, projectRoot, decode);
    if d.Some? {
      ParseWithOutcome(d.value, REQUIRED);
      LoadDecoded(st, projectRoot, decode);
    }
  }

  /** A decoded file gives what the `try` block gives, its errors passed
      through the handlers. */
  lemma LoadDecoded(st: Store, projectRoot: string, decode: string -> Decoded)
    requires Decoding(st, projectRoot, decode).Some?
    ensures LoadSpec(st, projectRoot, decode) ==
      match ParseRecord(Decoding(st, projectRoot, decode).value)
      case Err(e) => Err(Rewrap(e))
      case Ok(rec) => Ok(rec)
  {
  }

  /** KeyError is raised only for a required key missing from a decoded
      dictionary; when every section there is a dictionary and the `abi`
      section is absent or a dictionary, a missing key always raises
      KeyError, naming the key. */
  lemma LoadKeyError(st: Store, projectRoot: string, decode: string -> Decoded)
    ensures var r := LoadSpec(st, projectRoot, decode);
      r.Err? && r.error.kind == KeyError ==>
        Decoding(st, projectRoot, decode).Some? &&
        exists k :: 0 <= k < |REQUIRED| && KeyMissing(Decoding(st, projectRoot, decode).value, REQUIRED[k])
    ensures var d := Decoding(st, projectRoot, decode);
      (d.Some? && d.value.JObject? && SectionsAreObjects(d.value, REQUIRED) &&
       ("abi" in d.value.fields ==> d.value.fields["abi"].JObject?) &&
       (exists k :: 0 <= k < |REQUIRED| && KeyMissing(d.value, REQUIRED[k]))) ==>
        LoadSpec(st, projectRoot, decode).Err? && LoadSpec(st, projectRoot, decode).error.kind == KeyError &&
        StartsWith(LoadSpec(st, projectRoot, decode).error.message, KEY_ERROR_PREFIX)
  {
    var d := Decoding(st, projectRoot, decode);
    if d.Some? {
      ParseWithOutcome(d.value, REQUIRED);
      LoadDecoded(st, projectRoot, decode);
    }
  }

  /** Without an `abi` section the ABI settings default to keeping every
      ABI (`keep_only` and `build_abis` empty) with `remove_others` and
      `warn_if_missing` true. */
  lemma AbiDefaults(data: Json)
    requires data.JObject? && "abi" !in data.fields && ParseRecord(data).Ok?
    ensures var rec := ParseRecord(data).value;
      rec.abiKeepOnly == JArray([]) && rec.abiRemoveOthers == JBool(true) &&
      rec.abiWarnIfMissing == JBool(true) && rec.buildAbis == JArray([])
  {
  }

  // ---------------------------------------------------------------------------
  // The environment override
  // ---------------------------------------------------------------------------

  /** The seven settings `to_dict` reports and `update_from_env` may set. */
  datatype Settings = Settings(
    versionCode: Json, versionName: Json, appName: Json, applicationId: Json,
    buildType: Json, targetDexIndex: Json, autoMultidex: Json)

  datatype Attr = VersionCode | VersionName | AppName | ApplicationId | BuildType | TargetDexIndex | AutoMultidex

  /** `getattr(config, attr)`. */
  function Attribute(s: Settings, a: Attr): Json {
    match a
    case VersionCode => s.versionCode
    case VersionName => s.versionName
    case AppName => s.appName
    case ApplicationId => s.applicationId
    case BuildType => s.buildType
    case TargetDexIndex => s.targetDexIndex
    case AutoMultidex => s.autoMultidex
  }

  /** `setattr(config, attr, v)`: the attribute becomes `v`, the others
      stay. */
  function Assign(s: Settings, a: Attr, v: Json): (r: Settings)
    ensures Attribute(r, a) == v
    ensures forall b :: b != a ==> Attribute(r, b) == Attribute(s, b)
  {
    match a
    case VersionCode => s.(versionCode := v)
    case VersionName => s.(versionName := v)
    case AppName => s.(appName := v)
    case ApplicationId => s.(applicationId := v)
    case BuildType => s.(buildType := v)
    case TargetDexIndex => s.(targetDexIndex := v)
    case AutoMultidex => s.(autoMultidex := v)
  }

  /** The converters: `int`, `str` and `lambda x: x.lower() == "true"`. */
  datatype Converter = ToInt | ToStr | ToBool

  /** A converter applied to the variable's text; `int` raises (None) on
      text that is not a base-10 integer. Lowering only ASCII letters
      decides the comparison with "true" as Python's `lower` does. */
  function Convert(c: Converter, text: string): Option<Json> {
    match c
    case ToInt => (match PyInt(text) case Some(n) => Some(JInt(n)) case None => None)
    case ToStr => Some(JString(text))
    case ToBool => Some(JBool(Lower(text) == "true"))
  }

  /** `int` reads back what `str` writes for an integer. */
  lemma IntConvertRoundTrip(n: int)
    ensures Convert(ToInt, IntStr(n)) == Some(JInt(n))
  {
    PyIntIntStr(n);
  }

  /** The boolean converter ignores case. */
  lemma BoolConvertCaseless(text: string)
    ensures Convert(ToBool, text) == Convert(ToBool, Lower(text))
  {
    LowerTwice(text);
  }

  lemma {:induction false} LowerTwice(s: string)
    ensures Lower(Lower(s)) == Lower(s)
  {
    forall i | 0 <= i < |s| ensures LowerChar(LowerChar(s[i])) == LowerChar(s[i]) { }
  }

  datatype EnvMapping = EnvMapping(envVar: string, attr: Attr, converter: Converter)

  const ENV_MAPPINGS := [
    EnvMapping("BUILD_VERSION_CODE", VersionCode, ToInt),
    EnvMapping("BUILD_VERSION_NAME", VersionName, ToStr),
    EnvMapping("BUILD_APP_NAME", AppName, ToStr),
    EnvMapping("BUILD_PACKAGE_ID", ApplicationId, ToStr),
    EnvMapping("BUILD_TYPE", BuildType, ToStr),
    EnvMapping("BUILD_TARGET_DEX", TargetDexIndex, ToInt),
    EnvMapping("BUILD_AUTO_MULTIDEX", AutoMultidex, ToBool)]

  /** The mapping's variable is set and its text converts. */
  predicate Applies(env: map<string, string>, m: EnvMapping) {
    m.envVar in env && Convert(m.converter, env[m.envVar]).Some?
  }

  /** One pass of the loop: the converted value, when there is one. */
  function ApplyMapping(s: Settings, env: map<string, string>, m: EnvMapping): Settings {
    if Applies(env, m) then Assign(s, m.attr, Convert(m.converter, env[m.envVar]).value) else s
  }

  /** The loop of `update_from_env`, first mapping first. */
  function ApplyEnv(s: Settings, env: map<string, string>, ms: seq<EnvMapping>): Settings
    decreases |ms|
  {
    if ms == [] then s else ApplyEnv(ApplyMapping(s, env, ms[0]), env, ms[1..])
  }

  predicate DistinctAttrs(ms: seq<EnvMapping>) {
    forall i, j :: 0 <= i < j < |ms| ==> ms[i].attr != ms[j].attr
  }

  /** An attribute no mapping names keeps its value. */
  lemma {:induction false} ApplyEnvOthers(s: Settings, env: map<string, string>, ms: seq<EnvMapping>, a: Attr)
    requires forall i :: 0 <= i < |ms| ==> ms[i].attr != a
    ensures Attribute(ApplyEnv(s, env, ms), a) == Attribute(s, a)
    decreases |ms|
  {
    if ms != [] {
      forall i | 0 <= i < |ms[1..]| ensures ms[1..][i].attr != a {
        assert ms[1..][i] == ms[i + 1];
      }
      ApplyEnvOthers(ApplyMapping(s, env, ms[0]), env, ms[1..], a);
    }
  }

  /** With distinct attributes, each attribute ends as its variable's
      converted value when that variable is set and converts, and keeps its
      value otherwise; a failed conversion changes nothing. */
  lemma {:induction false} ApplyEnvValue(s: Settings, env: map<string, string>, ms: seq<EnvMapping>, k: nat)
    requires DistinctAttrs(ms) && k < |ms|
    ensures Attribute(ApplyEnv(s, env, ms), ms[k].attr) ==
      if Applies(env, ms[k]) then Convert(ms[k].converter, env[ms[k].envVar]).value else Attribute(s, ms[k].attr)
    decreases |ms|
  {
    var s1 := ApplyMapping(s, env, ms[0]);
    assert DistinctAttrs(ms[1..]) by {
      forall i, j | 0 <= i < j < |ms[1..]| ensures ms[1..][i].attr != ms[1..][j].attr {
        assert ms[1..][i] == ms[i + 1] && ms[1..][j] == ms[j + 1];
      }
    }
    if k == 0 {
      forall i | 0 <= i < |ms[1..]| ensures ms[1..][i].attr != ms[0].attr {
        assert ms[1..][i] == ms[i + 1];
      }
      ApplyEnvOthers(s1, env, ms[1..], ms[0].attr);
    } else {
      assert ms[1..][k - 1] == ms[k];
      ApplyEnvValue(s1, env, ms[1..], k - 1);
      assert ms[0].attr != ms[k].attr;
    }
  }

  /** The position of an attribute's mapping. */
  function AttrIndex(a: Attr): nat {
    match a
    case VersionCode => 0
    case VersionName => 1
    case AppName => 2
    case ApplicationId => 3
    case BuildType => 4
    case TargetDexIndex => 5
    case AutoMultidex => 6
  }

  /** The seven mappings name seven different attributes, every one of
      them, each at its own position. */
  lemma EnvMappingsDistinct()
    ensures DistinctAttrs(ENV_MAPPINGS)
    ensures forall a: Attr :: AttrIndex(a) < |ENV_MAPPINGS| && ENV_MAPPINGS[AttrIndex(a)].attr == a
  {
    assert forall k :: 0 <= k < |ENV_MAPPINGS| ==> AttrIndex(ENV_MAPPINGS[k].attr) == k;
  }

  /** `update_from_env` sets each attribute from its variable when that is
      set and converts, and leaves it otherwise. */
  lemma UpdateFromEnvValues(s: Settings, env: map<string, string>, k: nat)
    requires k < |ENV_MAPPINGS|
    ensures var m := ENV_MAPPINGS[k];
      Attribute(ApplyEnv(s, env, ENV_MAPPINGS), m.attr) ==
        if Applies(env, m) then Convert(m.converter, env[m.envVar]).value else Attribute(s, m.attr)
  {
    EnvMappingsDistinct();
    ApplyEnvValue(s, env, ENV_MAPPINGS, k);
  }

  /** With none of the variables set, nothing changes. */
  lemma {:induction false} ApplyEnvUnset(s: Settings, env: map<string, string>, ms: seq<EnvMapping>)
    requires forall i :: 0 <= i < |ms| ==> ms[i].envVar !in env
    ensures ApplyEnv(s, env, ms) == s
    decreases |ms|
  {
    if ms != [] {
      forall i | 0 <= i < |ms[1..]| ensures ms[1..][i].envVar !in env {
        assert ms[1..][i] == ms[i + 1];
      }
      ApplyEnvUnset(s, env, ms[1..]);
    }
  }

  /** `to_dict`. */
  function SettingsDict(s: Settings): map<string, Json> {
    map["version_code" := s.versionCode, "version_name" := s.versionName, "app_name" := s.appName,
        "application_id" := s.applicationId, "build_type" := s.buildType,
        "target_dex_index" := s.targetDexIndex, "auto_multidex" := s.autoMultidex]
  }

  /** The dictionary back into the settings. */
  function DictSettings(d: map<string, Json>): Settings
    requires SettingsDict(Settings(JNull, JNull, JNull, JNull, JNull, JNull, JNull)).Keys <= d.Keys
  {
    Settings(d["version_code"], d["version_name"], d["app_name"], d["application_id"],
             d["build_type"], d["target_dex_index"], d["auto_multidex"])
  }

  /** `to_dict` has exactly the seven keys and loses nothing. */
  lemma SettingsDictRoundTrip(s: Settings)
    ensures SettingsDict(s).Keys == SettingsDict(Settings(JNull, JNull, JNull, JNull, JNull, JNull, JNull)).Keys
    ensures |SettingsDict(s)| == 7
    ensures DictSettings(SettingsDict(s)) == s
  {
    var d := SettingsDict(s);
    assert d.Keys == {"version_code", "version_name", "app_name", "application_id", "build_type", "target_dex_index", "auto_multidex"};
  }

  // ---------------------------------------------------------------------------
  // Queries
  // ---------------------------------------------------------------------------

  /** `filename in skip_files`: an item of a list, a substring of a string,
      a key of a dictionary; anything else raises TypeError. */
  function ShouldSkip(skipFiles: Json, filename: string): (r: Result<bool>)
    ensures r.Err? <==> !(skipFiles.JArray? || skipFiles.JString? || skipFiles.JObject?)
  {
    match skipFiles
    case JArray(items) => Ok(JString(filename) in items)
    case JString(s) => Ok(Contains(s, filename))
    case JObject(fields) => Ok(filename in fields)
    case _ => Err(Error(TypeError, "argument of type '" + TypeName(skipFiles) + "' is not iterable"))
  }

  /** For a list of names, a file is skipped exactly when one of the names
      is its name: no prefix, suffix or case folding. */
  lemma ShouldSkipExact(names: seq<string>, filename: string)
    ensures ShouldSkip(JArray(seq(|names|, i requires 0 <= i < |names| => JString(names[i]))), filename) == Ok(filename in names)
  {
    var items := seq(|names|, i requires 0 <= i < |names| => JString(names[i]));
    if filename in names {
      var i :| 0 <= i < |names| && names[i] == filename;
      assert items[i] == JString(filename);
    }
    if JString(filename) in items {
      var i :| 0 <= i < |items| && items[i] == JString(filename);
      assert names[i] == filename;
    }
  }

  /** `root / p` on POSIX: an absolute `p` replaces the root; a value that
      is not a string raises TypeError. */
  function Slash(root: string, p: Json): (r: Result<string>)
    ensures r.Ok? <==> p.JString?
    ensures p.JString? && StartsWith(p.s, "/") ==> r == Ok(p.s)
    ensures p.JString? && !StartsWith(p.s, "/") ==> StartsWith(r.value, root)
  {
    if !p.JString? then Err(Error(TypeError, "unsupported operand type(s) for /: 'PosixPath' and '" + TypeName(p) + "'"))
    else if StartsWith(p.s, "/") then Ok(p.s)
    else
      var q := JoinRoot(root, PurePath(p.s));
      assert q[..|root|] == root;
      Ok(q)
  }

  /** The items `for x in v` visits: a list's items and a string's
      characters; numbers, booleans and None are not iterable. */
  function Iterate(v: Json): (r: Result<seq<Json>>)
    ensures v.JArray? ==> r == Ok(v.items)
  {
    match v
    case JArray(items) => Ok(items)
    case JString(s) => Ok(seq(|s|, i requires 0 <= i < |s| => JString([s[i]])))
    case _ => Err(Error(TypeError, "'" + TypeName(v) + "' object is not iterable"))
  }

  /** The full paths of the items that exist, in order. */
  function ExistingUnder(st: Store, root: string, items: seq<Json>): Result<seq<string>>
    decreases |items|
  {
    if items == [] then Ok([])
    else
      match Slash(root, items[0])
      case Err(e) => Err(e)
      case Ok(p) =>
        match ExistingUnder(st, root, items[1..])
        case Err(e) => Err(e)
        case Ok(rest) => Ok(if Exists(st, p) then [p] + rest else rest)
  }

  /** The full path of every item. */
  function FullPaths(root: string, items: seq<Json>): (r: seq<string>)
    requires forall i :: 0 <= i < |items| ==> items[i].JString?
    ensures |r| == |items| && forall i :: 0 <= i < |items| ==> Slash(root, items[i]) == Ok(r[i])
    decreases |items|
  {
    if items == [] then []
    else
      assert forall i :: 0 <= i < |items[1..]| ==> items[1..][i] == items[i + 1];
      [Slash(root, items[0]).value] + FullPaths(root, items[1..])
  }

  /** The loop of `get_absolute_paths`. */
  method KeepExisting(st: Store, root: string, items: seq<Json>) returns (r: Result<seq<string>>)
    ensures r == ExistingUnder(st, root, items)
  {
    var paths: seq<string> := [];
    var k := 0;
    assert items[0..] == items;
    AfterEmpty(ExistingUnder(st, root, items));
    while k < |items|
      invariant 0 <= k <= |items|
      invariant ExistingUnder(st, root, items) == After(paths, ExistingUnder(st, root, items[k..]))
    {
      ExistingUnderStep(st, root, items[k..]);
      assert items[k..][0] == items[k] && items[k..][1..] == items[k + 1..];
      var full := Slash(root, items[k]);
      if full.Err? {
        return Err(full.error);
      }
      if Exists(st, full.value) {
        AfterAppend(paths, full.value, ExistingUnder(st, root, items[k + 1..]));
        paths := paths + [full.value];
      }
      k := k + 1;
    }
    assert items[k..] == [];
    assert paths + [] == paths;
    return Ok(paths);
  }

  /** The paths kept so far, before the rest of a run. */
  function After(paths: seq<string>, rest: Result<seq<string>>): Result<seq<string>> {
    match rest
    case Err(e) => Err(e)
    case Ok(q) => Ok(paths + q)
  }

  lemma AfterEmpty(rest: Result<seq<string>>)
    ensures After([], rest) == rest
  {
    if rest.Ok? {
      assert [] + rest.value == rest.value;
    }
  }

  lemma AfterAppend(paths: seq<string>, p: string, rest: Result<seq<string>>)
    ensures After(paths, After([p], rest)) == After(paths + [p], rest)
  {
    if rest.Ok? {
      assert paths + ([p] + rest.value) == (paths + [p]) + rest.value;
    }
  }

  lemma ExistingUnderStep(st: Store, root: string, items: seq<Json>)
    requires items != []
    ensures Slash(root, items[0]).Err? ==> ExistingUnder(st, root, items) == Err(Slash(root, items[0]).error)
    ensures Slash(root, items[0]).Ok? && Exists(st, Slash(root, items[0]).value) ==>
      ExistingUnder(st, root, items) == After([Slash(root, items[0]).value], ExistingUnder(st, root, items[1..]))
    ensures Slash(root, items[0]).Ok? && !Exists(st, Slash(root, items[0]).value) ==>
      ExistingUnder(st, root, items) == ExistingUnder(st, root, items[1..])
  {
  }

  /** The kept paths of a concatenation are those of each part, in
      order. */
  lemma {:induction false} ExistingUnderAppend(st: Store, root: string, a: seq<Json>, b: seq<Json>)
    requires forall i :: 0 <= i < |a| ==> a[i].JString?
    ensures ExistingUnder(st, root, a).Ok?
    ensures ExistingUnder(st, root, a + b).Ok? <==> ExistingUnder(st, root, b).Ok?
    ensures ExistingUnder(st, root, a + b).Ok? ==>
      ExistingUnder(st, root, a).Ok? && ExistingUnder(st, root, b).Ok? &&
      ExistingUnder(st, root, a + b).value == ExistingUnder(st, root, a).value + ExistingUnder(st, root, b).value
    decreases |a|
  {
    if a == [] {
      assert a + b == b;
    } else {
      assert (a + b)[0] == a[0] && (a + b)[1..] == a[1..] + b;
      forall i | 0 <= i < |a[1..]| ensures a[1..][i].JString? {
        assert a[1..][i] == a[i + 1];
      }
      ExistingUnderAppend(st, root, a[1..], b);
    }
  }

  /** With string items, the result holds exactly the full paths that
      exist, never more than there are items, and every path when all
      exist. */
  lemma {:induction false} ExistingUnderExactly(st: Store, root: string, items: seq<Json>, p: string)
    requires forall i :: 0 <= i < |items| ==> items[i].JString?
    ensures ExistingUnder(st, root, items).Ok?
    ensures var r := ExistingUnder(st, root, items).value;
      |r| <= |items| &&
      (p in r <==> Exists(st, p) && exists i :: 0 <= i < |items| && Slash(root, items[i]) == Ok(p))
    ensures (forall i :: 0 <= i < |items| ==> Exists(st, Slash(root, items[i]).value)) ==>
      ExistingUnder(st, root, items).value == FullPaths(root, items)
    decreases |items|
  {
    if items != [] {
      forall i | 0 <= i < |items[1..]| ensures items[1..][i].JString? {
        assert items[1..][i] == items[i + 1];
      }
      ExistingUnderExactly(st, root, items[1..], p);
      forall i | 0 < i < |items| ensures items[1..][i - 1] == items[i] { }
      var rest := ExistingUnder(st, root, items[1..]).value;
      var q := Slash(root, items[0]).value;
      if p in ExistingUnder(st, root, items).value && p != q {
        var i :| 0 <= i < |items[1..]| && Slash(root, items[1..][i]) == Ok(p);
        assert Slash(root, items[i + 1]) == Ok(p);
      }
      if Exists(st, p) && exists i :: 0 <= i < |items| && Slash(root, items[i]) == Ok(p) {
        var i :| 0 <= i < |items| && Slash(root, items[i]) == Ok(p);
        if i > 0 {
          assert Slash(root, items[1..][i - 1]) == Ok(p);
        }
      }
      if forall i :: 0 <= i < |items| ==> Exists(st, Slash(root, items[i]).value) {
        assert forall i :: 0 <= i < |items[1..]| ==> Exists(st, Slash(root, items[1..][i]).value);
        assert FullPaths(root, items) == [q] + FullPaths(root, items[1..]);
      }
    }
  }

  // ---------------------------------------------------------------------------
  // The dataclass
  // ---------------------------------------------------------------------------

  class ProjectConfig {
    var versionCode: Json
    var versionName: Json
    var appName: Json
    var applicationId: Json
    var buildType: Json
    var targetDexIndex: Json
    var autoMultidex: Json
    const preferExistingDex: Json
    const createNewDexIfFull: Json
    const maxFilesPerDex: Json
    const skipFiles: Json
    const forceMultidex: Json
    const minSdkVersion: Json
    const additionalSmaliDirs: Json
    const keystorePath: Json
    const abiKeepOnly: Json
    const abiRemoveOthers: Json
    const abiWarnIfMissing: Json
    const buildAbis: Json
    const rawConfig: Json

    /** The dataclass constructor, given what `load` read. */
    constructor (rec: Record)
      ensures Snapshot() == rec
    {
      versionCode, versionName, appName, applicationId := rec.versionCode, rec.versionName, rec.appName, rec.applicationId;
      buildType, targetDexIndex, autoMultidex := rec.buildType, rec.targetDexIndex, rec.autoMultidex;
      preferExistingDex, createNewDexIfFull, maxFilesPerDex := rec.preferExistingDex, rec.createNewDexIfFull, rec.maxFilesPerDex;
      skipFiles, forceMultidex, minSdkVersion := rec.skipFiles, rec.forceMultidex, rec.minSdkVersion;
      additionalSmaliDirs, keystorePath := rec.additionalSmaliDirs, rec.keystorePath;
      abiKeepOnly, abiRemoveOthers, abiWarnIfMissing, buildAbis := rec.abiKeepOnly, rec.abiRemoveOthers, rec.abiWarnIfMissing, rec.buildAbis;
      rawConfig := rec.rawConfig;
    }

    /** The seven settings the environment can change. */
    function Current(): Settings
      reads this
    {
      Settings(versionCode, versionName, appName, applicationId, buildType, targetDexIndex, autoMultidex)
    }

    /** Every field. */
    function Snapshot(): Record
      reads this
    {
      Record(versionCode, versionName, appName, applicationId, buildType, targetDexIndex, autoMultidex,
             preferExistingDex, createNewDexIfFull, maxFilesPerDex, skipFiles, forceMultidex, minSdkVersion,
             additionalSmaliDirs, keystorePath, abiKeepOnly, abiRemoveOthers, abiWarnIfMissing, buildAbis, rawConfig)
    }

    /** `setattr(self, attr, v)`. */
    method SetAttribute(a: Attr, v: Json)
      modifies this
      ensures Current() == Assign(old(Current()), a, v)
    {
      match a
      case VersionCode => versionCode := v;
      case VersionName => versionName := v;
      case AppName => appName := v;
      case ApplicationId => applicationId := v;
      case BuildType => buildType := v;
      case TargetDexIndex => targetDexIndex := v;
      case AutoMultidex => autoMultidex := v;
    }

    /** The loop of `update_from_env` over a list of mappings. */
    method UpdateWith(env: map<string, string>, ms: seq<EnvMapping>) returns (updated: bool)
      modifies this
      ensures Current() == ApplyEnv(old(Current()), env, ms)
      ensures updated <==> exists i :: 0 <= i < |ms| && Applies(env, ms[i])
    {
      updated := false;
      var k := 0;
      while k < |ms|
        invariant 0 <= k <= |ms|
        invariant ApplyEnv(Current(), env, ms[k..]) == ApplyEnv(old(Current()), env, ms)
        invariant updated <==> exists i :: 0 <= i < k && Applies(env, ms[i])
      {
        assert ms[k..][0] == ms[k] && ms[k..][1..] == ms[k + 1..];
        var m := ms[k];
        if m.envVar in env {
          var converted := Convert(m.converter, env[m.envVar]);
          if converted.Some? {
            SetAttribute(m.attr, converted.value);
            updated := true;
          }
        }
        k := k + 1;
      }
    }

    /** `update_from_env`: each set variable that converts overrides its
        attribute; the answer is whether any did. */
    method UpdateFromEnv(env: map<string, string>) returns (updated: bool)
      modifies this
      ensures Current() == ApplyEnv(old(Current()), env, ENV_MAPPINGS)
      ensures updated <==> exists i :: 0 <= i < |ENV_MAPPINGS| && Applies(env, ENV_MAPPINGS[i])
    {
      updated := UpdateWith(env, ENV_MAPPINGS);
    }

    /** `to_dict`. */
    function ToDict(): map<string, Json>
      reads this
    {
      SettingsDict(Current())
    }

    /** `should_skip_file`. */
    function ShouldSkipFile(filename: string): Result<bool> {
      ShouldSkip(skipFiles, filename)
    }

    /** `get_keystore_config_path`. */
    function KeystoreConfigPath(projectRoot: string): Result<string> {
      Slash(projectRoot, keystorePath)
    }

    /** `get_absolute_paths`. */
    method GetAbsolutePaths(st: Store, projectRoot: string) returns (r: Result<seq<string>>)
      ensures var dirs := Iterate(additionalSmaliDirs);
        (dirs.Err? ==> r == Err(dirs.error)) && (dirs.Ok? ==> r == ExistingUnder(st, projectRoot, dirs.value))
    {
      var items := Iterate(additionalSmaliDirs);
      if items.Err? {
        return Err(items.error);
      }
      r := KeepExisting(st, projectRoot, items.value);
    }
  }

  /** The module-global `_project_config` of `init_project_config` and
      `get_config`. */
  class ConfigRegistry {
    var current: ProjectConfig?

    constructor ()
      ensures current == null
    {
      current := null;
    }

    /** `init_project_config`: the loaded configuration becomes the global
        one; a load that raises leaves the global as it was. */
    method Init(st: Store, projectRoot: string, decode: string -> Decoded) returns (r: Result<ProjectConfig>)
      modifies this
      ensures r.Ok? <==> LoadSpec(st, projectRoot, decode).Ok?
      ensures r.Ok? ==> fresh(r.value) && current == r.value && r.value.Snapshot() == LoadSpec(st, projectRoot, decode).value
      ensures r.Err? ==> r.error == LoadSpec(st, projectRoot, decode).error && current == old(current)
    {
      var loaded := LoadSpec(st, projectRoot, decode);
      if loaded.Err? {
        return Err(loaded.error);
      }
      var c := new ProjectConfig(loaded.value);
      current := c;
      return Ok(c);
    }

    /** `get_config`: RuntimeError before any configuration was loaded, the
        global one after. */
    method GetConfig() returns (r: Result<ProjectConfig>)
      ensures r.Err? <==> current == null
      ensures r.Err? ==> r.error == Error(RuntimeError, NOT_INITIALIZED)
      ensures r.Ok? ==> r.value == current
    {
      if current == null {
        return Err(Error(RuntimeError, NOT_INITIALIZED));
      }
      return Ok(current);
    }
  }
}
