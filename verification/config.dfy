/** `config.py`: the keystore settings read from `keystore.json` and their
    validation before signing. The file system is a value, the JSON decoder
    and `Path.resolve` are parameters. */
module Config {
  import opened Wrappers
  import opened Text
  import opened Fs
  import opened PyJson

  /** The required fields, in the order `validate` reports them. */
  const FIELD_NAMES := ["keystore_path", "keystore_alias", "keystore_password", "key_password"]

  const MISSING_PREFIX := "Missing required fields: "

  /** The four attributes `load` assigns; `path` is None until then. */
  datatype Fields = Fields(path: Option<string>, alias: Json, password: Json, keyPassword: Json)

  /** `Path.is_absolute()` on POSIX. */
  predicate IsAbsolute(p: string) {
    |p| > 0 && p[0] == '/'
  }

  /** `Path(v or "")`: a false value gives the empty path; a true value that
      is not a string makes `Path` raise TypeError. */
  function PathOf(v: Json): (r: Result<string>)
    ensures !Truthy(v) ==> r == Ok(".")
    ensures v.JString? && v.s != "" ==> r == Ok(v.s)
    ensures Truthy(v) && !v.JString? ==> r.Err? && r.error.kind == TypeError
  {
    var w := if Truthy(v) then v else JString("");
    match w
    case JString(s) => Ok(PurePath(s))
    case _ => Err(Error(TypeError, "expected str, bytes or os.PathLike object, not " + TypeName(w)))
  }

  /** What `load` assigns from a decoded object, or the error it raises
      first; the attributes are untouched on an error. */
  function LoadFields(config: Json): Result<Fields> {
    if !config.JObject? then
      Err(Error(AttributeError, "'" + TypeName(config) + "' object has no attribute 'get'"))
    else
      var o := config.fields;
      match PathOf(Get(o, "keystore_path"))
      case Err(e) => Err(e)
      case Ok(p) => Ok(Fields(Some(p), Get(o, "keystore_alias"), Get(o, "keystore_password"), Get(o, "key_password")))
  }

  /** `load`: a missing file, a directory in its place, a text that is not
      JSON, then the assignments. */
  function LoadSpec(st: Store, configPath: string, decode: string -> Decoded): Result<Fields> {
    if !Exists(st, configPath) then
      Err(Error(FileNotFoundError, "keystore.json not found at: " + configPath))
    else if configPath !in st.files then
      Err(Error(OSError, "[Errno 21] Is a directory: '" + configPath + "'"))
    else
      match decode(st.files[configPath])
      case DecodeError(m) => Err(Error(ValueError, "Invalid JSON in " + configPath + ": " + m))
      case Parsed(v) => LoadFields(v)
  }

  /** `load` raises FileNotFoundError for a missing file and ValueError for
      a text that is not JSON; when it succeeds it always stores a path and
      takes the other three fields as `config.get` gives them. */
  lemma LoadOutcome(st: Store, configPath: string, decode: string -> Decoded)
    ensures !Exists(st, configPath) ==>
      LoadSpec(st, configPath, decode) == Err(Error(FileNotFoundError, "keystore.json not found at: " + configPath))
    ensures configPath in st.files && decode(st.files[configPath]).DecodeError? ==>
      LoadSpec(st, configPath, decode).Err? && LoadSpec(st, configPath, decode).error.kind == ValueError
    ensures var r := LoadSpec(st, configPath, decode);
      r.Ok? ==>
        configPath in st.files && decode(st.files[configPath]).Parsed? &&
        var v := decode(st.files[configPath]).value;
        v.JObject? && r.value.path.Some? && r.value.path.value != "" &&
        r.value.alias == Get(v.fields, "keystore_alias") &&
        r.value.password == Get(v.fields, "keystore_password") &&
        r.value.keyPassword == Get(v.fields, "key_password")
  {
  }

  /** The names of the missing fields, in the fixed order. */
  function MissingFields(f: Fields): seq<string> {
    (if f.path.None? then ["keystore_path"] else [])
    + (if !Truthy(f.alias) then ["keystore_alias"] else [])
    + (if !Truthy(f.password) then ["keystore_password"] else [])
    + (if !Truthy(f.keyPassword) then ["key_password"] else [])
  }

  /** Whether the `k`-th required field is missing. */
  predicate FieldMissing(f: Fields, k: nat)
    requires k < |FIELD_NAMES|
  {
    if k == 0 then f.path.None?
    else if k == 1 then !Truthy(f.alias)
    else if k == 2 then !Truthy(f.password)
    else !Truthy(f.keyPassword)
  }

  /** Where a required field sits in the fixed order. */
  function IndexIn(name: string): nat {
    if name == "keystore_path" then 0
    else if name == "keystore_alias" then 1
    else if name == "keystore_password" then 2
    else 3
  }

  /** A field is listed exactly when it is missing; the path counts as
      missing only when it is None. */
  lemma MissingFieldsExactly(f: Fields)
    ensures forall k :: 0 <= k < |FIELD_NAMES| ==> (FIELD_NAMES[k] in MissingFields(f) <==> FieldMissing(f, k))
    ensures "keystore_path" in MissingFields(f) <==> f.path.None?
  {
    MissingFieldsParts(f);
  }

  /** The listed names are required fields in strictly increasing order, so
      none is listed twice. */
  lemma MissingFieldsOrdered(f: Fields)
    ensures forall x :: x in MissingFields(f) ==> x in FIELD_NAMES
    ensures forall i, j :: 0 <= i < j < |MissingFields(f)| ==> IndexIn(MissingFields(f)[i]) < IndexIn(MissingFields(f)[j])
  {
    MissingFieldsParts(f);
  }

  lemma MissingFieldsParts(f: Fields)
    ensures MissingFields(f) ==
      (if f.path.None? then [FIELD_NAMES[0]] else []) + (if !Truthy(f.alias) then [FIELD_NAMES[1]] else [])
      + (if !Truthy(f.password) then [FIELD_NAMES[2]] else []) + (if !Truthy(f.keyPassword) then [FIELD_NAMES[3]] else [])
  {
  }

  /** What `validate` returns and the path it leaves behind. */
  function ValidateSpec(f: Fields, projectRoot: string, st: Store, resolve: string -> string): (Result<bool>, Option<string>) {
    var missing := MissingFields(f);
    if missing != [] then
      (Err(Error(ValueError, MISSING_PREFIX + Join(missing, ", "))), f.path)
    else
      var p := f.path.value;
      var q := resolve(if IsAbsolute(p) then p else JoinRoot(projectRoot, p));
      if !Exists(st, q) then (Err(Error(FileNotFoundError, "Keystore file not found: " + q)), Some(q))
      else (Ok(true), Some(q))
  }

  /** `validate` succeeds exactly when no field is missing and the resolved
      path exists; a relative path is taken inside the project root; a
      missing field raises ValueError before the path is touched. */
  lemma ValidateOutcome(f: Fields, projectRoot: string, st: Store, resolve: string -> string)
    ensures var (r, path) := ValidateSpec(f, projectRoot, st, resolve);
      MissingFields(f) != [] ==>
        r == Err(Error(ValueError, MISSING_PREFIX + Join(MissingFields(f), ", "))) && path == f.path
    ensures var (r, path) := ValidateSpec(f, projectRoot, st, resolve);
      MissingFields(f) == [] ==>
        var p := f.path.value;
        path == Some(resolve(if IsAbsolute(p) then p else JoinRoot(projectRoot, p)))
        && (r.Ok? <==> Exists(st, path.value))
        && (r.Err? ==> r.error == Error(FileNotFoundError, "Keystore file not found: " + path.value))
    ensures var (r, _) := ValidateSpec(f, projectRoot, st, resolve);
      r.Ok? ==> r.value
  {
  }

  // ---------------------------------------------------------------------------
  // The missing keystore path
  // ---------------------------------------------------------------------------

  /** A `keystore.json` that names everything but the keystore. */
  function NoPathConfig(): Json {
    JObject(map["keystore_alias" := JString("key"), "keystore_password" := JString("secret"),
                "key_password" := JString("secret")])
  }

  /** As written, a configuration without `keystore_path` loads the path `.`,
      which is truthy, so `validate` does not report the missing field; the
      path becomes the project root itself, which exists, and validation
      passes. */
  lemma MissingPathAccepted()
    ensures var st := Store(map["/p/keystore.json" := "{}"], {"/p"});
      var decode := (t: string) => Parsed(NoPathConfig());
      var loaded := LoadSpec(st, "/p/keystore.json", decode);
      loaded.Ok? && loaded.value.path == Some(".")
      && ValidateSpec(loaded.value, "/p", st, (p: string) => p) == (Ok(true), Some("/p"))
  {
    var st := Store(map["/p/keystore.json" := "{}"], {"/p"});
    var decode := (t: string) => Parsed(NoPathConfig());
    var loaded := LoadSpec(st, "/p/keystore.json", decode);
    assert loaded == Ok(Fields(Some("."), JString("key"), JString("secret"), JString("secret")));
    assert MissingFields(loaded.value) == [];
  }

  /** `load` as evidently intended: a false `keystore_path` leaves the path
      None, so that `validate` can report it. */
  function LoadFieldsCorrected(config: Json): Result<Fields> {
    if !config.JObject? then
      Err(Error(AttributeError, "'" + TypeName(config) + "' object has no attribute 'get'"))
    else
      var o := config.fields;
      var v := Get(o, "keystore_path");
      var path := if Truthy(v) then PathOf(v) else Ok(".");
      match path
      case Err(e) => Err(e)
      case Ok(p) =>
        Ok(Fields(if Truthy(v) then Some(p) else None,
                  Get(o, "keystore_alias"), Get(o, "keystore_password"), Get(o, "key_password")))
  }

  /** With the corrected `load`, a configuration without a keystore path
      fails validation with ValueError, and `keystore_path` is the first
      field it names; one with a path loads as before. */
  lemma MissingPathReported(config: Json, projectRoot: string, st: Store, resolve: string -> string)
    requires config.JObject?
    ensures !Truthy(Get(config.fields, "keystore_path")) ==>
      var loaded := LoadFieldsCorrected(config);
      loaded.Ok? && MissingFields(loaded.value) != [] && MissingFields(loaded.value)[0] == "keystore_path" &&
      var (r, _) := ValidateSpec(loaded.value, projectRoot, st, resolve);
      r.Err? && r.error.kind == ValueError && StartsWith(r.error.message, MISSING_PREFIX + "keystore_path")
    ensures Truthy(Get(config.fields, "keystore_path")) ==> LoadFieldsCorrected(config) == LoadFields(config)
  {
    var v := Get(config.fields, "keystore_path");
    if !Truthy(v) {
      var loaded := LoadFieldsCorrected(config);
      assert MissingFields(loaded.value)[0] == "keystore_path";
      HeadNamed(MissingFields(loaded.value));
    }
  }

  /** The message names the first missing field right after its prefix. */
  lemma HeadNamed(m: seq<string>)
    requires |m| > 0 && m[0] == "keystore_path"
    ensures StartsWith(MISSING_PREFIX + Join(m, ", "), MISSING_PREFIX + "keystore_path")
  {
    var j := Join(m, ", ");
    assert StartsWith(j, m[0]) by {
      if |m| > 1 {
        JoinCons(m, ", ");
        PrefixKept(m[0], ", " + Join(m[1..], ", "));
        assert j == m[0] + (", " + Join(m[1..], ", "));
      }
    }
    PrefixShared(MISSING_PREFIX, j, m[0]);
  }

  lemma PrefixKept(x: string, y: string)
    ensures StartsWith(x + y, x)
  {
    assert (x + y)[..|x|] == x;
  }

  lemma PrefixShared(p: string, x: string, y: string)
    requires StartsWith(x, y)
    ensures StartsWith(p + x, p + y)
  {
    assert (p + x)[..|p + y|] == p + x[..|y|];
  }

  class KeystoreConfig {
    const configPath: string
    const projectRoot: string
    var path: Option<string>
    var alias: Json
    var password: Json
    var keyPassword: Json

    constructor (configPath: string, projectRoot: string)
      ensures this.configPath == configPath && this.projectRoot == projectRoot
      ensures Current() == Fields(None, JNull, JNull, JNull)
    {
      this.configPath := configPath;
      this.projectRoot := projectRoot;
      path := None;
      alias := JNull;
      password := JNull;
      keyPassword := JNull;
    }

    /** The attributes as a value. */
    function Current(): Fields
      reads this
    {
      Fields(path, alias, password, keyPassword)
    }

    /** `load`. */
    method Load(st: Store, decode: string -> Decoded) returns (r: Result<()>)
      modifies this
      ensures var spec := LoadSpec(st, configPath, decode);
        (r.Ok? <==> spec.Ok?) && (r.Err? ==> r.error == spec.error)
        && Current() == (if spec.Ok? then spec.value else old(Current()))
    {
      if !Exists(st, configPath) {
        return Err(Error(FileNotFoundError, "keystore.json not found at: " + configPath));
      }
      if configPath !in st.files {
        return Err(Error(OSError, "[Errno 21] Is a directory: '" + configPath + "'"));
      }
      var decoded := decode(st.files[configPath]);
      if decoded.DecodeError? {
        return Err(Error(ValueError, "Invalid JSON in " + configPath + ": " + decoded.message));
      }
      var config := decoded.value;
      if !config.JObject? {
        return Err(Error(AttributeError, "'" + TypeName(config) + "' object has no attribute 'get'"));
      }
      var p := PathOf(Get(config.fields, "keystore_path"));
      if p.Err? {
        return Err(p.error);
      }
      path := Some(p.value);
      alias := Get(config.fields, "keystore_alias");
      password := Get(config.fields, "keystore_password");
      keyPassword := Get(config.fields, "key_password");
      return Ok(());
    }

    /** `validate`: the missing fields are gathered one by one; then the
        path is made absolute, resolved and checked. */
    method Validate(st: Store, resolve: string -> string) returns (r: Result<bool>)
      modifies this`path
      ensures (r, path) == ValidateSpec(old(Current()), projectRoot, st, resolve)
    {
      var missing: seq<string> := [];
      if path.None? {
        missing := missing + ["keystore_path"];
      }
      if !Truthy(alias) {
        missing := missing + ["keystore_alias"];
      }
      if !Truthy(password) {
        missing := missing + ["keystore_password"];
      }
      if !Truthy(keyPassword) {
        missing := missing + ["key_password"];
      }
      assert missing == MissingFields(Current());
      if missing != [] {
        return Err(Error(ValueError, MISSING_PREFIX + Join(missing, ", ")));
      }
      var p := path.value;
      if !IsAbsolute(p) {
        p := JoinRoot(projectRoot, p);
      }
      path := Some(resolve(p));
      if !Exists(st, path.value) {
        return Err(Error(FileNotFoundError, "Keystore file not found: " + path.value));
      }
      return Ok(true);
    }
  }
}
