/** Values `json.load` produces, as Python sees them: `None`, booleans,
    integers, floats, strings, lists and dictionaries. */
module PyJson {
  import opened Wrappers

  datatype Json =
    | JNull
    | JBool(b: bool)
    | JInt(i: int)
    | JFloat(r: real)
    | JString(s: string)
    | JArray(items: seq<Json>)
    | JObject(fields: map<string, Json>)

  /** Python's truth value of the decoded object. */
  predicate Truthy(v: Json) {
    match v
    case JNull => false
    case JBool(b) => b
    case JInt(i) => i != 0
    case JFloat(r) => r != 0.0
    case JString(s) => s != ""
    case JArray(items) => items != []
    case JObject(fields) => fields != map[]
  }

  /** `type(v).__name__`. */
  function TypeName(v: Json): string {
    match v
    case JNull => "NoneType"
    case JBool(_) => "bool"
    case JInt(_) => "int"
    case JFloat(_) => "float"
    case JString(_) => "str"
    case JArray(_) => "list"
    case JObject(_) => "dict"
  }

  /** `d.get(key)` on a dictionary: the value, or `None` when absent. */
  function Get(fields: map<string, Json>, key: string): (r: Json)
    ensures key !in fields ==> r == JNull
    ensures key in fields ==> r == fields[key]
  {
    if key in fields then fields[key] else JNull
  }

  /** `v.get(key, default)`: a dictionary gives its value or the default;
      anything else has no `get` and raises AttributeError. */
  function DictGet(v: Json, key: string, default: Json): (r: Result<Json>)
    ensures r.Ok? <==> v.JObject?
    ensures r.Ok? ==> r.value == if key in v.fields then v.fields[key] else default
    ensures r.Err? ==> r.error == Error(AttributeError, "'" + TypeName(v) + "' object has no attribute 'get'")
  {
    if v.JObject? then Ok(if key in v.fields then v.fields[key] else default)
    else Err(Error(AttributeError, "'" + TypeName(v) + "' object has no attribute 'get'"))
  }

  /** What `json.load` gives for a text: a value, or `JSONDecodeError` with
      its text. */
  datatype Decoded = Parsed(value: Json) | DecodeError(message: string)
}
