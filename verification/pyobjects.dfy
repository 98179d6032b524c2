/** The parts of Python's object model that the pipeline engine relies on:
    attributes found by `getattr`, classes, importable modules, and the
    `pipeline_behavior` table of the build configuration. */
module PyObjects {
  import opened Wrappers

  /** What `getattr(obj, name, None)` can give back. */
  datatype Value =
    | NoneValue
    | Function(qualifiedName: string)
    | Class(cls: ClassDef)
    | Plain(typeName: string)

  datatype Attribute = Attribute(name: string, value: Value)

  /** A class: its name, the constructor parameters without defaults (as
      `inspect.signature` reports them, `self` excluded), the error its
      constructor raises if it raises one, and the attributes of its instances. */
  datatype ClassDef = ClassDef(
    name: string,
    required: seq<string>,
    constructorError: Option<string>,
    members: seq<Attribute>)

  datatype ModuleDef = ModuleDef(name: string, members: seq<Attribute>)

  /** `getattr(obj, name, None)` over an object's attribute table. */
  function GetAttr(attrs: seq<Attribute>, name: string): (v: Value)
    ensures v != NoneValue ==> exists i :: 0 <= i < |attrs| && attrs[i].name == name && attrs[i].value == v
    ensures (forall i :: 0 <= i < |attrs| ==> attrs[i].name != name) ==> v == NoneValue
  {
    if attrs == [] then NoneValue
    else if attrs[0].name == name then attrs[0].value
    else GetAttr(attrs[1..], name)
  }

  /** Python's `callable(v)`: functions and classes. */
  predicate IsCallable(v: Value) {
    v.Function? || v.Class?
  }

  /** The `pipeline_behavior` table; a missing key is `None`. */
  datatype PipelineBehavior = PipelineBehavior(
    stopOnError: Option<bool>,
    stopOnWarning: Option<bool>,
    timeoutSeconds: Option<int>)
}
