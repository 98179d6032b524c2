/** `manifest_manager.py`: read-only queries on `AndroidManifest.xml`. The
    manager holds only the manifest's path, so each query is a function of what
    parsing that path gives. */
module ManifestManager {
  import opened Wrappers
  import opened Text
  import opened Xml

  const MAIN_ACTION := "android.intent.action.MAIN"
  const LAUNCHER_CATEGORY := "android.intent.category.LAUNCHER"
  const DEFAULT_MIN_SDK := 21

  /** The manifest path as `ET.parse` sees it: absent, not well-formed (a
      `ParseError` or `OSError`), or a tree with this root. */
  datatype ManifestFile = Missing | Unparsable | Parsed(root: Element)

  /** `get_package_name`. */
  function PackageName(file: ManifestFile): Option<string> {
    match file
    case Parsed(root) => Get(root.attrib, "package")
    case _ => None
  }

  /** `get_sdk_versions`: the two Android-namespace attributes of the first
      `uses-sdk` element anywhere below the root. */
  function SdkVersions(file: ManifestFile): (Option<string>, Option<string>) {
    if !file.Parsed? then (None, None)
    else
      match First(FindDescendants(file.root, "uses-sdk"))
      case Some(u) => (Get(u.attrib, NsName("minSdkVersion")), Get(u.attrib, NsName("targetSdkVersion")))
      case None => (None, None)
  }

  /** `get_min_sdk`: `int(min_sdk)` when it is a digit string, otherwise 21. */
  function MinSdk(file: ManifestFile): int {
    var m := SdkVersions(file).0;
    if m.Some? && m.value != "" && IsDigits(m.value) then
      match PyInt(m.value)
      case Some(v) => v
      case None => DEFAULT_MIN_SDK
    else DEFAULT_MIN_SDK
  }

  /** The minimum SDK is the decimal value of `minSdkVersion` when that is all
      digits, and 21 in every other case. */
  lemma MinSdkValue(file: ManifestFile)
    ensures var m := SdkVersions(file).0;
      MinSdk(file) == if m.Some? && IsDigits(m.value) then DigitsValue(m.value) else DEFAULT_MIN_SDK
  {
    var m := SdkVersions(file).0;
    if m.Some? && IsDigits(m.value) {
      PyIntDigits(m.value);
    }
  }

  /** An element whose Android-namespace `name` is `value`. */
  predicate NamedAs(e: Element, value: string) {
    var n := Get(e.attrib, NsName("name"));
    n.Some? && n.value == value
  }

  predicate AnyNamed(es: seq<Element>, value: string) {
    exists i :: 0 <= i < |es| && NamedAs(es[i], value)
  }

  /** An intent filter with a MAIN action child and a LAUNCHER category child. */
  predicate LauncherIntent(f: Element) {
    AnyNamed(FindChildren(f, "action"), MAIN_ACTION) && AnyNamed(FindChildren(f, "category"), LAUNCHER_CATEGORY)
  }

  /** An activity with a launcher intent filter among its children. */
  predicate LauncherActivity(a: Element) {
    var fs := FindChildren(a, "intent-filter");
    exists i :: 0 <= i < |fs| && LauncherIntent(fs[i])
  }

  /** The index of the first launcher activity at or after `i`. */
  function FirstLauncherFrom(acts: seq<Element>, i: nat): (r: Option<nat>)
    requires i <= |acts|
    ensures r.Some? ==> i <= r.value < |acts| && LauncherActivity(acts[r.value])
    ensures r.Some? ==> forall k :: i <= k < r.value ==> !LauncherActivity(acts[k])
    ensures r.None? ==> forall k :: i <= k < |acts| ==> !LauncherActivity(acts[k])
    decreases |acts| - i
  {
    if i == |acts| then None
    else if LauncherActivity(acts[i]) then Some(i)
    else FirstLauncherFrom(acts, i + 1)
  }

  /** The index of the first launcher activity. */
  function FirstLauncher(acts: seq<Element>): Option<nat> {
    FirstLauncherFrom(acts, 0)
  }

  /** A launcher with no launcher before it is the first one. */
  lemma FirstLauncherAt(acts: seq<Element>, i: nat)
    requires i < |acts| && LauncherActivity(acts[i])
    requires forall k :: 0 <= k < i ==> !LauncherActivity(acts[k])
    ensures FirstLauncher(acts) == Some(i)
  {
    var r := FirstLauncherFrom(acts, 0);
    assert r.Some?;
  }

  /** `get_main_activity`: the Android `name` of the first launcher activity
      below the first `application` element. */
  function MainActivity(file: ManifestFile): Option<string> {
    if !file.Parsed? then None
    else
      match First(FindDescendants(file.root, "application"))
      case None => None
      case Some(app) =>
        var acts := FindDescendants(app, "activity");
        match FirstLauncher(acts)
        case Some(k) => Get(acts[k].attrib, NsName("name"))
        case None => None
  }

  /** A missing or unparsable manifest answers every query with None. */
  lemma UnreadableManifest(file: ManifestFile)
    requires !file.Parsed?
    ensures PackageName(file).None? && SdkVersions(file) == (None, None)
    ensures MainActivity(file).None? && MinSdk(file) == DEFAULT_MIN_SDK
  {
  }

  /** Without a `uses-sdk` element both versions are None and the minimum is 21;
      without an `application` element there is no main activity. */
  lemma ManifestWithoutElements(root: Element)
    ensures FindDescendants(root, "uses-sdk") == [] ==>
      SdkVersions(Parsed(root)) == (None, None) && MinSdk(Parsed(root)) == DEFAULT_MIN_SDK
    ensures FindDescendants(root, "application") == [] ==> MainActivity(Parsed(root)).None?
  {
  }

  /** A main activity, when reported, is the name of a launcher activity of the
      first application element, and no activity before it is a launcher. */
  lemma MainActivityIsFirstLauncher(root: Element) returns (app: Element, k: nat)
    requires MainActivity(Parsed(root)).Some?
    ensures FindDescendants(root, "application") != [] && app == FindDescendants(root, "application")[0]
    ensures var acts := FindDescendants(app, "activity");
      k < |acts| && LauncherActivity(acts[k])
      && (forall j :: 0 <= j < k ==> !LauncherActivity(acts[j]))
      && MainActivity(Parsed(root)) == Get(acts[k].attrib, NsName("name"))
  {
    app := FindDescendants(root, "application")[0];
    k := FirstLauncher(FindDescendants(app, "activity")).value;
  }

  /** `_has_launcher_intent`: two flag loops over the action and category children. */
  method HasLauncherIntent(f: Element) returns (b: bool)
    ensures b == LauncherIntent(f)
  {
    var actions := FindChildren(f, "action");
    var categories := FindChildren(f, "category");
    var hasMain := false;
    var hasLauncher := false;
    for i := 0 to |actions|
      invariant hasMain <==> exists k :: 0 <= k < i && NamedAs(actions[k], MAIN_ACTION)
    {
      if Get(actions[i].attrib, NsName("name")) == Some(MAIN_ACTION) {
        hasMain := true;
      }
    }
    for i := 0 to |categories|
      invariant hasLauncher <==> exists k :: 0 <= k < i && NamedAs(categories[k], LAUNCHER_CATEGORY)
    {
      if Get(categories[i].attrib, NsName("name")) == Some(LAUNCHER_CATEGORY) {
        hasLauncher := true;
      }
    }
    return hasMain && hasLauncher;
  }

  /** `_is_launcher_activity`: the first launcher filter among the children ends the loop. */
  method IsLauncherActivity(activity: Element) returns (b: bool)
    ensures b == LauncherActivity(activity)
  {
    var filters := FindChildren(activity, "intent-filter");
    for i := 0 to |filters|
      invariant forall k :: 0 <= k < i ==> !LauncherIntent(filters[k])
    {
      var launcher := HasLauncherIntent(filters[i]);
      if launcher {
        return true;
      }
    }
    return false;
  }

  /** `get_main_activity`: the loop over the activities returns at the first launcher. */
  method GetMainActivity(file: ManifestFile) returns (name: Option<string>)
    ensures name == MainActivity(file)
  {
    if !file.Parsed? {
      return None;
    }
    var application := First(FindDescendants(file.root, "application"));
    if application.None? {
      return None;
    }
    var acts := FindDescendants(application.value, "activity");
    for i := 0 to |acts|
      invariant forall k :: 0 <= k < i ==> !LauncherActivity(acts[k])
    {
      var launcher := IsLauncherActivity(acts[i]);
      if launcher {
        FirstLauncherAt(acts, i);
        return Get(acts[i].attrib, NsName("name"));
      }
    }
    assert FirstLauncher(acts).None?;
    return None;
  }
}
