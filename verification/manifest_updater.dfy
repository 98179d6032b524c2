/** `manifest_updater.py`: merging a custom `AndroidManifest.xml` into the
    decompiled one. The source mutates ElementTree elements in place; here each
    merge takes the target element as a value and returns the merged element
    together with the counter the source keeps. */
module ManifestUpdater {
  import opened Wrappers
  import opened Text
  import opened Xml
  import opened Scan

  type Attrib = seq<(string, string)>

  const MAIN_ACTION := "android.intent.action.MAIN"
  const LAUNCHER_CATEGORY := "android.intent.category.LAUNCHER"

  /** The attributes of an element come from a Python dict: each name once. */
  predicate DistinctNames(attrib: Attrib) {
    forall i, j :: 0 <= i < j < |attrib| ==> attrib[i].0 != attrib[j].0
  }

  /** Under distinct names the first entry's name has no later entry. */
  lemma FirstNameUnique(attrib: Attrib)
    requires attrib != [] && DistinctNames(attrib)
    ensures Get(attrib[1..], attrib[0].0).None?
    ensures DistinctNames(attrib[1..])
  {
    GetNames(attrib[1..], attrib[0].0);
  }

  // ---------------------------------------------------------------------------
  // `_copy_manifest_attributes`: every attribute but `package` and `xmlns:*`
  // ---------------------------------------------------------------------------

  predicate ManifestCopyable(name: string) {
    name != "package" && !StartsWith(name, "xmlns:")
  }

  /** The target attributes after `set` for each copyable source entry in turn. */
  function CopyManifestAttrs(target: Attrib, source: Attrib): Attrib
    decreases |source|
  {
    if source == [] then target
    else
      var (name, value) := source[0];
      CopyManifestAttrs(if ManifestCopyable(name) then Set(target, name, value) else target, source[1..])
  }

  /** The number of copyable source entries. */
  function CopyableCount(source: Attrib): nat {
    if source == [] then 0
    else CopyableCount(source[..|source| - 1]) + if ManifestCopyable(source[|source| - 1].0) then 1 else 0
  }

  /** After the copy, a copyable name the source has carries the source value
      (overwriting the target); every other name keeps the target value. */
  lemma {:induction false} CopyManifestGet(target: Attrib, source: Attrib, name: string)
    requires DistinctNames(source)
    ensures Get(CopyManifestAttrs(target, source), name)
      == if ManifestCopyable(name) && Get(source, name).Some? then Get(source, name) else Get(target, name)
    decreases |source|
  {
    if source != [] {
      var (n, v) := source[0];
      var t := if ManifestCopyable(n) then Set(target, n, v) else target;
      FirstNameUnique(source);
      CopyManifestGet(t, source[1..], name);
      if ManifestCopyable(n) {
        GetSet(target, n, v, name);
      }
    }
  }

  /** `_copy_manifest_attributes(target, source)`. */
  method CopyManifestAttributes(target: Element, source: Element) returns (merged: Element, copied: nat)
    ensures merged == target.(attrib := CopyManifestAttrs(target.attrib, source.attrib))
    ensures copied == CopyableCount(source.attrib)
  {
    merged := target;
    copied := 0;
    var items := source.attrib;
    assert items[0..] == items;
    for i := 0 to |items|
      invariant CopyManifestAttrs(merged.attrib, items[i..]) == CopyManifestAttrs(target.attrib, items)
      invariant merged == target.(attrib := merged.attrib)
      invariant copied == CopyableCount(items[..i])
    {
      var (name, value) := items[i];
      assert items[i..][1..] == items[i + 1..];
      assert items[..i + 1][..i] == items[..i];
      if name != "package" && !StartsWith(name, "xmlns:") {
        merged := merged.(attrib := Set(merged.attrib, name, value));
        copied := copied + 1;
      }
    }
    assert items[..|items|] == items;
  }

  // ---------------------------------------------------------------------------
  // `_copy_application_attributes`: only the attributes the target lacks
  // ---------------------------------------------------------------------------

  function CopyAbsentAttrs(target: Attrib, source: Attrib): Attrib
    decreases |source|
  {
    if source == [] then target
    else
      var (name, value) := source[0];
      CopyAbsentAttrs(if Get(target, name).None? then Set(target, name, value) else target, source[1..])
  }

  /** How many source entries the copy adds. */
  function AbsentCount(target: Attrib, source: Attrib): nat
    decreases |source|
  {
    if source == [] then 0
    else
      var (name, value) := source[0];
      if Get(target, name).None? then 1 + AbsentCount(Set(target, name, value), source[1..])
      else AbsentCount(target, source[1..])
  }

  /** A name the target has keeps its value; any other takes the source value. */
  lemma {:induction false} CopyAbsentGet(target: Attrib, source: Attrib, name: string)
    ensures Get(CopyAbsentAttrs(target, source), name)
      == if Get(target, name).Some? then Get(target, name) else Get(source, name)
    decreases |source|
  {
    if source != [] {
      var (n, v) := source[0];
      var t := if Get(target, n).None? then Set(target, n, v) else target;
      CopyAbsentGet(t, source[1..], name);
      if Get(target, n).None? {
        GetSet(target, n, v, name);
      }
    }
  }

  /** The count is the number of entries the target gained. */
  lemma {:induction false} CopyAbsentSize(target: Attrib, source: Attrib)
    ensures |CopyAbsentAttrs(target, source)| == |target| + AbsentCount(target, source)
    decreases |source|
  {
    if source != [] {
      var (n, v) := source[0];
      var t := if Get(target, n).None? then Set(target, n, v) else target;
      CopyAbsentSize(t, source[1..]);
    }
  }

  /** `_copy_application_attributes(target, source)`. */
  method CopyApplicationAttributes(target: Element, source: Element) returns (merged: Element, copied: nat)
    ensures merged == target.(attrib := CopyAbsentAttrs(target.attrib, source.attrib))
    ensures copied == AbsentCount(target.attrib, source.attrib)
  {
    merged := target;
    copied := 0;
    var items := source.attrib;
    assert items[0..] == items;
    for i := 0 to |items|
      invariant CopyAbsentAttrs(merged.attrib, items[i..]) == CopyAbsentAttrs(target.attrib, items)
      invariant copied + AbsentCount(merged.attrib, items[i..]) == AbsentCount(target.attrib, items)
      invariant merged == target.(attrib := merged.attrib)
    {
      var (name, value) := items[i];
      assert items[i..][1..] == items[i + 1..];
      if Get(merged.attrib, name).None? {
        merged := merged.(attrib := Set(merged.attrib, name, value));
        copied := copied + 1;
      }
    }
  }

  // ---------------------------------------------------------------------------
  // Lookups by name: `e.get(android:name) or e.get("name")`
  // ---------------------------------------------------------------------------

  /** `e` answers to `name` under that lookup. */
  predicate Named(e: Element, name: string) {
    var n := NameOf(e);
    n.Some? && n.value == name
  }

  predicate ExistsNamed(es: seq<Element>, name: string) {
    exists i :: 0 <= i < |es| && Named(es[i], name)
  }

  lemma ExistsNamedConcat(a: seq<Element>, b: seq<Element>, name: string)
    ensures ExistsNamed(a + b, name) <==> ExistsNamed(a, name) || ExistsNamed(b, name)
  {
    if ExistsNamed(a, name) {
      var i :| 0 <= i < |a| && Named(a[i], name);
      assert (a + b)[i] == a[i];
    }
    if ExistsNamed(b, name) {
      var i :| 0 <= i < |b| && Named(b[i], name);
      assert (a + b)[|a| + i] == b[i];
    }
    if ExistsNamed(a + b, name) {
      var i :| 0 <= i < |a + b| && Named((a + b)[i], name);
      if i >= |a| {
        assert b[i - |a|] == (a + b)[i];
      } else {
        assert a[i] == (a + b)[i];
      }
    }
  }

  /** `_permission_exists`, `_feature_exists`, `_element_exists`, `_has_category`
      and `_has_action`: a loop that returns at the first element with the name. */
  method NamedAmong(es: seq<Element>, name: string) returns (found: bool)
    ensures found == ExistsNamed(es, name)
  {
    for i := 0 to |es|
      invariant forall k :: 0 <= k < i ==> !Named(es[k], name)
    {
      var n := NameOf(es[i]);
      if n.Some? && n.value == name {
        return true;
      }
    }
    return false;
  }

  // ---------------------------------------------------------------------------
  // `_merge_permissions` and `_merge_features`
  // ---------------------------------------------------------------------------

  /** The target after the loop over `items`: a named item is appended when no
      `tag` child of the target, as it stands at that point, has its name; an
      unnamed one is appended only when `keepUnnamed`. */
  function MergeUses(target: Element, items: seq<Element>, tag: string, keepUnnamed: bool): Element
    decreases |items|
  {
    if items == [] then target
    else
      var item := items[0];
      var add := if HasName(item) then !ExistsNamed(Tagged(target.children, tag), NameOf(item).value) else keepUnnamed;
      MergeUses(if add then target.(children := target.children + [item]) else target, items[1..], tag, keepUnnamed)
  }

  /** `_merge_permissions` (tag `uses-permission`, unnamed items skipped) and
      `_merge_features` (tag `uses-feature`, unnamed items always appended):
      the source's direct `tag` children in order, with the number appended. */
  method MergeUsesElements(target: Element, source: Element, tag: string, keepUnnamed: bool)
    returns (merged: Element, added: int)
    ensures merged == MergeUses(target, FindChildren(source, tag), tag, keepUnnamed)
    ensures added == |merged.children| - |target.children|
  {
    var items := FindChildren(source, tag);
    merged := target;
    added := 0;
    assert items[0..] == items;
    for i := 0 to |items|
      invariant MergeUses(merged, items[i..], tag, keepUnnamed) == MergeUses(target, items, tag, keepUnnamed)
      invariant added == |merged.children| - |target.children|
    {
      var item := items[i];
      assert items[i..][1..] == items[i + 1..];
      var name := NameOf(item);
      if name.Some? && name.value != "" {
        var present := NamedAmong(FindChildren(merged, tag), name.value);
        if !present {
          merged := merged.(children := merged.children + [item]);
          added := added + 1;
        }
      } else if keepUnnamed {
        merged := merged.(children := merged.children + [item]);
        added := added + 1;
      }
    }
  }

  /** Filtering a list with one more element. */
  lemma TaggedSnoc(es: seq<Element>, x: Element, tag: string)
    ensures Tagged(es + [x], tag) == Tagged(es, tag) + if x.tag == tag then [x] else []
  {
    TaggedConcat(es, [x], tag);
    assert Tagged([x], tag) == (if x.tag == tag then [x] else []) + Tagged([], tag);
  }

  /** The merge only appends, and what it appends comes from `items`. */
  lemma {:induction false} MergeUsesAppends(target: Element, items: seq<Element>, tag: string, keepUnnamed: bool)
    ensures var r := MergeUses(target, items, tag, keepUnnamed);
      r == target.(children := r.children)
      && |target.children| <= |r.children| && r.children[..|target.children|] == target.children
      && forall k :: |target.children| <= k < |r.children| ==> r.children[k] in items && (HasName(r.children[k]) || keepUnnamed)
    decreases |items|
  {
    if items != [] {
      var item := items[0];
      var add := if HasName(item) then !ExistsNamed(Tagged(target.children, tag), NameOf(item).value) else keepUnnamed;
      var t := if add then target.(children := target.children + [item]) else target;
      MergeUsesAppends(t, items[1..], tag, keepUnnamed);
      var r := MergeUses(t, items[1..], tag, keepUnnamed);
      assert r.children[..|target.children|] == r.children[..|t.children|][..|target.children|];
      forall k | |target.children| <= k < |r.children|
        ensures r.children[k] in items && (HasName(r.children[k]) || keepUnnamed)
      {
        if k < |t.children| {
          assert r.children[k] == t.children[k] == item;
        } else {
          assert r.children[k] in items[1..];
        }
      }
    }
  }

  /** A name present among the target's `query` children stays present. */
  lemma {:induction false} MergeUsesKeeps(target: Element, items: seq<Element>, tag: string, keepUnnamed: bool, query: string, name: string)
    requires ExistsNamed(Tagged(target.children, query), name)
    ensures ExistsNamed(Tagged(MergeUses(target, items, tag, keepUnnamed).children, query), name)
    decreases |items|
  {
    if items != [] {
      var item := items[0];
      var add := if HasName(item) then !ExistsNamed(Tagged(target.children, tag), NameOf(item).value) else keepUnnamed;
      if add {
        var t := target.(children := target.children + [item]);
        TaggedSnoc(target.children, item, query);
        ExistsNamedConcat(Tagged(target.children, query), if item.tag == query then [item] else [], name);
        MergeUsesKeeps(t, items[1..], tag, keepUnnamed, query, name);
      } else {
        MergeUsesKeeps(target, items[1..], tag, keepUnnamed, query, name);
      }
    }
  }

  /** Every named `tag` item ends up among the target's `tag` children. */
  lemma {:induction false} MergeUsesComplete(target: Element, items: seq<Element>, tag: string, keepUnnamed: bool, i: nat)
    requires i < |items| && items[i].tag == tag && HasName(items[i])
    ensures ExistsNamed(Tagged(MergeUses(target, items, tag, keepUnnamed).children, tag), NameOf(items[i]).value)
    decreases |items|
  {
    var item := items[0];
    var add := if HasName(item) then !ExistsNamed(Tagged(target.children, tag), NameOf(item).value) else keepUnnamed;
    var t := if add then target.(children := target.children + [item]) else target;
    if i == 0 {
      var name := NameOf(item).value;
      if add {
        TaggedSnoc(target.children, item, tag);
        ExistsNamedConcat(Tagged(target.children, tag), [item], name);
        assert [item][0] == item;
      }
      MergeUsesKeeps(t, items[1..], tag, keepUnnamed, tag, name);
    } else {
      MergeUsesComplete(t, items[1..], tag, keepUnnamed, i - 1);
    }
  }

  /** No two named elements share a name. */
  predicate UniquelyNamed(es: seq<Element>) {
    forall i, j :: 0 <= i < j < |es| && HasName(es[i]) ==> !Named(es[j], NameOf(es[i]).value)
  }

  lemma UniquelyNamedSnoc(es: seq<Element>, x: Element)
    requires UniquelyNamed(es)
    requires HasName(x) ==> !ExistsNamed(es, NameOf(x).value)
    ensures UniquelyNamed(es + [x])
  {
    var r := es + [x];
    forall i, j | 0 <= i < j < |r| && HasName(r[i])
      ensures !Named(r[j], NameOf(r[i]).value)
    {
      assert r[i] == es[i];
    }
  }

  /** Duplicates within the source are appended once: a target whose `tag`
      children have distinct names keeps that property. */
  lemma {:induction false} MergeUsesUnique(target: Element, items: seq<Element>, tag: string, keepUnnamed: bool)
    requires UniquelyNamed(Tagged(target.children, tag))
    ensures UniquelyNamed(Tagged(MergeUses(target, items, tag, keepUnnamed).children, tag))
    decreases |items|
  {
    if items != [] {
      var item := items[0];
      var add := if HasName(item) then !ExistsNamed(Tagged(target.children, tag), NameOf(item).value) else keepUnnamed;
      if add {
        var t := target.(children := target.children + [item]);
        TaggedSnoc(target.children, item, tag);
        if item.tag == tag {
          UniquelyNamedSnoc(Tagged(target.children, tag), item);
        } else {
          assert Tagged(t.children, tag) == Tagged(target.children, tag);
        }
        MergeUsesUnique(t, items[1..], tag, keepUnnamed);
      } else {
        MergeUsesUnique(target, items[1..], tag, keepUnnamed);
      }
    }
  }

  /** The number of unnamed elements. */
  function UnnamedCount(es: seq<Element>): nat {
    if es == [] then 0 else (if HasName(es[0]) then 0 else 1) + UnnamedCount(es[1..])
  }

  lemma {:induction false} UnnamedCountSnoc(es: seq<Element>, x: Element)
    ensures UnnamedCount(es + [x]) == UnnamedCount(es) + if HasName(x) then 0 else 1
    decreases |es|
  {
    if es == [] {
      assert [x][1..] == [];
    } else {
      UnnamedCountSnoc(es[1..], x);
      assert (es + [x])[1..] == es[1..] + [x];
    }
  }

  /** Every unnamed item is appended when `keepUnnamed` (features) and none
      otherwise (permissions). */
  lemma {:induction false} MergeUsesUnnamed(target: Element, items: seq<Element>, tag: string, keepUnnamed: bool)
    ensures UnnamedCount(MergeUses(target, items, tag, keepUnnamed).children)
      == UnnamedCount(target.children) + if keepUnnamed then UnnamedCount(items) else 0
    decreases |items|
  {
    if items != [] {
      var item := items[0];
      var add := if HasName(item) then !ExistsNamed(Tagged(target.children, tag), NameOf(item).value) else keepUnnamed;
      var t := if add then target.(children := target.children + [item]) else target;
      if add {
        UnnamedCountSnoc(target.children, item);
      }
      MergeUsesUnnamed(t, items[1..], tag, keepUnnamed);
    }
  }

  // ---------------------------------------------------------------------------
  // `_find_with_ns`, `_extract_tag_name` and `_merge_application_elements`
  // ---------------------------------------------------------------------------

  /** `tag` is the plain or the Android-namespaced spelling of `local`. */
  predicate IsTag(tag: string, local: string) {
    tag == local || tag == NsName(local)
  }

  /** `_find_with_ns(element, tag)`: the namespaced descendants, then the plain
      ones. The two lists never share an element position, so the identity-based
      de-duplication leaves the list as it is. */
  function FindWithNs(e: Element, tag: string): seq<Element> {
    FindDescendants(e, NsName(tag)) + FindDescendants(e, tag)
  }

  /** `_extract_tag_name(tag)`: the part after the first `}`, or the whole tag. */
  function ExtractTagName(tag: string): (r: string)
    ensures '}' !in tag ==> r == tag
    ensures '}' in tag ==> exists p :: 0 <= p < |tag| && tag[p] == '}' && '}' !in tag[..p] && r == tag[p + 1..]
  {
    if '}' in tag then
      var p := IndexOrEnd(tag, '}');
      assert '}' !in tag[..p] by {
        forall c | c in tag[..p] ensures c != '}' {
          var j :| 0 <= j < p && tag[..p][j] == c;
        }
      }
      tag[p + 1..]
    else tag
  }

  /** The Android namespace contains no `}`. */
  lemma NamespaceWithoutBrace()
    ensures '}' !in ANDROID_NS
  {
  }

  /** A namespaced name loses exactly its namespace. */
  lemma ExtractNsName(local: string)
    ensures ExtractTagName(NsName(local)) == local
  {
    var tag := NsName(local);
    var p := |ANDROID_NS| + 1;
    NamespaceWithoutBrace();
    assert tag[p] == '}';
    assert tag[..p] == "{" + ANDROID_NS;
    assert tag[p + 1..] == local;
    var r := ExtractTagName(tag);
  }

  const COMPONENT_TAGS: set<string> := {"activity", "service", "receiver", "provider", "meta-data"}

  /** The five component tags have no `}`, so a component tag names itself. */
  lemma ComponentTagPlain(t: string)
    requires t in COMPONENT_TAGS
    ensures '}' !in t && ExtractTagName(t) == t
  {
  }

  /** The target application after the loop over the source application's
      children: a named child whose local tag is a component tag is appended
      when no element found by `_find_with_ns` under that tag has its name. */
  function MergeComponents(target: Element, items: seq<Element>): Element
    decreases |items|
  {
    if items == [] then target
    else
      var item := items[0];
      var local := ExtractTagName(item.tag);
      var add := local in COMPONENT_TAGS && HasName(item) && !ExistsNamed(FindWithNs(target, local), NameOf(item).value);
      MergeComponents(if add then target.(children := target.children + [item]) else target, items[1..])
  }

  /** `_merge_application_elements(target_app, source_app)`. */
  method MergeApplicationElements(target: Element, source: Element) returns (merged: Element, added: int)
    ensures merged == MergeComponents(target, source.children)
    ensures added == |merged.children| - |target.children|
  {
    var items := source.children;
    merged := target;
    added := 0;
    assert items[0..] == items;
    for i := 0 to |items|
      invariant MergeComponents(merged, items[i..]) == MergeComponents(target, items)
      invariant added == |merged.children| - |target.children|
    {
      var child := items[i];
      assert items[i..][1..] == items[i + 1..];
      var local := ExtractTagName(child.tag);
      if local in COMPONENT_TAGS {
        var name := NameOf(child);
        if name.Some? && name.value != "" {
          var present := NamedAmong(FindWithNs(merged, local), name.value);
          if !present {
            merged := merged.(children := merged.children + [child]);
            added := added + 1;
          }
        }
      }
    }
  }

  /** Appending a child keeps every element `_find_with_ns` found, and adds the
      child itself when its tag is `local` in either spelling. */
  lemma FindWithNsAppend(e: Element, c: Element, local: string, name: string)
    ensures var e' := e.(children := e.children + [c]);
      (ExistsNamed(FindWithNs(e, local), name) ==> ExistsNamed(FindWithNs(e', local), name))
      && (IsTag(c.tag, local) && Named(c, name) ==> ExistsNamed(FindWithNs(e', local), name))
  {
    var e' := e.(children := e.children + [c]);
    var tail := [c] + Descendants(c);
    DescendantsFromAppend(e, c, 0);
    assert Descendants(e') == Descendants(e) + tail;
    TaggedConcat(Descendants(e), tail, NsName(local));
    TaggedConcat(Descendants(e), tail, local);
    TaggedConcat([c], Descendants(c), NsName(local));
    TaggedConcat([c], Descendants(c), local);
    var ns := FindDescendants(e, NsName(local));
    var plain := FindDescendants(e, local);
    var nsTail := Tagged(tail, NsName(local));
    var plainTail := Tagged(tail, local);
    assert FindWithNs(e', local) == (ns + nsTail) + (plain + plainTail);
    ExistsNamedConcat(ns + nsTail, plain + plainTail, name);
    ExistsNamedConcat(ns, nsTail, name);
    ExistsNamedConcat(plain, plainTail, name);
    ExistsNamedConcat(ns, plain, name);
    if IsTag(c.tag, local) && Named(c, name) {
      assert Tagged([c], c.tag) == [c] + Tagged([], c.tag);
      ExistsNamedConcat(Tagged([c], c.tag), Tagged(Descendants(c), c.tag), name);
      assert Named(Tagged([c], c.tag)[0], name);
    }
  }

  /** A name `_find_with_ns` finds under `local` stays found. */
  lemma {:induction false} MergeComponentsKeeps(target: Element, items: seq<Element>, local: string, name: string)
    requires ExistsNamed(FindWithNs(target, local), name)
    ensures ExistsNamed(FindWithNs(MergeComponents(target, items), local), name)
    decreases |items|
  {
    if items != [] {
      var item := items[0];
      var l := ExtractTagName(item.tag);
      var add := l in COMPONENT_TAGS && HasName(item) && !ExistsNamed(FindWithNs(target, l), NameOf(item).value);
      if add {
        FindWithNsAppend(target, item, local, name);
        MergeComponentsKeeps(target.(children := target.children + [item]), items[1..], local, name);
      } else {
        MergeComponentsKeeps(target, items[1..], local, name);
      }
    }
  }

  /** Every named source component in the plain or the Android spelling of its
      tag is found under that tag in the merged application. (A component in
      another namespace is appended too, but `_find_with_ns` does not see it.) */
  lemma {:induction false} MergeComponentsComplete(target: Element, items: seq<Element>, i: nat, local: string)
    requires i < |items| && local in COMPONENT_TAGS && IsTag(items[i].tag, local) && HasName(items[i])
    ensures ExistsNamed(FindWithNs(MergeComponents(target, items), local), NameOf(items[i]).value)
    decreases |items|
  {
    var item := items[0];
    var l := ExtractTagName(item.tag);
    var add := l in COMPONENT_TAGS && HasName(item) && !ExistsNamed(FindWithNs(target, l), NameOf(item).value);
    var t := if add then target.(children := target.children + [item]) else target;
    if i == 0 {
      ComponentTagPlain(local);
      if item.tag != local {
        ExtractNsName(local);
      }
      assert l == local;
      var name := NameOf(item).value;
      if add {
        FindWithNsAppend(target, item, local, name);
      }
      MergeComponentsKeeps(t, items[1..], local, name);
    } else {
      MergeComponentsComplete(t, items[1..], i - 1, local);
    }
  }

  /** The merge only appends, and only named source children with a component tag. */
  lemma {:induction false} MergeComponentsAppends(target: Element, items: seq<Element>)
    ensures var r := MergeComponents(target, items);
      r == target.(children := r.children)
      && |target.children| <= |r.children| && r.children[..|target.children|] == target.children
      && forall k :: |target.children| <= k < |r.children| ==>
           r.children[k] in items && HasName(r.children[k]) && ExtractTagName(r.children[k].tag) in COMPONENT_TAGS
    decreases |items|
  {
    if items != [] {
      var item := items[0];
      var l := ExtractTagName(item.tag);
      var add := l in COMPONENT_TAGS && HasName(item) && !ExistsNamed(FindWithNs(target, l), NameOf(item).value);
      var t := if add then target.(children := target.children + [item]) else target;
      MergeComponentsAppends(t, items[1..]);
      var r := MergeComponents(t, items[1..]);
      assert r.children[..|target.children|] == r.children[..|t.children|][..|target.children|];
      forall k | |target.children| <= k < |r.children|
        ensures r.children[k] in items && HasName(r.children[k]) && ExtractTagName(r.children[k].tag) in COMPONENT_TAGS
      {
        if k < |t.children| {
          assert r.children[k] == t.children[k] == item;
        } else {
          assert r.children[k] in items[1..];
        }
      }
    }
  }

  // ---------------------------------------------------------------------------
  // `_is_launcher_filter` and `_remove_launcher_filters`
  // ---------------------------------------------------------------------------

  /** An intent filter with a LAUNCHER category and a MAIN action anywhere below
      it, in either spelling, named through the `or "name"` fallback. */
  predicate LauncherFilter(f: Element) {
    ExistsNamed(FindWithNs(f, "category"), LAUNCHER_CATEGORY) && ExistsNamed(FindWithNs(f, "action"), MAIN_ACTION)
  }

  /** `_is_launcher_filter(intent_filter)`. */
  method IsLauncherFilter(f: Element) returns (b: bool)
    ensures b == LauncherFilter(f)
  {
    var hasLauncher := NamedAmong(FindWithNs(f, "category"), LAUNCHER_CATEGORY);
    var hasMain := NamedAmong(FindWithNs(f, "action"), MAIN_ACTION);
    return hasLauncher && hasMain;
  }

  /** A child of an activity that the removal drops. */
  predicate Removable(c: Element) {
    IsTag(c.tag, "intent-filter") && LauncherFilter(c)
  }

  /** The children an activity keeps, in order. */
  function KeepNonLaunchers(cs: seq<Element>): (r: seq<Element>)
    ensures |r| <= |cs|
    ensures forall k :: 0 <= k < |r| ==> !Removable(r[k])
  {
    if cs == [] then []
    else (if Removable(cs[0]) then [] else [cs[0]]) + KeepNonLaunchers(cs[1..])
  }

  /** Exactly the children that are not launcher intent filters are kept. */
  lemma {:induction false} KeepNonLaunchersMembers(cs: seq<Element>, x: Element)
    ensures x in KeepNonLaunchers(cs) <==> x in cs && !Removable(x)
    decreases |cs|
  {
    if cs != [] {
      KeepNonLaunchersMembers(cs[1..], x);
      assert cs == [cs[0]] + cs[1..];
    }
  }

  /** One step of the loop below. */
  lemma KeepStep(cs: seq<Element>, i: nat, launcher: bool)
    requires i < |cs| && launcher == Removable(cs[i])
    ensures KeepNonLaunchers(cs[i..]) == (if launcher then [] else [cs[i]]) + KeepNonLaunchers(cs[i + 1..])
  {
    assert cs[i..][1..] == cs[i + 1..];
  }

  /** `_remove_launcher_from_activity(activity)`: the launcher intent filters
      among the activity's children are removed and counted. */
  method RemoveLauncherFromActivity(activity: Element) returns (cleaned: Element, removed: int)
    ensures cleaned == activity.(children := KeepNonLaunchers(activity.children))
    ensures removed == |activity.children| - |cleaned.children|
  {
    var cs := activity.children;
    var kept: seq<Element> := [];
    removed := 0;
    assert cs[0..] == cs;
    for i := 0 to |cs|
      invariant kept + KeepNonLaunchers(cs[i..]) == KeepNonLaunchers(cs)
      invariant removed == i - |kept|
    {
      var f := cs[i];
      var launcher := false;
      if IsTag(f.tag, "intent-filter") {
        launcher := IsLauncherFilter(f);
      }
      KeepStep(cs, i, launcher);
      ghost var rest := KeepNonLaunchers(cs[i + 1..]);
      if launcher {
        assert KeepNonLaunchers(cs[i..]) == rest;
        removed := removed + 1;
      } else {
        assert KeepNonLaunchers(cs[i..]) == [f] + rest;
        assert (kept + [f]) + rest == kept + ([f] + rest);
        kept := kept + [f];
      }
    }
    cleaned := activity.(children := kept);
  }

  /** The tree with every activity's launcher intent filters removed, below
      and including `e`. */
  function StripLaunchers(e: Element): (r: Element)
    ensures r.tag == e.tag && r.attrib == e.attrib
    decreases e, 1
  {
    var cs := StripFrom(e, 0);
    e.(children := if IsTag(e.tag, "activity") then KeepNonLaunchers(cs) else cs)
  }

  /** The stripped children of `e` from index `i` on. */
  function StripFrom(e: Element, i: nat): (r: seq<Element>)
    requires i <= |e.children|
    ensures |r| == |e.children| - i
    decreases e, 0, |e.children| - i
  {
    if i == |e.children| then []
    else [StripLaunchers(e.children[i])] + StripFrom(e, i + 1)
  }

  /** `_remove_launcher_filters(application)`: every activity below the
      application loses its launcher intent filters. */
  function RemoveLauncherFilters(application: Element): Element {
    application.(children := StripFrom(application, 0))
  }

  /** No activity in the tree keeps a launcher intent filter as a child. */
  predicate NoLauncherLeft(e: Element)
    decreases e
  {
    (IsTag(e.tag, "activity") ==> forall k :: 0 <= k < |e.children| ==> !Removable(e.children[k]))
    && forall k :: 0 <= k < |e.children| ==> NoLauncherLeft(e.children[k])
  }

  predicate AllWithoutLaunchers(es: seq<Element>) {
    forall k :: 0 <= k < |es| ==> NoLauncherLeft(es[k])
  }

  lemma {:induction false} KeepAllWithoutLaunchers(cs: seq<Element>)
    requires AllWithoutLaunchers(cs)
    ensures AllWithoutLaunchers(KeepNonLaunchers(cs))
    decreases |cs|
  {
    if cs != [] {
      KeepAllWithoutLaunchers(cs[1..]);
      var head := if Removable(cs[0]) then [] else [cs[0]];
      assert AllWithoutLaunchers(head);
    }
  }

  lemma {:induction false} StripLaunchersClean(e: Element)
    ensures NoLauncherLeft(StripLaunchers(e))
    decreases e, 1
  {
    var cs := StripFrom(e, 0);
    StripFromClean(e, 0);
    if IsTag(e.tag, "activity") {
      KeepAllWithoutLaunchers(cs);
    }
  }

  lemma {:induction false} StripFromClean(e: Element, i: nat)
    requires i <= |e.children|
    ensures AllWithoutLaunchers(StripFrom(e, i))
    decreases e, 0, |e.children| - i
  {
    if i < |e.children| {
      StripLaunchersClean(e.children[i]);
      StripFromClean(e, i + 1);
      var r := StripFrom(e, i);
      assert r == [StripLaunchers(e.children[i])] + StripFrom(e, i + 1);
      assert forall k :: 0 < k < |r| ==> r[k] == StripFrom(e, i + 1)[k - 1];
    }
  }

  /** After the removal no activity of the application keeps a launcher filter. */
  lemma RemoveLauncherFiltersClean(application: Element)
    ensures forall k :: 0 <= k < |application.children| ==> NoLauncherLeft(RemoveLauncherFilters(application).children[k])
  {
    StripFromClean(application, 0);
  }

  // ---------------------------------------------------------------------------
  // `_get_application_element`, `_update_package` and `update`
  // ---------------------------------------------------------------------------

  /** `root.find(tag)` for a plain or namespaced tag: the first direct child
      with that tag, as an index. */
  function FindChild(root: Element, tag: string): (r: Option<nat>)
    ensures r.Some? ==> r.value < |root.children| && root.children[r.value].tag == tag
    ensures r.Some? ==> forall k :: 0 <= k < r.value ==> root.children[k].tag != tag
    ensures r.None? ==> forall k :: 0 <= k < |root.children| ==> root.children[k].tag != tag
  {
    FindChildFrom(root.children, tag, 0)
  }

  function FindChildFrom(cs: seq<Element>, tag: string, i: nat): (r: Option<nat>)
    requires i <= |cs|
    ensures r.Some? ==> i <= r.value < |cs| && cs[r.value].tag == tag
    ensures r.Some? ==> forall k :: i <= k < r.value ==> cs[k].tag != tag
    ensures r.None? ==> forall k :: i <= k < |cs| ==> cs[k].tag != tag
    decreases |cs| - i
  {
    if i == |cs| then None
    else if cs[i].tag == tag then Some(i)
    else FindChildFrom(cs, tag, i + 1)
  }

  /** An ElementTree element is truthy exactly when it has children. */
  predicate Truthy(e: Element) {
    |e.children| > 0
  }

  /** `_get_application_element` followed by the `not app` test of `update`, as
      written: `or` and `not` test the element's truthiness, so an application
      element without children counts as missing. */
  function ApplicationAsWritten(root: Element): (r: Option<nat>)
    ensures r.Some? ==> r.value < |root.children| && Truthy(root.children[r.value])
  {
    var plain := FindChild(root, "application");
    var found :=
      if plain.Some? then plain
      else
        var ns := FindChild(root, NsName("application"));
        if ns.Some? && Truthy(root.children[ns.value]) then ns else None;
    if found.Some? && Truthy(root.children[found.value]) then found else None
  }

  /** The lookup as intended: the first plain `application` child, otherwise
      the first namespaced one, whatever their content. */
  function ApplicationIndex(root: Element): (r: Option<nat>)
    ensures r.Some? ==> r.value < |root.children| && IsTag(root.children[r.value].tag, "application")
    ensures r.None? <==> forall k :: 0 <= k < |root.children| ==> !IsTag(root.children[k].tag, "application")
  {
    var plain := FindChild(root, "application");
    if plain.Some? then plain else FindChild(root, NsName("application"))
  }

  /** The two lookups agree on applications with children; an empty
      `<application/>` is missing as written and found as intended. */
  lemma ApplicationLookups(root: Element)
    ensures ApplicationAsWritten(root).Some? ==> ApplicationAsWritten(root) == ApplicationIndex(root)
    ensures var i := ApplicationIndex(root);
      i.Some? && Truthy(root.children[i.value]) ==> ApplicationAsWritten(root) == i
  {
  }

  /** A manifest whose application element carries only attributes. */
  lemma EmptyApplicationRejected()
    ensures var root := Element("manifest", [], [Element("application", [("android:label", "App")], [])]);
      ApplicationAsWritten(root).None? && ApplicationIndex(root) == Some(0)
  {
    var root := Element("manifest", [], [Element("application", [("android:label", "App")], [])]);
    assert root.children[0].tag == "application";
  }

  /** Which of the two application lookups an update uses. */
  datatype AppLookup = AsWritten | AsIntended

  function FindApplication(root: Element, how: AppLookup): (r: Option<nat>)
    ensures r.Some? ==> r.value < |root.children| && IsTag(root.children[r.value].tag, "application")
  {
    match how
    case AsWritten => ApplicationLookups(root); ApplicationAsWritten(root)
    case AsIntended => ApplicationIndex(root)
  }

  /** `_extract_old_package`: `root.get("package", "")`. */
  function OldPackage(root: Element): (r: string)
    ensures Get(root.attrib, "package").Some? ==> r == Get(root.attrib, "package").value
    ensures Get(root.attrib, "package").None? ==> r == ""
  {
    Get(root.attrib, "package").GetOr("")
  }

  const APPLICATION_MISSING := "Application tag not found in one of the manifests"

  /** What `update` leaves behind before serialisation: the merged tree, the
      old package, and whether the text-level package rewrite runs. */
  datatype Merged = Merged(root: Element, oldPackage: string, rewritesPackage: bool)

  /** The main application after `update`'s three steps on it: launcher
      filters removed, absent attributes copied, components merged. */
  function MergedApplication(app: Element, source: Element): Element {
    var stripped := RemoveLauncherFilters(app);
    MergeComponents(stripped.(attrib := CopyAbsentAttrs(stripped.attrib, source.attrib)), source.children)
  }

  /** `update(application_id)` on the parsed main and custom manifests, up to
      the serialisation, with the application lookup as written. */
  function Update(main: Element, custom: Element, applicationId: string): Result<Merged> {
    UpdateBy(main, custom, applicationId, AsWritten)
  }

  /** The same update with the intended application lookup. */
  function UpdateCorrected(main: Element, custom: Element, applicationId: string): Result<Merged> {
    UpdateBy(main, custom, applicationId, AsIntended)
  }

  function UpdateBy(main: Element, custom: Element, applicationId: string, how: AppLookup): Result<Merged> {
    var oldPackage := OldPackage(main);
    var r1 := main.(attrib := Set(main.attrib, "package", applicationId));
    var r2 := r1.(attrib := CopyManifestAttrs(r1.attrib, custom.attrib));
    var mi := FindApplication(r2, how);
    var ci := FindApplication(custom, how);
    if mi.None? || ci.None? then Err(Error(ValueError, APPLICATION_MISSING))
    else
      var app := MergedApplication(r2.children[mi.value], custom.children[ci.value]);
      var r3 := r2.(children := r2.children[mi.value := app]);
      var r4 := MergeUses(r3, FindChildren(custom, "uses-permission"), "uses-permission", false);
      var r5 := MergeUses(r4, FindChildren(custom, "uses-feature"), "uses-feature", true);
      Ok(Merged(r5, oldPackage, oldPackage != "" && oldPackage != applicationId))
  }

  /** An attribute the manifest copy skips keeps its target value. */
  lemma {:induction false} CopyManifestSkips(target: Attrib, source: Attrib, name: string)
    requires !ManifestCopyable(name)
    ensures Get(CopyManifestAttrs(target, source), name) == Get(target, name)
    decreases |source|
  {
    if source != [] {
      var (n, v) := source[0];
      var t := if ManifestCopyable(n) then Set(target, n, v) else target;
      CopyManifestSkips(t, source[1..], name);
      if ManifestCopyable(n) {
        GetSet(target, n, v, name);
      }
    }
  }

  /** `update` raises ValueError exactly when the lookup as written misses
      the application element of either manifest, that is when one has no
      application element with children. */
  lemma UpdateFails(main: Element, custom: Element, applicationId: string)
    ensures Update(main, custom, applicationId).Err? <==> ApplicationAsWritten(main).None? || ApplicationAsWritten(custom).None?
    ensures Update(main, custom, applicationId).Err? ==>
      Update(main, custom, applicationId).error == Error(ValueError, APPLICATION_MISSING)
  {
    var r1 := main.(attrib := Set(main.attrib, "package", applicationId));
    var r2 := r1.(attrib := CopyManifestAttrs(r1.attrib, custom.attrib));
    assert r2.children == main.children;
  }

  /** The corrected update fails exactly when either manifest has no
      application element at all. */
  lemma UpdateCorrectedFails(main: Element, custom: Element, applicationId: string)
    ensures UpdateCorrected(main, custom, applicationId).Err? <==> ApplicationIndex(main).None? || ApplicationIndex(custom).None?
    ensures UpdateCorrected(main, custom, applicationId).Err? ==>
      UpdateCorrected(main, custom, applicationId).error == Error(ValueError, APPLICATION_MISSING)
  {
    var r1 := main.(attrib := Set(main.attrib, "package", applicationId));
    var r2 := r1.(attrib := CopyManifestAttrs(r1.attrib, custom.attrib));
    assert r2.children == main.children;
  }

  /** A main manifest whose application element has no children: the update
      as written raises ValueError, the corrected one merges. */
  lemma EmptyApplicationUpdate()
    ensures var main := Element("manifest", [], [Element("application", [("android:label", "App")], [])]);
      var custom := Element("manifest", [], [Element("application", [], [Element("activity", [], [])])]);
      Update(main, custom, "com.example").Err? && UpdateCorrected(main, custom, "com.example").Ok?
  {
    var main := Element("manifest", [], [Element("application", [("android:label", "App")], [])]);
    var custom := Element("manifest", [], [Element("application", [], [Element("activity", [], [])])]);
    EmptyApplicationRejected();
    UpdateFails(main, custom, "com.example");
    UpdateCorrectedFails(main, custom, "com.example");
    assert custom.children[0].tag == "application";
  }

  /** Whenever the update as written succeeds, the corrected one gives the
      same result. */
  lemma UpdateCorrectedAgrees(main: Element, custom: Element, applicationId: string)
    ensures Update(main, custom, applicationId).Ok? ==> UpdateCorrected(main, custom, applicationId) == Update(main, custom, applicationId)
  {
    var r1 := main.(attrib := Set(main.attrib, "package", applicationId));
    var r2 := r1.(attrib := CopyManifestAttrs(r1.attrib, custom.attrib));
    assert r2.children == main.children;
    ApplicationLookups(main);
    ApplicationLookups(r2);
    ApplicationLookups(custom);
  }

  /** After `update` the package is the application id, and the text-level
      rewrite runs exactly when the old package is non-empty and different. */
  lemma UpdatePackage(main: Element, custom: Element, applicationId: string, how: AppLookup)
    requires UpdateBy(main, custom, applicationId, how).Ok?
    ensures var m := UpdateBy(main, custom, applicationId, how).value;
      Get(m.root.attrib, "package") == Some(applicationId)
      && m.oldPackage == OldPackage(main)
      && (m.rewritesPackage <==> OldPackage(main) != "" && OldPackage(main) != applicationId)
  {
    var r1 := main.(attrib := Set(main.attrib, "package", applicationId));
    var r2 := r1.(attrib := CopyManifestAttrs(r1.attrib, custom.attrib));
    GetSet(main.attrib, "package", applicationId, "package");
    CopyManifestSkips(r1.attrib, custom.attrib, "package");
    var mi := FindApplication(r2, how).value;
    var ci := FindApplication(custom, how).value;
    var r3 := r2.(children := r2.children[mi := MergedApplication(r2.children[mi], custom.children[ci])]);
    var r4 := MergeUses(r3, FindChildren(custom, "uses-permission"), "uses-permission", false);
    MergeUsesAppends(r3, FindChildren(custom, "uses-permission"), "uses-permission", false);
    MergeUsesAppends(r4, FindChildren(custom, "uses-feature"), "uses-feature", true);
  }

  /** The merged application keeps its tag and attributes, gains the custom
      attributes it lacked, and starts with its own children minus launcher
      filters, none of which keeps a launcher filter below an activity. */
  lemma MergedApplicationShape(app: Element, source: Element, name: string)
    ensures var a := MergedApplication(app, source);
      a.tag == app.tag
      && Get(a.attrib, name) == (if Get(app.attrib, name).Some? then Get(app.attrib, name) else Get(source.attrib, name))
      && |app.children| <= |a.children|
      && a.children[..|app.children|] == RemoveLauncherFilters(app).children
      && forall k :: 0 <= k < |app.children| ==> NoLauncherLeft(a.children[k])
  {
    var stripped := RemoveLauncherFilters(app);
    var withAttrs := stripped.(attrib := CopyAbsentAttrs(stripped.attrib, source.attrib));
    MergeComponentsAppends(withAttrs, source.children);
    CopyAbsentGet(app.attrib, source.attrib, name);
    RemoveLauncherFiltersClean(app);
    var a := MergedApplication(app, source);
    forall k | 0 <= k < |app.children| ensures NoLauncherLeft(a.children[k]) {
      assert a.children[k] == a.children[..|app.children|][k];
    }
  }

  /** Every named custom component, in the plain or the Android spelling of a
      component tag, is found under that tag in the merged application. */
  lemma MergedApplicationComplete(app: Element, source: Element, i: nat, local: string)
    requires i < |source.children| && local in COMPONENT_TAGS
    requires IsTag(source.children[i].tag, local) && HasName(source.children[i])
    ensures ExistsNamed(FindWithNs(MergedApplication(app, source), local), NameOf(source.children[i]).value)
  {
    var stripped := RemoveLauncherFilters(app);
    MergeComponentsComplete(stripped.(attrib := CopyAbsentAttrs(stripped.attrib, source.attrib)), source.children, i, local);
  }

  /** `update` replaces the main application by the merged one and leaves the
      other original children of the root in place. */
  lemma UpdateApplication(main: Element, custom: Element, applicationId: string, how: AppLookup)
    requires UpdateBy(main, custom, applicationId, how).Ok?
    ensures var root := UpdateBy(main, custom, applicationId, how).value.root;
      var mi := FindApplication(main, how).value;
      |main.children| <= |root.children|
      && root.children[mi] == MergedApplication(main.children[mi], custom.children[FindApplication(custom, how).value])
      && forall k :: 0 <= k < |main.children| && k != mi ==> root.children[k] == main.children[k]
  {
    var r1 := main.(attrib := Set(main.attrib, "package", applicationId));
    var r2 := r1.(attrib := CopyManifestAttrs(r1.attrib, custom.attrib));
    assert r2.children == main.children;
    var mi := FindApplication(r2, how).value;
    var ci := FindApplication(custom, how).value;
    var r3 := r2.(children := r2.children[mi := MergedApplication(r2.children[mi], custom.children[ci])]);
    var r4 := MergeUses(r3, FindChildren(custom, "uses-permission"), "uses-permission", false);
    MergeUsesAppends(r3, FindChildren(custom, "uses-permission"), "uses-permission", false);
    MergeUsesAppends(r4, FindChildren(custom, "uses-feature"), "uses-feature", true);
    var r5 := MergeUses(r4, FindChildren(custom, "uses-feature"), "uses-feature", true);
    forall k | 0 <= k < |main.children|
      ensures r5.children[k] == r3.children[k]
    {
      assert r5.children[k] == r5.children[..|r4.children|][k] == r4.children[k];
      assert r4.children[k] == r4.children[..|r3.children|][k];
    }
  }

  /** The elements `Tagged` selects carry the tag. */
  lemma {:induction false} TaggedTag(es: seq<Element>, tag: string, i: nat)
    requires i < |Tagged(es, tag)|
    ensures Tagged(es, tag)[i].tag == tag
    decreases |es|
  {
    var head := if es[0].tag == tag then [es[0]] else [];
    if i >= |head| {
      TaggedTag(es[1..], tag, i - |head|);
    }
  }

  /** Every named custom `uses-permission` and `uses-feature` child is present,
      by name, among the merged root's children with that tag. */
  lemma UpdateUses(main: Element, custom: Element, applicationId: string, how: AppLookup, tag: string, i: nat)
    requires UpdateBy(main, custom, applicationId, how).Ok?
    requires tag == "uses-permission" || tag == "uses-feature"
    requires i < |FindChildren(custom, tag)| && HasName(FindChildren(custom, tag)[i])
    ensures ExistsNamed(Tagged(UpdateBy(main, custom, applicationId, how).value.root.children, tag), NameOf(FindChildren(custom, tag)[i]).value)
  {
    var r1 := main.(attrib := Set(main.attrib, "package", applicationId));
    var r2 := r1.(attrib := CopyManifestAttrs(r1.attrib, custom.attrib));
    var mi := FindApplication(r2, how).value;
    var ci := FindApplication(custom, how).value;
    var r3 := r2.(children := r2.children[mi := MergedApplication(r2.children[mi], custom.children[ci])]);
    var perms := FindChildren(custom, "uses-permission");
    var features := FindChildren(custom, "uses-feature");
    var r4 := MergeUses(r3, perms, "uses-permission", false);
    var name := NameOf(FindChildren(custom, tag)[i]).value;
    TaggedTag(custom.children, tag, i);
    if tag == "uses-permission" {
      MergeUsesComplete(r3, perms, "uses-permission", false, i);
      MergeUsesKeeps(r4, features, "uses-feature", true, "uses-permission", name);
    } else {
      MergeUsesComplete(r4, features, "uses-feature", true, i);
    }
  }

  // ---------------------------------------------------------------------------
  // `_merge_string_resources`
  // ---------------------------------------------------------------------------

  const RESOURCES_CLOSING_TAG := "</resources>"
  const STRING_REF := "@string/"

  /** `@string/(\w+)` at `i`, with the name as its group. */
  function RefAt(s: string, i: nat): (r: Option<Match>)
    ensures r.Some? ==> OccursAt(s, STRING_REF, i) && i + |STRING_REF| < r.value.end <= |s|
    ensures r.Some? ==> forall k :: i + |STRING_REF| <= k < r.value.end ==> WordChar(s[k])
  {
    var n := i + |STRING_REF|;
    if OccursAt(s, STRING_REF, i) && n < |s| && WordChar(s[n]) then
      var e := WordEnd(s, n);
      Some(Match(e, s[n..e]))
    else None
  }

  /** `set(re.findall(r"@string/(?P<string_name>\w+)", custom_content))`. */
  function StringRefs(custom: string): set<string> {
    Groups(FindAllFrom(custom, RefAt, 0))
  }

  /** No reference starts inside another: `@` is neither in `string/` nor a
      word character. */
  lemma RefNotInside(s: string, i: nat, j: nat)
    requires RefAt(s, i).Some? && i < j < RefAt(s, i).value.end
    ensures RefAt(s, j).None?
  {
    if j < i + |STRING_REF| {
      assert s[j] == s[i..i + |STRING_REF|][j - i] == STRING_REF[j - i];
    } else {
      assert WordChar(s[j]);
    }
    assert s[j] != '@';
  }

  /** A reference at or after `i` is among the names `findall` collects from `i`. */
  lemma {:induction false} RefsFound(s: string, i: nat, j: nat)
    requires i <= j <= |s| && RefAt(s, j).Some?
    ensures RefAt(s, j).value.group in Groups(FindAllFrom(s, RefAt, i))
    decreases j - i
  {
    var r := RefAt(s, i);
    if r.Some? {
      var rest := FindAllFrom(s, RefAt, r.value.end);
      assert FindAllFrom(s, RefAt, i) == [r.value] + rest;
      if i < j {
        if j < r.value.end {
          RefNotInside(s, i, j);
        }
        RefsFound(s, r.value.end, j);
        var k :| 0 <= k < |rest| && rest[k].group == RefAt(s, j).value.group;
        assert ([r.value] + rest)[k + 1] == rest[k];
      } else {
        assert ([r.value] + rest)[0] == r.value;
      }
    } else {
      RefsFound(s, i + 1, j);
    }
  }

  /** The referenced names are exactly the word runs after the `@string/`
      occurrences. */
  lemma StringRefsExactly(custom: string, name: string)
    ensures name in StringRefs(custom) <==>
      exists j :: 0 <= j <= |custom| && RefAt(custom, j).Some? && RefAt(custom, j).value.group == name
  {
    if name in StringRefs(custom) {
      FindAllFromMatches(custom, RefAt, 0, name);
    }
    if exists j :: 0 <= j <= |custom| && RefAt(custom, j).Some? && RefAt(custom, j).value.group == name {
      var j :| 0 <= j <= |custom| && RefAt(custom, j).Some? && RefAt(custom, j).value.group == name;
      RefsFound(custom, 0, j);
    }
  }

  /** The first `c` at or after `i`, or `|s|`. */
  function CharFrom(s: string, i: nat, c: char): (j: nat)
    requires i <= |s|
    ensures i <= j <= |s|
    ensures forall k :: i <= k < j ==> s[k] != c
    ensures j < |s| ==> s[j] == c
    decreases |s| - i
  {
    if i < |s| && s[i] != c then CharFrom(s, i + 1, c) else i
  }

  /** Greedy `[^\s>]*` from `i`. */
  function BareValueEnd(s: string, i: nat): (j: nat)
    requires i <= |s|
    ensures i <= j <= |s|
    decreases |s| - i
  {
    if i < |s| && !IsSpace(s[i]) && s[i] != '>' then BareValueEnd(s, i + 1) else i
  }

  /** `<string\s+name=` at `i`: the index just past `name=`. */
  function StringNameAt(s: string, i: nat): (r: Option<nat>)
    ensures r.Some? ==> r.value <= |s|
  {
    if OccursAt(s, "<string", i) then
      var k := i + 7;
      var sp := SkipSpace(s, k);
      if sp > k && OccursAt(s, "name=", sp) then Some(sp + 5) else None
    else None
  }

  /** `<string\s+name="([^"]+)"` at `i`. */
  function QuotedNameAt(s: string, i: nat): Option<Match> {
    var v := StringNameAt(s, i);
    if v.Some? && CharAt(s, v.value, '"') then
      var q := CharFrom(s, v.value + 1, '"');
      if v.value + 1 < q < |s| then Some(Match(q + 1, s[v.value + 1..q])) else None
    else None
  }

  /** `<string\s+name=([^\s>]+)` at `i`. */
  function BareNameAt(s: string, i: nat): Option<Match> {
    var v := StringNameAt(s, i);
    if v.Some? then
      var e := BareValueEnd(s, v.value);
      if e > v.value then Some(Match(e, s[v.value..e])) else None
    else None
  }

  /** The keys of `existing_strings`: the quoted names, and the unquoted
      values with quote characters stripped from both ends. */
  function ExistingStrings(content: string): set<string> {
    Groups(FindAllFrom(content, QuotedNameAt, 0))
      + set g | g in Groups(FindAllFrom(content, BareNameAt, 0)) :: StripSet(g, {'"', '\''})
  }

  /** `string_name.replace("_", " ").title()`. */
  function DefaultValue(name: string): string {
    Title(ReplaceChar(name, '_', " "))
  }

  /** The element added for a missing name. */
  function StringLine(name: string): string {
    "    <string name=\"" + name + "\">" + DefaultValue(name) + "</string>"
  }

  function StringLines(names: seq<string>): (r: seq<string>)
    ensures |r| == |names|
    ensures forall k :: 0 <= k < |names| ==> r[k] == StringLine(names[k])
  {
    if names == [] then [] else [StringLine(names[0])] + StringLines(names[1..])
  }

  /** The order in which Python iterates a set. */
  type SetOrder = set<string> -> seq<string>

  /** An order lists every member of the set and nothing else. */
  ghost predicate ListsSets(order: SetOrder) {
    forall names: set<string>, x: string :: x in order(names) <==> x in names
  }

  function MissingStrings(strings: string, custom: string): set<string> {
    StringRefs(custom) - ExistingStrings(strings)
  }

  /** The text put in front of `</resources>`: each new element on its own line. */
  function Insertion(lines: seq<string>): string {
    "\n" + Join(lines, "\n") + "\n" + RESOURCES_CLOSING_TAG
  }

  /** What `_merge_string_resources` writes to `res/values/strings.xml`, given
      that file's text (None when it does not exist) and the custom manifest's
      text; None when it writes nothing. Every occurrence of `</resources>`
      gets the new elements in front of it, as `str.replace` does. */
  function MergeStringResources(strings: Option<string>, custom: string, order: SetOrder): Option<string> {
    if strings.None? || StringRefs(custom) == {} then None
    else
      var content := strings.value;
      var missing := MissingStrings(content, custom);
      if missing == {} then None
      else
        var lines := StringLines(order(missing));
        if Contains(content, RESOURCES_CLOSING_TAG) && lines != [] then
          Some(ReplaceAll(content, RESOURCES_CLOSING_TAG, Insertion(lines)))
        else Some(content)
  }

  /** The file is written exactly when it exists and some referenced name is
      missing from it; without `</resources>` it is written back unchanged. */
  lemma MergeStringsWrites(strings: Option<string>, custom: string, order: SetOrder)
    ensures MergeStringResources(strings, custom, order).Some? <==>
      strings.Some? && MissingStrings(strings.value, custom) != {}
    ensures strings.Some? && !Contains(strings.value, RESOURCES_CLOSING_TAG) && MergeStringResources(strings, custom, order).Some? ==>
      MergeStringResources(strings, custom, order).value == strings.value
  {
  }

  lemma InsertionContains(lines: seq<string>, k: nat)
    requires k < |lines|
    ensures Contains(Insertion(lines), lines[k])
  {
    JoinContains(lines, "\n", k);
    ContainsSuffix("\n", Join(lines, "\n"), lines[k]);
    ContainsPrefix("\n" + Join(lines, "\n"), "\n", lines[k]);
    ContainsPrefix("\n" + Join(lines, "\n") + "\n", RESOURCES_CLOSING_TAG, lines[k]);
  }

  /** With `</resources>` present and something to add, the new elements go in
      front of it. */
  lemma MergeStringsInserts(content: string, custom: string, order: SetOrder)
    requires Contains(content, RESOURCES_CLOSING_TAG)
    requires MissingStrings(content, custom) != {} && order(MissingStrings(content, custom)) != []
    ensures MergeStringResources(Some(content), custom, order) ==
      Some(ReplaceAll(content, RESOURCES_CLOSING_TAG, Insertion(StringLines(order(MissingStrings(content, custom))))))
  {
    assert StringRefs(custom) != {};
  }

  /** Each missing name gets its element, with the default value. */
  lemma MergeStringsAdds(content: string, custom: string, order: SetOrder, name: string)
    requires ListsSets(order)
    requires Contains(content, RESOURCES_CLOSING_TAG) && name in MissingStrings(content, custom)
    ensures MergeStringResources(Some(content), custom, order).Some?
    ensures Contains(MergeStringResources(Some(content), custom, order).value, StringLine(name))
  {
    var names := order(MissingStrings(content, custom));
    assert name in names;
    var k :| 0 <= k < |names| && names[k] == name;
    var lines := StringLines(names);
    MergeStringsInserts(content, custom, order);
    InsertionContains(lines, k);
    ReplaceAllContains(content, RESOURCES_CLOSING_TAG, Insertion(lines));
    ContainsTrans(ReplaceAll(content, RESOURCES_CLOSING_TAG, Insertion(lines)), Insertion(lines), StringLine(name));
  }

  /** Only names that are referenced and not yet defined are added. */
  lemma MergeStringsOnlyMissing(content: string, custom: string, order: SetOrder, name: string)
    requires ListsSets(order)
    requires name in order(MissingStrings(content, custom))
    ensures name !in ExistingStrings(content)
    ensures exists j :: 0 <= j <= |custom| && RefAt(custom, j).Some? && RefAt(custom, j).value.group == name
  {
    StringRefsExactly(custom, name);
  }
}
