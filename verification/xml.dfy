/** `xml.etree.ElementTree` elements as values: a tag, the attributes in
    insertion order, and the children. A namespaced tag or attribute name is
    written `{namespace}local`, as ElementTree spells it. */
module Xml {
  import opened Wrappers
  import opened Text

  const ANDROID_NS := "http://schemas.android.com/apk/res/android"

  datatype Element = Element(tag: string, attrib: seq<(string, string)>, children: seq<Element>)

  /** `element.get(name)`: the value stored under `name`, if any. */
  function Get(attrib: seq<(string, string)>, name: string): Option<string> {
    if attrib == [] then None
    else if attrib[0].0 == name then Some(attrib[0].1)
    else Get(attrib[1..], name)
  }

  /** `element.set(name, value)`: an existing entry keeps its place and takes the
      new value; a new one goes last. */
  function Set(attrib: seq<(string, string)>, name: string, value: string): (r: seq<(string, string)>)
    ensures |r| == if Get(attrib, name).Some? then |attrib| else |attrib| + 1
  {
    if attrib == [] then [(name, value)]
    else if attrib[0].0 == name then [(name, value)] + attrib[1..]
    else [attrib[0]] + Set(attrib[1..], name, value)
  }

  /** Reading after `set` gives the value set, and every other entry as before. */
  lemma {:induction false} GetSet(attrib: seq<(string, string)>, name: string, value: string, other: string)
    ensures Get(Set(attrib, name, value), other) == if other == name then Some(value) else Get(attrib, other)
    decreases |attrib|
  {
    if attrib != [] && attrib[0].0 != name {
      GetSet(attrib[1..], name, value, other);
      assert Set(attrib, name, value)[1..] == Set(attrib[1..], name, value);
    }
  }

  /** The names of the entries, in order. */
  function Names(attrib: seq<(string, string)>): (r: seq<string>)
    ensures |r| == |attrib|
    ensures forall i :: 0 <= i < |attrib| ==> r[i] == attrib[i].0
  {
    if attrib == [] then [] else [attrib[0].0] + Names(attrib[1..])
  }

  /** A name has an entry exactly when it is among the names. */
  lemma {:induction false} GetNames(attrib: seq<(string, string)>, name: string)
    ensures Get(attrib, name).Some? <==> name in Names(attrib)
    decreases |attrib|
  {
    if attrib != [] {
      GetNames(attrib[1..], name);
      assert Names(attrib) == [attrib[0].0] + Names(attrib[1..]);
    }
  }

  /** `{android}name`: a tag or attribute name in the Android namespace. */
  function NsName(name: string): (r: string)
    ensures |r| > 0 && r[0] == '{'
  {
    "{" + ANDROID_NS + "}" + name
  }

  /** `e.get(android:name) or e.get("name")`: Python's `or` falls back when the
      first value is None or empty. */
  function NameOf(e: Element): Option<string> {
    var a := Get(e.attrib, NsName("name"));
    if a.Some? && a.value != "" then a else Get(e.attrib, "name")
  }

  /** The value of `NameOf` as Python tests it: None and "" are both falsy. */
  predicate HasName(e: Element) {
    NameOf(e).Some? && NameOf(e).value != ""
  }

  /** The elements below `e` in document order (`e.iter()` without `e`). */
  function Descendants(e: Element): seq<Element>
    decreases e, 1
  {
    DescendantsFrom(e, 0)
  }

  /** The descendants of `e` through its children from index `i` on. */
  function DescendantsFrom(e: Element, i: nat): seq<Element>
    requires i <= |e.children|
    decreases e, 0, |e.children| - i
  {
    if i == |e.children| then []
    else [e.children[i]] + Descendants(e.children[i]) + DescendantsFrom(e, i + 1)
  }

  /** Every child is a descendant. */
  lemma {:induction false} ChildIsDescendant(e: Element, i: nat, k: nat)
    requires i <= k < |e.children|
    ensures e.children[k] in DescendantsFrom(e, i)
    decreases |e.children| - i
  {
    if i < k {
      ChildIsDescendant(e, i + 1, k);
    }
  }

  /** The elements of `es` with tag `tag`, in order. */
  function Tagged(es: seq<Element>, tag: string): (r: seq<Element>)
    ensures |r| <= |es|
  {
    if es == [] then []
    else (if es[0].tag == tag then [es[0]] else []) + Tagged(es[1..], tag)
  }

  /** Filtering distributes over concatenation. */
  lemma {:induction false} TaggedConcat(a: seq<Element>, b: seq<Element>, tag: string)
    ensures Tagged(a + b, tag) == Tagged(a, tag) + Tagged(b, tag)
    decreases |a|
  {
    if a == [] {
      assert a + b == b;
    } else {
      var head := if a[0].tag == tag then [a[0]] else [];
      assert (a + b)[0] == a[0];
      assert (a + b)[1..] == a[1..] + b;
      assert Tagged(a + b, tag) == head + Tagged(a[1..] + b, tag);
      TaggedConcat(a[1..], b, tag);
      assert Tagged(a, tag) == head + Tagged(a[1..], tag);
    }
  }

  /** Appending a child appends it and its descendants to the descendants. */
  lemma {:induction false} DescendantsFromAppend(e: Element, c: Element, i: nat)
    requires i <= |e.children|
    ensures DescendantsFrom(e.(children := e.children + [c]), i) == DescendantsFrom(e, i) + [c] + Descendants(c)
    decreases |e.children| - i
  {
    var e' := e.(children := e.children + [c]);
    if i < |e.children| {
      DescendantsFromAppend(e, c, i + 1);
      assert e'.children[i] == e.children[i];
    } else {
      assert e'.children[i] == c;
      assert DescendantsFrom(e', i + 1) == [];
    }
  }

  /** `e.findall(tag)` for a plain tag: the children with that tag. */
  function FindChildren(e: Element, tag: string): seq<Element> {
    Tagged(e.children, tag)
  }

  /** `e.findall(".//" + tag)`: the descendants with that tag. */
  function FindDescendants(e: Element, tag: string): seq<Element> {
    Tagged(Descendants(e), tag)
  }

  /** `e.find(".//" + tag)` and `e.find(tag)`: the first of a list. */
  function First(es: seq<Element>): (r: Option<Element>)
    ensures r.Some? <==> |es| > 0
    ensures r.Some? ==> r.value == es[0]
  {
    if es == [] then None else Some(es[0])
  }
}
