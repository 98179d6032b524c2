/** Orderings and selections the ApkForge code gets from `sorted`, `list.sort`,
    `max` and `min`: Python's code-point order on strings, insertion sorts that
    keep equal elements in their original order, and first-extreme selection. */
module Order {
  import opened Wrappers

  // ---------------------------------------------------------------------------
  // Python's string order
  // ---------------------------------------------------------------------------

  /** `a <= b` on Python strings: lexicographic by code point, a prefix first. */
  predicate StrLe(a: string, b: string)
    decreases |a|
  {
    if a == [] then true
    else if b == [] then false
    else if a[0] != b[0] then a[0] < b[0]
    else StrLe(a[1..], b[1..])
  }

  lemma {:induction false} StrLeTotal(a: string, b: string)
    ensures StrLe(a, b) || StrLe(b, a)
    decreases |a|
  {
    if a != [] && b != [] && a[0] == b[0] {
      StrLeTotal(a[1..], b[1..]);
    }
  }

  lemma {:induction false} StrLeTrans(a: string, b: string, c: string)
    requires StrLe(a, b) && StrLe(b, c)
    ensures StrLe(a, c)
    decreases |a|
  {
    if a != [] && b != [] && c != [] && a[0] == b[0] && b[0] == c[0] {
      StrLeTrans(a[1..], b[1..], c[1..]);
    }
  }

  lemma {:induction false} StrLeAntisymmetric(a: string, b: string)
    requires StrLe(a, b) && StrLe(b, a)
    ensures a == b
    decreases |a|
  {
    if a != [] && b != [] {
      StrLeAntisymmetric(a[1..], b[1..]);
      assert a == [a[0]] + a[1..] && b == [b[0]] + b[1..];
    }
  }

  predicate SortedStrings(s: seq<string>) {
    forall i, j :: 0 <= i < j < |s| ==> StrLe(s[i], s[j])
  }

  /** A lower bound of every element of `s` and of `x` bounds every element of
      a sequence holding exactly those. */
  lemma StrLowerBoundKept(r: seq<string>, s: seq<string>, x: string, b: string)
    requires multiset(r) == multiset(s) + multiset{x}
    requires StrLe(b, x) && forall j :: 0 <= j < |s| ==> StrLe(b, s[j])
    ensures forall j :: 0 <= j < |r| ==> StrLe(b, r[j])
  {
    forall j | 0 <= j < |r| ensures StrLe(b, r[j]) {
      assert r[j] in multiset(r);
      if r[j] != x {
        assert r[j] in multiset(s);
      }
    }
  }

  lemma SortedStringsCons(a: string, s: seq<string>)
    requires SortedStrings(s) && forall j :: 0 <= j < |s| ==> StrLe(a, s[j])
    ensures SortedStrings([a] + s)
  {
    var r := [a] + s;
    forall i, j | 0 <= i < j < |r| ensures StrLe(r[i], r[j]) {
      assert r[j] == s[j - 1];
      if i > 0 { assert r[i] == s[i - 1]; }
    }
  }

  function InsertString(x: string, s: seq<string>): (r: seq<string>)
    requires SortedStrings(s)
    ensures SortedStrings(r)
    ensures multiset(r) == multiset(s) + multiset{x}
    ensures |r| == |s| + 1
  {
    if s == [] then [x]
    else if StrLe(x, s[0]) then
      forall j | 0 <= j < |s| ensures StrLe(x, s[j]) {
        if j > 0 { StrLeTrans(x, s[0], s[j]); }
      }
      SortedStringsCons(x, s);
      [x] + s
    else
      StrLeTotal(x, s[0]);
      var rest := InsertString(x, s[1..]);
      assert s == [s[0]] + s[1..];
      StrLowerBoundKept(rest, s[1..], x, s[0]);
      SortedStringsCons(s[0], rest);
      [s[0]] + rest
  }

  /** Python's `sorted(names)`. */
  function SortStrings(s: seq<string>): (r: seq<string>)
    ensures SortedStrings(r)
    ensures multiset(r) == multiset(s)
    ensures |r| == |s|
  {
    if s == [] then []
    else
      assert s == [s[0]] + s[1..];
      InsertString(s[0], SortStrings(s[1..]))
  }

  /** `reverse()`: the elements back to front. */
  function Reverse<T>(s: seq<T>): (r: seq<T>)
    ensures |r| == |s|
    ensures forall i :: 0 <= i < |s| ==> r[i] == s[|s| - 1 - i]
    ensures multiset(r) == multiset(s)
  {
    if s == [] then []
    else
      assert s == s[..|s| - 1] + [s[|s| - 1]];
      [s[|s| - 1]] + Reverse(s[..|s| - 1])
  }

  /** `sorted(names, reverse=True)`: descending, a permutation of `s`. */
  function SortStringsDescending(s: seq<string>): (r: seq<string>)
    ensures forall i, j :: 0 <= i < j < |r| ==> StrLe(r[j], r[i])
    ensures multiset(r) == multiset(s)
  {
    Reverse(SortStrings(s))
  }

  // ---------------------------------------------------------------------------
  // Integers
  // ---------------------------------------------------------------------------

  predicate SortedInts(s: seq<int>) {
    forall i, j :: 0 <= i < j < |s| ==> s[i] <= s[j]
  }

  lemma IntLowerBoundKept(r: seq<int>, s: seq<int>, x: int, b: int)
    requires multiset(r) == multiset(s) + multiset{x}
    requires b <= x && forall j :: 0 <= j < |s| ==> b <= s[j]
    ensures forall j :: 0 <= j < |r| ==> b <= r[j]
  {
    forall j | 0 <= j < |r| ensures b <= r[j] {
      assert r[j] in multiset(r);
      if r[j] != x {
        assert r[j] in multiset(s);
      }
    }
  }

  lemma SortedIntsCons(a: int, s: seq<int>)
    requires SortedInts(s) && forall j :: 0 <= j < |s| ==> a <= s[j]
    ensures SortedInts([a] + s)
  {
    var r := [a] + s;
    forall i, j | 0 <= i < j < |r| ensures r[i] <= r[j] {
      assert r[j] == s[j - 1];
      if i > 0 { assert r[i] == s[i - 1]; }
    }
  }

  function InsertInt(x: int, s: seq<int>): (r: seq<int>)
    requires SortedInts(s)
    ensures SortedInts(r)
    ensures multiset(r) == multiset(s) + multiset{x}
  {
    if s == [] || x <= s[0] then
      SortedIntsCons(x, s);
      [x] + s
    else
      var rest := InsertInt(x, s[1..]);
      assert s == [s[0]] + s[1..];
      IntLowerBoundKept(rest, s[1..], x, s[0]);
      SortedIntsCons(s[0], rest);
      [s[0]] + rest
  }

  /** Python's `list.sort()` on integers. */
  function SortInts(s: seq<int>): (r: seq<int>)
    ensures SortedInts(r)
    ensures multiset(r) == multiset(s)
  {
    if s == [] then []
    else
      assert s == [s[0]] + s[1..];
      InsertInt(s[0], SortInts(s[1..]))
  }

  function MaxOf(s: seq<int>): (m: int)
    requires |s| > 0
    ensures m in s
    ensures forall x :: x in s ==> x <= m
  {
    if |s| == 1 then s[0]
    else
      var m := MaxOf(s[1..]);
      assert forall x :: x in s ==> x == s[0] || x in s[1..];
      if s[0] >= m then s[0] else m
  }

  // ---------------------------------------------------------------------------
  // Stable sort by an integer key, and first-extreme selection
  // ---------------------------------------------------------------------------

  predicate SortedByKey<T>(s: seq<T>, key: T -> int) {
    forall i, j :: 0 <= i < j < |s| ==> key(s[i]) <= key(s[j])
  }

  lemma KeyLowerBoundKept<T>(r: seq<T>, s: seq<T>, x: T, key: T -> int, b: int)
    requires multiset(r) == multiset(s) + multiset{x}
    requires b <= key(x) && forall j :: 0 <= j < |s| ==> b <= key(s[j])
    ensures forall j :: 0 <= j < |r| ==> b <= key(r[j])
  {
    forall j | 0 <= j < |r| ensures b <= key(r[j]) {
      assert r[j] in multiset(r);
      if r[j] != x {
        assert r[j] in multiset(s);
      }
    }
  }

  lemma KeyUpperBoundKept<T>(r: seq<T>, s: seq<T>, x: T, key: T -> int, b: int)
    requires multiset(r) == multiset(s) + multiset{x}
    requires key(x) <= b && forall j :: 0 <= j < |s| ==> key(s[j]) <= b
    ensures forall j :: 0 <= j < |r| ==> key(r[j]) <= b
  {
    forall j | 0 <= j < |r| ensures key(r[j]) <= b {
      assert r[j] in multiset(r);
      if r[j] != x {
        assert r[j] in multiset(s);
      }
    }
  }

  lemma SortedByKeyCons<T>(a: T, s: seq<T>, key: T -> int)
    requires SortedByKey(s, key) && forall j :: 0 <= j < |s| ==> key(a) <= key(s[j])
    ensures SortedByKey([a] + s, key)
  {
    var r := [a] + s;
    forall i, j | 0 <= i < j < |r| ensures key(r[i]) <= key(r[j]) {
      assert r[j] == s[j - 1];
      if i > 0 { assert r[i] == s[i - 1]; }
    }
  }

  lemma SortedByKeySnoc<T>(s: seq<T>, a: T, key: T -> int)
    requires SortedByKey(s, key) && forall j :: 0 <= j < |s| ==> key(s[j]) <= key(a)
    ensures SortedByKey(s + [a], key)
  {
    var r := s + [a];
    forall i, j | 0 <= i < j < |r| ensures key(r[i]) <= key(r[j]) {
      assert r[i] == s[i];
      if j < |s| { assert r[j] == s[j]; }
    }
  }

  /** Inserts `x` after every element whose key is not larger, so equal keys keep their order. */
  function InsertByKey<T>(x: T, s: seq<T>, key: T -> int): (r: seq<T>)
    requires SortedByKey(s, key)
    ensures SortedByKey(r, key)
    ensures multiset(r) == multiset(s) + multiset{x}
  {
    if s == [] || key(x) < key(s[0]) then
      SortedByKeyCons(x, s, key);
      [x] + s
    else
      var rest := InsertByKey(x, s[1..], key);
      assert s == [s[0]] + s[1..];
      KeyLowerBoundKept(rest, s[1..], x, key, key(s[0]));
      SortedByKeyCons(s[0], rest, key);
      [s[0]] + rest
  }

  /** Python's stable `sorted(s, key=key)`: the first element goes in after the sorted rest's equals. */
  function SortByKey<T>(s: seq<T>, key: T -> int): (r: seq<T>)
    ensures SortedByKey(r, key)
    ensures multiset(r) == multiset(s)
    decreases |s|
  {
    if s == [] then []
    else
      var last := s[|s| - 1];
      assert s == s[..|s| - 1] + [last];
      InsertLast(SortByKey(s[..|s| - 1], key), last, key)
  }

  /** Appends `x` behind every element whose key is not larger than its own. */
  function InsertLast<T>(s: seq<T>, x: T, key: T -> int): (r: seq<T>)
    requires SortedByKey(s, key)
    ensures SortedByKey(r, key)
    ensures multiset(r) == multiset(s) + multiset{x}
    decreases |s|
  {
    if s == [] || key(s[|s| - 1]) <= key(x) then
      SortedByKeySnoc(s, x, key);
      s + [x]
    else
      var init := s[..|s| - 1];
      var lastOne := s[|s| - 1];
      var rest := InsertLast(init, x, key);
      assert s == init + [lastOne];
      KeyUpperBoundKept(rest, init, x, key, key(lastOne));
      SortedByKeySnoc(rest, lastOne, key);
      rest + [lastOne]
  }

  // ---------------------------------------------------------------------------
  // Selections
  // ---------------------------------------------------------------------------

  /** The first element of `s` that passes `ok`, or None: a `for` loop that
      returns on the first hit. */
  function FirstWhere(s: seq<string>, ok: string -> bool): (r: Option<string>)
    ensures r.Some? ==> exists k :: 0 <= k < |s| && s[k] == r.value && ok(s[k]) && forall j :: 0 <= j < k ==> !ok(s[j])
    ensures r.None? <==> forall j :: 0 <= j < |s| ==> !ok(s[j])
  {
    if s == [] then None
    else if ok(s[0]) then Some(s[0])
    else
      var rest := FirstWhere(s[1..], ok);
      assert forall j :: 1 <= j < |s| ==> s[j] == s[1..][j - 1];
      rest
  }

  /** A Python tuple of three integers, as the version keys are. */
  type Triple = (int, int, int)

  /** Python's order on such tuples: lexicographic. */
  predicate TripleLe(a: Triple, b: Triple) {
    a.0 < b.0 || (a.0 == b.0 && (a.1 < b.1 || (a.1 == b.1 && a.2 <= b.2)))
  }

  /** The index of the first largest tuple: the head of a stable descending
      sort, and what `max` returns. */
  function FirstMaxTriple(vs: seq<Triple>): (k: nat)
    requires |vs| > 0
    ensures k < |vs|
    ensures forall j :: 0 <= j < |vs| ==> TripleLe(vs[j], vs[k])
    ensures forall j :: 0 <= j < k ==> !TripleLe(vs[k], vs[j])
  {
    if |vs| == 1 then 0
    else
      var k := FirstMaxTriple(vs[..|vs| - 1]);
      var last := |vs| - 1;
      assert forall j :: 0 <= j < last ==> vs[j] == vs[..last][j];
      if TripleLe(vs[last], vs[k]) then k else last
  }

  /** The index of the first element whose key is largest: the head of a stable
      descending sort, and what Python's `max(s, key=key)` returns. */
  function FirstMaxIndex<T>(s: seq<T>, key: T -> int): (k: nat)
    requires |s| > 0
    ensures k < |s|
    ensures forall j :: 0 <= j < |s| ==> key(s[j]) <= key(s[k])
    ensures forall j :: 0 <= j < k ==> key(s[j]) < key(s[k])
    decreases |s|
  {
    if |s| == 1 then 0
    else
      var k := FirstMaxIndex(s[..|s| - 1], key);
      if key(s[|s| - 1]) > key(s[k]) then |s| - 1 else k
  }

  /** The index of the first element whose key is smallest: the head of a stable
      ascending sort, and what Python's `min(s, key=key)` returns. */
  function FirstMinIndex<T>(s: seq<T>, key: T -> int): (k: nat)
    requires |s| > 0
    ensures k < |s|
    ensures forall j :: 0 <= j < |s| ==> key(s[k]) <= key(s[j])
    ensures forall j :: 0 <= j < k ==> key(s[k]) < key(s[j])
    decreases |s|
  {
    if |s| == 1 then 0
    else
      var k := FirstMinIndex(s[..|s| - 1], key);
      if key(s[|s| - 1]) < key(s[k]) then |s| - 1 else k
  }

  /** Inserting behind the equals changes the head only for a strictly smaller element. */
  lemma {:induction false} InsertLastHead<T>(s: seq<T>, x: T, key: T -> int)
    requires SortedByKey(s, key) && |s| > 0
    ensures InsertLast(s, x, key)[0] == if key(x) < key(s[0]) then x else s[0]
    decreases |s|
  {
    if !(key(s[|s| - 1]) <= key(x)) {
      var init := s[..|s| - 1];
      if |init| > 0 {
        assert SortedByKey(init, key);
        InsertLastHead(init, x, key);
        assert init[0] == s[0];
      }
    }
  }

  /** The head of the stable sort is the first element with the smallest key. */
  lemma {:induction false} SortByKeyHead<T>(s: seq<T>, key: T -> int)
    requires |s| > 0
    ensures SortByKey(s, key)[0] == s[FirstMinIndex(s, key)]
    decreases |s|
  {
    var init := s[..|s| - 1];
    var last := s[|s| - 1];
    var sorted := SortByKey(init, key);
    if |init| > 0 {
      SortByKeyHead(init, key);
      InsertLastHead(sorted, last, key);
      var k := FirstMinIndex(init, key);
      assert init[k] == s[k];
    }
  }
}
