/** The iteration order of a BTreeMap: strictly increasing keys, and only one such sequence per key set. */
module Ordering {
  import opened Common

  ghost predicate StrictTotal<K(!new)>(less: (K, K) -> bool) {
    && (forall a :: !less(a, a))
    && (forall a, b :: less(a, b) || a == b || less(b, a))
    && (forall a, b, c :: less(a, b) && less(b, c) ==> less(a, c))
  }

  ghost predicate Increasing<K>(s: seq<K>, less: (K, K) -> bool) {
    forall i, j :: 0 <= i < j < |s| ==> less(s[i], s[j])
  }

  ghost predicate IsLeast<K>(k: K, keys: set<K>, less: (K, K) -> bool) {
    k in keys && forall x :: x in keys ==> x == k || less(k, x)
  }

  lemma {:induction false} LeastExists<K(!new)>(keys: set<K>, less: (K, K) -> bool) returns (k: K)
    requires StrictTotal(less) && keys != {}
    ensures IsLeast(k, keys, less)
    decreases keys
  {
    var x :| x in keys;
    if keys == {x} {
      k := x;
    } else {
      var m := LeastExists(keys - {x}, less);
      k := if less(x, m) then x else m;
      forall y | y in keys ensures y == k || less(k, y) {
        if y != x { assert y in keys - {x}; }
      }
    }
  }

  /** The keys of a BTreeMap in iteration order. */
  function OrderedKeys<K(==, !new)>(keys: set<K>, less: (K, K) -> bool): (s: seq<K>)
    requires StrictTotal(less)
    ensures forall i :: 0 <= i < |s| ==> s[i] in keys
    ensures forall k :: k in keys ==> k in s
    ensures |s| == |keys|
    ensures Distinct(s)
    decreases keys
  {
    if keys == {} then []
    else
      ghost var least := LeastOf(keys, less);
      var k :| k in keys && forall x :: x in keys ==> x == k || less(k, x);
      var rest := OrderedKeys(keys - {k}, less);
      assert forall x :: x in keys ==> x == k || x in keys - {k};
      [k] + rest
  }

  lemma {:induction false} OrderedKeysIncrease<K(!new)>(keys: set<K>, less: (K, K) -> bool)
    requires StrictTotal(less)
    ensures Increasing(OrderedKeys(keys, less), less)
    decreases keys
  {
    if keys != {} {
      ghost var least := LeastOf(keys, less);
      var s := OrderedKeys(keys, less);
      assert IsLeast(s[0], keys, less);
      OrderedKeysIncrease(keys - {s[0]}, less);
      assert s[1..] == OrderedKeys(keys - {s[0]}, less);
      forall i, j | 0 <= i < j < |s| ensures less(s[i], s[j]) {
        if i > 0 { assert s[1..][i - 1] == s[i] && s[1..][j - 1] == s[j]; }
      }
    }
  }

  ghost function LeastOf<K(!new)>(keys: set<K>, less: (K, K) -> bool): (k: K)
    requires StrictTotal(less) && keys != {}
    ensures IsLeast(k, keys, less)
  {
    assert exists k :: IsLeast(k, keys, less) by { var k := LeastExists(keys, less); }
    var k :| IsLeast(k, keys, less);
    k
  }

  /** An increasing listing of a key set is the listing. */
  lemma {:induction false} IncreasingUnique<K(!new)>(s: seq<K>, t: seq<K>, less: (K, K) -> bool)
    requires StrictTotal(less) && Increasing(s, less) && Increasing(t, less)
    requires forall k :: k in s <==> k in t
    ensures s == t
  {
    Inhabited(s);
    Inhabited(t);
    if s == [] {
    } else {
      assert s[0] in t && t[0] in s;
      assert s[0] == t[0];
      TailKeys(s, less);
      TailKeys(t, less);
      IncreasingUnique(s[1..], t[1..], less);
      assert s == [s[0]] + s[1..] && t == [t[0]] + t[1..];
    }
  }

  lemma Inhabited<K>(s: seq<K>)
    ensures s != [] <==> exists k :: k in s
  {
    if s != [] { assert s[0] in s; }
  }

  lemma TailKeys<K(!new)>(s: seq<K>, less: (K, K) -> bool)
    requires StrictTotal(less) && Increasing(s, less) && s != []
    ensures Increasing(s[1..], less)
    ensures forall k :: k in s[1..] <==> k in s && k != s[0]
  {
    forall k | k in s && k != s[0] ensures k in s[1..] {
      var i :| 0 <= i < |s| && s[i] == k;
      assert s[1..][i - 1] == k;
    }
    forall k | k in s[1..] ensures k in s && k != s[0] {
      var i :| 0 <= i < |s[1..]| && s[1..][i] == k;
      assert s[i + 1] == k && less(s[0], s[i + 1]);
    }
  }

  /** Rust's `str` order: bytewise on UTF-8, which is lexicographic on code points. */
  predicate StringLess(a: string, b: string) {
    b != [] && (a == [] || a[0] < b[0] || (a[0] == b[0] && StringLess(a[1..], b[1..])))
  }

  type Key = (string, string)

  predicate KeyLess(a: Key, b: Key) {
    StringLess(a.0, b.0) || (a.0 == b.0 && StringLess(a.1, b.1))
  }

  lemma {:induction false} StringLessIrreflexive(a: string)
    ensures !StringLess(a, a)
  {
    if a == [] {
    } else {
      StringLessIrreflexive(a[1..]);
    }
  }

  lemma {:induction false} StringLessTotal(a: string, b: string)
    ensures StringLess(a, b) || a == b || StringLess(b, a)
  {
    if a != [] && b != [] && a[0] == b[0] {
      StringLessTotal(a[1..], b[1..]);
      assert a == [a[0]] + a[1..] && b == [b[0]] + b[1..];
    }
  }

  lemma {:induction false} StringLessTransitive(a: string, b: string, c: string)
    requires StringLess(a, b) && StringLess(b, c)
    ensures StringLess(a, c)
  {
    if a != [] && a[0] == b[0] && b[0] == c[0] {
      StringLessTransitive(a[1..], b[1..], c[1..]);
    }
  }

  lemma StringOrder()
    ensures StrictTotal(StringLess)
  {
    forall a: string ensures !StringLess(a, a) { StringLessIrreflexive(a); }
    forall a: string, b: string ensures StringLess(a, b) || a == b || StringLess(b, a) { StringLessTotal(a, b); }
    forall a: string, b: string, c: string | StringLess(a, b) && StringLess(b, c) ensures StringLess(a, c) {
      StringLessTransitive(a, b, c);
    }
  }

  lemma KeyOrder()
    ensures StrictTotal(KeyLess)
  {
    forall a: Key ensures !KeyLess(a, a) {
      StringLessIrreflexive(a.0);
      StringLessIrreflexive(a.1);
    }
    forall a: Key, b: Key ensures KeyLess(a, b) || a == b || KeyLess(b, a) {
      StringLessTotal(a.0, b.0);
      StringLessTotal(a.1, b.1);
    }
    forall a: Key, b: Key, c: Key | KeyLess(a, b) && KeyLess(b, c) ensures KeyLess(a, c) {
      if StringLess(a.0, b.0) && StringLess(b.0, c.0) { StringLessTransitive(a.0, b.0, c.0); }
      if StringLess(a.1, b.1) && StringLess(b.1, c.1) { StringLessTransitive(a.1, b.1, c.1); }
    }
  }

  /** The keys of a string-keyed BTreeMap in iteration order. */
  function SortedIds(ids: set<string>): (s: seq<string>)
    ensures forall i :: 0 <= i < |s| ==> s[i] in ids
    ensures forall id :: id in ids ==> id in s
    ensures |s| == |ids|
    ensures Distinct(s)
  {
    StringOrder();
    OrderedKeys(ids, StringLess)
  }

  /** The keys of a pair-keyed BTreeMap in iteration order. */
  function SortedKeys(keys: set<Key>): (s: seq<Key>)
    ensures forall i :: 0 <= i < |s| ==> s[i] in keys
    ensures forall k :: k in keys ==> k in s
    ensures |s| == |keys|
    ensures Distinct(s)
  {
    KeyOrder();
    OrderedKeys(keys, KeyLess)
  }

  lemma PrefixedIncreasing(ids: seq<string>, keys: seq<Key>, prefix: string)
    requires Increasing(ids, StringLess) && |keys| == |ids|
    requires forall i :: 0 <= i < |ids| ==> keys[i] == (prefix, ids[i])
    ensures Increasing(keys, KeyLess)
  {
    forall i, j | 0 <= i < j < |keys| ensures KeyLess(keys[i], keys[j]) {
      assert StringLess(ids[i], ids[j]);
    }
  }

  lemma PrefixedMembers(ids: set<string>, keys: set<Key>, prefix: string, sorted: seq<string>, prefixed: seq<Key>)
    requires forall id :: id in ids <==> (prefix, id) in keys
    requires forall k :: k in keys ==> k.0 == prefix
    requires forall id :: id in ids <==> id in sorted
    requires |prefixed| == |sorted| && forall i :: 0 <= i < |sorted| ==> prefixed[i] == (prefix, sorted[i])
    ensures forall k :: k in keys <==> k in prefixed
  {
    forall k | k in keys ensures k in prefixed {
      assert k == (prefix, k.1) && k.1 in sorted;
      var i :| 0 <= i < |sorted| && sorted[i] == k.1;
      assert prefixed[i] == k;
    }
    forall k | k in prefixed ensures k in keys {
      var i :| 0 <= i < |prefixed| && prefixed[i] == k;
      assert sorted[i] in ids;
    }
  }

  /** Keys that share their first component iterate in the order of the second. */
  lemma SharedPrefixOrder(ids: set<string>, keys: set<Key>, prefix: string)
    requires forall id :: id in ids <==> (prefix, id) in keys
    requires forall k :: k in keys ==> k.0 == prefix
    ensures |ids| == |keys|
    ensures forall i :: 0 <= i < |ids| ==> SortedKeys(keys)[i] == (prefix, SortedIds(ids)[i])
  {
    StringOrder();
    KeyOrder();
    OrderedKeysIncrease(ids, StringLess);
    OrderedKeysIncrease(keys, KeyLess);
    var sorted := SortedIds(ids);
    var prefixed := seq(|sorted|, i requires 0 <= i < |sorted| => (prefix, sorted[i]));
    PrefixedIncreasing(sorted, prefixed, prefix);
    PrefixedMembers(ids, keys, prefix, sorted, prefixed);
    IncreasingUnique(prefixed, SortedKeys(keys), KeyLess);
  }
}
