/** Python's `sorted(xs, key=...)` for the two-number tuple keys the catalog
    converter sorts by. `sorted` is stable: elements with equal keys keep
    their input order. `SortBy` is a stable insertion sort, and
    `StableSortUnique` shows that every stable sort returns the same list,
    so `SortBy` stands for whatever algorithm `sorted` runs. */
module KeySort {

  /** A key `(primary, secondary)`, compared as Python compares tuples */
  datatype SortKey = SortKey(primary: real, secondary: real)

  predicate KeyLt(a: SortKey, b: SortKey) {
    a.primary < b.primary || (a.primary == b.primary && a.secondary < b.secondary)
  }

  predicate KeyLe(a: SortKey, b: SortKey) {
    a.primary < b.primary || (a.primary == b.primary && a.secondary <= b.secondary)
  }

  predicate SortedBy<T>(s: seq<T>, key: T -> SortKey) {
    forall i, j | 0 <= i < j < |s| :: KeyLe(key(s[i]), key(s[j]))
  }

  /** The elements of `s` whose key is `k`, in their order in `s` */
  function WithKey<T>(s: seq<T>, key: T -> SortKey, k: SortKey): (withKey: seq<T>)
    decreases |s|
  {
    if s == [] then []
    else (if key(s[0]) == k then [s[0]] else []) + WithKey(s[1..], key, k)
  }

  /** `r` keeps, for every key, the input order of the elements with that key */
  ghost predicate SameKeyOrder<T>(r: seq<T>, s: seq<T>, key: T -> SortKey) {
    forall k :: WithKey(r, key, k) == WithKey(s, key, k)
  }

  /** `x` placed after every element of `t` whose key is not greater */
  function Insert<T>(t: seq<T>, x: T, key: T -> SortKey): (inserted: seq<T>)
    decreases |t|
  {
    if t == [] then [x]
    else if KeyLt(key(x), key(t[0])) then [x] + t
    else [t[0]] + Insert(t[1..], x, key)
  }

  lemma {:induction false} WithKeyAppend<T>(a: seq<T>, b: seq<T>, key: T -> SortKey, k: SortKey)
    ensures WithKey(a + b, key, k) == WithKey(a, key, k) + WithKey(b, key, k)
    decreases |a|
  {
    if a == [] {
      assert a + b == b;
    } else {
      assert (a + b)[1..] == a[1..] + b;
      WithKeyAppend(a[1..], b, key, k);
    }
  }

  lemma {:induction false} WithKeyAbove<T>(t: seq<T>, key: T -> SortKey, k: SortKey)
    requires forall i | 0 <= i < |t| :: KeyLt(k, key(t[i]))
    ensures WithKey(t, key, k) == []
    decreases |t|
  {
    if t != [] {
      WithKeyAbove(t[1..], key, k);
    }
  }

  lemma {:induction false} WithKeyNonEmpty<T>(s: seq<T>, key: T -> SortKey, k: SortKey)
    requires WithKey(s, key, k) != []
    ensures exists i :: 0 <= i < |s| && key(s[i]) == k
    decreases |s|
  {
    if key(s[0]) != k {
      WithKeyNonEmpty(s[1..], key, k);
      var i :| 0 <= i < |s[1..]| && key(s[1..][i]) == k;
      assert key(s[i + 1]) == k;
    }
  }

  lemma WithKeyOfHead<T>(s: seq<T>, key: T -> SortKey)
    ensures s != [] ==> WithKey(s, key, key(s[0])) != []
  {
  }

  lemma {:induction false} InsertSorted<T>(t: seq<T>, x: T, key: T -> SortKey)
    requires SortedBy(t, key)
    ensures |Insert(t, x, key)| == |t| + 1
    ensures forall i | 0 <= i < |Insert(t, x, key)| :: Insert(t, x, key)[i] == x || Insert(t, x, key)[i] in t
    ensures SortedBy(Insert(t, x, key), key)
    ensures multiset(Insert(t, x, key)) == multiset(t) + multiset{x}
    decreases |t|
  {
    if t != [] && !KeyLt(key(x), key(t[0])) {
      InsertSorted(t[1..], x, key);
      var r := Insert(t, x, key);
      assert r == [t[0]] + Insert(t[1..], x, key);
      forall i, j | 0 <= i < j < |r|
        ensures KeyLe(key(r[i]), key(r[j]))
      {
        if i == 0 {
          assert r[j] == x || r[j] in t[1..];
        }
      }
      assert t == [t[0]] + t[1..];
    }
  }

  lemma {:induction false} InsertKeyOrder<T>(t: seq<T>, x: T, key: T -> SortKey, k: SortKey)
    requires SortedBy(t, key)
    ensures WithKey(Insert(t, x, key), key, k) == WithKey(t, key, k) + (if key(x) == k then [x] else [])
    decreases |t|
  {
    if t == [] {
    } else if KeyLt(key(x), key(t[0])) {
      if key(x) == k {
        WithKeyAbove(t, key, k);
      }
      assert Insert(t, x, key) == [x] + t;
      WithKeyAppend([x], t, key, k);
    } else {
      InsertKeyOrder(t[1..], x, key, k);
      assert Insert(t, x, key) == [t[0]] + Insert(t[1..], x, key);
      WithKeyAppend([t[0]], Insert(t[1..], x, key), key, k);
      WithKeyAppend([t[0]], t[1..], key, k);
      assert [t[0]] + t[1..] == t;
    }
  }

  lemma SortStep<T>(init: seq<T>, last: T, r: seq<T>, key: T -> SortKey)
    requires SortedBy(r, key) && multiset(r) == multiset(init) && SameKeyOrder(r, init, key)
    ensures SortedBy(Insert(r, last, key), key)
    ensures multiset(Insert(r, last, key)) == multiset(init + [last])
    ensures SameKeyOrder(Insert(r, last, key), init + [last], key)
  {
    InsertSorted(r, last, key);
    forall k
      ensures WithKey(Insert(r, last, key), key, k) == WithKey(init + [last], key, k)
    {
      InsertKeyOrder(r, last, key, k);
      WithKeyAppend(init, [last], key, k);
    }
  }

  /** `sorted(s, key=key)`: sorted by key, a permutation of `s`, and stable */
  function SortBy<T>(s: seq<T>, key: T -> SortKey): (r: seq<T>)
    ensures SortedBy(r, key)
    ensures multiset(r) == multiset(s)
    ensures SameKeyOrder(r, s, key)
    decreases |s|
  {
    if s == [] then []
    else
      var init, last := s[..|s| - 1], s[|s| - 1];
      assert s == init + [last];
      SortStep(init, last, SortBy(init, key), key);
      Insert(SortBy(init, key), last, key)
  }

  /** Two lists sorted by the same key that agree, key by key, on the order of
      their elements are equal: a stable sort has exactly one result. */
  lemma {:induction false} StableSortUnique<T>(a: seq<T>, b: seq<T>, key: T -> SortKey)
    requires SortedBy(a, key) && SortedBy(b, key)
    requires forall k :: WithKey(a, key, k) == WithKey(b, key, k)
    ensures a == b
    decreases |a|
  {
    WithKeyOfHead(b, key);
    if a != [] {
      SameHead(a, b, key);
      SameTail(a, b, key);
      StableSortUnique(a[1..], b[1..], key);
      assert a == [a[0]] + a[1..] && b == [b[0]] + b[1..];
    }
  }

  /** The first elements agree: both are the first element of the smallest key */
  lemma SameHead<T>(a: seq<T>, b: seq<T>, key: T -> SortKey)
    requires a != [] && SortedBy(a, key) && SortedBy(b, key)
    requires forall k :: WithKey(a, key, k) == WithKey(b, key, k)
    ensures b != [] && a[0] == b[0]
  {
    var k := key(a[0]);
    assert WithKey(a, key, k) == [a[0]] + WithKey(a[1..], key, k);
    assert WithKey(b, key, k) != [];
    assert b != [];
    var k' := key(b[0]);
    assert WithKey(b, key, k') == [b[0]] + WithKey(b[1..], key, k');
    WithKeyNonEmpty(a, key, k');
    WithKeyNonEmpty(b, key, k);
    assert KeyLe(k, k') && KeyLe(k', k);
    assert WithKey(a, key, k)[0] == a[0];
    assert WithKey(b, key, k)[0] == b[0];
  }

  /** Removing the same first element keeps the per-key orders equal */
  lemma SameTail<T>(a: seq<T>, b: seq<T>, key: T -> SortKey)
    requires a != [] && b != [] && a[0] == b[0]
    requires forall k :: WithKey(a, key, k) == WithKey(b, key, k)
    ensures forall k :: WithKey(a[1..], key, k) == WithKey(b[1..], key, k)
  {
    forall k
      ensures WithKey(a[1..], key, k) == WithKey(b[1..], key, k)
    {
      var head := if key(a[0]) == k then [a[0]] else [];
      assert WithKey(a, key, k) == head + WithKey(a[1..], key, k);
      assert WithKey(b, key, k) == head + WithKey(b[1..], key, k);
      assert (head + WithKey(a[1..], key, k))[|head|..] == WithKey(a[1..], key, k);
      assert (head + WithKey(b[1..], key, k))[|head|..] == WithKey(b[1..], key, k);
    }
  }

  /** Any stable sort of `s` by `key` equals `SortBy(s, key)` */
  lemma SortByIsTheStableSort<T>(s: seq<T>, r: seq<T>, key: T -> SortKey)
    requires SortedBy(r, key) && SameKeyOrder(r, s, key)
    ensures r == SortBy(s, key)
  {
    StableSortUnique(r, SortBy(s, key), key);
  }
}
