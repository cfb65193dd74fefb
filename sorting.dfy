/**
 * `Array.prototype.sort` with a comparator that compares one numeric key
 * (two for a tie-broken order). The sort is stable, as ECMAScript requires,
 * so elements with equal keys keep their input order.
 */
module Sorting {
  import opened Seqs

  /** A sort key, compared lexicographically: `major` first, then `minor`. */
  datatype Key = Key(major: int, minor: int)

  predicate KeyLe(a: Key, b: Key)
  {
    a.major < b.major || (a.major == b.major && a.minor <= b.minor)
  }

  predicate SortedBy<T>(s: seq<T>, key: T -> Key)
  {
    forall i, j :: 0 <= i < j < |s| ==> KeyLe(key(s[i]), key(s[j]))
  }

  /** Puts `x` before the first element whose key is not smaller than its own. */
  function Insert<T>(x: T, s: seq<T>, key: T -> Key): (r: seq<T>)
    ensures multiset(r) == multiset(s) + multiset{x}
  {
    if s == [] || KeyLe(key(x), key(s[0])) then [x] + s
    else
      assert s == [s[0]] + s[1..];
      [s[0]] + Insert(x, s[1..], key)
  }

  lemma {:induction false} InsertSorted<T>(x: T, s: seq<T>, key: T -> Key)
    requires SortedBy(s, key)
    ensures SortedBy(Insert(x, s, key), key)
  {
    if s != [] && !KeyLe(key(x), key(s[0])) {
      var rest := Insert(x, s[1..], key);
      InsertSorted(x, s[1..], key);
      forall j | 0 <= j < |rest|
        ensures KeyLe(key(s[0]), key(rest[j]))
      {
        assert rest[j] in multiset(rest);
        if rest[j] != x {
          assert rest[j] in multiset(s[1..]);
          var k :| 0 <= k < |s[1..]| && s[1..][k] == rest[j];
          assert s[1..][k] == s[k + 1];
        }
      }
    }
  }

  /** Stable insertion sort by `key`. */
  function SortBy<T>(s: seq<T>, key: T -> Key): (r: seq<T>)
    ensures SortedBy(r, key)
    ensures multiset(r) == multiset(s)
    ensures |r| == |s|
  {
    if s == [] then []
    else
      assert s == [s[0]] + s[1..];
      var rest := SortBy(s[1..], key);
      InsertSorted(s[0], rest, key);
      Insert(s[0], rest, key)
  }

  /** A list already in key order is left exactly as it is. */
  lemma {:induction false} SortByIdentity<T>(s: seq<T>, key: T -> Key)
    requires SortedBy(s, key)
    ensures SortBy(s, key) == s
  {
    if s != [] {
      SortByIdentity(s[1..], key);
    }
  }

  /** A comparator that answers 0 for every pair leaves the order unchanged. */
  lemma ConstantKeyIdentity<T>(s: seq<T>, key: T -> Key)
    requires forall x :: key(x) == Key(0, 0)
    ensures SortBy(s, key) == s
  {
    SortByIdentity(s, key);
  }

  /** The elements whose key is `k`, in their order in `s`. */
  function WithKey<T>(s: seq<T>, key: T -> Key, k: Key): (r: seq<T>)
    ensures forall i :: 0 <= i < |r| ==> r[i] in s && key(r[i]) == k
  {
    Filter(s, x => key(x) == k)
  }

  /** One element in front of `s`: it joins the elements of key `k` when it has that key. */
  lemma WithKeyCons<T>(a: T, s: seq<T>, key: T -> Key, k: Key)
    ensures WithKey([a] + s, key, k) == (if key(a) == k then [a] else []) + WithKey(s, key, k)
  {
    FilterCons(a, s, x => key(x) == k);
  }

  /** Inserting `x` adds it in front of the elements of its own key and leaves every other key's elements alone. */
  lemma {:induction false} InsertWithKey<T>(x: T, s: seq<T>, key: T -> Key, k: Key)
    ensures WithKey(Insert(x, s, key), key, k) == (if key(x) == k then [x] else []) + WithKey(s, key, k)
  {
    if s == [] || KeyLe(key(x), key(s[0])) {
      WithKeyCons(x, s, key, k);
    } else {
      var rest := Insert(x, s[1..], key);
      assert Insert(x, s, key) == [s[0]] + rest;
      assert s == [s[0]] + s[1..];
      InsertWithKey(x, s[1..], key, k);
      WithKeyCons(s[0], rest, key, k);
      WithKeyCons(s[0], s[1..], key, k);
      if key(x) == k {
        assert key(s[0]) != k;
        assert WithKey(rest, key, k) == [x] + WithKey(s[1..], key, k);
        assert WithKey(s, key, k) == WithKey(s[1..], key, k);
      } else if key(s[0]) == k {
        assert WithKey(rest, key, k) == WithKey(s[1..], key, k);
        assert WithKey(s, key, k) == [s[0]] + WithKey(s[1..], key, k);
      } else {
        assert WithKey(rest, key, k) == WithKey(s[1..], key, k);
        assert WithKey(s, key, k) == WithKey(s[1..], key, k);
      }
    }
  }

  /**
   * Stability: the elements sharing any one key come out of the sort in the
   * order they had in the input.
   */
  lemma {:induction false} SortByStable<T>(s: seq<T>, key: T -> Key, k: Key)
    ensures WithKey(SortBy(s, key), key, k) == WithKey(s, key, k)
  {
    if s != [] {
      SortByStable(s[1..], key, k);
      InsertWithKey(s[0], SortBy(s[1..], key), key, k);
      assert s == [s[0]] + s[1..];
      WithKeyCons(s[0], s[1..], key, k);
    }
  }

  /** Stability for any test that picks out exactly the elements of one key. */
  lemma SortByStableFor<T>(s: seq<T>, key: T -> Key, p: T -> bool, k: Key)
    requires forall x :: p(x) == (key(x) == k)
    ensures Filter(SortBy(s, key), p) == Filter(s, p)
  {
    SortByStable(s, key, k);
    FilterSameTest(SortBy(s, key), p, x => key(x) == k);
    FilterSameTest(s, p, x => key(x) == k);
  }
}
