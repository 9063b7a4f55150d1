/**
 * The two orderings the query layer asks pandas for: a descending sort on a
 * numeric column (`sort_values(..., ascending=False)`, `nlargest`) and an
 * ascending sort on a text column (`sort_values('location')`). Both are
 * insertion sorts on sequences; ties keep their input order.
 */
module Sorting {
  import opened Filters

  /** Each element's key is at least the next one's. */
  predicate NonIncreasing<T>(s: seq<T>, key: T -> real) {
    forall i :: 0 < i < |s| ==> key(s[i - 1]) >= key(s[i])
  }

  /** The adjacent-pairs ordering above orders every pair. */
  lemma {:induction false} NonIncreasingAllPairs<T>(s: seq<T>, key: T -> real, i: nat, j: nat)
    requires NonIncreasing(s, key)
    requires i <= j < |s|
    ensures key(s[i]) >= key(s[j])
    decreases j - i
  {
    if i < j {
      NonIncreasingAllPairs(s, key, i + 1, j);
    }
  }

  /** Inserts `x` in front of the first element whose key does not exceed its own. */
  function InsertDesc<T>(x: T, s: seq<T>, key: T -> real): (r: seq<T>)
    requires NonIncreasing(s, key)
    ensures NonIncreasing(r, key)
    ensures multiset(r) == multiset(s) + multiset{x}
    ensures |r| == |s| + 1
    ensures r[0] == x || (s != [] && r[0] == s[0])
  {
    if s == [] || key(x) >= key(s[0]) then [x] + s
    else
      assert s == [s[0]] + s[1..];
      [s[0]] + InsertDesc(x, s[1..], key)
  }

  /** `s` ordered by non-increasing key, ties in input order. */
  function SortDesc<T>(s: seq<T>, key: T -> real): (r: seq<T>)
    ensures NonIncreasing(r, key)
    ensures multiset(r) == multiset(s)
    ensures |r| == |s|
  {
    if s == [] then []
    else
      assert s == [s[0]] + s[1..];
      InsertDesc(s[0], SortDesc(s[1..], key), key)
  }

  /** The elements with one given key, in their order of appearance. */
  function WithKey<T(!new)>(s: seq<T>, key: T -> real, v: real): seq<T> {
    Filter(s, KeyIs(key, v))
  }

  function KeyIs<T>(key: T -> real, v: real): T -> bool {
    x => key(x) == v
  }

  /** The elements with key `v` of `[y] + t`: `y` if its key is `v`, then those of `t`. */
  lemma WithKeyCons<T(!new)>(y: T, t: seq<T>, key: T -> real, v: real)
    ensures WithKey([y] + t, key, v) == (if key(y) == v then [y] else []) + WithKey(t, key, v)
  {
    FilterAppend([y], t, KeyIs(key, v));
    FilterSingleton(y, KeyIs(key, v));
  }

  /** Inserting `x` puts it before every element already there with the same key. */
  lemma {:induction false} InsertDescTies<T(!new)>(x: T, s: seq<T>, key: T -> real, v: real)
    requires NonIncreasing(s, key)
    ensures WithKey(InsertDesc(x, s, key), key, v) == (if key(x) == v then [x] else []) + WithKey(s, key, v)
  {
    if s == [] || key(x) >= key(s[0]) {
      WithKeyCons(x, s, key, v);
    } else {
      var rest := InsertDesc(x, s[1..], key);
      assert InsertDesc(x, s, key) == [s[0]] + rest;
      InsertDescTies(x, s[1..], key, v);
      WithKeyCons(s[0], rest, key, v);
      WithKeyCons(s[0], s[1..], key, v);
      assert s == [s[0]] + s[1..];
    }
  }

  /**
   * The sort is stable: the elements sharing any one key appear in the
   * result in the order they had in the input.
   */
  lemma {:induction false} SortDescStable<T(!new)>(s: seq<T>, key: T -> real, v: real)
    ensures WithKey(SortDesc(s, key), key, v) == WithKey(s, key, v)
  {
    if s != [] {
      SortDescStable(s[1..], key, v);
      InsertDescTies(s[0], SortDesc(s[1..], key), key, v);
      WithKeyCons(s[0], s[1..], key, v);
      assert s == [s[0]] + s[1..];
    }
  }

  /** Python's `<=` on `str`: code point by code point, a proper prefix first. */
  predicate TextLessEq(a: string, b: string)
    decreases |a|
  {
    if a == [] then true
    else if b == [] then false
    else if a[0] != b[0] then a[0] < b[0]
    else TextLessEq(a[1..], b[1..])
  }

  /** Any two strings are comparable. */
  lemma {:induction false} TextLessEqTotal(a: string, b: string)
    ensures TextLessEq(a, b) || TextLessEq(b, a)
    decreases |a|
  {
    if a != [] && b != [] && a[0] == b[0] {
      TextLessEqTotal(a[1..], b[1..]);
    }
  }

  /** Each string is at most the next one. */
  predicate Ascending(s: seq<string>) {
    forall i :: 0 < i < |s| ==> TextLessEq(s[i - 1], s[i])
  }

  function InsertText(x: string, s: seq<string>): (r: seq<string>)
    requires Ascending(s)
    ensures Ascending(r)
    ensures multiset(r) == multiset(s) + multiset{x}
    ensures r[0] == x || (s != [] && r[0] == s[0])
  {
    if s == [] || TextLessEq(x, s[0]) then [x] + s
    else
      TextLessEqTotal(x, s[0]);
      assert s == [s[0]] + s[1..];
      [s[0]] + InsertText(x, s[1..])
  }

  /** `s` in ascending text order. */
  function SortText(s: seq<string>): (r: seq<string>)
    ensures Ascending(r)
    ensures multiset(r) == multiset(s)
  {
    if s == [] then []
    else
      assert s == [s[0]] + s[1..];
      InsertText(s[0], SortText(s[1..]))
  }
}
