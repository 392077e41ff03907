/** Python's `sorted(items, key=...)`: a stable sort. A descending sort (`reverse=True`)
    keeps equal items in their original order too, so it is this sort on the negated key. */
module Sorting {

  /** Python's `s[:k]`; a negative `k` counts from the end. */
  function Take<T>(s: seq<T>, k: int): (r: seq<T>)
    ensures |r| <= |s| && r == s[..|r|]
    ensures k >= 0 ==> |r| == if k <= |s| then k else |s|
  {
    if k >= 0 then if k <= |s| then s[..k] else s
    else if |s| + k >= 0 then s[..|s| + k] else []
  }

  ghost predicate SortedBy<T(!new)>(key: T -> real, s: seq<T>) {
    forall i, j :: 0 <= i < j < |s| ==> key(s[i]) <= key(s[j])
  }

  /** The items of `s` whose key is exactly `k`, in order. */
  ghost function WithKey<T(!new)>(key: T -> real, k: real, s: seq<T>): seq<T> {
    if s == [] then []
    else (if key(s[0]) == k then [s[0]] else []) + WithKey(key, k, s[1..])
  }

  function Insert<T(!new)>(key: T -> real, x: T, s: seq<T>): seq<T> {
    if s == [] || key(x) <= key(s[0]) then [x] + s
    else [s[0]] + Insert(key, x, s[1..])
  }

  function SortBy<T(!new)>(key: T -> real, s: seq<T>): seq<T> {
    if s == [] then [] else Insert(key, s[0], SortBy(key, s[1..]))
  }

  lemma {:induction false} InsertMembers<T(!new)>(key: T -> real, x: T, s: seq<T>)
    ensures multiset(Insert(key, x, s)) == multiset{x} + multiset(s)
    ensures |Insert(key, x, s)| == |s| + 1
  {
    if s != [] && key(s[0]) < key(x) {
      InsertMembers(key, x, s[1..]);
      assert s == [s[0]] + s[1..];
    }
  }

  lemma {:induction false} InsertSorted<T(!new)>(key: T -> real, x: T, s: seq<T>)
    requires SortedBy(key, s)
    ensures SortedBy(key, Insert(key, x, s))
  {
    if s != [] && key(s[0]) < key(x) {
      var t := Insert(key, x, s[1..]);
      InsertSorted(key, x, s[1..]);
      InsertMembers(key, x, s[1..]);
      forall y | y in t ensures key(s[0]) <= key(y) {
        assert y in multiset(t);
        assert y == x || y in s[1..];
      }
    }
  }

  /** The result is a sorted rearrangement of the input. */
  lemma {:induction false} SortSorts<T(!new)>(key: T -> real, s: seq<T>)
    ensures SortedBy(key, SortBy(key, s))
    ensures multiset(SortBy(key, s)) == multiset(s)
    ensures |SortBy(key, s)| == |s|
  {
    if s != [] {
      var t := SortBy(key, s[1..]);
      SortSorts(key, s[1..]);
      InsertSorted(key, s[0], t);
      InsertMembers(key, s[0], t);
      assert s == [s[0]] + s[1..];
    }
  }

  lemma {:induction false} WithKeyCons<T(!new)>(key: T -> real, k: real, x: T, s: seq<T>)
    ensures WithKey(key, k, [x] + s) == if key(x) == k then [x] + WithKey(key, k, s) else WithKey(key, k, s)
  {
    assert ([x] + s)[1..] == s;
  }

  lemma {:induction false} InsertStable<T(!new)>(key: T -> real, x: T, s: seq<T>, k: real)
    ensures WithKey(key, k, Insert(key, x, s)) == (if key(x) == k then [x] else []) + WithKey(key, k, s)
  {
    WithKeyCons(key, k, x, s);
    if s != [] && key(s[0]) < key(x) {
      InsertStable(key, x, s[1..], k);
      WithKeyCons(key, k, s[0], Insert(key, x, s[1..]));
      WithKeyCons(key, k, s[0], s[1..]);
      assert s == [s[0]] + s[1..];
      hide WithKey;
    }
  }

  /** Stability: items with equal keys keep their relative order. */
  lemma {:induction false} SortStable<T(!new)>(key: T -> real, s: seq<T>, k: real)
    ensures WithKey(key, k, SortBy(key, s)) == WithKey(key, k, s)
  {
    if s != [] {
      SortStable(key, s[1..], k);
      InsertStable(key, s[0], SortBy(key, s[1..]), k);
    }
  }

  /** Sorting neither loses nor invents an item. */
  lemma {:induction false} SortMembers<T(!new)>(key: T -> real, s: seq<T>)
    ensures forall x :: x in SortBy(key, s) <==> x in s
  {
    var r := SortBy(key, s);
    SortSorts(key, s);
    forall x ensures x in r <==> x in s {
      assert x in r <==> x in multiset(r);
      assert x in s <==> x in multiset(s);
    }
  }
}
