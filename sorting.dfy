/**
 * A stable sort by a real-valued key. `List.sort` in the Java library is a
 * stable merge sort; what the program relies on is only its result, which is
 * the unique stable ordering by the key. The model computes it by insertion.
 */
module Sorting {

  /** `s` lists its elements in non-decreasing order of `key`. */
  predicate SortedBy<T>(s: seq<T>, key: T -> real)
  {
    forall i, j :: 0 <= i < j < |s| ==> key(s[i]) <= key(s[j])
  }

  /** The elements of `s` whose key is `k`, in their order in `s`. */
  function Filter<T>(s: seq<T>, key: T -> real, k: real): seq<T>
  {
    if s == [] then [] else (if key(s[0]) == k then [s[0]] else []) + Filter(s[1..], key, k)
  }

  /** `r` keeps the relative order of every group of elements of `s` with equal keys. */
  ghost predicate StableWith<T>(r: seq<T>, s: seq<T>, key: T -> real)
  {
    forall k :: Filter(r, key, k) == Filter(s, key, k)
  }

  lemma {:induction false} FilterAppend<T>(a: seq<T>, b: seq<T>, key: T -> real, k: real)
    ensures Filter(a + b, key, k) == Filter(a, key, k) + Filter(b, key, k)
  {
    if a == [] {
      assert a + b == b;
    } else {
      var head := if key(a[0]) == k then [a[0]] else [];
      assert (a + b)[0] == a[0];
      assert (a + b)[1..] == a[1..] + b;
      assert Filter(a + b, key, k) == head + Filter(a[1..] + b, key, k);
      FilterAppend(a[1..], b, key, k);
      assert Filter(a, key, k) == head + Filter(a[1..], key, k);
      assert head + (Filter(a[1..], key, k) + Filter(b, key, k)) == (head + Filter(a[1..], key, k)) + Filter(b, key, k);
    }
  }

  /** Puts `x` in front of the first element whose key is not below its own. */
  function Insert<T>(x: T, s: seq<T>, key: T -> real): seq<T>
  {
    if s == [] || key(x) <= key(s[0]) then [x] + s else [s[0]] + Insert(x, s[1..], key)
  }

  lemma {:induction false} InsertPermutes<T>(x: T, s: seq<T>, key: T -> real)
    ensures |Insert(x, s, key)| == |s| + 1
    ensures multiset(Insert(x, s, key)) == multiset([x] + s)
  {
    if s != [] && key(s[0]) < key(x) {
      InsertPermutes(x, s[1..], key);
      assert s == [s[0]] + s[1..];
    }
  }

  lemma {:induction false} InsertSorted<T>(x: T, s: seq<T>, key: T -> real)
    requires SortedBy(s, key)
    ensures SortedBy(Insert(x, s, key), key)
  {
    if s != [] && key(s[0]) < key(x) {
      var t := Insert(x, s[1..], key);
      InsertSorted(x, s[1..], key);
      InsertPermutes(x, s[1..], key);
      forall i | 0 <= i < |t| ensures key(s[0]) <= key(t[i]) {
        assert t[i] in multiset([x] + s[1..]);
      }
    }
  }

  lemma {:induction false} InsertStable<T>(x: T, s: seq<T>, key: T -> real, k: real)
    ensures Filter(Insert(x, s, key), key, k) == Filter([x] + s, key, k)
  {
    if s != [] && key(s[0]) < key(x) {
      var t := Insert(x, s[1..], key);
      InsertStable(x, s[1..], key, k);
      FilterAppend([s[0]], t, key, k);
      FilterAppend([x], s[1..], key, k);
      FilterAppend([x], s, key, k);
      FilterAppend([s[0]], s[1..], key, k);
      assert s == [s[0]] + s[1..];
    }
  }

  /** The stable ordering of `s` by `key`, built by inserting each element into the sorted rest. */
  function StableSort<T(==)>(s: seq<T>, key: T -> real): (r: seq<T>)
    ensures |r| == |s|
    ensures multiset(r) == multiset(s)
  {
    if s == [] then []
    else
      var t := StableSort(s[1..], key);
      InsertPermutes(s[0], t, key);
      assert s == [s[0]] + s[1..];
      Insert(s[0], t, key)
  }

  /**
   * `StableSort` is the stable ordering: sorted by `key`, and elements with
   * equal keys keep their order in `s`.
   */
  lemma {:induction false} StableSortOrders<T>(s: seq<T>, key: T -> real)
    ensures SortedBy(StableSort(s, key), key)
    ensures StableWith(StableSort(s, key), s, key)
  {
    if s != [] {
      var t := StableSort(s[1..], key);
      StableSortOrders(s[1..], key);
      InsertSorted(s[0], t, key);
      assert s == [s[0]] + s[1..];
      forall k ensures Filter(Insert(s[0], t, key), key, k) == Filter(s, key, k) {
        InsertStable(s[0], t, key, k);
        FilterAppend([s[0]], t, key, k);
        FilterAppend([s[0]], s[1..], key, k);
      }
    }
  }

  /** Sorting a list that is already in order leaves it as it is. */
  lemma {:induction false} SortSortedIsIdentity<T>(s: seq<T>, key: T -> real)
    requires SortedBy(s, key)
    ensures StableSort(s, key) == s
  {
    if s != [] {
      SortSortedIsIdentity(s[1..], key);
      assert s == [s[0]] + s[1..];
    }
  }

  /** Hence sorting twice is the same as sorting once. */
  lemma SortIsIdempotent<T>(s: seq<T>, key: T -> real)
    ensures StableSort(StableSort(s, key), key) == StableSort(s, key)
  {
    StableSortOrders(s, key);
    SortSortedIsIdentity(StableSort(s, key), key);
  }
}
