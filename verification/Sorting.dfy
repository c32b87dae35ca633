/** A stable sort by an integer key, the contract of Python's `sorted(xs, key=...)`. */
module Sorting {
  ghost predicate Sorted<T(!new)>(xs: seq<T>, key: T -> int) {
    forall i, j | 0 <= i < j < |xs| :: key(xs[i]) <= key(xs[j])
  }

  /** The elements with a given key, in order. */
  function OfKey<T(!new)>(xs: seq<T>, key: T -> int, k: int): (r: seq<T>)
    ensures forall x :: x in r <==> x in xs && key(x) == k
  {
    if xs == [] then []
    else if key(xs[0]) == k then [xs[0]] + OfKey(xs[1..], key, k)
    else OfKey(xs[1..], key, k)
  }

  function Insert<T(!new)>(x: T, ys: seq<T>, key: T -> int): (r: seq<T>)
    ensures multiset(r) == multiset([x] + ys)
  {
    if ys == [] || key(x) <= key(ys[0]) then [x] + ys
    else
      assert ys == [ys[0]] + ys[1..];
      [ys[0]] + Insert(x, ys[1..], key)
  }

  function StableSort<T(!new)>(xs: seq<T>, key: T -> int): (r: seq<T>)
    ensures multiset(r) == multiset(xs)
  {
    if xs == [] then []
    else
      assert xs == [xs[0]] + xs[1..];
      Insert(xs[0], StableSort(xs[1..], key), key)
  }

  lemma {:induction false} InsertSorted<T(!new)>(x: T, ys: seq<T>, key: T -> int)
    requires Sorted(ys, key)
    ensures Sorted(Insert(x, ys, key), key)
  {
    if ys == [] || key(x) <= key(ys[0]) {
    } else {
      var rest := Insert(x, ys[1..], key);
      InsertSorted(x, ys[1..], key);
      forall i | 0 <= i < |rest|
        ensures key(ys[0]) <= key(rest[i])
      {
        assert rest[i] in multiset([x] + ys[1..]);
      }
    }
  }

  lemma {:induction false} InsertIsStable<T(!new)>(x: T, ys: seq<T>, key: T -> int, k: int)
    requires Sorted(ys, key)
    ensures OfKey(Insert(x, ys, key), key, k) == (if key(x) == k then [x] else []) + OfKey(ys, key, k)
  {
    if ys == [] || key(x) <= key(ys[0]) {
      assert ([x] + ys)[1..] == ys;
    } else {
      InsertIsStable(x, ys[1..], key, k);
      var rest := Insert(x, ys[1..], key);
      assert ([ys[0]] + rest)[1..] == rest;
    }
  }

  /** The result is sorted, and elements of equal key keep their order. */
  lemma {:induction false} StableSortIsStable<T(!new)>(xs: seq<T>, key: T -> int)
    ensures Sorted(StableSort(xs, key), key)
    ensures forall k :: OfKey(StableSort(xs, key), key, k) == OfKey(xs, key, k)
  {
    if xs != [] {
      var rest := StableSort(xs[1..], key);
      StableSortIsStable(xs[1..], key);
      InsertSorted(xs[0], rest, key);
      forall k
        ensures OfKey(StableSort(xs, key), key, k) == OfKey(xs, key, k)
      {
        InsertIsStable(xs[0], rest, key, k);
      }
    }
  }

  lemma HeadKeyIsLeast<T(!new)>(a: seq<T>, b: seq<T>, key: T -> int)
    requires a != [] && Sorted(b, key)
    requires forall k :: OfKey(a, key, k) == OfKey(b, key, k)
    ensures b != [] && key(b[0]) <= key(a[0])
  {
    assert a[0] in OfKey(a, key, key(a[0]));
    assert a[0] in b;
  }

  /** Sortedness and stability leave one result only. */
  lemma {:induction false} StableSortUnique<T(!new)>(a: seq<T>, b: seq<T>, key: T -> int)
    requires Sorted(a, key) && Sorted(b, key)
    requires forall k :: OfKey(a, key, k) == OfKey(b, key, k)
    ensures a == b
    decreases |a|
  {
    if a == [] {
      if b != [] {
        HeadKeyIsLeast(b, a, key);
      }
    } else {
      HeadKeyIsLeast(a, b, key);
      HeadKeyIsLeast(b, a, key);
      assert OfKey(a, key, key(a[0]))[0] == OfKey(b, key, key(a[0]))[0];
      forall k
        ensures OfKey(a[1..], key, k) == OfKey(b[1..], key, k)
      {
        if k == key(a[0]) {
          assert OfKey(a, key, k)[1..] == OfKey(a[1..], key, k);
          assert OfKey(b, key, k)[1..] == OfKey(b[1..], key, k);
        } else {
          assert OfKey(a, key, k) == OfKey(b, key, k);
        }
      }
      StableSortUnique(a[1..], b[1..], key);
    }
  }
}
