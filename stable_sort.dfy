/** A stable sort by an integer key, standing for `Array.prototype.sort`
    called with a comparator of the form `(a, b) => key(a) - key(b)`. Section
    23.1.3.30 of ECMA-262 (2023 edition) requires that sort to be stable, so
    its result is the permutation of the input that is ordered by key and
    keeps equal-key elements in input order; insertion sort computes it. */
module StableSort {
  import opened Lists

  predicate SortedBy<T>(s: seq<T>, key: T -> int)
  {
    forall i, j :: 0 <= i < j < |s| ==> key(s[i]) <= key(s[j])
  }

  /** Inserts `x` before the first element whose key is not smaller. */
  function Insert<T>(x: T, s: seq<T>, key: T -> int): (r: seq<T>)
    ensures |r| == |s| + 1
  {
    if s == [] || key(x) <= key(s[0]) then [x] + s
    else
      assert s == [s[0]] + s[1..];
      [s[0]] + Insert(x, s[1..], key)
  }

  function Sort<T>(s: seq<T>, key: T -> int): (r: seq<T>)
    ensures |r| == |s|
  {
    if s == [] then []
    else
      Insert(s[0], Sort(s[1..], key), key)
  }

  /** Inserting adds exactly `x`. */
  lemma {:induction false} InsertPermutes<T>(x: T, s: seq<T>, key: T -> int)
    ensures multiset(Insert(x, s, key)) == multiset(s) + multiset{x}
  {
    if s != [] && key(x) > key(s[0]) {
      InsertPermutes(x, s[1..], key);
      assert s == [s[0]] + s[1..];
    }
  }

  /** The result is a permutation of the input. */
  lemma {:induction false} SortPermutes<T>(s: seq<T>, key: T -> int)
    ensures multiset(Sort(s, key)) == multiset(s)
  {
    if s != [] {
      SortPermutes(s[1..], key);
      InsertPermutes(s[0], Sort(s[1..], key), key);
      assert s == [s[0]] + s[1..];
    }
  }

  /** The two unfolding steps of `Insert` and `Sort`, for computing a sort
      of a short list step by step. */
  lemma InsertStops<T>(x: T, s: seq<T>, key: T -> int)
    requires s == [] || key(x) <= key(s[0])
    ensures Insert(x, s, key) == [x] + s
  {
  }

  lemma InsertPasses<T>(x: T, y: T, rest: seq<T>, key: T -> int)
    requires key(y) < key(x)
    ensures Insert(x, [y] + rest, key) == [y] + Insert(x, rest, key)
  {
    assert ([y] + rest)[1..] == rest;
  }

  lemma SortUnfolds<T>(x: T, rest: seq<T>, key: T -> int)
    ensures Sort([x] + rest, key) == Insert(x, Sort(rest, key), key)
  {
    assert ([x] + rest)[1..] == rest;
  }

  /** A lower bound on the keys of `s` and of `x` bounds the keys after inserting. */
  lemma {:induction false} InsertKeepsBound<T>(x: T, s: seq<T>, key: T -> int, bound: int)
    requires bound <= key(x)
    requires forall j :: 0 <= j < |s| ==> bound <= key(s[j])
    ensures forall j :: 0 <= j < |s| + 1 ==> bound <= key(Insert(x, s, key)[j])
  {
    if s != [] && key(x) > key(s[0]) {
      InsertKeepsBound(x, s[1..], key, bound);
    }
  }

  lemma {:induction false} InsertSorted<T>(x: T, s: seq<T>, key: T -> int)
    requires SortedBy(s, key)
    ensures SortedBy(Insert(x, s, key), key)
  {
    if s != [] && key(x) > key(s[0]) {
      assert SortedBy(s[1..], key);
      InsertSorted(x, s[1..], key);
      InsertKeepsBound(x, s[1..], key, key(s[0]));
    }
  }

  /** The result is ordered by key. */
  lemma {:induction false} SortIsSorted<T>(s: seq<T>, key: T -> int)
    ensures SortedBy(Sort(s, key), key)
  {
    if s != [] {
      SortIsSorted(s[1..], key);
      InsertSorted(s[0], Sort(s[1..], key), key);
    }
  }

  /** The test "has key `k`". */
  function HasKey<T>(key: T -> int, k: int): T -> bool
  {
    (y: T) => key(y) == k
  }

  lemma {:induction false} InsertFilterSameKey<T(!new)>(x: T, s: seq<T>, key: T -> int, k: int)
    ensures key(x) == k ==>
      Filter(Insert(x, s, key), HasKey(key, k)) == [x] + Filter(s, HasKey(key, k))
    ensures key(x) != k ==>
      Filter(Insert(x, s, key), HasKey(key, k)) == Filter(s, HasKey(key, k))
  {
    var p := HasKey(key, k);
    if s == [] || key(x) <= key(s[0]) {
      assert ([x] + s)[1..] == s;
    } else {
      InsertFilterSameKey(x, s[1..], key, k);
      assert ([s[0]] + Insert(x, s[1..], key))[1..] == Insert(x, s[1..], key);
      assert key(x) == k ==> !p(s[0]);
    }
  }

  /** Stability: for every key, the elements with that key appear in the
      result in the same order as in the input. */
  lemma {:induction false} SortIsStable<T(!new)>(s: seq<T>, key: T -> int, k: int)
    ensures Filter(Sort(s, key), HasKey(key, k)) == Filter(s, HasKey(key, k))
  {
    if s != [] {
      SortIsStable(s[1..], key, k);
      InsertFilterSameKey(s[0], Sort(s[1..], key), key, k);
    }
  }

  /** An input that is already ordered by key is returned unchanged. */
  lemma {:induction false} SortOfSorted<T>(s: seq<T>, key: T -> int)
    requires SortedBy(s, key)
    ensures Sort(s, key) == s
  {
    if s != [] {
      assert SortedBy(s[1..], key);
      SortOfSorted(s[1..], key);
    }
  }
}
