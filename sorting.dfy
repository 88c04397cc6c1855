/**
 * Python's `sorted(items, key=..., reverse=True)`, as the command layer uses
 * it: a stable sort by descending key. Each item is paired with its key;
 * items with equal keys keep their input order.
 */
module Sorting {

  /** Keys never increase along the sequence. */
  predicate NonIncreasing<T>(xs: seq<(int, T)>)
  {
    forall i, j :: 0 <= i < j < |xs| ==> xs[i].0 >= xs[j].0
  }

  /** The elements whose key is `k`, in their order in `xs`. */
  function WithKey<T>(xs: seq<(int, T)>, k: int): (r: seq<(int, T)>)
    ensures |r| <= |xs|
    ensures forall i :: 0 <= i < |r| ==> r[i].0 == k
    decreases |xs|
  {
    if xs == [] then []
    else (if xs[0].0 == k then [xs[0]] else []) + WithKey(xs[1..], k)
  }

  /** Places `x` before the first element whose key does not exceed its own. */
  function Insert<T>(x: (int, T), xs: seq<(int, T)>): (r: seq<(int, T)>)
    ensures |r| == |xs| + 1
    decreases |xs|
  {
    if xs == [] || xs[0].0 <= x.0 then [x] + xs
    else [xs[0]] + Insert(x, xs[1..])
  }

  /** The stable descending sort: each element goes in front of the equal keys that follow it in the input. */
  function SortDescending<T>(xs: seq<(int, T)>): (r: seq<(int, T)>)
    ensures |r| == |xs|
    decreases |xs|
  {
    if xs == [] then [] else Insert(xs[0], SortDescending(xs[1..]))
  }

  /** The items of the pairs, in order. */
  function Items<T>(xs: seq<(int, T)>): (r: seq<T>)
    ensures |r| == |xs| && forall i :: 0 <= i < |xs| ==> r[i] == xs[i].1
  {
    seq(|xs|, i requires 0 <= i < |xs| => xs[i].1)
  }

  lemma {:induction false} InsertPermutes<T>(x: (int, T), xs: seq<(int, T)>)
    ensures multiset(Insert(x, xs)) == multiset(xs) + multiset{x}
    decreases |xs|
  {
    if xs != [] && xs[0].0 > x.0 {
      InsertPermutes(x, xs[1..]);
      assert xs == [xs[0]] + xs[1..];
    }
  }

  lemma {:induction false} InsertKeepsOrder<T>(x: (int, T), xs: seq<(int, T)>)
    requires NonIncreasing(xs)
    ensures NonIncreasing(Insert(x, xs))
    decreases |xs|
  {
    if xs != [] && xs[0].0 > x.0 {
      var rest := Insert(x, xs[1..]);
      InsertKeepsOrder(x, xs[1..]);
      InsertPermutes(x, xs[1..]);
      forall j | 0 <= j < |rest|
        ensures xs[0].0 >= rest[j].0
      {
        assert rest[j] in multiset(rest);
        if rest[j] != x {
          assert rest[j] in multiset(xs[1..]);
          var k :| 0 <= k < |xs[1..]| && xs[1..][k] == rest[j];
          assert xs[k + 1] == rest[j];
        }
      }
    }
  }

  lemma WithKeyCons<T>(x: (int, T), xs: seq<(int, T)>, k: int)
    ensures WithKey([x] + xs, k) == (if x.0 == k then [x] else []) + WithKey(xs, k)
  {
    assert ([x] + xs)[0] == x;
    assert ([x] + xs)[1..] == xs;
  }

  lemma {:induction false} InsertWithKey<T>(x: (int, T), xs: seq<(int, T)>, k: int)
    ensures WithKey(Insert(x, xs), k) == (if x.0 == k then [x] else []) + WithKey(xs, k)
    decreases |xs|
  {
    if xs == [] || xs[0].0 <= x.0 {
      WithKeyCons(x, xs, k);
    } else {
      InsertWithKey(x, xs[1..], k);
      WithKeyCons(xs[0], Insert(x, xs[1..]), k);
      WithKeyCons(xs[0], xs[1..], k);
      assert xs == [xs[0]] + xs[1..];
    }
  }

  /** The result is ordered by non-increasing key. */
  lemma {:induction false} SortOrders<T>(xs: seq<(int, T)>)
    ensures NonIncreasing(SortDescending(xs))
    decreases |xs|
  {
    if xs != [] {
      SortOrders(xs[1..]);
      InsertKeepsOrder(xs[0], SortDescending(xs[1..]));
    }
  }

  /** The result is a permutation of the input. */
  lemma {:induction false} SortPermutes<T>(xs: seq<(int, T)>)
    ensures multiset(SortDescending(xs)) == multiset(xs)
    decreases |xs|
  {
    if xs != [] {
      SortPermutes(xs[1..]);
      InsertPermutes(xs[0], SortDescending(xs[1..]));
      assert xs == [xs[0]] + xs[1..];
    }
  }

  /** Stability: the elements of any one key appear in their input order. */
  lemma {:induction false} SortStable<T>(xs: seq<(int, T)>, k: int)
    ensures WithKey(SortDescending(xs), k) == WithKey(xs, k)
    decreases |xs|
  {
    if xs != [] {
      SortStable(xs[1..], k);
      InsertWithKey(xs[0], SortDescending(xs[1..]), k);
      WithKeyCons(xs[0], xs[1..], k);
      assert xs == [xs[0]] + xs[1..];
    }
  }

  /** Already ordered input is returned unchanged. */
  lemma {:induction false} SortOrderedIdentity<T>(xs: seq<(int, T)>)
    requires NonIncreasing(xs)
    ensures SortDescending(xs) == xs
    decreases |xs|
  {
    if xs != [] {
      SortOrderedIdentity(xs[1..]);
      assert SortDescending(xs[1..]) == xs[1..];
      assert xs == [xs[0]] + xs[1..];
    }
  }

  lemma ItemsAppend<T>(xs: seq<(int, T)>, ys: seq<(int, T)>)
    ensures Items(xs + ys) == Items(xs) + Items(ys)
  {
  }

  lemma ItemsCons<T>(x: (int, T), xs: seq<(int, T)>)
    ensures Items([x] + xs) == [x.1] + Items(xs)
  {
  }

  /** Inserting a pair adds its item to the items. */
  lemma {:induction false} ItemsInsert<T>(x: (int, T), xs: seq<(int, T)>)
    ensures multiset(Items(Insert(x, xs))) == multiset(Items(xs)) + multiset{x.1}
    decreases |xs|
  {
    if xs == [] || xs[0].0 <= x.0 {
      ItemsCons(x, xs);
    } else {
      ItemsInsert(x, xs[1..]);
      ItemsCons(xs[0], Insert(x, xs[1..]));
      ItemsCons(xs[0], xs[1..]);
      assert xs == [xs[0]] + xs[1..];
    }
  }

  /** Sorting permutes the items. */
  lemma {:induction false} ItemsSort<T>(xs: seq<(int, T)>)
    ensures multiset(Items(SortDescending(xs))) == multiset(Items(xs))
    decreases |xs|
  {
    if xs != [] {
      ItemsSort(xs[1..]);
      ItemsInsert(xs[0], SortDescending(xs[1..]));
      ItemsCons(xs[0], xs[1..]);
      assert xs == [xs[0]] + xs[1..];
    }
  }
}
