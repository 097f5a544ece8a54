/** Array.prototype.sort with a numeric key: stable, ascending. */
module StableSort {
  function Insert<T>(x: T, xs: seq<T>, key: T -> int): (r: seq<T>)
    ensures |r| == |xs| + 1
  {
    if xs == [] || key(x) <= key(xs[0]) then [x] + xs else [xs[0]] + Insert(x, xs[1..], key)
  }

  function SortBy<T>(xs: seq<T>, key: T -> int): (r: seq<T>)
    ensures |r| == |xs|
  {
    if xs == [] then [] else Insert(xs[0], SortBy(xs[1..], key), key)
  }

  ghost predicate Ascending<T>(xs: seq<T>, key: T -> int) {
    forall i, j :: 0 <= i < j < |xs| ==> key(xs[i]) <= key(xs[j])
  }

  lemma {:induction false} InsertPermutes<T>(x: T, xs: seq<T>, key: T -> int)
    ensures multiset(Insert(x, xs, key)) == multiset{x} + multiset(xs)
  {
    if xs != [] && key(x) > key(xs[0]) {
      InsertPermutes(x, xs[1..], key);
      assert xs == [xs[0]] + xs[1..];
    }
  }

  lemma ConsAscends<T>(x: T, xs: seq<T>, key: T -> int)
    requires Ascending(xs, key) && forall y :: y in xs ==> key(x) <= key(y)
    ensures Ascending([x] + xs, key)
  {
  }

  lemma TailAscends<T>(xs: seq<T>, key: T -> int)
    requires Ascending(xs, key) && xs != []
    ensures Ascending(xs[1..], key) && forall y :: y in xs ==> key(xs[0]) <= key(y)
  {
  }

  lemma {:induction false} InsertSorts<T>(x: T, xs: seq<T>, key: T -> int)
    requires Ascending(xs, key)
    ensures Ascending(Insert(x, xs, key), key)
    ensures forall y :: y in Insert(x, xs, key) ==> y == x || y in xs
  {
    if xs == [] {
      ConsAscends(x, xs, key);
    } else {
      TailAscends(xs, key);
      if key(x) <= key(xs[0]) {
        ConsAscends(x, xs, key);
      } else {
        InsertSorts(x, xs[1..], key);
        ConsAscends(xs[0], Insert(x, xs[1..], key), key);
      }
    }
  }

  /** The result is an ascending permutation. */
  lemma {:induction false} SortBySorts<T>(xs: seq<T>, key: T -> int)
    ensures Ascending(SortBy(xs, key), key)
    ensures multiset(SortBy(xs, key)) == multiset(xs)
  {
    if xs != [] {
      SortBySorts(xs[1..], key);
      InsertSorts(xs[0], SortBy(xs[1..], key), key);
      InsertPermutes(xs[0], SortBy(xs[1..], key), key);
      assert xs == [xs[0]] + xs[1..];
    }
  }
}
