/** `sort(results).desc(key)` from the fast-sort library: the model sorts by
    insertion and promises only what the callers rely on, a permutation of
    the input whose keys never increase. */
module Sorting {

  /** Keys never increase along the sequence. */
  ghost predicate NonIncreasing<T>(xs: seq<T>, key: T -> real) {
    forall i, j | 0 <= i < j < |xs| :: key(xs[i]) >= key(xs[j])
  }

  /** Places `x` in front of the first element whose key is smaller. */
  function Insert<T>(x: T, xs: seq<T>, key: T -> real): (r: seq<T>)
    requires NonIncreasing(xs, key)
    ensures NonIncreasing(r, key)
    ensures multiset(r) == multiset(xs) + multiset{x}
    ensures |r| == |xs| + 1 && (r[0] == x || (xs != [] && r[0] == xs[0]))
    decreases |xs|
  {
    if xs == [] || key(x) >= key(xs[0]) then
      [x] + xs
    else
      assert xs == [xs[0]] + xs[1..];
      var rest := Insert(x, xs[1..], key);
      HeadOnTop(xs[0], rest, key);
      [xs[0]] + rest
  }

  /** An element whose key is at least that of the head of a non-increasing
      sequence can go in front of it. */
  lemma HeadOnTop<T>(y: T, rest: seq<T>, key: T -> real)
    requires NonIncreasing(rest, key)
    requires rest != [] ==> key(rest[0]) <= key(y)
    ensures NonIncreasing([y] + rest, key)
  {
    var r := [y] + rest;
    forall i, j | 0 <= i < j < |r|
      ensures key(r[i]) >= key(r[j])
    {
      if i == 0 {
        assert r[j] == rest[j - 1];
        assert key(rest[j - 1]) <= key(rest[0]);
      } else {
        assert r[i] == rest[i - 1] && r[j] == rest[j - 1];
      }
    }
  }

  /** The sorted copy: a permutation of `xs` in non-increasing key order. */
  function SortDescBy<T>(xs: seq<T>, key: T -> real): (r: seq<T>)
    ensures NonIncreasing(r, key)
    ensures multiset(r) == multiset(xs)
    decreases |xs|
  {
    if xs == [] then []
    else
      assert xs == [xs[0]] + xs[1..];
      Insert(xs[0], SortDescBy(xs[1..], key), key)
  }
}
