/** Ordering a list by a caller-supplied "comes no later than" relation, as
    the store code does with `Array.prototype.sort` and a comparator.

    The relation must be a total preorder; the result is a permutation of the
    input in which every element comes no later than each element after it.
 */
module Sorting {

  /** `before` is total and transitive. */
  ghost predicate TotalPreorder<T(!new)>(before: (T, T) -> bool) {
    && (forall a, b :: before(a, b) || before(b, a))
    && (forall a, b, c :: before(a, b) && before(b, c) ==> before(a, c))
  }

  predicate SortedBy<T>(xs: seq<T>, before: (T, T) -> bool) {
    forall i, j :: 0 <= i < j < |xs| ==> before(xs[i], xs[j])
  }

  /** No element occurs twice. */
  predicate NoDuplicates<T(==)>(xs: seq<T>) {
    forall i, j :: 0 <= i < j < |xs| ==> xs[i] != xs[j]
  }

  /** Puts `x` in front of the first element it comes no later than. */
  function Insert<T(==,!new)>(x: T, xs: seq<T>, before: (T, T) -> bool): (r: seq<T>)
    requires TotalPreorder(before) && SortedBy(xs, before)
    ensures |r| == |xs| + 1
    ensures SortedBy(r, before)
    ensures multiset(r) == multiset(xs) + multiset{x}
    ensures forall y :: y in r <==> y == x || y in xs
    ensures NoDuplicates(xs) && x !in xs ==> NoDuplicates(r)
  {
    if |xs| == 0 then [x]
    else if before(x, xs[0]) then
      forall y | y in xs ensures before(x, y) {
        HeadFirst(xs, before, y);
      }
      SortedCons(x, xs, before);
      NoDuplicatesCons(x, xs);
      [x] + xs
    else
      assert xs == [xs[0]] + xs[1..];
      var rest := Insert(x, xs[1..], before);
      forall y | y in rest ensures before(xs[0], y) {
        HeadFirst(xs, before, y);
      }
      SortedCons(xs[0], rest, before);
      NoDuplicatesCons(xs[0], rest);
      [xs[0]] + rest
  }

  /** The head of a sorted list comes no later than any of its elements. */
  lemma HeadFirst<T(!new)>(xs: seq<T>, before: (T, T) -> bool, y: T)
    requires TotalPreorder(before) && SortedBy(xs, before) && |xs| > 0
    ensures y in xs ==> before(xs[0], y)
  {
    if y in xs {
      var j :| 0 <= j < |xs| && xs[j] == y;
      if j == 0 {
        assert before(y, y) || before(y, y);
      }
    }
  }

  lemma NoDuplicatesCons<T>(x: T, xs: seq<T>)
    ensures NoDuplicates(xs) && x !in xs ==> NoDuplicates([x] + xs)
  {
    if NoDuplicates(xs) && x !in xs {
      var r := [x] + xs;
      forall i, j | 0 <= i < j < |r| ensures r[i] != r[j] {
        assert r[j] == xs[j - 1];
        if i > 0 {
          assert r[i] == xs[i - 1];
        }
      }
    }
  }

  lemma SortedCons<T(!new)>(x: T, xs: seq<T>, before: (T, T) -> bool)
    requires SortedBy(xs, before)
    requires forall y :: y in xs ==> before(x, y)
    ensures SortedBy([x] + xs, before)
  {
    var r := [x] + xs;
    forall i, j | 0 <= i < j < |r| ensures before(r[i], r[j]) {
      assert r[j] == xs[j - 1];
      if i > 0 {
        assert r[i] == xs[i - 1];
      }
    }
  }

  function Sort<T(==,!new)>(xs: seq<T>, before: (T, T) -> bool): (r: seq<T>)
    requires TotalPreorder(before)
    ensures |r| == |xs|
    ensures SortedBy(r, before)
    ensures multiset(r) == multiset(xs)
    ensures forall y :: y in r <==> y in xs
    ensures NoDuplicates(xs) ==> NoDuplicates(r)
  {
    if |xs| == 0 then []
    else
      assert xs == [xs[0]] + xs[1..];
      var rest := Sort(xs[1..], before);
      assert NoDuplicates(xs) ==> xs[0] !in xs[1..];
      Insert(xs[0], rest, before)
  }
}
