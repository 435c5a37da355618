/** Sums split by a key: what is summed per group adds up to what is summed over all. */
module Grouping {
  import opened Sequences

  /** `f` on the elements of group `k`, and zero elsewhere. */
  function Within<T, K(==)>(keyOf: T -> K, f: T -> int, k: K): T -> int
  {
    (x: T) => if keyOf(x) == k then f(x) else 0
  }

  function One<T>(): T -> int { (x: T) => 1 }

  /** The sum of each group. */
  function GroupSum<T, K(==)>(keyOf: T -> K, f: T -> int, xs: seq<T>): K -> int
  {
    (k: K) => Sum(Within(keyOf, f, k), xs)
  }

  /** What one element adds to each group. */
  function Share<T, K(==)>(keyOf: T -> K, f: T -> int, x: T): K -> int
  {
    (k: K) => if keyOf(x) == k then f(x) else 0
  }

  ghost predicate Distinct<K>(groups: seq<K>) { forall i, j :: 0 <= i < j < |groups| ==> groups[i] != groups[j] }

  lemma {:induction false} NoShare<T, K>(keyOf: T -> K, f: T -> int, x: T, groups: seq<K>)
    requires keyOf(x) !in groups
    ensures Sum(Share(keyOf, f, x), groups) == 0
  {
    if |groups| != 0 {
      NoShare(keyOf, f, x, groups[..|groups| - 1]);
    }
  }

  lemma {:induction false} OneShare<T, K>(keyOf: T -> K, f: T -> int, x: T, groups: seq<K>)
    requires Distinct(groups) && keyOf(x) in groups
    ensures Sum(Share(keyOf, f, x), groups) == f(x)
  {
    var n := |groups| - 1;
    if groups[n] == keyOf(x) {
      NoShare(keyOf, f, x, groups[..n]);
    } else {
      OneShare(keyOf, f, x, groups[..n]);
    }
  }

  lemma {:induction false} OneElementMore<T, K>(keyOf: T -> K, f: T -> int, xs: seq<T>, x: T, groups: seq<K>)
    ensures Sum(GroupSum(keyOf, f, xs + [x]), groups)
        == Sum(GroupSum(keyOf, f, xs), groups) + Sum(Share(keyOf, f, x), groups)
  {
    if |groups| != 0 {
      OneElementMore(keyOf, f, xs, x, groups[..|groups| - 1]);
      SumSnoc(Within(keyOf, f, groups[|groups| - 1]), xs, x);
    }
  }

  lemma {:induction false} NothingGrouped<T, K>(keyOf: T -> K, f: T -> int, groups: seq<K>)
    ensures Sum(GroupSum(keyOf, f, []), groups) == 0
  {
    if |groups| != 0 {
      NothingGrouped(keyOf, f, groups[..|groups| - 1]);
    }
  }

  /** Distinct groups that take in every element conserve every sum. */
  lemma {:induction false} GroupsConserve<T, K>(keyOf: T -> K, f: T -> int, xs: seq<T>, groups: seq<K>)
    requires Distinct(groups) && forall x :: x in xs ==> keyOf(x) in groups
    ensures Sum(GroupSum(keyOf, f, xs), groups) == Sum(f, xs)
  {
    if |xs| == 0 {
      assert xs == [];
      NothingGrouped(keyOf, f, groups);
    } else {
      var front, x := xs[..|xs| - 1], xs[|xs| - 1];
      assert xs == front + [x];
      assert x in xs && forall y :: y in front ==> y in xs;
      GroupsConserve(keyOf, f, front, groups);
      OneElementMore(keyOf, f, front, x, groups);
      OneShare(keyOf, f, x, groups);
    }
  }

  lemma {:induction false} SumOfOnes<T>(xs: seq<T>)
    ensures Sum(One(), xs) == |xs|
  {
    if |xs| != 0 {
      SumOfOnes(xs[..|xs| - 1]);
    }
  }

  /** A group is counted exactly if it has an element. */
  lemma {:induction false} CountPositive<T, K>(keyOf: T -> K, k: K, xs: seq<T>)
    ensures Sum(Within(keyOf, One(), k), xs) >= 0
    ensures Sum(Within(keyOf, One(), k), xs) > 0 <==> exists x :: x in xs && keyOf(x) == k
  {
    if |xs| != 0 {
      var front, x := xs[..|xs| - 1], xs[|xs| - 1];
      CountPositive(keyOf, k, front);
      assert xs == front + [x];
    }
  }
}
