/** A stable comparison sort, standing for JavaScript's `Array.prototype.sort`. */
module Sorting {

  /** A comparator under which "neither precedes the other" is an equivalence. */
  ghost predicate WeakOrder<T(!new)>(lt: (T, T) -> bool)
  {
    && (forall a, b :: lt(a, b) ==> !lt(b, a))
    && (forall a, b, c :: !lt(a, b) && !lt(b, c) ==> !lt(a, c))
  }

  ghost predicate Indices(o: seq<nat>, n: nat)
  {
    && (forall k :: 0 <= k < |o| ==> o[k] < n)
    && (forall j, k :: 0 <= j < k < |o| ==> o[j] != o[k])
  }

  /** Position `i` sorts ahead of position `j`: a smaller element, or an equal one met earlier. */
  predicate Ahead<T>(lt: (T, T) -> bool, xs: seq<T>, i: nat, j: nat)
    requires i < |xs| && j < |xs|
  {
    lt(xs[i], xs[j]) || (!lt(xs[j], xs[i]) && i < j)
  }

  /** `o` lists positions of `xs` by `lt`, equal elements in input order. */
  ghost predicate StablyOrdered<T>(lt: (T, T) -> bool, xs: seq<T>, o: seq<nat>)
    requires forall k :: 0 <= k < |o| ==> o[k] < |xs|
  {
    forall j, k :: 0 <= j < k < |o| ==> Ahead(lt, xs, o[j], o[k])
  }

  /** Puts position `i` behind every listed position whose element it does not precede. */
  function Place<T>(lt: (T, T) -> bool, xs: seq<T>, o: seq<nat>, i: nat): (r: seq<nat>)
    requires forall k :: 0 <= k < |o| ==> o[k] < |xs|
    requires i < |xs|
    ensures |r| == |o| + 1
    ensures multiset(r) == multiset(o) + multiset{i}
    ensures forall k :: 0 <= k < |r| ==> r[k] < |xs|
  {
    if |o| == 0 || !lt(xs[i], xs[o[|o| - 1]]) then
      o + [i]
    else
      var front := o[..|o| - 1];
      assert o == front + [o[|o| - 1]];
      Place(lt, xs, front, i) + [o[|o| - 1]]
  }

  /** The positions of `xs` in sorted order. */
  function Order<T>(lt: (T, T) -> bool, xs: seq<T>): (o: seq<nat>)
    ensures |o| == |xs|
    ensures forall k :: 0 <= k < |o| ==> o[k] < |xs|
  {
    if |xs| == 0 then [] else Place(lt, xs, Order(lt, xs[..|xs| - 1]), |xs| - 1)
  }

  function Pick<T>(xs: seq<T>, o: seq<nat>): (r: seq<T>)
    requires forall k :: 0 <= k < |o| ==> o[k] < |xs|
    ensures |r| == |o|
    ensures forall k :: 0 <= k < |o| ==> r[k] == xs[o[k]]
  {
    seq(|o|, k requires 0 <= k < |o| => xs[o[k]])
  }

  function StableSort<T>(lt: (T, T) -> bool, xs: seq<T>): (r: seq<T>)
    ensures |r| == |xs|
  {
    Pick(xs, Order(lt, xs))
  }

  lemma AheadOfNewcomer<T(!new)>(lt: (T, T) -> bool, xs: seq<T>, j: nat, last: nat, i: nat)
    requires WeakOrder(lt) && last < i < |xs| && j < i
    requires j == last || Ahead(lt, xs, j, last)
    requires !lt(xs[i], xs[last])
    ensures Ahead(lt, xs, j, i)
  {
    assert !lt(xs[i], xs[last]) && !lt(xs[last], xs[j]);
  }

  lemma {:induction false} PlaceOrdered<T(!new)>(lt: (T, T) -> bool, xs: seq<T>, o: seq<nat>, i: nat)
    requires WeakOrder(lt) && i < |xs|
    requires Indices(o, i) && StablyOrdered(lt, xs, o)
    ensures Indices(Place(lt, xs, o, i), |xs|) && StablyOrdered(lt, xs, Place(lt, xs, o, i))
  {
    if o == [] {
    } else if !lt(xs[i], xs[o[|o| - 1]]) {
      forall j | 0 <= j < |o| ensures Ahead(lt, xs, o[j], i) {
        AheadOfNewcomer(lt, xs, o[j], o[|o| - 1], i);
      }
    } else {
      var front := o[..|o| - 1];
      PlaceOrdered(lt, xs, front, i);
      PlacedBehind(lt, xs, o, i, Place(lt, xs, front, i));
    }
  }

  lemma PlacedBehind<T(!new)>(lt: (T, T) -> bool, xs: seq<T>, o: seq<nat>, i: nat, r: seq<nat>)
    requires i < |xs| && Indices(o, i) && StablyOrdered(lt, xs, o)
    requires o != [] && lt(xs[i], xs[o[|o| - 1]])
    requires Indices(r, |xs|) && StablyOrdered(lt, xs, r)
    requires multiset(r) == multiset(o[..|o| - 1]) + multiset{i}
    ensures Indices(r + [o[|o| - 1]], |xs|) && StablyOrdered(lt, xs, r + [o[|o| - 1]])
  {
    var front, last := o[..|o| - 1], o[|o| - 1];
    forall j | 0 <= j < |r| ensures r[j] != last && Ahead(lt, xs, r[j], last) {
      assert r[j] in multiset(r);
      assert r[j] == i || r[j] in multiset(front);
      if r[j] != i {
        var k :| 0 <= k < |front| && front[k] == r[j];
        assert o[k] == front[k];
      }
    }
  }

  lemma {:induction false} OrderStable<T(!new)>(lt: (T, T) -> bool, xs: seq<T>)
    requires WeakOrder(lt)
    ensures Indices(Order(lt, xs), |xs|) && StablyOrdered(lt, xs, Order(lt, xs))
  {
    if xs != [] {
      var front := xs[..|xs| - 1];
      OrderStable(lt, front);
      var o := Order(lt, front);
      assert forall k :: 0 <= k < |o| ==> xs[o[k]] == front[o[k]];
      PlaceOrdered(lt, xs, o, |xs| - 1);
    }
  }

  /** Every position is listed. */
  lemma {:induction false} OrderComplete<T>(lt: (T, T) -> bool, xs: seq<T>, i: nat)
    requires i < |xs|
    ensures i in Order(lt, xs)
  {
    var o := Order(lt, xs[..|xs| - 1]);
    if i < |xs| - 1 {
      OrderComplete(lt, xs[..|xs| - 1], i);
      assert i in multiset(o);
    }
    assert i in multiset(Place(lt, xs, o, |xs| - 1));
  }

  lemma {:induction false} PlacePicks<T>(lt: (T, T) -> bool, xs: seq<T>, o: seq<nat>, i: nat)
    requires i < |xs| && forall k :: 0 <= k < |o| ==> o[k] < |xs|
    ensures multiset(Pick(xs, Place(lt, xs, o, i))) == multiset(Pick(xs, o)) + multiset{xs[i]}
  {
    if |o| == 0 || !lt(xs[i], xs[o[|o| - 1]]) {
      assert Pick(xs, o + [i]) == Pick(xs, o) + [xs[i]];
    } else {
      var front, last := o[..|o| - 1], o[|o| - 1];
      PlacePicks(lt, xs, front, i);
      assert Pick(xs, Place(lt, xs, o, i)) == Pick(xs, Place(lt, xs, front, i)) + [xs[last]];
      assert Pick(xs, o) == Pick(xs, front) + [xs[last]];
    }
  }

  lemma PickFront<T>(xs: seq<T>, o: seq<nat>)
    requires |xs| > 0 && forall k :: 0 <= k < |o| ==> o[k] < |xs| - 1
    ensures Pick(xs, o) == Pick(xs[..|xs| - 1], o)
  {
  }

  lemma MultisetSnoc<T>(xs: seq<T>)
    requires |xs| > 0
    ensures multiset(xs) == multiset(xs[..|xs| - 1]) + multiset{xs[|xs| - 1]}
  {
    assert xs == xs[..|xs| - 1] + [xs[|xs| - 1]];
  }

  /** Sorting rearranges: nothing is lost or invented. */
  lemma {:induction false} SortPermutes<T>(lt: (T, T) -> bool, xs: seq<T>)
    ensures multiset(StableSort(lt, xs)) == multiset(xs)
  {
    if |xs| != 0 {
      var front := xs[..|xs| - 1];
      SortPermutes(lt, front);
      PickFront(xs, Order(lt, front));
      PlacePicks(lt, xs, Order(lt, front), |xs| - 1);
      MultisetSnoc(xs);
    }
  }

  lemma SortSorted<T(!new)>(lt: (T, T) -> bool, xs: seq<T>)
    requires WeakOrder(lt)
    ensures forall j, k :: 0 <= j < k < |xs| ==> !lt(StableSort(lt, xs)[k], StableSort(lt, xs)[j])
  {
    OrderStable(lt, xs);
  }
}
