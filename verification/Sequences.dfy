/** Sums over sequences, and the facts the other modules need about them. */
module Sequences {

  /** The sum of `f` over the elements of `xs`. */
  function Sum<T>(f: T -> int, xs: seq<T>): int
  {
    if |xs| == 0 then 0 else Sum(f, xs[..|xs| - 1]) + f(xs[|xs| - 1])
  }

  lemma SumSnoc<T>(f: T -> int, xs: seq<T>, x: T)
    ensures Sum(f, xs + [x]) == Sum(f, xs) + f(x)
  {
    assert (xs + [x])[..|xs|] == xs;
  }

  lemma {:induction false} SumConcat<T>(f: T -> int, xs: seq<T>, ys: seq<T>)
    ensures Sum(f, xs + ys) == Sum(f, xs) + Sum(f, ys)
  {
    if ys == [] {
      assert xs + ys == xs;
    } else {
      var front := ys[..|ys| - 1];
      assert xs + ys == (xs + front) + [ys[|ys| - 1]];
      SumSnoc(f, xs + front, ys[|ys| - 1]);
      SumConcat(f, xs, front);
    }
  }

  lemma SumSplit<T>(f: T -> int, xs: seq<T>, i: nat)
    requires i < |xs|
    ensures Sum(f, xs) == Sum(f, xs[..i]) + f(xs[i]) + Sum(f, xs[i + 1..])
  {
    assert xs == (xs[..i] + [xs[i]]) + xs[i + 1..];
    SumConcat(f, xs[..i] + [xs[i]], xs[i + 1..]);
    SumSnoc(f, xs[..i], xs[i]);
  }

  /** Replacing one element changes the sum by the difference of its weights. */
  lemma SumUpdate<T>(f: T -> int, xs: seq<T>, i: nat, x: T)
    requires i < |xs|
    ensures Sum(f, xs[i := x]) == Sum(f, xs) - f(xs[i]) + f(x)
  {
    SumSplit(f, xs, i);
    SumSplit(f, xs[i := x], i);
    assert xs[i := x][..i] == xs[..i] && xs[i := x][i + 1..] == xs[i + 1..];
  }

  /** A sum depends only on the multiset of the summed elements. */
  lemma {:induction false} SumPermutation<T>(f: T -> int, xs: seq<T>, ys: seq<T>)
    requires multiset(xs) == multiset(ys)
    ensures Sum(f, xs) == Sum(f, ys)
  {
    if xs == [] {
      assert |multiset(ys)| == 0;
    } else {
      var x := xs[|xs| - 1];
      var front := xs[..|xs| - 1];
      assert xs == front + [x];
      assert x in multiset(ys);
      var i :| 0 <= i < |ys| && ys[i] == x;
      assert ys == ys[..i] + [x] + ys[i + 1..];
      assert multiset(front) == multiset(xs) - multiset{x};
      assert multiset(ys[..i] + ys[i + 1..]) == multiset(ys) - multiset{x};
      SumPermutation(f, front, ys[..i] + ys[i + 1..]);
      SumConcat(f, ys[..i], ys[i + 1..]);
      SumSplit(f, ys, i);
    }
  }

  lemma {:induction false} SumMonotone<T>(f: T -> int, g: T -> int, xs: seq<T>)
    requires forall x :: x in xs ==> f(x) <= g(x)
    ensures Sum(f, xs) <= Sum(g, xs)
  {
    if xs != [] {
      SumMonotone(f, g, xs[..|xs| - 1]);
    }
  }

  lemma PrefixSnoc<T>(xs: seq<T>, i: nat)
    requires i < |xs|
    ensures xs[..i + 1] == xs[..i] + [xs[i]]
  {
  }

  lemma WholePrefix<T>(xs: seq<T>)
    ensures xs[..|xs|] == xs
  {
  }

  // ---- Changing one element, or adding one ----

  datatype Edit<T> = Keep | Append(item: T) | Replace(at: nat, item: T)

  function Edited<T>(xs: seq<T>, c: Edit<T>): seq<T>
  {
    match c
    case Keep => xs
    case Append(x) => xs + [x]
    case Replace(i, x) => if i < |xs| then xs[i := x] else xs
  }

  /** What an edit adds to a sum. */
  function Delta<T>(f: T -> int, xs: seq<T>, c: Edit<T>): int
  {
    match c
    case Keep => 0
    case Append(x) => f(x)
    case Replace(i, x) => if i < |xs| then f(x) - f(xs[i]) else 0
  }

  lemma SumEdited<T>(f: T -> int, xs: seq<T>, c: Edit<T>)
    ensures Sum(f, Edited(xs, c)) == Sum(f, xs) + Delta(f, xs, c)
  {
    match c
    case Keep =>
    case Append(x) => SumSnoc(f, xs, x);
    case Replace(i, x) => if i < |xs| { SumUpdate(f, xs, i, x); }
  }

  /** A sum of weights that are not negative is at least each of them. */
  lemma {:induction false} SumAtLeast<T>(f: T -> int, xs: seq<T>)
    requires forall x :: x in xs ==> f(x) >= 0
    ensures Sum(f, xs) >= 0
    ensures forall i :: 0 <= i < |xs| ==> Sum(f, xs) >= f(xs[i])
  {
    if |xs| != 0 {
      SumAtLeast(f, xs[..|xs| - 1]);
      assert forall i :: 0 <= i < |xs| - 1 ==> xs[i] == xs[..|xs| - 1][i];
    }
  }

  // ---- Slices and repetitions ----

  /** `slice(0, n)` */
  function Slice<T>(xs: seq<T>, n: int): (r: seq<T>)
    ensures r <= xs
    ensures n >= 0 ==> |r| == if n < |xs| then n else |xs|
    ensures n < 0 ==> |r| == if |xs| + n >= 0 then |xs| + n else 0
  {
    if n >= |xs| then xs else if n >= 0 then xs[..n] else if |xs| + n >= 0 then xs[..|xs| + n] else []
  }

  lemma {:induction false} DistinctOnce<T>(xs: seq<T>)
    requires forall i, j :: 0 <= i < j < |xs| ==> xs[i] != xs[j]
    ensures forall x :: multiset(xs)[x] <= 1
  {
    if |xs| != 0 {
      DistinctOnce(xs[..|xs| - 1]);
      assert xs == xs[..|xs| - 1] + [xs[|xs| - 1]];
    }
  }

  lemma OnceDistinct<T>(xs: seq<T>, i: nat, j: nat)
    requires i < j < |xs| && forall x :: multiset(xs)[x] <= 1
    ensures xs[i] != xs[j]
  {
    assert xs == xs[..i] + [xs[i]] + xs[i + 1..j] + [xs[j]] + xs[j + 1..];
    assert multiset(xs)[xs[i]] <= 1;
  }
}
