/** Sums and counts over sequences, and how they change with one element. */
module Sums {
  function Sum<X>(xs: seq<X>, f: X -> int): int {
    if xs == [] then 0 else f(xs[0]) + Sum(xs[1..], f)
  }

  /** How many elements f counts at index i. */
  function Count<X>(xs: seq<X>, f: (X, nat) -> int, i: nat): int {
    if xs == [] then 0 else f(xs[0], i) + Count(xs[1..], f, i)
  }

  lemma {:induction false} SumConcat<X>(xs: seq<X>, ys: seq<X>, f: X -> int)
    ensures Sum(xs + ys, f) == Sum(xs, f) + Sum(ys, f)
  {
    if xs == [] {
      assert xs + ys == ys;
    } else {
      assert (xs + ys)[1..] == xs[1..] + ys;
      SumConcat(xs[1..], ys, f);
    }
  }

  lemma SumAppend<X>(xs: seq<X>, x: X, f: X -> int)
    ensures Sum(xs + [x], f) == Sum(xs, f) + f(x)
  {
    SumConcat(xs, [x], f);
  }

  lemma SumUpdate<X>(xs: seq<X>, i: nat, x: X, f: X -> int)
    requires i < |xs|
    ensures Sum(xs[i := x], f) == Sum(xs, f) - f(xs[i]) + f(x)
  {
    var tail := xs[i + 1..];
    assert xs == xs[..i] + ([xs[i]] + tail);
    assert xs[i := x] == xs[..i] + ([x] + tail);
    SumConcat(xs[..i], [xs[i]] + tail, f);
    SumConcat(xs[..i], [x] + tail, f);
  }

  /** A sum of weights in 0..1 is at most the number of elements, and dominates each weight. */
  lemma {:induction false} SumOfBits<X>(xs: seq<X>, f: X -> int)
    requires forall x :: x in xs ==> 0 <= f(x) <= 1
    ensures 0 <= Sum(xs, f) <= |xs|
    ensures forall x :: x in xs ==> f(x) <= Sum(xs, f)
  {
    if xs != [] {
      SumOfBits(xs[1..], f);
      assert forall x :: x in xs ==> x == xs[0] || x in xs[1..];
    }
  }

  lemma {:induction false} SumOfNats<X>(xs: seq<X>, f: X -> int)
    requires forall x :: x in xs ==> 0 <= f(x)
    ensures 0 <= Sum(xs, f)
    ensures forall x :: x in xs ==> f(x) <= Sum(xs, f)
  {
    if xs != [] {
      SumOfNats(xs[1..], f);
      assert forall x :: x in xs ==> x == xs[0] || x in xs[1..];
    }
  }

  lemma {:induction false} SumOfNothing<X>(xs: seq<X>, f: X -> int)
    requires forall x :: x in xs ==> f(x) == 0
    ensures Sum(xs, f) == 0
  {
    if xs != [] {
      SumOfNothing(xs[1..], f);
    }
  }

  lemma {:induction false} CountConcat<X>(xs: seq<X>, ys: seq<X>, f: (X, nat) -> int, i: nat)
    ensures Count(xs + ys, f, i) == Count(xs, f, i) + Count(ys, f, i)
  {
    if xs == [] {
      assert xs + ys == ys;
    } else {
      assert (xs + ys)[1..] == xs[1..] + ys;
      CountConcat(xs[1..], ys, f, i);
    }
  }

  lemma CountAppend<X>(xs: seq<X>, x: X, f: (X, nat) -> int, i: nat)
    ensures Count(xs + [x], f, i) == Count(xs, f, i) + f(x, i)
  {
    CountConcat(xs, [x], f, i);
  }

  lemma CountUpdate<X>(xs: seq<X>, k: nat, x: X, f: (X, nat) -> int, i: nat)
    requires k < |xs|
    ensures Count(xs[k := x], f, i) == Count(xs, f, i) - f(xs[k], i) + f(x, i)
  {
    var tail := xs[k + 1..];
    assert xs == xs[..k] + ([xs[k]] + tail);
    assert xs[k := x] == xs[..k] + ([x] + tail);
    CountConcat(xs[..k], [xs[k]] + tail, f, i);
    CountConcat(xs[..k], [x] + tail, f, i);
  }

  lemma CountRemove<X>(xs: seq<X>, k: nat, f: (X, nat) -> int, i: nat)
    requires k < |xs|
    ensures Count(xs[..k] + xs[k + 1..], f, i) == Count(xs, f, i) - f(xs[k], i)
  {
    var tail := xs[k + 1..];
    assert xs == xs[..k] + ([xs[k]] + tail);
    CountConcat(xs[..k], [xs[k]] + tail, f, i);
    CountConcat(xs[..k], tail, f, i);
  }

  /** Counts of non-negative weights are non-negative and dominate each element's weight. */
  lemma {:induction false} CountOfNats<X>(xs: seq<X>, f: (X, nat) -> int, i: nat)
    requires forall x :: x in xs ==> 0 <= f(x, i)
    ensures 0 <= Count(xs, f, i)
    ensures forall x :: x in xs ==> f(x, i) <= Count(xs, f, i)
  {
    if xs != [] {
      CountOfNats(xs[1..], f, i);
      assert forall x :: x in xs ==> x == xs[0] || x in xs[1..];
    }
  }

  lemma {:induction false} CountOfNothing<X>(xs: seq<X>, f: (X, nat) -> int, i: nat)
    requires forall x :: x in xs ==> f(x, i) == 0
    ensures Count(xs, f, i) == 0
  {
    if xs != [] {
      CountOfNothing(xs[1..], f, i);
    }
  }
}
