/** Sums and maxima over lists, and why a maximum does not depend on the order of the list. */
module Aggregates {
  import opened Prelude
  import opened Ordering

  /** `sum(xs)`. */
  function Sum(xs: seq<real>): real { if xs == [] then 0.0 else Sum(xs[..|xs| - 1]) + xs[|xs| - 1] }

  /** `max(xs, default=default)`. */
  function MaxOf(xs: seq<real>, default_: real): real {
    if xs == [] then default_
    else if |xs| == 1 then xs[0]
    else Max(xs[0], MaxOf(xs[1..], default_))
  }

  lemma {:induction false} MaxOfIsMax(xs: seq<real>, default_: real)
    ensures xs == [] ==> MaxOf(xs, default_) == default_
    ensures xs != [] ==> MaxOf(xs, default_) in xs
    ensures forall x :: x in xs ==> x <= MaxOf(xs, default_)
  {
    if |xs| > 1 {
      MaxOfIsMax(xs[1..], default_);
      assert xs == [xs[0]] + xs[1..];
    }
  }

  lemma MaxOfPermutation(a: seq<real>, b: seq<real>, default_: real)
    requires Permutation(a, b)
    ensures MaxOf(a, default_) == MaxOf(b, default_)
  {
    SamePermutation(a, b);
    MaxOfIsMax(a, default_);
    MaxOfIsMax(b, default_);
  }

  /** Bounds of the elements bound the maximum. */
  lemma MaxOfBounds(xs: seq<real>, default_: real, lo: real, hi: real)
    requires lo <= default_ <= hi && forall x :: x in xs ==> lo <= x <= hi
    ensures lo <= MaxOf(xs, default_) <= hi
  {
    MaxOfIsMax(xs, default_);
  }

  /** More elements, larger maximum. */
  lemma MaxOfMonotone(a: seq<real>, b: seq<real>, default_: real)
    requires forall x :: x in a ==> x in b
    requires forall x :: x in b ==> default_ <= x
    ensures MaxOf(a, default_) <= MaxOf(b, default_)
  {
    MaxOfIsMax(a, default_);
    MaxOfIsMax(b, default_);
  }
}
