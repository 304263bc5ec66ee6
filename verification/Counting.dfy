// How many threads of a pool are in a state, and how a sum changes in one place.

module Counting {

  function Count<T>(xs: seq<T>, p: T -> bool): nat {
    if xs == [] then 0 else (if p(xs[0]) then 1 else 0) + Count(xs[1..], p)
  }

  lemma {:induction false} CountUpdate<T>(xs: seq<T>, t: nat, x: T, p: T -> bool)
    requires t < |xs|
    ensures Count(xs[t := x], p) == Count(xs, p) - (if p(xs[t]) then 1 else 0) + (if p(x) then 1 else 0)
  {
    if t == 0 {
      assert xs[t := x][1..] == xs[1..];
    } else {
      CountUpdate(xs[1..], t - 1, x, p);
      assert xs[t := x][1..] == xs[1..][t - 1 := x];
    }
  }

  lemma {:induction false} CountBounds<T>(xs: seq<T>, t: nat, p: T -> bool)
    requires t < |xs|
    ensures (if p(xs[t]) then 1 else 0) <= Count(xs, p) <= |xs| - (if p(xs[t]) then 0 else 1)
  {
    if |xs| > 1 {
      CountBounds(xs[1..], if t == 0 then 0 else t - 1, p);
    }
  }

  lemma {:induction false} CountNone<T>(xs: seq<T>, p: T -> bool)
    requires forall i :: 0 <= i < |xs| ==> !p(xs[i])
    ensures Count(xs, p) == 0
  {
    if xs != [] {
      CountNone(xs[1..], p);
    }
  }

  /** Two states that exclude each other are together in at most the whole pool. */
  lemma {:induction false} CountApart<T>(xs: seq<T>, p: T -> bool, q: T -> bool)
    requires forall i :: 0 <= i < |xs| ==> !(p(xs[i]) && q(xs[i]))
    ensures Count(xs, p) + Count(xs, q) <= |xs|
  {
    if xs != [] {
      CountApart(xs[1..], p, q);
    }
  }

  function Sum(xs: seq<nat>): nat {
    if xs == [] then 0 else xs[0] + Sum(xs[1..])
  }

  lemma {:induction false} SumUpdate(xs: seq<nat>, t: nat, x: nat)
    requires t < |xs|
    ensures Sum(xs[t := x]) == Sum(xs) - xs[t] + x
    ensures Sum(xs) >= xs[t]
  {
    if t == 0 {
      assert xs[t := x][1..] == xs[1..];
    } else {
      SumUpdate(xs[1..], t - 1, x);
      assert xs[t := x][1..] == xs[1..][t - 1 := x];
    }
  }

  lemma {:induction false} SumBounded(xs: seq<nat>, b: nat)
    requires forall i :: 0 <= i < |xs| ==> xs[i] <= b
    ensures Sum(xs) <= |xs| * b
  {
    if xs != [] {
      SumBounded(xs[1..], b);
      assert |xs| * b == |xs[1..]| * b + b;
    }
  }
}
