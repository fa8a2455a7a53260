/** Sums over sequences of natural numbers, for the counting invariants. */
module Sums {
  function Sum(xs: seq<nat>): nat
  {
    if xs == [] then 0 else Sum(xs[..|xs| - 1]) + xs[|xs| - 1]
  }

  /** Changing one entry changes the sum by the difference of that entry. */
  lemma {:induction false} SumChangedAt(xs: seq<nat>, ys: seq<nat>, i: nat)
    requires |xs| == |ys| && i < |xs|
    requires forall j :: 0 <= j < |xs| && j != i ==> xs[j] == ys[j]
    ensures Sum(ys) + xs[i] == Sum(xs) + ys[i]
  {
    var n := |xs| - 1;
    if i == n {
      assert xs[..n] == ys[..n];
    } else {
      SumChangedAt(xs[..n], ys[..n], i);
    }
  }

  lemma SumGrown(xs: seq<nat>, ys: seq<nat>)
    requires |ys| == |xs| + 1
    requires forall j :: 0 <= j < |xs| ==> xs[j] == ys[j]
    ensures Sum(ys) == Sum(xs) + ys[|xs|]
  {
    assert ys[..|ys| - 1] == xs;
  }

  lemma {:induction false} SumMonotone(xs: seq<nat>, ys: seq<nat>)
    requires |xs| == |ys|
    requires forall j :: 0 <= j < |xs| ==> xs[j] <= ys[j]
    ensures Sum(xs) <= Sum(ys)
  {
    if xs != [] {
      SumMonotone(xs[..|xs| - 1], ys[..|ys| - 1]);
    }
  }

  /** If no entry but the k-th grew, the sum grew by no more than that entry did. */
  lemma SumBounded(xs: seq<nat>, ys: seq<nat>, k: nat)
    requires |xs| == |ys| && k < |xs|
    requires forall j :: 0 <= j < |xs| && j != k ==> ys[j] <= xs[j]
    ensures Sum(ys) + xs[k] <= Sum(xs) + ys[k]
  {
    var mid := xs[k := ys[k]];
    SumChangedAt(xs, mid, k);
    SumMonotone(ys, mid);
  }
}
