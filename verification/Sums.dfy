/** Weighted sums over sequences, and how one element's change shows in the total. */
module Sums {
  function Sum<T>(xs: seq<T>, weight: T -> nat): nat {
    if |xs| == 0 then 0 else Sum(xs[..|xs| - 1], weight) + weight(xs[|xs| - 1])
  }

  lemma {:induction false} SumUpdate<T>(xs: seq<T>, i: nat, x: T, weight: T -> nat)
    requires i < |xs|
    ensures Sum(xs[i := x], weight) + weight(xs[i]) == Sum(xs, weight) + weight(x)
  {
    var last := |xs| - 1;
    if i == last {
      assert xs[i := x][..last] == xs[..last];
    } else {
      assert xs[i := x][..last] == xs[..last][i := x];
      SumUpdate(xs[..last], i, x, weight);
    }
  }

  lemma SumAppend<T>(xs: seq<T>, x: T, weight: T -> nat)
    ensures Sum(xs + [x], weight) == Sum(xs, weight) + weight(x)
  {
    assert (xs + [x])[..|xs|] == xs;
  }

  lemma {:induction false} SumBoundsPart<T>(xs: seq<T>, i: nat, weight: T -> nat)
    requires i < |xs|
    ensures weight(xs[i]) <= Sum(xs, weight)
  {
    if i < |xs| - 1 {
      SumBoundsPart(xs[..|xs| - 1], i, weight);
    }
  }

  lemma {:induction false} SumRemove<T>(xs: seq<T>, i: nat, weight: T -> nat)
    requires i < |xs|
    ensures Sum(xs, weight) == Sum(xs[..i] + xs[i + 1..], weight) + weight(xs[i])
  {
    var last := |xs| - 1;
    var rest := xs[..i] + xs[i + 1..];
    if i == last {
      assert rest == xs[..last];
    } else {
      SumRemove(xs[..last], i, weight);
      assert rest[..|rest| - 1] == xs[..last][..i] + xs[..last][i + 1..];
    }
  }

  lemma SumBoundsTwo<T>(xs: seq<T>, i: nat, j: nat, weight: T -> nat)
    requires i < |xs| && j < |xs| && i != j
    ensures weight(xs[i]) + weight(xs[j]) <= Sum(xs, weight)
  {
    SumRemove(xs, i, weight);
    SumBoundsPart(xs[..i] + xs[i + 1..], if j < i then j else j - 1, weight);
  }
}
