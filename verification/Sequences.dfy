/** Facts about sequences that several modules need. */
module Sequences {
  predicate Distinct<T(==)>(xs: seq<T>) {
    forall i, j :: 0 <= i < j < |xs| ==> xs[i] != xs[j]
  }

  lemma HeadAndTail<T>(xs: seq<T>)
    requires xs != []
    ensures [xs[0]] + xs[1..] == xs
  {
  }

  lemma Regroup<T>(a: seq<T>, b: seq<T>, c: seq<T>)
    ensures a + (b + c) == (a + b) + c
  {
  }

  lemma SliceOfFirst<T>(a: seq<T>, b: seq<T>, i: nat, j: nat)
    requires i <= j <= |a|
    ensures (a + b)[i..j] == a[i..j]
    ensures (a + b)[j..] == a[j..] + b
  {
  }

  lemma Around<T>(a: seq<T>, m: seq<T>, c: seq<T>)
    ensures (a + m + c)[..|a|] == a && (a + m + c)[|a| + |m|..] == c
  {
  }
}
