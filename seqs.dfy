/** Sequences mapped element by element. */
module Seqs {

  function Map<T, U>(f: T -> U, xs: seq<T>): (r: seq<U>)
    ensures |r| == |xs| && forall k :: 0 <= k < |xs| ==> r[k] == f(xs[k])
  {
    seq(|xs|, k requires 0 <= k < |xs| => f(xs[k]))
  }

  lemma MapAppend<T, U>(f: T -> U, xs: seq<T>, ys: seq<T>)
    ensures Map(f, xs + ys) == Map(f, xs) + Map(f, ys)
  {
    var all := xs + ys;
    forall k | 0 <= k < |all| ensures Map(f, all)[k] == (Map(f, xs) + Map(f, ys))[k] {
      if k < |xs| { assert all[k] == xs[k]; } else { assert all[k] == ys[k - |xs|]; }
    }
  }
}
