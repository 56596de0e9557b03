/**
 `Array.prototype.filter` on sequences: the component uses it both for the
 search view and for removing a deleted quote.
 */
module Seqs {

  /** The elements of `xs` that satisfy `p`, in their original order. */
  function Keep<T(==,!new)>(xs: seq<T>, p: T -> bool): (r: seq<T>)
    ensures |r| <= |xs|
    ensures forall x :: x in r <==> x in xs && p(x)
    ensures forall x :: multiset(r)[x] == if p(x) then multiset(xs)[x] else 0
  {
    if |xs| == 0 then []
    else
      assert xs == [xs[0]] + xs[1..];
      (if p(xs[0]) then [xs[0]] else []) + Keep(xs[1..], p)
  }

  /** Filtering distributes over concatenation, so relative order is kept. */
  lemma {:induction false} KeepAppend<T(!new)>(xs: seq<T>, ys: seq<T>, p: T -> bool)
    ensures Keep(xs + ys, p) == Keep(xs, p) + Keep(ys, p)
  {
    if |xs| == 0 {
      assert xs + ys == ys;
    } else {
      assert (xs + ys)[1..] == xs[1..] + ys;
      KeepAppend(xs[1..], ys, p);
    }
  }

  /** When every element passes, nothing is dropped. */
  lemma {:induction false} KeepAll<T(!new)>(xs: seq<T>, p: T -> bool)
    requires forall i :: 0 <= i < |xs| ==> p(xs[i])
    ensures Keep(xs, p) == xs
  {
    if |xs| > 0 {
      KeepAll(xs[1..], p);
    }
  }

}
