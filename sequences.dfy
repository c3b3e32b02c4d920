/** The parts of Swift's sequence library that the rewriter uses. */
module Sequences {

  function Min(a: int, b: int): int
  {
    if a <= b then a else b
  }

  /** `zip(xs, ys)`: the pairs of elements at equal indices, ending with the shorter sequence. */
  function Zip<A, B>(xs: seq<A>, ys: seq<B>): (r: seq<(A, B)>)
    ensures |r| == Min(|xs|, |ys|)
    ensures forall i :: 0 <= i < |r| ==> r[i] == (xs[i], ys[i])
  {
    if |xs| == 0 || |ys| == 0 then [] else [(xs[0], ys[0])] + Zip(xs[1..], ys[1..])
  }
}
