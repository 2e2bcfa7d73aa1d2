/** Sequence helpers shared by the models of the front end. */
module Seqs {
  function Min(a: int, b: int): int { if a <= b then a else b }

  /** JavaScript's `xs.slice(0, n)` for n >= 0: the first n elements, or all of them when there are fewer. */
  function Take<T>(xs: seq<T>, n: nat): (r: seq<T>)
    ensures |r| == Min(|xs|, n)
    ensures r == xs[..|r|]
  {
    if n <= |xs| then xs[..n] else xs
  }

  /** Taking n from `[x] + xs` keeps x in front of the first n - 1 elements of xs. */
  lemma TakeCons<T>(x: T, xs: seq<T>, n: nat)
    requires n > 0
    ensures var r := Take([x] + xs, n);
            0 < |r| <= n && r[0] == x && r[1..] == xs[..Min(|xs|, n - 1)]
  {
    var r := Take([x] + xs, n);
    assert r == ([x] + xs)[..|r|];
    assert r[1..] == xs[..|r| - 1];
  }
}
