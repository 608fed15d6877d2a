/** Random draws made explicit.
    Every call to Math.random() whose result reaches a modelled field becomes
    an element of a stream passed in by the caller. */
module Draws {

  /** One result of Math.random(): a real in [0, 1). */
  predicate IsUnit(r: real) {
    0.0 <= r < 1.0
  }

  /** A stream of draws: rs(k) is the k-th draw one event family makes. */
  type Stream = nat -> real

  ghost predicate IsStream(rs: Stream) {
    forall k: nat :: IsUnit(rs(k))
  }

  lemma ScaleBelow(r: real, k: real)
    requires IsUnit(r) && 0.0 < k
    ensures 0.0 <= r * k < k
  {
  }

  /** Math.floor(a + Math.random() * k): the idiom behind every random count.
      The result is one of the k integers a, ..., a + k - 1. */
  function Count(a: int, k: nat, r: real): (c: int)
    requires IsUnit(r) && 0 < k
    ensures a <= c <= a + k - 1
  {
    ScaleBelow(r, k as real);
    (a as real + r * k as real).Floor
  }

  /** Math.floor(Math.random() * n): a uniformly chosen index of an n-element array. */
  function Uniform(r: real, n: nat): (i: nat)
    requires IsUnit(r) && 0 < n
    ensures i < n
  {
    ScaleBelow(r, n as real);
    (r * n as real).Floor
  }
}
