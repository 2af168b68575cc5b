/**
 * The game draws every random number from the global `Math.random()`. The model
 * replaces it by an injected generator: the n-th call made since start-up
 * returns `rng(n)`, and every operation that draws takes the number of calls
 * made so far (a cursor) and returns the new count.
 */
module Draws {

  /** Every value the generator yields lies in [0, 1), as `Math.random()` promises. */
  ghost predicate Uniform(rng: nat -> real)
  {
    forall n: nat :: 0.0 <= rng(n) < 1.0
  }

  /** `Math.floor(r * n)`: the index a draw `r` picks from `n` items. */
  function PickIndex(r: real, n: nat): (i: nat)
    requires 0.0 <= r < 1.0 && 0 < n
    ensures i < n
    ensures i as real <= r * n as real < i as real + 1.0
  {
    var x := r * n as real;
    ScaleBelow(r, n as real);
    FloorBelow(x, n);
    x.Floor
  }

  /** The floor of a value in [0, n) is a natural number below n, and the value lies in [floor, floor + 1). */
  lemma FloorBelow(x: real, n: nat)
    requires 0.0 <= x < n as real
    ensures 0 <= x.Floor < n
    ensures x.Floor as real <= x < x.Floor as real + 1.0
  {
  }

  /** A fraction in [0, 1) of a positive amount stays below it. */
  lemma ScaleBelow(r: real, m: real)
    requires 0.0 <= r < 1.0 && 0.0 < m
    ensures 0.0 <= r * m < m
  {
    assert m - r * m == (1.0 - r) * m;
    assert 0.0 < (1.0 - r) * m;
  }
}
