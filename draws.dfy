/** Injected randomness. Every `Math.random()` call of the program becomes a
    parameter `u` of the member that makes it, with 0 <= u < 1. */
module Draws {

  /** A value `Math.random()` can return. */
  predicate IsUnit(u: real) {
    0.0 <= u < 1.0
  }

  /** Every value in `us` is one `Math.random()` can return. */
  predicate AllUnit(us: seq<real>) {
    forall k :: 0 <= k < |us| ==> IsUnit(us[k])
  }

  /** Scaling a draw by k > 0 stays below k. */
  lemma {:induction false} ScaledBelow(u: real, k: nat)
    requires IsUnit(u) && k > 0
    ensures 0.0 <= u * k as real < k as real
    decreases k
  {
    if k > 1 {
      ScaledBelow(u, k - 1);
      assert u * k as real == u * (k - 1) as real + u;
    }
  }

  /** `Math.floor(Math.random() * k)`: an index drawn from 0 .. k-1. */
  function ScaledFloor(u: real, k: nat): (j: int)
    requires IsUnit(u) && k > 0
    ensures 0 <= j < k
  {
    ScaledBelow(u, k);
    (u * k as real).Floor
  }
}
