/** Python's `random.randint`, driven by an injected stream of draws instead of a generator. */
module Rand {
  /** `randint(lo, hi)` when the generator's draw is `draw`: a value in [lo, hi], both ends included. */
  function Pick(lo: int, hi: int, draw: nat): (v: int)
    requires lo <= hi
    ensures lo <= v <= hi
  {
    lo + draw % (hi - lo + 1)
  }

  /** Every value in [lo, hi] comes out of some draw, so the model restricts nothing. */
  lemma PickCovers(lo: int, hi: int, v: int)
    requires lo <= v <= hi
    ensures Pick(lo, hi, v - lo) == v
  {
  }

  /** The module-level generator: the k-th call to `RandInt` uses `entropy(k)`. */
  class Random {
    const entropy: nat -> nat
    var draws: nat

    constructor (entropy: nat -> nat)
      ensures this.entropy == entropy && draws == 0
    {
      this.entropy := entropy;
      draws := 0;
    }

    method RandInt(lo: int, hi: int) returns (v: int)
      requires lo <= hi
      modifies this
      ensures draws == old(draws) + 1
      ensures v == Pick(lo, hi, entropy(old(draws)))
    {
      v := Pick(lo, hi, entropy(draws));
      draws := draws + 1;
    }
  }
}
