/** What the modular arguments about slots, batches and counters share. */
module Arithmetic {
  /** Nothing strictly between 0 and `c` is a multiple of `c`. */
  lemma NotAMultiple(c: nat, q: int, d: int)
    requires 0 < d < c
    ensures d != c * q
  {
    if q >= 1 { assert c * q >= c; } else { assert c * q <= 0; }
  }
}
