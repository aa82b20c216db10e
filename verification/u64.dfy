/** Go's `uint64`: the counter width of the top-talkers store. */
module U64 {

  /** 2^64: one past the largest `uint64`. */
  const MODULUS: nat := 0x1_0000_0000_0000_0000

  type uint64 = x: int | 0 <= x < 0x1_0000_0000_0000_0000

  /** Go's `a + b` on `uint64`: the sum wraps silently past 2^64 - 1. */
  function Add(a: uint64, b: uint64): (r: uint64)
    ensures a + b < MODULUS ==> r == a + b
    ensures a + b >= MODULUS ==> r == a + b - MODULUS
  {
    (a + b) % MODULUS
  }

  /** Wrapping after every addition is the same as wrapping once at the end. */
  lemma {:induction false} AddWrapped(x: nat, y: uint64)
    ensures Add(x % MODULUS, y) == (x + y) % MODULUS
  {
    var q, r := x / MODULUS, x % MODULUS;
    assert x == q * MODULUS + r;
    if r + y < MODULUS {
      assert x + y == q * MODULUS + (r + y);
    } else {
      assert x + y == (q + 1) * MODULUS + (r + y - MODULUS);
    }
  }
}
