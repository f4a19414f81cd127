/** Unsigned 32-bit counters as the host keeps them (`unsigned int`): every
    increment wraps around at 2^32. */
module Unsigned {

  const Modulus: int := 0x1_0000_0000

  type U32 = x: int | 0 <= x < 0x1_0000_0000

  const MaxU32: U32 := 0xFFFF_FFFF

  /** `n++` on an unsigned 32-bit counter. */
  function Inc(n: U32): (r: U32)
    ensures n < MaxU32 ==> r == n + 1
    ensures n == MaxU32 ==> r == 0
  {
    (n + 1) % Modulus
  }

  /** The value an `int` takes when it is converted to `unsigned int`. */
  function FromInt(i: int): (r: U32)
    ensures 0 <= i < Modulus ==> r == i
    ensures -Modulus <= i < 0 ==> r == i + Modulus
  {
    i % Modulus
  }

  /** `k` counter increments applied to `a`, with wrap-around. */
  function AddWrapping(a: U32, k: nat): (r: U32)
    ensures a + k < Modulus ==> r == a + k
  {
    (a + k) % Modulus
  }

  /** The inductive step of counting increments: one increment followed by
      `k` more is `k + 1` increments, modulo 2^32. */
  lemma IncAddWrapping(a: U32, k: nat)
    ensures AddWrapping(Inc(a), k) == AddWrapping(a, k + 1)
  {
    var q := (a + 1) / Modulus;
    assert a + 1 == q * Modulus + Inc(a);
    assert (Inc(a) + k) % Modulus == (a + 1 + k - q * Modulus) % Modulus;
    ModShift(a + 1 + k, q);
  }

  /** Subtracting whole multiples of 2^32 leaves the residue alone. */
  lemma ModShift(x: int, q: int)
    ensures (x - q * Modulus) % Modulus == x % Modulus
  {
  }
}
