/**
 * The scalar field of BN254 and the Rust `u32` arithmetic the browser prover
 * applies to its inputs before they enter the field.
 */
module Field {

  /** The order r of BN254's scalar field `Fr`, a prime. */
  const BN254_R: nat := 21888242871839275222246405745257275088548364400416034343698204186575808495617

  const U32_MODULUS: nat := 0x1_0000_0000

  type U32 = x: nat | x < U32_MODULUS

  /** `Fr::from(x)`: the canonical representative of the integer `x` in `Fr`. */
  function FrFrom(x: nat): (e: nat)
    ensures e < BN254_R
    ensures x < BN254_R ==> e == x
    ensures (e - x) % BN254_R == 0
  {
    x % BN254_R
  }

  /**
   * `a * b` on two `u32` as a release build runs it: the product wraps
   * around modulo 2^32. (A debug build panics instead.)
   */
  function WrappingMul(a: U32, b: U32): (r: U32)
    ensures r == a * b <==> a * b < U32_MODULUS
    ensures (r - a * b) % U32_MODULUS == 0
  {
    (a * b) % U32_MODULUS
  }

  /** Every product of two `u32` is already a canonical element of `Fr`. */
  lemma U32ProductBelowR(a: U32, b: U32)
    ensures a * b < U32_MODULUS * U32_MODULUS < BN254_R
  {
    var m := U32_MODULUS - 1;
    assert a * b <= a * m by { MulMonotone(a, b, m); }
    assert a * m <= m * m by { MulMonotone(m, a, m); }
    assert m * m < U32_MODULUS * U32_MODULUS < BN254_R;
  }

  lemma MulMonotone(x: nat, y: nat, z: nat)
    requires y <= z
    ensures x * y <= x * z
  {
    assert x * z - x * y == x * (z - y);
  }
}
