/** The source's fixed-width unsigned integers, and the truncation a narrowing store applies. */
module Ints {

  const U16Modulus: nat := 0x1_0000
  const U32Modulus: nat := 0x1_0000_0000

  type u16 = n: nat | n < U16Modulus
  type u32 = n: nat | n < U32Modulus

  /** The value a `u16` keeps of `n`: its residue modulo 2^16. */
  function ToU16(n: nat): (r: u16)
    ensures n < U16Modulus ==> r == n
    ensures r <= n
  {
    n % U16Modulus
  }

  /** The value a `u32` keeps of `n`: its residue modulo 2^32. */
  function ToU32(n: nat): (r: u32)
    ensures n < U32Modulus ==> r == n
    ensures r <= n
  {
    n % U32Modulus
  }
}
