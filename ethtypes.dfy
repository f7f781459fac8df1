/** Ethereum value types shared by the modules: bytes, hashes, addresses and
    the unsigned 64- and 256-bit ranges that Go's uint64 and uint256 impose. */
module EthTypes {

  type Byte = x: nat | x < 256

  /** A 32-byte digest (transaction hash, block hash, blob versioned hash). */
  type Hash = seq<Byte>

  /** A 20-byte account address. */
  type Address = seq<Byte>

  const U64Modulus: nat := 0x1_0000_0000_0000_0000
  const U256Modulus: nat := 0x1_0000_0000_0000_0000_0000_0000_0000_0000_0000_0000_0000_0000_0000_0000_0000_0000

  predicate IsU64(n: int) { 0 <= n < U64Modulus }

  predicate IsU256(n: int) { 0 <= n < U256Modulus }

  /** Go's `a + b` on two uint64 values, which wraps around. */
  function AddU64(a: nat, b: nat): (r: nat)
    requires IsU64(a) && IsU64(b)
    ensures IsU64(r)
    ensures a + b < U64Modulus ==> r == a + b
    ensures a + b >= U64Modulus ==> r == a + b - U64Modulus
  {
    (a + b) % U64Modulus
  }

  /** Go's conversion `int64(n)` of a uint64: the bit pattern is reread as
      two's complement, so values of 2^63 and above become negative. */
  function ToInt64(n: nat): (r: int)
    requires IsU64(n)
    ensures -0x8000_0000_0000_0000 <= r < 0x8000_0000_0000_0000
    ensures (r - n) % U64Modulus == 0
    ensures n < 0x8000_0000_0000_0000 <==> r == n
  {
    if n < 0x8000_0000_0000_0000 then n else n - U64Modulus
  }

  /** 2 to the power k. */
  function Pow2(k: nat): (r: nat)
    ensures r >= 1
  {
    if k == 0 then 1 else 2 * Pow2(k - 1)
  }
}
