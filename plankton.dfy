/** The `triple32` integer hash of the plankton particles: seven word transforms
    on one unsigned 32-bit value. The shader's `uint` arithmetic wraps modulo
    2^32, which is exactly `bv32` arithmetic. */
module Plankton {

  // The four xor-shift steps `x ^ (x >> k)` of the hash, one per shift amount.

  function XorShift17(x: bv32): bv32 { x ^ (x >> 17) }
  function XorShift11(x: bv32): bv32 { x ^ (x >> 11) }
  function XorShift15(x: bv32): bv32 { x ^ (x >> 15) }
  function XorShift14(x: bv32): bv32 { x ^ (x >> 14) }

  /** The hash, step for step as the shader runs it; every product wraps. */
  function Triple32(x: bv32): bv32
  {
    var x := XorShift17(x);
    var x := x * 0xed5ad4bb;
    var x := XorShift11(x);
    var x := x * 0xac4c1b51;
    var x := XorShift15(x);
    var x := x * 0x31848bab;
    XorShift14(x)
  }

  /** Zero is a fixed point, and distinct small seeds (the particle indices the
      shader hashes) give distinct, known hash values. */
  lemma Triple32Values()
    ensures Triple32(0) == 0
    ensures Triple32(1) == 0x042741d6
    ensures Triple32(2) == 0xf1dfe8e9
    ensures Triple32(12345) == 0xf904eb67
  {
  }

  /** Each multiplier is odd, and so has an inverse modulo 2^32: the paired
      constant. Multiplying by it is therefore a bijection on words. */
  lemma MultipliersInvertible(x: bv32)
    ensures 0xed5ad4bb as bv32 & 1 == 1 && 0xac4c1b51 as bv32 & 1 == 1 && 0x31848bab as bv32 & 1 == 1
    ensures (x * 0xed5ad4bb) * 0x79a85073 == x
    ensures (x * 0xac4c1b51) * 0x469e0db1 == x
    ensures (x * 0x31848bab) * 0x32b21703 == x
  {
  }

  // Each xor-shift step is a bijection on words: `y := x ^ (x >> k)` is undone
  // by xoring into y its shifts by k, 2k, 4k, ... below 32, and the undoing
  // is also a right inverse. Stated on the step expressions themselves, not
  // on `XorShift17` ... `XorShift14`: the link to the steps `Triple32` uses
  // is only that the expressions are the same text, and no lemma here
  // connects them.

  lemma XorShift17Invertible(x: bv32)
    ensures (var y := x ^ (x >> 17); y ^ (y >> 17)) == x
  {
  }

  lemma XorShift11Invertible(x: bv32)
    ensures (var y := x ^ (x >> 11); var z := y ^ (y >> 11); z ^ (z >> 22)) == x
    ensures (var z := x ^ (x >> 11); var y := z ^ (z >> 22); y ^ (y >> 11)) == x
  {
  }

  lemma XorShift15Invertible(x: bv32)
    ensures (var y := x ^ (x >> 15); var z := y ^ (y >> 15); z ^ (z >> 30)) == x
    ensures (var z := x ^ (x >> 15); var y := z ^ (z >> 30); y ^ (y >> 15)) == x
  {
  }

  lemma XorShift14Invertible(x: bv32)
    ensures (var y := x ^ (x >> 14); var z := y ^ (y >> 14); z ^ (z >> 28)) == x
    ensures (var z := x ^ (x >> 14); var y := z ^ (z >> 28); y ^ (y >> 14)) == x
  {
  }
}
