/** Byte-level helpers of the interpreter: single-bit access and update,
    joining and splitting register pairs, and the zero and half-carry tests
    that every flag computation is built from. Bytes are `bv8` and 16-bit
    words `bv16`. Where the source relies on C++ promoting bytes to `int`
    before adding or comparing, the model widens to `bv9`/`bv16`/`bv17`,
    which hold every such intermediate value exactly. */
module Bits {

  /** True iff bit `pos` of `b` is one (the source's `(b >> pos) & 0x1`). */
  predicate IsSet(b: bv8, pos: bv8)
    requires pos < 8
  {
    (b >> pos) & 1 == 1
  }

  /** The 0/1 value the source stores for a boolean flag. */
  function BitValue(x: bool): int
  {
    if x then 1 else 0
  }

  /** modifyBit: a bit value of 0 clears bit `pos`, 1 sets it, and any other
      value leaves the byte as it is. */
  function ModifyBit(b: bv8, bitVal: int, pos: bv8): (r: bv8)
    requires pos < 8
    ensures bitVal == 0 ==> !IsSet(r, pos)
    ensures bitVal == 1 ==> IsSet(r, pos)
    ensures bitVal != 0 && bitVal != 1 ==> r == b
    ensures r & !(1 << pos) == b & !(1 << pos)
  {
    if bitVal == 0 then b & !(1 << pos)
    else if bitVal == 1 then b | (1 << pos)
    else b
  }

  /** Bytes that agree outside bit `pos` agree on every other bit. */
  lemma OtherBitsAgree(x: bv8, y: bv8, pos: bv8, j: bv8)
    requires pos < 8 && j < 8 && j != pos
    requires x & !(1 << pos) == y & !(1 << pos)
    ensures IsSet(x, j) == IsSet(y, j)
  {
  }

  /** Setting or clearing a bit and then restoring its old value gives back
      the original byte. */
  lemma ModifyBitRestore(b: bv8, bitVal: int, pos: bv8)
    requires pos < 8
    ensures ModifyBit(ModifyBit(b, bitVal, pos), BitValue(IsSet(b, pos)), pos) == b
  {
  }

  /** combineReg: the register pair `hi:lo` as a 16-bit word. */
  function Combine(hi: bv8, lo: bv8): (w: bv16)
    ensures High(w) == hi && Low(w) == lo
  {
    (hi as bv16 << 8) | lo as bv16
  }

  /** Bits 8-15 of a word (what the source gets from `w >> 8` stored into a byte). */
  function High(w: bv16): bv8
  {
    (w >> 8) as bv8
  }

  /** Bits 0-7 of a word (`w & 0xFF`). */
  function Low(w: bv16): bv8
  {
    (w & 0xFF) as bv8
  }

  /** splitReg undoes combineReg. */
  lemma SplitCombine(w: bv16)
    ensures Combine(High(w), Low(w)) == w
  {
  }

  /** Words with the same numeric value are the same word. */
  lemma SameIndexSameWord(x: bv16, y: bv16)
    requires x as int == y as int
    ensures x == y
  {
    assert x == y as int as bv16;
  }

  /** checkZero. */
  predicate IsZero(v: bv8)
  {
    v == 0
  }

  /** checkHalfCarry(a, b, '+') on bytes: the low nibbles overflow. */
  predicate HalfCarryAdd(a: bv8, b: bv8)
  {
    (a & 0xF) + (b & 0xF) > 0xF
  }

  /** checkHalfCarry(a, b, '-') on bytes: the low nibble of `a` is smaller. */
  predicate HalfCarrySub(a: bv8, b: bv8)
  {
    (a & 0xF) < (b & 0xF)
  }

  /** checkHalfCarry(a, b, '+') on words: bits 0-11 overflow. */
  predicate HalfCarryAdd16(a: bv16, b: bv16)
  {
    (a & 0xFFF) + (b & 0xFFF) > 0xFFF
  }

  /** The 16-bit value of a signed byte (`int8_t` widened to a word). */
  function SignExtend(e: bv8): (w: bv16)
    ensures e < 0x80 ==> w == e as bv16
    ensures e >= 0x80 ==> w == 0xFF00 | e as bv16
    ensures Low(w) == e
  {
    if e < 0x80 then e as bv16 else 0xFF00 | e as bv16
  }

  /** A carry flag and an 8-bit result read together as the 9-bit number they
      form. */
  function Nine(carry: bool, v: bv8): bv9
  {
    (if carry then 0x100 else 0) | v as bv9
  }

  /** A carry flag and a 16-bit result read together as the 17-bit number
      they form. */
  function Seventeen(carry: bool, v: bv16): bv17
  {
    (if carry then 0x10000 else 0) | v as bv17
  }

  /** The sum of two 16-bit values, exact in 17 bits. */
  function Sum17(x: bv16, y: bv16): bv17
  {
    x as bv17 + y as bv17
  }
}
