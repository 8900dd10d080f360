/** The register file: eight 8-bit registers, SP and PC, and the four
    condition flags that the interpreter keeps beside F and copies into F's
    top nibble at the end of every cycle (updateFlagReg, gb.cpp:3138-3145). */
module Registers {
  import opened Bits

  /** Zb, Nb, Hb and Cb. The source stores them as bytes that only ever hold
      0 or 1. */
  datatype Flags = Flags(zero: bool, sub: bool, half: bool, carry: bool)

  /** A, B, C, D, E, F, H, L, SP and PC. */
  datatype Regs = Regs(a: bv8, b: bv8, c: bv8, d: bv8, e: bv8, f: bv8, h: bv8, l: bv8,
                       sp: bv16, pc: bv16)

  /** updateFlagReg: Z, N, H and C into bits 7, 6, 5 and 4 of F. */
  function UpdateFlagReg(f: bv8, fl: Flags): (r: bv8)
    ensures IsSet(r, 7) == fl.zero && IsSet(r, 6) == fl.sub
    ensures IsSet(r, 5) == fl.half && IsSet(r, 4) == fl.carry
    ensures r & 0x0F == f & 0x0F
  {
    var f7 := ModifyBit(f, BitValue(fl.zero), 7);
    var f6 := ModifyBit(f7, BitValue(fl.sub), 6);
    var f5 := ModifyBit(f6, BitValue(fl.half), 5);
    ModifyBit(f5, BitValue(fl.carry), 4)
  }

  /** The flags a value of F encodes, read as POP AF reads them
      (gb.cpp:3002-3005). */
  function FlagsOf(f: bv8): Flags
  {
    Flags(IsSet(f, 7), IsSet(f, 6), IsSet(f, 5), IsSet(f, 4))
  }

  /** F holds exactly the four flags and nothing in its low nibble. */
  predicate FlagRegAgrees(f: bv8, fl: Flags)
  {
    f & 0x0F == 0 && FlagsOf(f) == fl
  }

  /** Decomposing F after updateFlagReg gives back the four flags. */
  lemma FlagRoundTrip(f: bv8, fl: Flags)
    ensures FlagsOf(UpdateFlagReg(f, fl)) == fl
  {
  }

  /** Packing the flags that a clean F encodes reproduces that F. */
  lemma PackUnpack(f: bv8)
    requires f & 0x0F == 0
    ensures UpdateFlagReg(0, FlagsOf(f)) == f
  {
  }

  /** With a clean low nibble, updateFlagReg makes F agree with the flags,
      whatever F held before. */
  lemma UpdateFlagRegAgrees(f: bv8, fl: Flags)
    requires f & 0x0F == 0
    ensures FlagRegAgrees(UpdateFlagReg(f, fl), fl)
  {
  }
}
