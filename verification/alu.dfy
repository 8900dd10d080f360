/** The arithmetic and logic primitives of gb.cpp (lines 3267-3509) together
    with DAA, CPL, SCF and CCF from the opcode table. In the source each one
    updates a register or memory byte in place and writes the flag bytes; here
    each is a pure function from operand(s) and incoming flags to the new
    value and flags. */
module Alu {
  import opened Bits
  import opened Registers

  /** An 8-bit result and the flags after the operation. */
  datatype AluOut = AluOut(value: bv8, flags: Flags)

  /** A 16-bit result and the flags after the operation. */
  datatype WideOut = WideOut(value: bv16, flags: Flags)

  /** Direction argument of ROT ('L' or 'R'). */
  datatype Dir = Left | Right

  /** Mode argument of SHIFT: 'L' (SLA), 'R' (SRA) and 'l' (SRL). */
  datatype ShiftMode = ArithLeft | ArithRight | LogicalRight

  /** Whether ADC or SBC adds or takes away one more (the carry byte Cb is 1). */
  predicate CarryIn(useCarry: bool, fl: Flags)
  {
    useCarry && fl.carry
  }

  /** ADD(val1, val2, carry) when the carry byte added is 0: the path
      without carry, and equally the ADC path while C is clear. The source's
      `val1 > 0xFF - val2` is an `int` comparison and is written as the
      equivalent `val1 + val2 > 0xFF`. */
  function AddNoCarryIn(a: bv8, b: bv8): (r: AluOut)
    ensures Nine(r.flags.carry, r.value) == a as bv9 + b as bv9
    ensures r.flags.half <==> (a & 0xF) + (b & 0xF) > 0xF
    ensures r.flags.zero <==> r.value == 0
    ensures !r.flags.sub
  {
    var c := a as bv9 + b as bv9 > 0xFF;
    var h := HalfCarryAdd(a, b);
    var v := a + b;
    AluOut(v, Flags(IsZero(v), false, h, c))
  }

  /** The ADC path of ADD(val1, val2, carry) while C is set, so the carry
      byte Cb is 1 (`val1 > 0xFF - val2 - Cb` rearranged as above). */
  function AddCarryIn(a: bv8, b: bv8): (r: AluOut)
    ensures Nine(r.flags.carry, r.value) == a as bv9 + b as bv9 + 1
    ensures r.flags.half <==> (a & 0xF) + (b & 0xF) + 1 > 0xF
    ensures r.flags.zero <==> r.value == 0
    ensures !r.flags.sub
  {
    var c := a as bv9 + b as bv9 + 1 > 0xFF;
    var h := (a & 0xF) + (b & 0xF) + 1 > 0xF;
    var v := a + b + 1;
    AluOut(v, Flags(IsZero(v), false, h, c))
  }

  /** ADD(A, b, carry): A + b, plus C for ADC. The result and the carry out
      together are the exact 9-bit sum. */
  function Add(a: bv8, b: bv8, useCarry: bool, fl: Flags): (r: AluOut)
    ensures CarryIn(useCarry, fl) ==> Nine(r.flags.carry, r.value) == a as bv9 + b as bv9 + 1
    ensures !CarryIn(useCarry, fl) ==> Nine(r.flags.carry, r.value) == a as bv9 + b as bv9
  {
    if CarryIn(useCarry, fl) then AddCarryIn(a, b) else AddNoCarryIn(a, b)
  }

  /** SUB(val, carry) when the carry byte taken away is 0: the path without
      carry, and equally the SBC path while C is clear. */
  function SubNoCarryIn(a: bv8, b: bv8): (r: AluOut)
    ensures Nine(r.flags.carry, r.value) == a as bv9 - b as bv9
    ensures r.flags.half <==> (a & 0xF) < (b & 0xF)
    ensures r.flags.zero <==> r.value == 0
    ensures r.flags.sub
  {
    var c := b > a;
    var h := HalfCarrySub(a, b);
    var v := a - b;
    AluOut(v, Flags(IsZero(v), true, h, c))
  }

  /** The SBC path of SUB(val, carry) while C is set, so the carry byte Cb is
      1. The source's `val + Cb > A` is an `int` comparison. */
  function SubCarryIn(a: bv8, b: bv8): (r: AluOut)
    ensures Nine(r.flags.carry, r.value) == a as bv9 - b as bv9 - 1
    ensures r.flags.half <==> (a & 0xF) < (b & 0xF) + 1
    ensures r.flags.zero <==> r.value == 0
    ensures r.flags.sub
  {
    var c := b as bv9 + 1 > a as bv9;
    var h := (a & 0xF) < (b & 0xF) + 1;
    var v := a - b - 1;
    AluOut(v, Flags(IsZero(v), true, h, c))
  }

  /** SUB(b, carry): A - b, minus C for SBC. The result and the borrow
      together are the exact 9-bit difference. */
  function Sub(a: bv8, b: bv8, useCarry: bool, fl: Flags): (r: AluOut)
    ensures CarryIn(useCarry, fl) ==> Nine(r.flags.carry, r.value) == a as bv9 - b as bv9 - 1
    ensures !CarryIn(useCarry, fl) ==> Nine(r.flags.carry, r.value) == a as bv9 - b as bv9
  {
    if CarryIn(useCarry, fl) then SubCarryIn(a, b) else SubNoCarryIn(a, b)
  }

  /** CP(b): the flags of SUB without storing the difference. */
  function Cp(a: bv8, b: bv8, fl: Flags): (r: Flags)
    ensures r == Sub(a, b, false, fl).flags
    ensures r.zero <==> a == b
    ensures r.carry <==> b > a
  {
    var c := b > a;
    var h := HalfCarrySub(a, b);
    Flags(IsZero(a - b), true, h, c)
  }

  /** INC on a byte: one more, and the carry flag is left alone. */
  function Inc(v: bv8, fl: Flags): (r: AluOut)
    ensures r.flags.carry == fl.carry
    ensures r.flags.half <==> v & 0xF == 0xF
    ensures r.flags.zero <==> v == 0xFF
    ensures !r.flags.sub
  {
    var h := HalfCarryAdd(v, 1);
    var v' := v + 1;
    AluOut(v', Flags(IsZero(v'), false, h, fl.carry))
  }

  /** DEC on a byte: one less, and the carry flag is left alone. */
  function Dec(v: bv8, fl: Flags): (r: AluOut)
    ensures r.flags.carry == fl.carry
    ensures r.flags.half <==> v & 0xF == 0
    ensures r.flags.zero <==> v == 1
    ensures r.flags.sub
  {
    var h := HalfCarrySub(v, 1);
    var v' := v - 1;
    AluOut(v', Flags(IsZero(v'), true, h, fl.carry))
  }

  /** AND: bitwise and; H is set and C cleared. */
  function And(a: bv8, b: bv8): (r: AluOut)
    ensures r.flags == Flags(r.value == 0, false, true, false)
  {
    var v := a & b;
    AluOut(v, Flags(IsZero(v), false, true, false))
  }

  /** XOR: bitwise exclusive or; N, H and C cleared. */
  function Xor(a: bv8, b: bv8): (r: AluOut)
    ensures r.flags == Flags(r.value == 0, false, false, false)
  {
    var v := a ^ b;
    AluOut(v, Flags(IsZero(v), false, false, false))
  }

  /** OR: bitwise or; N, H and C cleared. */
  function Or(a: bv8, b: bv8): (r: AluOut)
    ensures r.flags == Flags(r.value == 0, false, false, false)
  {
    var v := a | b;
    AluOut(v, Flags(IsZero(v), false, false, false))
  }

  /** ROT(L, carry): C receives bit 7; bit 0 receives the old C when
      rotating through the carry and bit 7 otherwise. */
  function RotLeft(v: bv8, throughCarry: bool, fl: Flags): (r: AluOut)
    ensures !throughCarry ==> r.value == (v << 1) | (v >> 7)
    ensures throughCarry ==> r.value == (v << 1) | (if fl.carry then 1 else 0)
    ensures r.flags == Flags(r.value == 0, false, false, IsSet(v, 7))
  {
    var cb := IsSet(v, 7);
    var bit0 := if throughCarry then fl.carry else cb;
    // modifyBit on bit 0, which the shift has just cleared.
    var v' := (v << 1) | (if bit0 then 1 else 0);
    AluOut(v', Flags(IsZero(v'), false, false, cb))
  }

  /** ROT(R, carry): C receives bit 0; bit 7 receives the old C when
      rotating through the carry and bit 0 otherwise. */
  function RotRight(v: bv8, throughCarry: bool, fl: Flags): (r: AluOut)
    ensures !throughCarry ==> r.value == (v >> 1) | (v << 7)
    ensures throughCarry ==> r.value == (v >> 1) | (if fl.carry then 0x80 else 0)
    ensures r.flags == Flags(r.value == 0, false, false, IsSet(v, 0))
  {
    var cb := IsSet(v, 0);
    var bit7 := if throughCarry then fl.carry else cb;
    // modifyBit on bit 7, which the shift has just cleared.
    var v' := (v >> 1) | (if bit7 then 0x80 else 0);
    AluOut(v', Flags(IsZero(v'), false, false, cb))
  }

  /** ROT(dir, carry): the bit leaving the byte goes to C, the other seven
      move one place over, and the vacated end receives the old C when
      rotating through the carry, or the leaving bit otherwise. */
  function Rot(dir: Dir, throughCarry: bool, v: bv8, fl: Flags): (r: AluOut)
    ensures dir == Left ==> r.flags.carry == IsSet(v, 7) && r.value >> 1 == v & 0x7F
    ensures dir == Left ==> IsSet(r.value, 0) == (if throughCarry then fl.carry else IsSet(v, 7))
    ensures dir == Right ==> r.flags.carry == IsSet(v, 0) && r.value << 1 == v & 0xFE
    ensures dir == Right ==> IsSet(r.value, 7) == (if throughCarry then fl.carry else IsSet(v, 0))
    ensures (r.flags.zero <==> r.value == 0) && !r.flags.sub && !r.flags.half
  {
    match dir
    case Left => RotLeft(v, throughCarry, fl)
    case Right => RotRight(v, throughCarry, fl)
  }

  /** SHIFT: SLA shifts in a zero at bit 0, SRA keeps bit 7, SRL shifts in a
      zero at bit 7; C receives the bit shifted out. */
  function Shift(mode: ShiftMode, v: bv8, fl: Flags): (r: AluOut)
    ensures mode == ArithLeft ==> r.value == v << 1 && !IsSet(r.value, 0)
    ensures mode == ArithLeft ==> r.flags.carry == IsSet(v, 7)
    ensures mode == ArithRight ==> r.value == (v >> 1) | (v & 0x80)
    ensures mode == ArithRight ==> IsSet(r.value, 7) == IsSet(v, 7)
    ensures mode == LogicalRight ==> r.value == v >> 1 && !IsSet(r.value, 7)
    ensures mode != ArithLeft ==> r.flags.carry == IsSet(v, 0)
    ensures r.flags.zero <==> r.value == 0
    ensures !r.flags.sub && !r.flags.half
  {
    match mode
    case ArithLeft =>
      var v' := v << 1;
      AluOut(v', Flags(IsZero(v'), false, false, IsSet(v, 7)))
    case ArithRight =>
      // modifyBit copies bit 6 of the shifted value, the old bit 7, back
      // into the cleared bit 7.
      var v' := (v >> 1) | (if IsSet(v >> 1, 6) then 0x80 else 0);
      AluOut(v', Flags(IsZero(v'), false, false, IsSet(v, 0)))
    case LogicalRight =>
      var v' := v >> 1;
      AluOut(v', Flags(IsZero(v'), false, false, IsSet(v, 0)))
  }

  /** BIT: Z is set iff the tested bit is 0; N cleared, H set, C kept. The
      operand is only read. */
  function Bit(pos: bv8, v: bv8, fl: Flags): (r: Flags)
    requires pos < 8
    ensures r.zero <==> !IsSet(v, pos)
    ensures !r.sub && r.half && r.carry == fl.carry
  {
    var bit := (v >> pos) & 1;
    Flags(bit == 0, false, true, fl.carry)
  }

  /** SWAP: exchange the nibbles; Z follows the result, N, H and C cleared. */
  function Swap(v: bv8): (r: AluOut)
    ensures r.value & 0x0F == v >> 4 && r.value >> 4 == v & 0x0F
    ensures r.flags == Flags(v == 0, false, false, false)
  {
    var v' := (v << 4) | (v >> 4);
    AluOut(v', Flags(IsZero(v'), false, false, false))
  }

  /** The 16-bit ADD (ADD HL,rr): carry out of bit 15 and half-carry out of
      bit 11; N cleared, Z kept. The source's `val1 > 0xFFFF - val2` is an
      `int` comparison and is written as `val1 + val2 > 0xFFFF`. */
  function Add16(a: bv16, b: bv16, fl: Flags): (r: WideOut)
    ensures Seventeen(r.flags.carry, r.value) == a as bv17 + b as bv17
    ensures r.flags.half <==> (a & 0xFFF) + (b & 0xFFF) > 0xFFF
    ensures !r.flags.sub && r.flags.zero == fl.zero
  {
    var c := a as bv17 + b as bv17 > 0xFFFF;
    var h := HalfCarryAdd16(a, b);
    WideOut(a + b, Flags(fl.zero, false, h, c))
  }

  /** ADD(val1, int8_t val2) for ADD SP,r8 and LD HL,SP+r8: the word moves by
      the signed offset, and C and H are those of the unsigned 8-bit addition
      of the word's low byte and the offset byte; Z and N are cleared. */
  function AddSigned(w: bv16, e: bv8, fl: Flags): (r: WideOut)
    ensures r.value == w + SignExtend(e)
    ensures r.flags.carry == Add(Low(w), e, false, fl).flags.carry
    ensures r.flags.half == Add(Low(w), e, false, fl).flags.half
    ensures !r.flags.zero && !r.flags.sub
  {
    var c := (w & 0xFF) + e as bv16 > 0xFF;
    var h := (w & 0xF) + (e as bv16 & 0xF) > 0xF;
    WideOut(w + SignExtend(e), Flags(false, false, h, c))
  }

  /** DAA (gb.cpp:1786-1815): after an addition add 0x60 when A > 0x99 or C,
      then 6 when the low digit exceeds 9 or H; after a subtraction take off
      0x60 when C and 6 when H. H is cleared, Z follows A, N is kept and C is
      only ever set. */
  function Daa(a: bv8, fl: Flags): (r: AluOut)
    ensures fl.carry ==> r.flags.carry
    ensures fl.sub ==> r.flags.carry == fl.carry
    ensures r.flags.sub == fl.sub && !r.flags.half
    ensures r.flags.zero <==> r.value == 0
  {
    if !fl.sub then
      var hiFix := a > 0x99 || fl.carry;
      var a1 := if hiFix then a + 0x60 else a;
      var c := if hiFix then true else fl.carry;
      var a2 := if (a1 & 0xF) > 0x9 || fl.half then a1 + 0x6 else a1;
      AluOut(a2, Flags(IsZero(a2), fl.sub, false, c))
    else
      var a1 := if fl.carry then a - 0x60 else a;
      var a2 := if fl.half then a1 - 0x6 else a1;
      AluOut(a2, Flags(IsZero(a2), fl.sub, false, fl.carry))
  }

  /** CPL: complement A; N and H set. */
  function Cpl(a: bv8, fl: Flags): (r: AluOut)
    ensures forall j: bv8 :: j < 8 ==> IsSet(r.value, j) != IsSet(a, j)
    ensures r.flags == fl.(sub := true, half := true)
  {
    AluOut(!a, fl.(sub := true, half := true))
  }

  /** SCF: C set, N and H cleared, Z kept. */
  function Scf(fl: Flags): (r: Flags)
    ensures r == Flags(fl.zero, false, false, true)
  {
    fl.(carry := true, sub := false, half := false)
  }

  /** CCF: C inverted, N and H cleared, Z kept. */
  function Ccf(fl: Flags): (r: Flags)
    ensures r == Flags(fl.zero, false, false, !fl.carry)
  {
    fl.(carry := !fl.carry, sub := false, half := false)
  }
}
