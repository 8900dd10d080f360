/** Properties relating the ALU primitives to one another and to independent
    reference definitions: subtraction undoes addition, INC and DEC are ADD
    and SUB of one that keep C, the logic operations act bit by bit, the
    rotations through carry invert each other, and DAA turns a binary sum or
    difference of two packed BCD bytes into their decimal sum or
    difference. */
module AluProps {
  import opened Bits
  import opened Registers
  import opened Alu

  /** SUB of b undoes ADD of b, and borrows exactly when the addition carried. */
  lemma SubUndoesAdd(a: bv8, b: bv8)
    ensures SubNoCarryIn(AddNoCarryIn(a, b).value, b).value == a
    ensures SubNoCarryIn(AddNoCarryIn(a, b).value, b).flags.carry == AddNoCarryIn(a, b).flags.carry
  {
  }

  /** SBC with C set undoes ADC with C set. */
  lemma SbcUndoesAdc(a: bv8, b: bv8)
    ensures SubCarryIn(AddCarryIn(a, b).value, b).value == a
  {
  }

  /** SBC with C set borrows exactly when ADC with C set carried. */
  lemma SbcBorrowsIffAdcCarries(a: bv8, b: bv8)
    ensures SubCarryIn(AddCarryIn(a, b).value, b).flags.carry == AddCarryIn(a, b).flags.carry
  {
  }

  /** ADD is commutative in result and flags. */
  lemma AddCommutes(a: bv8, b: bv8, useCarry: bool, fl: Flags)
    ensures Add(a, b, useCarry, fl) == Add(b, a, useCarry, fl)
  {
  }

  /** INC is ADD of one, except that C is left as it was. */
  lemma IncIsAddOne(v: bv8, fl: Flags)
    ensures Inc(v, fl) == AddNoCarryIn(v, 1).(flags := AddNoCarryIn(v, 1).flags.(carry := fl.carry))
  {
  }

  /** DEC is SUB of one, except that C is left as it was. */
  lemma DecIsSubOne(v: bv8, fl: Flags)
    ensures Dec(v, fl) == SubNoCarryIn(v, 1).(flags := SubNoCarryIn(v, 1).flags.(carry := fl.carry))
  {
  }

  /** DEC undoes INC. */
  lemma DecUndoesInc(v: bv8, fl: Flags)
    ensures Dec(Inc(v, fl).value, fl).value == v
  {
  }

  /** AND acts bit by bit. */
  lemma AndBits(a: bv8, b: bv8, j: bv8)
    requires j < 8
    ensures IsSet(And(a, b).value, j) == (IsSet(a, j) && IsSet(b, j))
  {
  }

  /** OR acts bit by bit. */
  lemma OrBits(a: bv8, b: bv8, j: bv8)
    requires j < 8
    ensures IsSet(Or(a, b).value, j) == (IsSet(a, j) || IsSet(b, j))
  {
  }

  /** XOR acts bit by bit. */
  lemma XorBits(a: bv8, b: bv8, j: bv8)
    requires j < 8
    ensures IsSet(Xor(a, b).value, j) == (IsSet(a, j) != IsSet(b, j))
  {
  }

  /** XOR A,A clears A (and so sets Z). */
  lemma XorSelfIsZero(a: bv8)
    ensures Xor(a, a).value == 0 && Xor(a, a).flags.zero
  {
  }

  /** RR through the carry undoes RL through the carry, value and carry. */
  lemma RotThroughCarryRoundTrip(v: bv8, fl: Flags)
    ensures RotRight(RotLeft(v, true, fl).value, true, RotLeft(v, true, fl).flags).value == v
    ensures RotRight(RotLeft(v, true, fl).value, true, RotLeft(v, true, fl).flags).flags.carry == fl.carry
  {
  }

  /** RLC and RRC are the rotations of the byte by one place. */
  lemma RotIsRotation(v: bv8, fl: Flags)
    ensures RotLeft(v, false, fl).value == v.RotateLeft(1)
    ensures RotRight(v, false, fl).value == v.RotateRight(1)
  {
  }

  /** RLC applied `n` times in a row, each on the flags the one before left. */
  function RlcTimes(v: bv8, fl: Flags, n: nat): AluOut
    decreases n
  {
    if n == 0 then AluOut(v, fl)
    else
      var o := RotLeft(v, false, fl);
      RlcTimes(o.value, o.flags, n - 1)
  }

  /** RLC applied eight times gives back the byte. */
  lemma {:induction false} RlcEightTimes(v: bv8, fl: Flags)
    ensures RlcTimes(v, fl, 8).value == v
  {
    var o1 := RotLeft(v, false, fl);
    var o2 := RotLeft(o1.value, false, o1.flags);
    var o3 := RotLeft(o2.value, false, o2.flags);
    var o4 := RotLeft(o3.value, false, o3.flags);
    var o5 := RotLeft(o4.value, false, o4.flags);
    var o6 := RotLeft(o5.value, false, o5.flags);
    var o7 := RotLeft(o6.value, false, o6.flags);
    var o8 := RotLeft(o7.value, false, o7.flags);
    assert RlcTimes(v, fl, 8) == RlcTimes(o4.value, o4.flags, 4);
    assert RlcTimes(o4.value, o4.flags, 4) == RlcTimes(o8.value, o8.flags, 0);
    assert o4.value == (v << 4) | (v >> 4);
    assert o8.value == (o4.value << 4) | (o4.value >> 4);
  }

  /** SRL after SLA gives back bits 0-6. */
  lemma SrlAfterSla(v: bv8, fl: Flags)
    ensures Shift(LogicalRight, Shift(ArithLeft, v, fl).value, fl).value == v & 0x7F
  {
  }

  /** SWAP twice is the identity. */
  lemma SwapTwice(v: bv8)
    ensures Swap(Swap(v).value).value == v
  {
  }

  /** CPL twice is the identity on A. */
  lemma CplTwice(a: bv8, fl: Flags)
    ensures Cpl(Cpl(a, fl).value, fl).value == a
  {
  }

  /** CCF twice restores C. */
  lemma CcfTwice(fl: Flags)
    ensures Ccf(Ccf(fl)).carry == fl.carry
  {
  }

  /** A byte holding two decimal digits, tens in the high nibble. */
  predicate IsBcd(x: bv8)
  {
    x >> 4 <= 9 && x & 0xF <= 9
  }

  /** Decimal addition of two packed BCD bytes, digit by digit with carries:
      the hundreds carry and the two-digit result. */
  function BcdAdd(x: bv8, y: bv8): (bool, bv8)
  {
    var lo := (x & 0xF) + (y & 0xF);
    var c1 := lo >= 10;
    var d0 := if c1 then lo - 10 else lo;
    var hi := (x >> 4) + (y >> 4) + (if c1 then 1 else 0);
    var c2 := hi >= 10;
    var d1 := if c2 then hi - 10 else hi;
    (c2, (d1 << 4) | d0)
  }

  /** Decimal subtraction of two packed BCD bytes, digit by digit with
      borrows: the hundreds borrow and the two-digit result. */
  function BcdSub(x: bv8, y: bv8): (bool, bv8)
  {
    var b1 := (x & 0xF) < (y & 0xF);
    var d0 := if b1 then (x & 0xF) + 10 - (y & 0xF) else (x & 0xF) - (y & 0xF);
    var yh := (y >> 4) + (if b1 then 1 else 0);
    var b2 := (x >> 4) < yh;
    var d1 := if b2 then (x >> 4) + 10 - yh else (x >> 4) - yh;
    (b2, (d1 << 4) | d0)
  }

  /** The digit sum when the units do not carry. */
  lemma DaaAfterAddNoUnitsCarry(x: bv8, y: bv8)
    requires IsBcd(x) && IsBcd(y) && (x & 0xF) + (y & 0xF) < 10
    ensures Daa(AddNoCarryIn(x, y).value, AddNoCarryIn(x, y).flags).value == BcdAdd(x, y).1
  {
  }

  /** The digit sum when the units carry into the tens. */
  lemma DaaAfterAddUnitsCarry(x: bv8, y: bv8)
    requires IsBcd(x) && IsBcd(y) && (x & 0xF) + (y & 0xF) >= 10
    ensures Daa(AddNoCarryIn(x, y).value, AddNoCarryIn(x, y).flags).value == BcdAdd(x, y).1
  {
  }

  /** ADD of two BCD bytes followed by DAA yields their decimal sum, and C
      is the carry into the hundreds. */
  lemma DaaAfterAdd(x: bv8, y: bv8)
    requires IsBcd(x) && IsBcd(y)
    ensures Daa(AddNoCarryIn(x, y).value, AddNoCarryIn(x, y).flags).value == BcdAdd(x, y).1
    ensures Daa(AddNoCarryIn(x, y).value, AddNoCarryIn(x, y).flags).flags.carry == BcdAdd(x, y).0
  {
    if (x & 0xF) + (y & 0xF) < 10 {
      DaaAfterAddNoUnitsCarry(x, y);
    } else {
      DaaAfterAddUnitsCarry(x, y);
    }
  }

  /** The digit difference when the units do not borrow. */
  lemma DaaAfterSubNoUnitsBorrow(x: bv8, y: bv8)
    requires IsBcd(x) && IsBcd(y) && (x & 0xF) >= (y & 0xF)
    ensures Daa(SubNoCarryIn(x, y).value, SubNoCarryIn(x, y).flags).value == BcdSub(x, y).1
  {
  }

  /** The digit difference when the units borrow from the tens. */
  lemma DaaAfterSubUnitsBorrow(x: bv8, y: bv8)
    requires IsBcd(x) && IsBcd(y) && (x & 0xF) < (y & 0xF)
    ensures Daa(SubNoCarryIn(x, y).value, SubNoCarryIn(x, y).flags).value == BcdSub(x, y).1
  {
  }

  /** SUB of two BCD bytes followed by DAA yields their decimal difference
      modulo 100, and C is the borrow from the hundreds. */
  lemma DaaAfterSub(x: bv8, y: bv8)
    requires IsBcd(x) && IsBcd(y)
    ensures Daa(SubNoCarryIn(x, y).value, SubNoCarryIn(x, y).flags).value == BcdSub(x, y).1
    ensures Daa(SubNoCarryIn(x, y).value, SubNoCarryIn(x, y).flags).flags.carry == BcdSub(x, y).0
  {
    if (x & 0xF) >= (y & 0xF) {
      DaaAfterSubNoUnitsBorrow(x, y);
    } else {
      DaaAfterSubUnitsBorrow(x, y);
    }
  }
}
