/** Where the draft interpreter (gb/gb.cpp) and the main one (gb.cpp) agree
    and where they part: setFlags is updateFlagReg over flag bytes, RLA and
    ADD HL,DE compute the same results, and LD DE,d16 loads its two bytes
    the other way round. */
module DraftVersusMain {
  import opened Bits
  import opened Bus
  import opened Registers
  import opened Alu
  import opened Cpu
  import opened Instructions
  import Draft

  /** The byte the draft keeps for a flag: 1 when set, 0 when clear. */
  function FlagByte(b: bool): bv8
  {
    if b then 1 else 0
  }

  /** The flags the draft's four flag bytes stand for, a byte of 1 meaning
      set. */
  function FlagsOfBytes(g: Draft.Gb): Flags
  {
    Flags(g.zb == 1, g.nb == 1, g.hb == 1, g.cb == 1)
  }

  /** setFlags given the bytes of four flags is updateFlagReg given the
      flags: the two write the same F. */
  lemma SetFlagsIsUpdateFlagReg(f: bv8, fl: Flags)
    ensures Draft.SetFlags(f, FlagByte(fl.zero), FlagByte(fl.sub), FlagByte(fl.half), FlagByte(fl.carry))
      == UpdateFlagReg(f, fl)
  {
    var r := Draft.SetFlags(f, FlagByte(fl.zero), FlagByte(fl.sub), FlagByte(fl.half), FlagByte(fl.carry));
    Draft.SetFlagsBits(f, FlagByte(fl.zero), FlagByte(fl.sub), FlagByte(fl.half), FlagByte(fl.carry));
    Draft.SetFlagsKeepsLowNibble(f, FlagByte(fl.zero), FlagByte(fl.sub), FlagByte(fl.half), FlagByte(fl.carry));
    SameByte(r, UpdateFlagReg(f, fl));
  }

  /** Two bytes that agree on each of the four high bits and on the low
      nibble are equal. */
  lemma SameByte(x: bv8, y: bv8)
    requires x & 0x0F == y & 0x0F
    requires x & 0x80 == 0 <==> !IsSet(y, 7)
    requires x & 0x40 == 0 <==> !IsSet(y, 6)
    requires x & 0x20 == 0 <==> !IsSet(y, 5)
    requires x & 0x10 == 0 <==> !IsSet(y, 4)
    ensures x == y
  {
  }

  /** The draft's state and the main state hold the same memory and the
      same PC. */
  predicate SamePlace(g: Draft.Gb, s: State)
  {
    g.mem == s.mem && g.pc == s.regs.pc as bv32
  }

  /** The byte after the opcode is the same in both. */
  lemma FirstOperandSame(g: Draft.Gb, s: State)
    requires SamePlace(g, s) && Draft.Fits(g, 3)
    ensures Draft.At(g, 1) == Imm8(s, 1)
  {
  }

  /** The second byte after the opcode is the same in both. */
  lemma SecondOperandSame(g: Draft.Gb, s: State)
    requires SamePlace(g, s) && Draft.Fits(g, 3)
    ensures Draft.At(g, 2) == Imm8(s, 2)
  {
  }

  /** LD DE,d16 from the same place: the draft puts into D the byte the main
      interpreter puts into E, and the other way round. */
  lemma LoadDeSwapsBytes(g: Draft.Gb, s: State, hc16: Draft.HalfCarry16)
    requires SamePlace(g, s) && Draft.Fits(g, 3) && Draft.At(g, 0) == 0x11
    ensures Draft.Step(g, hc16).Some?
    ensures var q := Draft.Step(g, hc16).value;
      var r := LoadPairImmediate(s, DE);
      q.d == r.regs.e && q.e == r.regs.d
  {
    Draft.LoadDeHighByteFirst(g, hc16);
    FirstOperandSame(g, s);
    SecondOperandSame(g, s);
  }

  /** RLA computes the same A and the same flags in both, given the same A
      and the same carry. */
  lemma RlaAgrees(g: Draft.Gb, s: State)
    requires g.a == s.regs.a && g.cb == FlagByte(s.flags.carry)
    ensures Draft.Rla(g).a == RotateA(s, Left, true).regs.a
    ensures FlagsOfBytes(Draft.Rla(g)) == RotateA(s, Left, true).flags
  {
  }

  /** ADD HL,DE gives the same H, L and carry in both, given the same HL
      and DE, and clears N in both. */
  lemma AddHlDeAgrees(g: Draft.Gb, s: State, hc16: Draft.HalfCarry16)
    requires Combine(g.h, g.l) == HLValue(s.regs) && Combine(g.d, g.e) == GetPair(s.regs, DE)
    ensures var q := Draft.AddHlDe(g, hc16);
      var r := AddHl(s, DE);
      q.h == r.regs.h && q.l == r.regs.l && (q.cb == 1 <==> r.flags.carry) && q.nb == 0 && !r.flags.sub
  {
    AddHlDeSameHigh(g, s, hc16);
    AddHlDeSameLow(g, s, hc16);
    AddHlDeSameCarry(g, s, hc16);
    Draft.AddHlDeOtherBytes(g, hc16);
    MainAddHlDeFlags(s);
  }

  lemma AddHlDeSameHigh(g: Draft.Gb, s: State, hc16: Draft.HalfCarry16)
    requires Combine(g.h, g.l) == HLValue(s.regs) && Combine(g.d, g.e) == GetPair(s.regs, DE)
    ensures Draft.AddHlDe(g, hc16).h == AddHl(s, DE).regs.h
  {
    DraftAddHlDeHalves(g, hc16);
    MainAddHlDeHalves(s);
  }

  lemma AddHlDeSameLow(g: Draft.Gb, s: State, hc16: Draft.HalfCarry16)
    requires Combine(g.h, g.l) == HLValue(s.regs) && Combine(g.d, g.e) == GetPair(s.regs, DE)
    ensures Draft.AddHlDe(g, hc16).l == AddHl(s, DE).regs.l
  {
    DraftAddHlDeHalves(g, hc16);
    MainAddHlDeHalves(s);
  }

  lemma DraftAddHlDeHalves(g: Draft.Gb, hc16: Draft.HalfCarry16)
    ensures Draft.AddHlDe(g, hc16).h == High(Combine(g.h, g.l) + Combine(g.d, g.e))
    ensures Draft.AddHlDe(g, hc16).l == Low(Combine(g.h, g.l) + Combine(g.d, g.e))
  {
  }

  lemma MainAddHlDeHalves(s: State)
    ensures AddHl(s, DE).regs.h == High(HLValue(s.regs) + GetPair(s.regs, DE))
    ensures AddHl(s, DE).regs.l == Low(HLValue(s.regs) + GetPair(s.regs, DE))
  {
    MainAddHlDeParts(s);
    Add16Parts(HLValue(s.regs), GetPair(s.regs, DE), s.flags);
  }

  lemma AddHlDeSameCarry(g: Draft.Gb, s: State, hc16: Draft.HalfCarry16)
    requires Combine(g.h, g.l) == HLValue(s.regs) && Combine(g.d, g.e) == GetPair(s.regs, DE)
    ensures Draft.AddHlDe(g, hc16).cb == 1 <==> AddHl(s, DE).flags.carry
  {
    Draft.AddHlDeCarry(g, hc16);
    MainAddHlDeFlags(s);
  }

  /** The main ADD HL,DE sets C exactly when the sum passes 0xFFFF, and
      clears N. */
  lemma MainAddHlDeFlags(s: State)
    ensures var r := AddHl(s, DE);
      (r.flags.carry <==> Sum17(HLValue(s.regs), GetPair(s.regs, DE)) > 0xFFFF) && !r.flags.sub
  {
    MainAddHlDeParts(s);
    Add16Parts(HLValue(s.regs), GetPair(s.regs, DE), s.flags);
  }

  /** Add16's value is the 16-bit sum and its carry says whether the exact
      sum passes 0xFFFF. */
  lemma Add16Parts(a: bv16, b: bv16, fl: Flags)
    ensures Add16(a, b, fl).value == a + b
    ensures Add16(a, b, fl).flags.carry <==> Sum17(a, b) > 0xFFFF
  {
  }

  /** The main ADD HL,DE stores Add16's value in H:L and takes its flags. */
  lemma MainAddHlDeParts(s: State)
    ensures var out := Add16(HLValue(s.regs), GetPair(s.regs, DE), s.flags);
      var r := AddHl(s, DE);
      Combine(r.regs.h, r.regs.l) == out.value && r.flags == out.flags
  {
    var out := Add16(HLValue(s.regs), GetPair(s.regs, DE), s.flags);
    var regs := SetPair(s.regs.(pc := s.regs.pc + 1), HL, out.value);
    assert AddHl(s, DE) == s.(regs := regs, flags := out.flags);
    assert GetPair(regs, HL) == out.value;
  }
}
