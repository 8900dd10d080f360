/** Properties of single instructions and short instruction sequences: which
    instruction family the decoder picks for a given opcode, and how CALL and
    RET, PUSH and POP undo each other. */
module InstructionsProps {
  import opened Bits
  import opened Bus
  import opened Registers
  import opened Alu
  import opened Cpu
  import opened Instructions
  import AluProps

  // ---------------------------------------------------------------------
  // Decoding, one quarter of the table at a time
  // ---------------------------------------------------------------------

  lemma ExecuteQuarter0(s: State)
    requires Opcode(s) < 0x40
    ensures Execute(s) == Quarter0(s, Opcode(s))
  {
  }

  lemma ExecuteQuarter1(s: State)
    requires 0x40 <= Opcode(s) < 0x80
    ensures Execute(s) == Quarter1(s, Opcode(s))
  {
  }

  lemma ExecuteQuarter2(s: State)
    requires 0x80 <= Opcode(s) < 0xC0
    ensures Execute(s) == Quarter2(s, Opcode(s))
  {
  }

  lemma ExecuteQuarter3(s: State)
    requires 0xC0 <= Opcode(s) && Opcode(s) != 0xCB
    ensures Execute(s) == Quarter3(s, Opcode(s))
  {
  }

  lemma Quarter3IsRoutine(s: State, op: bv8)
    requires 0xC0 <= op && op != 0xF1 && op != 0xF3 && op != 0xFB && op != 0xD9
    ensures Quarter3(s, op) == Quarter3Routine(s, op)
  {
  }

  /** Execute on an opcode of 0xC0-0xFF other than the prefix, POP AF, DI,
      EI and RETI. */
  lemma ExecuteRoutine(s: State)
    requires 0xC0 <= Opcode(s) && Opcode(s) != 0xCB
    requires Opcode(s) != 0xF1 && Opcode(s) != 0xF3 && Opcode(s) != 0xFB && Opcode(s) != 0xD9
    ensures Execute(s) == Quarter3Routine(s, Opcode(s))
  {
    ExecuteQuarter3(s);
    Quarter3IsRoutine(s, Opcode(s));
  }

  // ---------------------------------------------------------------------
  // Single instructions
  // ---------------------------------------------------------------------

  lemma Quarter0LoadBc(s: State)
    ensures Quarter0(s, 0x01) == LoadPairImmediate(s, BC)
  {
  }

  /** LD BC,d16 (0x01): C takes the byte at PC+1 and B the byte at PC+2. */
  lemma LoadBcImmediate(s: State)
    requires Opcode(s) == 0x01
    ensures Execute(s).regs.c == Imm8(s, 1) && Execute(s).regs.b == Imm8(s, 2)
    ensures Execute(s).regs.pc == s.regs.pc + 3
  {
    ExecuteQuarter0(s);
    Quarter0LoadBc(s);
  }

  lemma Quarter0LoadSp(s: State)
    ensures Quarter0(s, 0x31) == LoadPairImmediate(s, SP)
  {
  }

  /** LD SP,d16 (0x31): SP takes the little-endian word at PC+1. */
  lemma LoadSpImmediate(s: State)
    requires Opcode(s) == 0x31
    ensures Execute(s).regs.sp == Imm16(s)
    ensures Execute(s).regs.pc == s.regs.pc + 3
  {
    ExecuteQuarter0(s);
    Quarter0LoadSp(s);
  }

  lemma Quarter0Jr(s: State)
    ensures Quarter0(s, 0x18) == JumpRelative(s, true)
  {
    var op: bv8 := 0x18;
    assert op & 0x0F == 0x8 && op >> 4 == 1;
  }

  /** JR r8 (0x18) is the unconditional relative jump. */
  lemma JumpRelativeDecode(s: State)
    requires Opcode(s) == 0x18
    ensures Execute(s) == JumpRelative(s, true)
  {
    ExecuteQuarter0(s);
    Quarter0Jr(s);
  }

  /** A relative jump by 0xFE (-2) lands on itself and changes nothing. */
  lemma JumpRelativeBackTwo(s: State)
    requires Imm8(s, 1) == 0xFE
    ensures JumpRelative(s, true) == s
  {
    assert s.regs.pc + 2 + SignExtend(0xFE) == s.regs.pc;
  }

  /** JR -2 is an endless loop: executing it gives back the same state. */
  lemma JumpRelativeMinusTwoLoops(s: State)
    requires Opcode(s) == 0x18 && Imm8(s, 1) == 0xFE
    ensures Execute(s) == s
  {
    JumpRelativeDecode(s);
    JumpRelativeBackTwo(s);
  }

  /** JR NZ, JR Z, JR NC, JR C (0x20, 0x28, 0x30, 0x38) are taken exactly
      when Z is clear, Z is set, C is clear, C is set. */
  lemma JumpRelativeConditions(s: State)
    ensures Opcode(s) == 0x20 ==> Execute(s) == JumpRelative(s, !s.flags.zero)
    ensures Opcode(s) == 0x28 ==> Execute(s) == JumpRelative(s, s.flags.zero)
    ensures Opcode(s) == 0x30 ==> Execute(s) == JumpRelative(s, !s.flags.carry)
    ensures Opcode(s) == 0x38 ==> Execute(s) == JumpRelative(s, s.flags.carry)
  {
    if Opcode(s) < 0x40 {
      ExecuteQuarter0(s);
    }
  }

  lemma RoutineIllegal(s: State, op: bv8)
    requires IsIllegal(op)
    ensures Quarter3Routine(s, op) == Advance(s, 1)
  {
  }

  /** The opcodes the table does not know only move PC on by one. */
  lemma IllegalOpcodesOnlyAdvance(s: State)
    requires IsIllegal(Opcode(s))
    ensures Execute(s) == s.(regs := s.regs.(pc := s.regs.pc + 1))
  {
    ExecuteRoutine(s);
    RoutineIllegal(s, Opcode(s));
  }

  /** RST 38H (0xFF) is the restart to 0x0038. */
  lemma RestartDecode(s: State)
    requires Opcode(s) == 0xFF
    ensures Execute(s) == Restart(s, 0x38)
  {
    ExecuteRoutine(s);
  }

  /** XOR A (0xAF) and CP A (0xBF) force Z after the operation, which their
      results already have: the forcing changes nothing. */
  lemma ForcedZeroIsRedundant(s: State, op: bv8)
    requires op == 0xAF || op == 0xBF
    ensures Quarter2(s, op) == AluOnA(s, AluOpOf((op >> 3) & 7), s.regs.a, 1)
  {
  }

  /** CP with a register or (HL) (0xB8-0xBF) leaves A alone. */
  lemma CompareKeepsA(s: State)
    requires 0xB8 <= Opcode(s) <= 0xBF
    ensures Execute(s).regs.a == s.regs.a
  {
    ExecuteQuarter2(s);
  }

  lemma RoutineCompareImmediate(s: State)
    ensures Quarter3Routine(s, 0xFE) == AluOnA(s, CpA, Imm8(s, 1), 2)
  {
  }

  /** CP d8 (0xFE) leaves A alone and sets Z exactly when A equals the
      immediate byte. */
  lemma CompareImmediate(s: State)
    requires Opcode(s) == 0xFE
    ensures Execute(s).regs.a == s.regs.a
    ensures Execute(s).flags.zero <==> s.regs.a == Imm8(s, 1)
  {
    ExecuteRoutine(s);
    RoutineCompareImmediate(s);
  }

  lemma Quarter1Halt(s: State)
    ensures Quarter1(s, 0x76) == Halt(s)
  {
  }

  /** HALT (0x76) stops the timer: bit 2 of TAC is cleared, and no other
      byte of memory changes. */
  lemma HaltStopsTimer(s: State)
    requires Opcode(s) == 0x76
    ensures !IsSet(Read(Execute(s).mem, TAC), 2)
    ensures forall b: bv16 :: b != TAC ==> Read(Execute(s).mem, b) == Read(s.mem, b)
    ensures Execute(s).regs.pc == s.regs.pc + 1
  {
    ExecuteQuarter1(s);
    Quarter1Halt(s);
  }

  /** EI (0xFB) does not enable interrupts by itself: it only schedules the
      enable. */
  lemma EnableIsDelayed(s: State)
    requires Opcode(s) == 0xFB
    ensures Execute(s).irq.ime == s.irq.ime
    ensures Execute(s).irq.scheduled && Execute(s).irq.delay == 1
  {
  }

  lemma Quarter1LoadAB(s: State)
    ensures Quarter1(s, 0x78) == LoadOperand(s, Direct(RegA), Direct(RegB))
  {
  }

  /** LD A,B (0x78) copies B into A and touches nothing else but PC. */
  lemma LoadAFromB(s: State)
    requires Opcode(s) == 0x78
    ensures Execute(s).regs == s.regs.(a := s.regs.b, pc := s.regs.pc + 1)
    ensures Execute(s).mem == s.mem && Execute(s).flags == s.flags
  {
    ExecuteQuarter1(s);
    Quarter1LoadAB(s);
  }

  lemma Quarter0IncHl(s: State)
    ensures Quarter0(s, 0x34) == IncDecOperand(s, AtHL, true)
  {
  }

  /** INC (HL) (0x34) stores directly: with HL pointing at DIV the register
      is incremented, where a store through writeToMemory would clear it. */
  lemma IncrementAtDivBypassesReset(s: State)
    requires Opcode(s) == 0x34 && HLValue(s.regs) == DIV
    ensures Read(Execute(s).mem, DIV) == Read(s.mem, DIV) + 1
  {
    ExecuteQuarter0(s);
    Quarter0IncHl(s);
  }

  lemma Quarter0LoadHlImmediate(s: State)
    ensures Quarter0(s, 0x36) == LoadOperandImmediate(s, AtHL)
  {
  }

  /** LD (HL),d8 (0x36) goes through writeToMemory: with HL pointing at DIV
      the register is cleared whatever the immediate byte. */
  lemma LoadAtDivResets(s: State)
    requires Opcode(s) == 0x36 && HLValue(s.regs) == DIV
    ensures Read(Execute(s).mem, DIV) == 0
  {
    ExecuteQuarter0(s);
    Quarter0LoadHlImmediate(s);
  }

  /** The prefix byte 0xCB selects the CB table. */
  lemma ExecutePrefixed(s: State)
    requires Opcode(s) == 0xCB
    ensures Execute(s) == ExecuteCb(s)
  {
  }

  /** A CB-prefixed instruction writes no byte of memory other than the one
      at HL. */
  lemma PrefixedTouchesOnlyHl(s: State)
    ensures forall b: bv16 :: b != HLValue(s.regs) ==> Read(ExecuteCb(s).mem, b) == Read(s.mem, b)
  {
  }

  /** RES n (CB 0x80-0xBF) clears bit n of its operand and keeps the other
      bits; SET n (CB 0xC0-0xFF) sets it. */
  lemma ResetAndSetBit(cb: bv8, v: bv8, fl: Flags)
    requires cb >> 6 >= 2
    ensures cb >> 6 == 2 ==> !IsSet(CbResult(cb, v, fl).value, (cb >> 3) & 7)
    ensures cb >> 6 == 3 ==> IsSet(CbResult(cb, v, fl).value, (cb >> 3) & 7)
    ensures CbResult(cb, v, fl).value & !(1 << ((cb >> 3) & 7)) == v & !(1 << ((cb >> 3) & 7))
  {
  }

  /** BIT n (CB 0x40-0x7F) sets Z exactly when bit n of its operand is
      clear, and keeps the operand and C. */
  lemma TestBit(cb: bv8, v: bv8, fl: Flags)
    requires cb >> 6 == 1
    ensures CbResult(cb, v, fl).value == v
    ensures CbResult(cb, v, fl).flags.zero <==> !IsSet(v, (cb >> 3) & 7)
    ensures CbResult(cb, v, fl).flags.carry == fl.carry
  {
  }

  /** SWAP (CB 0x30-0x37) exchanges the nibbles of its operand. */
  lemma SwapNibbles(cb: bv8, v: bv8, fl: Flags)
    requires 0x30 <= cb <= 0x37
    ensures CbResult(cb, v, fl).value == (v << 4) | (v >> 4)
  {
  }

  // ---------------------------------------------------------------------
  // Instruction pairs
  // ---------------------------------------------------------------------

  /** Two words with the same high and low bytes are equal. */
  lemma SameWord(w: bv16, v: bv16)
    requires High(w) == High(v) && Low(w) == Low(v)
    ensures w == v
  {
    SplitCombine(w);
    SplitCombine(v);
  }

  /** After CALL, the word at the new SP is the address after the call. */
  lemma CallLeavesReturnAddress(s: State)
    requires PlainlyWritable(s.regs.sp - 1) && PlainlyWritable(s.regs.sp - 2)
    ensures Read(Call(s).mem, Call(s).regs.sp + 1) == High(s.regs.pc + 3)
    ensures Read(Call(s).mem, Call(s).regs.sp) == Low(s.regs.pc + 3)
  {
    assert s.regs.sp - 2 + 1 == s.regs.sp - 1;
  }

  /** RET undoes CALL when the stack bytes land in plainly writable memory:
      execution resumes after the call with SP where it was. */
  lemma {:induction false} ReturnUndoesCall(s: State)
    requires PlainlyWritable(s.regs.sp - 1) && PlainlyWritable(s.regs.sp - 2)
    ensures Return(Call(s)).regs.pc == s.regs.pc + 3
    ensures Return(Call(s)).regs.sp == s.regs.sp
  {
    CallLeavesReturnAddress(s);
    SameWord(Return(Call(s)).regs.pc, s.regs.pc + 3);
  }

  lemma RoutineCall(s: State)
    ensures Quarter3Routine(s, 0xCD) == Call(s)
  {
  }

  lemma RoutineReturn(s: State)
    ensures Quarter3Routine(s, 0xC9) == Return(s)
  {
  }

  /** CALL a16 (0xCD) followed by RET (0xC9) at the target resumes after the
      call, with SP restored. */
  lemma {:induction false} CallThenReturn(s: State)
    requires Opcode(s) == 0xCD
    requires PlainlyWritable(s.regs.sp - 1) && PlainlyWritable(s.regs.sp - 2)
    requires Opcode(Execute(s)) == 0xC9
    ensures Execute(Execute(s)).regs.pc == s.regs.pc + 3
    ensures Execute(Execute(s)).regs.sp == s.regs.sp
  {
    ExecuteRoutine(s);
    RoutineCall(s);
    ExecuteRoutine(Execute(s));
    RoutineReturn(Execute(s));
    ReturnUndoesCall(s);
  }

  /** After PUSH, the word at the new SP is the pushed pair. */
  lemma PushLeavesPair(s: State, hi: bv8, lo: bv8)
    requires PlainlyWritable(s.regs.sp - 1) && PlainlyWritable(s.regs.sp - 2)
    ensures Read(PushPair(s, hi, lo).mem, PushPair(s, hi, lo).regs.sp + 1) == hi
    ensures Read(PushPair(s, hi, lo).mem, PushPair(s, hi, lo).regs.sp) == lo
  {
    assert s.regs.sp - 2 + 1 == s.regs.sp - 1;
  }

  /** POP into a pair undoes PUSH of the same two bytes: the pair holds
      them, high byte first, and SP is back where it was. */
  lemma {:induction false} PopUndoesPush(s: State, hi: bv8, lo: bv8, p: Pair)
    requires p != SP
    requires PlainlyWritable(s.regs.sp - 1) && PlainlyWritable(s.regs.sp - 2)
    ensures GetPair(PopPair(PushPair(s, hi, lo), p).regs, p) == Combine(hi, lo)
    ensures PopPair(PushPair(s, hi, lo), p).regs.sp == s.regs.sp
  {
    PushLeavesPair(s, hi, lo);
    SameWord(GetPair(PopPair(PushPair(s, hi, lo), p).regs, p), Combine(hi, lo));
  }

  lemma RoutinePushBc(s: State)
    ensures Quarter3Routine(s, 0xC5) == PushPair(s, s.regs.b, s.regs.c)
  {
  }

  lemma RoutinePopDe(s: State)
    ensures Quarter3Routine(s, 0xD1) == PopPair(s, DE)
  {
  }

  /** PUSH BC (0xC5) followed by POP DE (0xD1), with the stack bytes in
      plainly writable memory, copies BC into DE and restores SP. */
  lemma {:induction false} PushThenPop(s: State)
    requires Opcode(s) == 0xC5
    requires PlainlyWritable(s.regs.sp - 1) && PlainlyWritable(s.regs.sp - 2)
    requires Opcode(Execute(s)) == 0xD1
    ensures GetPair(Execute(Execute(s)).regs, DE) == GetPair(s.regs, BC)
    ensures Execute(Execute(s)).regs.sp == s.regs.sp
  {
    ExecuteRoutine(s);
    RoutinePushBc(s);
    ExecuteRoutine(Execute(s));
    RoutinePopDe(Execute(s));
    PopUndoesPush(s, s.regs.b, s.regs.c, DE);
  }

  // ---------------------------------------------------------------------
  // What the instruction families mean
  // ---------------------------------------------------------------------

  /** The four conditions come in complementary pairs: NZ and Z, NC and C. */
  lemma ConditionsComeInPairs(fl: Flags, k: bv8)
    requires k < 4
    ensures Condition(fl, k ^ 1) == !Condition(fl, k)
  {
  }

  /** NZ and Z read only Z; NC and C read only C. */
  lemma ConditionReadsOneFlag(fl: Flags, g: Flags, k: bv8)
    requires k < 4
    requires k < 2 ==> fl.zero == g.zero
    requires k >= 2 ==> fl.carry == g.carry
    ensures Condition(fl, k) == Condition(g, k)
  {
  }

  /** JP a16 (0xC3) to its own address is a busy loop: the state does not
      change. */
  lemma JumpToSelfLoops(s: State)
    requires Opcode(s) == 0xC3 && Imm16(s) == s.regs.pc
    ensures Execute(s) == s
  {
    ExecuteRoutine(s);
  }

  /** CALL reads its target after pushing, as the source does: from PC
      0xC000 with SP 0xC003 the pushed return address 0xC003 overwrites the
      operand, and the call goes to 0xC003 whatever the operand was. */
  lemma CallReadsTargetAfterPush(s: State)
    requires s.regs.pc == 0xC000 && s.regs.sp == 0xC003
    ensures Call(s).regs.pc == 0xC003
  {
    assert PlainlyWritable(s.regs.sp - 1) && PlainlyWritable(s.regs.sp - 2);
    assert Combine(High(0xC003), Low(0xC003)) == 0xC003;
  }

  /** LD (a16),SP reads its operand again after the first store: from PC
      0xC000 with operand 0xC002 and SP 0xFFFE, the low byte 0xFE overwrites
      the operand's high byte, so the operand now reads 0xFE02 and the high
      byte 0xFF goes to 0xFE03, while 0xC003 keeps its old value. */
  lemma StoreSpRereadsAddress(s: State)
    requires s.regs.pc == 0xC000 && s.regs.sp == 0xFFFE
    requires Read(s.mem, 0xC001) == 0x02 && Read(s.mem, 0xC002) == 0xC0
    ensures Read(StoreSp(s).mem, 0xC002) == 0xFE
    ensures Read(StoreSp(s).mem, 0xFE03) == 0xFF
    ensures Read(StoreSp(s).mem, 0xC003) == Read(s.mem, 0xC003)
  {
    var m := s.mem;
    assert WordAfter(m, 0xC000) == 0xC002;
    assert Low(s.regs.sp) == 0xFE && High(s.regs.sp) == 0xFF;
    var m1 := WriteToMemory(m, 0xC002, 0xFE);
    WriteReadsBack(m, 0xC002, 0xFE);
    WriteKeeps(m, 0xC002, 0xFE, 0xC001);
    WriteKeeps(m, 0xC002, 0xFE, 0xC003);
    assert WordAfter(m1, 0xC000) == 0xFE02;
    TwoWrites(m, 0xC002, 0xFE, 0xFE03, 0xFF);
    WriteKeeps(m1, 0xFE03, 0xFF, 0xC003);
  }

  /** CALL NZ, CALL Z, CALL NC, CALL C (0xC4, 0xCC, 0xD4, 0xDC) call exactly
      when Z is clear, Z is set, C is clear, C is set, and otherwise move PC
      past the three-byte instruction. */
  lemma CallConditions(s: State)
    requires Opcode(s) == 0xC4 || Opcode(s) == 0xCC || Opcode(s) == 0xD4 || Opcode(s) == 0xDC
    ensures Opcode(s) == 0xC4 ==> Execute(s) == (if !s.flags.zero then Call(s) else Advance(s, 3))
    ensures Opcode(s) == 0xCC ==> Execute(s) == (if s.flags.zero then Call(s) else Advance(s, 3))
    ensures Opcode(s) == 0xD4 ==> Execute(s) == (if !s.flags.carry then Call(s) else Advance(s, 3))
    ensures Opcode(s) == 0xDC ==> Execute(s) == (if s.flags.carry then Call(s) else Advance(s, 3))
  {
    ExecuteRoutine(s);
    if Opcode(s) == 0xC4 || Opcode(s) == 0xCC {
      CallOnZero(s);
    } else {
      CallOnCarry(s);
    }
  }

  lemma CallOnZero(s: State)
    requires Opcode(s) == 0xC4 || Opcode(s) == 0xCC
    ensures Opcode(s) == 0xC4 ==> Quarter3Routine(s, Opcode(s)) == (if !s.flags.zero then Call(s) else Advance(s, 3))
    ensures Opcode(s) == 0xCC ==> Quarter3Routine(s, Opcode(s)) == (if s.flags.zero then Call(s) else Advance(s, 3))
  {
  }

  lemma CallOnCarry(s: State)
    requires Opcode(s) == 0xD4 || Opcode(s) == 0xDC
    ensures Opcode(s) == 0xD4 ==> Quarter3Routine(s, Opcode(s)) == (if !s.flags.carry then Call(s) else Advance(s, 3))
    ensures Opcode(s) == 0xDC ==> Quarter3Routine(s, Opcode(s)) == (if s.flags.carry then Call(s) else Advance(s, 3))
  {
  }

  /** RET NZ, RET Z, RET NC, RET C (0xC0, 0xC8, 0xD0, 0xD8) return exactly
      when Z is clear, Z is set, C is clear, C is set, and otherwise move PC
      on by one. */
  lemma ReturnConditions(s: State)
    requires Opcode(s) == 0xC0 || Opcode(s) == 0xC8 || Opcode(s) == 0xD0 || Opcode(s) == 0xD8
    ensures Opcode(s) == 0xC0 ==> Execute(s) == (if !s.flags.zero then Return(s) else Advance(s, 1))
    ensures Opcode(s) == 0xC8 ==> Execute(s) == (if s.flags.zero then Return(s) else Advance(s, 1))
    ensures Opcode(s) == 0xD0 ==> Execute(s) == (if !s.flags.carry then Return(s) else Advance(s, 1))
    ensures Opcode(s) == 0xD8 ==> Execute(s) == (if s.flags.carry then Return(s) else Advance(s, 1))
  {
    ExecuteRoutine(s);
    if Opcode(s) == 0xC0 || Opcode(s) == 0xC8 {
      ReturnOnZero(s);
    } else {
      ReturnOnCarry(s);
    }
  }

  lemma ReturnOnZero(s: State)
    requires Opcode(s) == 0xC0 || Opcode(s) == 0xC8
    ensures Opcode(s) == 0xC0 ==> Quarter3Routine(s, Opcode(s)) == (if !s.flags.zero then Return(s) else Advance(s, 1))
    ensures Opcode(s) == 0xC8 ==> Quarter3Routine(s, Opcode(s)) == (if s.flags.zero then Return(s) else Advance(s, 1))
  {
  }

  lemma ReturnOnCarry(s: State)
    requires Opcode(s) == 0xD0 || Opcode(s) == 0xD8
    ensures Opcode(s) == 0xD0 ==> Quarter3Routine(s, Opcode(s)) == (if !s.flags.carry then Return(s) else Advance(s, 1))
    ensures Opcode(s) == 0xD8 ==> Quarter3Routine(s, Opcode(s)) == (if s.flags.carry then Return(s) else Advance(s, 1))
  {
  }

  /** ADD A,v followed by SUB v gives back A, and the subtraction borrows
      exactly when the addition carried. */
  lemma {:induction false} AddThenSubRestoresA(s: State, v: bv8)
    ensures AluOnA(AluOnA(s, AddA, v, 1), SubA, v, 1).regs.a == s.regs.a
    ensures AluOnA(AluOnA(s, AddA, v, 1), SubA, v, 1).flags.carry == AluOnA(s, AddA, v, 1).flags.carry
  {
    AluProps.SubUndoesAdd(s.regs.a, v);
  }

  /** LD A,(BC) or LD A,(DE) after LD (BC),A or LD (DE),A reads back A when
      the address is plainly writable, and the old byte when it is ROM,
      where the store is dropped. */
  lemma LoadFromPairAfterStore(s: State, p: Pair)
    ensures PlainlyWritable(GetPair(s.regs, p)) ==>
      LoadFromPair(StoreAtPair(s, p), p).regs.a == s.regs.a
    ensures GetPair(s.regs, p) < 0x8000 ==>
      LoadFromPair(StoreAtPair(s, p), p).regs.a == Read(s.mem, GetPair(s.regs, p))
  {
    assert GetPair(StoreAtPair(s, p).regs, p) == GetPair(s.regs, p);
  }

  /** The same for LDH and LD (a16) stores and loads of A. */
  lemma LoadAAfterStoreA(s: State, addr: bv16, n: bv16, k: bv16)
    ensures PlainlyWritable(addr) ==> LoadA(StoreA(s, addr, n), addr, k).regs.a == s.regs.a
    ensures addr < 0x8000 ==> LoadA(StoreA(s, addr, n), addr, k).regs.a == Read(s.mem, addr)
  {
  }

  /** RLCA and RRCA rotate A by one place. */
  lemma {:induction false} RotateAIsRotation(s: State)
    ensures RotateA(s, Left, false).regs.a == s.regs.a.RotateLeft(1)
    ensures RotateA(s, Right, false).regs.a == s.regs.a.RotateRight(1)
  {
    AluProps.RotIsRotation(s.regs.a, s.flags);
  }

  /** RRA after RLA gives back A and C, and leaves Z clear. */
  lemma {:induction false} RraUndoesRla(s: State)
    ensures RotateA(RotateA(s, Left, true), Right, true).regs.a == s.regs.a
    ensures RotateA(RotateA(s, Left, true), Right, true).flags.carry == s.flags.carry
    ensures !RotateA(RotateA(s, Left, true), Right, true).flags.zero
  {
    AluProps.RotThroughCarryRoundTrip(s.regs.a, s.flags);
  }

  /** CPL twice, as two one-byte instructions, gives back the whole register
      file except that PC has moved on by 2; memory, Z and C are kept and N
      and H are left set. */
  lemma {:induction false} CplTwiceRestoresA(s: State)
    ensures var t := OnA(s, Cpl(s.regs.a, s.flags));
      var u := OnA(t, Cpl(t.regs.a, t.flags));
      u.regs == s.regs.(pc := s.regs.pc + 2) && u.mem == s.mem &&
      u.flags == s.flags.(sub := true, half := true)
  {
    var t := OnA(s, Cpl(s.regs.a, s.flags));
    AluProps.CplTwice(s.regs.a, s.flags);
    assert Cpl(t.regs.a, t.flags).value == Cpl(Cpl(s.regs.a, s.flags).value, s.flags).value;
  }

  /** SCF followed by CCF clears C and keeps Z: the usual way to clear the
      carry without touching A. */
  lemma ScfThenCcfClearsCarry(s: State)
    ensures var t := OnFlags(s, Scf(s.flags));
      var u := OnFlags(t, Ccf(t.flags));
      !u.flags.carry && u.flags.zero == s.flags.zero && u.regs.a == s.regs.a && u.mem == s.mem
  {
  }

  /** CCF twice, as two one-byte instructions, gives back C and Z and the
      whole register file except that PC has moved on by 2; memory is kept
      and N and H are left clear. */
  lemma CcfTwiceRestoresCarry(s: State)
    ensures var t := OnFlags(s, Ccf(s.flags));
      var u := OnFlags(t, Ccf(t.flags));
      u.regs == s.regs.(pc := s.regs.pc + 2) && u.mem == s.mem &&
      u.flags == s.flags.(sub := false, half := false)
  {
  }
}
