/** Fetch and execute (gb.cpp:142-3090): the CB-prefixed table and the
    unprefixed table. Both tables are written out case by case in the
    source, but every entry follows the usual SM83 layout, so the model
    decodes an opcode from its bit fields: bits 0-2 name an 8-bit operand,
    bits 3-5 an operand, an ALU operation, a bit number or a condition, and
    bits 4-5 a register pair. Each instruction family is one function whose
    contract says what it does; `Execute` dispatches to them. None of them
    runs `updateFlagReg`: that happens once per cycle, after execution. */
module Instructions {
  import opened Bits
  import opened Bus
  import opened Registers
  import opened Alu
  import opened Cpu

  /** The byte at PC. */
  function Opcode(s: State): bv8
  {
    Read(s.mem, s.regs.pc)
  }

  /** What every ordinary instruction leaves alone: the interrupt
      bookkeeping, the cycle counter and the F register (the flag bytes may
      change; F catches up in updateFlagReg). */
  predicate Routine(s: State, r: State)
  {
    r.irq == s.irq && r.counter == s.counter && r.regs.f == s.regs.f
  }

  /** `s` with PC moved on by `n` and nothing else changed. */
  function Advance(s: State, n: bv16): (r: State)
    ensures r.regs == s.regs.(pc := s.regs.pc + n) && r.mem == s.mem && r.flags == s.flags
    ensures Routine(s, r)
  {
    s.(regs := s.regs.(pc := s.regs.pc + n))
  }

  // ---------------------------------------------------------------------
  // The CB-prefixed table (gb.cpp:145-1521)
  // ---------------------------------------------------------------------

  /** Rows 0x00-0x3F of the CB table: RLC, RRC, RL, RR, SLA, SRA, SWAP, SRL,
      selected by bits 3-5. */
  function CbRotShift(k: bv8, v: bv8, fl: Flags): (r: AluOut)
    requires k < 8
    ensures k == 6 ==> r == Swap(v)
    ensures k < 4 ==> r.flags.carry == (if k % 2 == 0 then IsSet(v, 7) else IsSet(v, 0))
  {
    if k == 0 then RotLeft(v, false, fl)
    else if k == 1 then RotRight(v, false, fl)
    else if k == 2 then RotLeft(v, true, fl)
    else if k == 3 then RotRight(v, true, fl)
    else if k == 4 then Shift(ArithLeft, v, fl)
    else if k == 5 then Shift(ArithRight, v, fl)
    else if k == 6 then Swap(v)
    else Shift(LogicalRight, v, fl)
  }

  /** The byte and flags a CB-prefixed operation `cb` leaves for operand
      value `v`: bits 6-7 pick rotate/shift, BIT, RES or SET and bits 3-5 the
      operation or bit number. BIT leaves the byte alone, RES and SET leave
      the flags alone. */
  function CbResult(cb: bv8, v: bv8, fl: Flags): (r: AluOut)
    ensures cb >> 6 == 1 ==> r.value == v && r.flags == Bit((cb >> 3) & 7, v, fl)
    ensures cb >> 6 >= 2 ==> r.flags == fl
  {
    var n := (cb >> 3) & 7;
    if cb >> 6 == 0 then CbRotShift(n, v, fl)
    else if cb >> 6 == 1 then AluOut(v, Bit(n, v, fl))
    else if cb >> 6 == 2 then AluOut(ModifyBit(v, 0, n), fl)
    else AluOut(ModifyBit(v, 1, n), fl)
  }

  /** A CB-prefixed instruction. PC moves past the prefix to the second
      opcode byte, the operation named by that byte runs on its operand
      (a register, or the byte at HL stored directly), and PC moves past it:
      two bytes in all. BIT only reads; the others write their operand. */
  function ExecuteCb(s: State): (r: State)
    ensures r.regs.pc == s.regs.pc + 2 && r.regs.sp == s.regs.sp && Routine(s, r)
    ensures var cb := Read(s.mem, s.regs.pc + 1);
      var out := CbResult(cb, ReadOperand(s, OperandOf(cb & 7)), s.flags);
      r.flags == out.flags && ReadOperand(r, OperandOf(cb & 7)) == out.value
  {
    // The second byte sits at PC+1; PC ends two bytes on.
    var cb := Read(s.mem, s.regs.pc + 1);
    var pc' := s.regs.pc + 2;
    var o := OperandOf(cb & 7);
    var out := CbResult(cb, ReadOperand(s, o), s.flags);
    var s1 := s.(regs := s.regs.(pc := pc'), flags := out.flags);
    // BIT leaves the operand as it was: only PC and the flags moved.
    if cb >> 6 == 1 then assert ReadOperand(s1, o) == ReadOperand(s, o); s1
    else WriteOperandDirect(s1, o, out.value)
  }

  // ---------------------------------------------------------------------
  // Instruction families of the unprefixed table
  // ---------------------------------------------------------------------

  /** The condition in bits 3-4 of JR/JP/CALL/RET cc: NZ, Z, NC, C. */
  function Condition(fl: Flags, k: bv8): (c: bool)
    requires k < 4
    ensures k == 0 ==> c == !fl.zero
    ensures k == 1 ==> c == fl.zero
    ensures k == 2 ==> c == !fl.carry
    ensures k == 3 ==> c == fl.carry
  {
    if k == 0 then !fl.zero else if k == 1 then fl.zero else if k == 2 then !fl.carry else fl.carry
  }

  /** LD rr,d16: the byte at PC+1 goes to the low register of the pair and
      the byte at PC+2 to the high one; PC moves on by 3. */
  function LoadPairImmediate(s: State, p: Pair): (r: State)
    ensures Low(GetPair(r.regs, p)) == Imm8(s, 1) && High(GetPair(r.regs, p)) == Imm8(s, 2)
    ensures r.regs.pc == s.regs.pc + 3 && r.regs.a == s.regs.a
    ensures r.mem == s.mem && r.flags == s.flags && Routine(s, r)
  {
    s.(regs := SetPair(s.regs.(pc := s.regs.pc + 3), p, Imm16(s)))
  }

  /** JR and JR cc: when taken, PC becomes the address after the two-byte
      instruction moved by the signed offset at PC+1; otherwise PC moves on
      by 2. Nothing else changes. */
  function JumpRelative(s: State, taken: bool): (r: State)
    ensures taken ==> r.regs.pc == s.regs.pc + 2 + SignExtend(Imm8(s, 1))
    ensures !taken ==> r.regs.pc == s.regs.pc + 2
    ensures r == s.(regs := s.regs.(pc := r.regs.pc))
  {
    // The source moves PC to the offset byte, adds the offset, and then
    // moves past the offset byte.
    if taken then s.(regs := s.regs.(pc := s.regs.pc + 2 + SignExtend(Imm8(s, 1))))
    else Advance(s, 2)
  }

  /** JP a16 and JP cc,a16: when taken PC becomes the word at PC+1,
      otherwise it moves on by 3. */
  function JumpAbsolute(s: State, taken: bool): (r: State)
    ensures taken ==> r.regs.pc == Imm16(s)
    ensures !taken ==> r.regs.pc == s.regs.pc + 3
    ensures r == s.(regs := s.regs.(pc := r.regs.pc))
  {
    if taken then s.(regs := s.regs.(pc := Imm16(s))) else Advance(s, 3)
  }

  /** Whether address `a` is one of the two stack bytes a push from `s`
      writes. */
  predicate PushTouches(s: State, a: bv16)
  {
    a == s.regs.sp - 1 || a == s.regs.sp - 2
  }

  /** CALL (gb.cpp:3512-3521): push the address of the next instruction,
      PC+3, high byte first, and jump to the word at PC+1. The target is
      read after the pushes, so a push that lands on the operand bytes
      changes where the call goes. */
  function Call(s: State): (r: State)
    ensures r.regs.pc == Combine(Read(r.mem, s.regs.pc + 2), Read(r.mem, s.regs.pc + 1))
    ensures r.regs.sp == s.regs.sp - 2
    ensures r.flags == s.flags && Routine(s, r)
    ensures PlainlyWritable(s.regs.sp - 1) && PlainlyWritable(s.regs.sp - 2) ==>
      Read(r.mem, s.regs.sp - 1) == High(s.regs.pc + 3) &&
      Read(r.mem, s.regs.sp - 2) == Low(s.regs.pc + 3)
    ensures (PlainlyWritable(s.regs.sp - 1) && PlainlyWritable(s.regs.sp - 2) &&
             !PushTouches(s, s.regs.pc + 1) && !PushTouches(s, s.regs.pc + 2)) ==> r.regs.pc == Imm16(s)
  {
    var ret := s.regs.pc + 3;
    var pushed := Push(s, High(ret), Low(ret));
    var r := pushed.(regs := pushed.regs.(pc := Combine(Read(pushed.mem, s.regs.pc + 2), Read(pushed.mem, s.regs.pc + 1))));
    if PlainlyWritable(s.regs.sp - 1) && PlainlyWritable(s.regs.sp - 2) &&
       !PushTouches(s, s.regs.pc + 1) && !PushTouches(s, s.regs.pc + 2)
    then
      OperandSurvivesPush(s, High(ret), Low(ret));
      r
    else r
  }

  /** A push that misses the two operand bytes leaves the word at PC+1 as
      it was. */
  lemma OperandSurvivesPush(s: State, hi: bv8, lo: bv8)
    requires PlainlyWritable(s.regs.sp - 1) && PlainlyWritable(s.regs.sp - 2)
    requires !PushTouches(s, s.regs.pc + 1) && !PushTouches(s, s.regs.pc + 2)
    ensures Combine(Read(Push(s, hi, lo).mem, s.regs.pc + 2), Read(Push(s, hi, lo).mem, s.regs.pc + 1)) == Imm16(s)
  {
    var p := Push(s, hi, lo);
    assert Read(p.mem, s.regs.pc + 1) == Imm8(s, 1) by {
      PushKeepsOthers(s, hi, lo, s.regs.pc + 1);
    }
    assert Read(p.mem, s.regs.pc + 2) == Imm8(s, 2) by {
      PushKeepsOthers(s, hi, lo, s.regs.pc + 2);
    }
  }

  /** A push into plainly writable memory leaves every byte but its two
      alone. */
  lemma PushKeepsOthers(s: State, hi: bv8, lo: bv8, a: bv16)
    requires PlainlyWritable(s.regs.sp - 1) && PlainlyWritable(s.regs.sp - 2)
    requires !PushTouches(s, a)
    ensures Read(Push(s, hi, lo).mem, a) == Read(s.mem, a)
  {
    var m1 := Store(s.mem, s.regs.sp - 1, hi);
    assert Push(s, hi, lo).mem == Store(m1, s.regs.sp - 2, lo);
    assert Read(m1, a) == Read(s.mem, a);
  }

  /** CALL cc: CALL when taken, otherwise PC moves on by 3. */
  function CallIf(s: State, taken: bool): (r: State)
    ensures taken ==> r == Call(s)
    ensures !taken ==> r == Advance(s, 3)
  {
    if taken then Call(s) else Advance(s, 3)
  }

  /** RET: pop PC, low byte from SP and high byte from SP+1; SP moves up 2. */
  function Return(s: State): (r: State)
    ensures Low(r.regs.pc) == Read(s.mem, s.regs.sp) && High(r.regs.pc) == Read(s.mem, s.regs.sp + 1)
    ensures r.regs.sp == s.regs.sp + 2
    ensures r.mem == s.mem && r.flags == s.flags && Routine(s, r)
  {
    s.(regs := s.regs.(pc := PopWord(s), sp := s.regs.sp + 2))
  }

  /** RET cc: RET when taken, otherwise PC moves on by 1. */
  function ReturnIf(s: State, taken: bool): (r: State)
    ensures taken ==> r == Return(s)
    ensures !taken ==> r == Advance(s, 1)
  {
    if taken then Return(s) else Advance(s, 1)
  }

  /** RST (gb.cpp:3524-3531): PC moves past the one-byte instruction, is
      pushed, and becomes the vector. */
  function Restart(s: State, vec: bv8): (r: State)
    ensures r.regs.pc == vec as bv16 && r.regs.sp == s.regs.sp - 2
    ensures r.flags == s.flags && Routine(s, r)
    ensures PlainlyWritable(s.regs.sp - 1) && PlainlyWritable(s.regs.sp - 2) ==>
      Read(r.mem, s.regs.sp - 1) == High(s.regs.pc + 1) &&
      Read(r.mem, s.regs.sp - 2) == Low(s.regs.pc + 1)
  {
    var ret := s.regs.pc + 1;
    var pushed := Push(s, High(ret), Low(ret));
    pushed.(regs := pushed.regs.(pc := vec as bv16))
  }

  /** The high register of the pair PUSH names in bits 4-5 of the opcode:
      B, D, H, A. */
  function StackHigh(regs: Regs, k: bv8): bv8
    requires k < 4
  {
    if k == 0 then regs.b else if k == 1 then regs.d else if k == 2 then regs.h else regs.a
  }

  /** The low register of the same pair: C, E, L, F. */
  function StackLow(regs: Regs, k: bv8): bv8
    requires k < 4
  {
    if k == 0 then regs.c else if k == 1 then regs.e else if k == 2 then regs.l else regs.f
  }

  /** PUSH rr with the pair's high and low register: the high one at SP-1
      and the low one at SP-2, both through writeToMemory; SP moves down 2
      and PC on by 1. */
  function PushPair(s: State, hi: bv8, lo: bv8): (r: State)
    ensures r.regs == s.regs.(sp := s.regs.sp - 2, pc := s.regs.pc + 1)
    ensures r.flags == s.flags && Routine(s, r)
    ensures PlainlyWritable(s.regs.sp - 1) && PlainlyWritable(s.regs.sp - 2) ==>
      Read(r.mem, s.regs.sp - 1) == hi && Read(r.mem, s.regs.sp - 2) == lo
  {
    var pc' := s.regs.pc + 1;
    var pushed := Push(s, hi, lo);
    pushed.(regs := pushed.regs.(pc := pc'))
  }

  /** POP BC, POP DE, POP HL: the high register from SP+1, the low one from
      SP; SP moves up 2 and PC on by 1. */
  function PopPair(s: State, p: Pair): (r: State)
    requires p != SP
    ensures High(GetPair(r.regs, p)) == Read(s.mem, s.regs.sp + 1)
    ensures Low(GetPair(r.regs, p)) == Read(s.mem, s.regs.sp)
    ensures r.regs.sp == s.regs.sp + 2 && r.regs.pc == s.regs.pc + 1 && r.regs.a == s.regs.a
    ensures r.mem == s.mem && r.flags == s.flags && Routine(s, r)
  {
    s.(regs := SetPair(s.regs.(sp := s.regs.sp + 2, pc := s.regs.pc + 1), p, PopWord(s)))
  }

  /** POP AF (gb.cpp:2997-3006): A from SP+1, F from the byte at SP with its
      low nibble cleared, and the four flag bytes reloaded from F's top
      bits. */
  function PopAf(s: State): (r: State)
    ensures r.regs.a == Read(s.mem, s.regs.sp + 1)
    ensures r.regs.f == Read(s.mem, s.regs.sp) & 0xF0
    ensures FlagRegAgrees(r.regs.f, r.flags)
    ensures r.regs.sp == s.regs.sp + 2 && r.regs.pc == s.regs.pc + 1
    ensures r.mem == s.mem && r.irq == s.irq && r.counter == s.counter
  {
    var f := Read(s.mem, s.regs.sp) & 0xF0;
    s.(regs := s.regs.(a := Read(s.mem, s.regs.sp + 1), f := f,
                        sp := s.regs.sp + 2, pc := s.regs.pc + 1),
       flags := FlagsOf(f))
  }

  /** The ALU operation in bits 3-5 of opcodes 0x80-0xBF and of the
      immediate forms 0xC6-0xFE. */
  datatype AluOp = AddA | AdcA | SubA | SbcA | AndA | XorA | OrA | CpA

  function AluOpOf(k: bv8): AluOp
    requires k < 8
  {
    if k == 0 then AddA else if k == 1 then AdcA else if k == 2 then SubA
    else if k == 3 then SbcA else if k == 4 then AndA else if k == 5 then XorA
    else if k == 6 then OrA else CpA
  }

  /** One ALU operation on A and an operand. CP computes flags only and
      leaves A as it was. */
  function ApplyAlu(op: AluOp, a: bv8, v: bv8, fl: Flags): (r: AluOut)
    ensures op == CpA ==> r.value == a && (r.flags.zero <==> a == v)
    ensures op != CpA && op != AndA && op != XorA && op != OrA ==> (r.flags.zero <==> r.value == 0)
    ensures op == AndA || op == XorA || op == OrA ==> !r.flags.carry && !r.flags.sub
  {
    match op
    case AddA => Add(a, v, false, fl)
    case AdcA => Add(a, v, true, fl)
    case SubA => Sub(a, v, false, fl)
    case SbcA => Sub(a, v, true, fl)
    case AndA => And(a, v)
    case XorA => Xor(a, v)
    case OrA => Or(a, v)
    case CpA => AluOut(a, Cp(a, v, fl))
  }

  /** An ALU instruction on A: A and the flags take the operation's result,
      PC moves on by `len`, memory is untouched. */
  function AluOnA(s: State, op: AluOp, v: bv8, len: bv16): (r: State)
    ensures r.regs == s.regs.(a := ApplyAlu(op, s.regs.a, v, s.flags).value, pc := s.regs.pc + len)
    ensures r.flags == ApplyAlu(op, s.regs.a, v, s.flags).flags
    ensures r.mem == s.mem && Routine(s, r)
  {
    var out := ApplyAlu(op, s.regs.a, v, s.flags);
    s.(regs := s.regs.(a := out.value, pc := s.regs.pc + len), flags := out.flags)
  }

  /** INC r / INC (HL) (direct store) and DEC likewise: C is kept. */
  function IncDecOperand(s: State, o: Operand, inc: bool): (r: State)
    ensures ReadOperand(r, o) == if inc then ReadOperand(s, o) + 1 else ReadOperand(s, o) - 1
    ensures r.flags.carry == s.flags.carry && r.flags.sub == !inc
    ensures r.regs.pc == s.regs.pc + 1 && r.regs.sp == s.regs.sp && Routine(s, r)
  {
    var v := ReadOperand(s, o);
    var out := if inc then Inc(v, s.flags) else Dec(v, s.flags);
    WriteOperandDirect(s.(regs := s.regs.(pc := s.regs.pc + 1), flags := out.flags), o, out.value)
  }

  /** INC rr and DEC rr: the pair moves by one with wrap-around; no flag
      changes. */
  function IncDecPair(s: State, p: Pair, inc: bool): (r: State)
    ensures GetPair(r.regs, p) == if inc then GetPair(s.regs, p) + 1 else GetPair(s.regs, p) - 1
    ensures r.regs.pc == s.regs.pc + 1 && r.regs.a == s.regs.a
    ensures r.mem == s.mem && r.flags == s.flags && Routine(s, r)
  {
    var w := GetPair(s.regs, p);
    s.(regs := SetPair(s.regs.(pc := s.regs.pc + 1), p, if inc then w + 1 else w - 1))
  }

  /** ADD HL,rr: HL takes the 16-bit sum; Z is kept. */
  function AddHl(s: State, p: Pair): (r: State)
    ensures HLValue(r.regs) == HLValue(s.regs) + GetPair(s.regs, p)
    ensures r.flags == Add16(HLValue(s.regs), GetPair(s.regs, p), s.flags).flags
    ensures r.regs.pc == s.regs.pc + 1 && r.regs.sp == s.regs.sp && r.regs.a == s.regs.a
    ensures r.mem == s.mem && Routine(s, r)
  {
    var out := Add16(HLValue(s.regs), GetPair(s.regs, p), s.flags);
    s.(regs := SetPair(s.regs.(pc := s.regs.pc + 1), HL, out.value), flags := out.flags)
  }

  /** LD r,d8 and LD (HL),d8 (the latter through writeToMemory). */
  function LoadOperandImmediate(s: State, o: Operand): (r: State)
    ensures o.Direct? ==> ReadOperand(r, o) == Imm8(s, 1) && r.mem == s.mem
    ensures o == AtHL ==> r.mem == WriteToMemory(s.mem, HLValue(s.regs), Imm8(s, 1))
    ensures r.regs.pc == s.regs.pc + 2 && r.regs.sp == s.regs.sp
    ensures r.flags == s.flags && Routine(s, r)
  {
    var v := Imm8(s, 1);
    WriteOperandBus(s.(regs := s.regs.(pc := s.regs.pc + 2)), o, v)
  }

  /** LD r,r' with its operands in bits 3-5 (destination) and 0-2 (source):
      (HL) as a source is read, as a destination written through
      writeToMemory. */
  function LoadOperand(s: State, dst: Operand, src: Operand): (r: State)
    ensures dst.Direct? ==> ReadOperand(r, dst) == ReadOperand(s, src) && r.mem == s.mem
    ensures dst == AtHL ==> r.mem == WriteToMemory(s.mem, HLValue(s.regs), ReadOperand(s, src))
    ensures r.regs.pc == s.regs.pc + 1 && r.regs.sp == s.regs.sp
    ensures r.flags == s.flags && Routine(s, r)
  {
    var v := ReadOperand(s, src);
    WriteOperandBus(s.(regs := s.regs.(pc := s.regs.pc + 1)), dst, v)
  }

  /** HALT (gb.cpp:2280-2284): only clears bit 2 of TAC, stopping the timer,
      with a direct store; PC moves on by 1. */
  function Halt(s: State): (r: State)
    ensures !IsSet(Read(r.mem, TAC), 2)
    ensures Read(r.mem, TAC) & !(1 << 2) == Read(s.mem, TAC) & !(1 << 2)
    ensures forall b: bv16 :: b != TAC ==> Read(r.mem, b) == Read(s.mem, b)
    ensures r.regs == s.regs.(pc := s.regs.pc + 1) && r.flags == s.flags && Routine(s, r)
  {
    s.(mem := Store(s.mem, TAC, ModifyBit(Read(s.mem, TAC), 0, 2)), regs := s.regs.(pc := s.regs.pc + 1))
  }

  /** LD (BC),A and LD (DE),A: A is stored through writeToMemory at the
      address in the pair. */
  function StoreAtPair(s: State, p: Pair): (r: State)
    ensures r.mem == WriteToMemory(s.mem, GetPair(s.regs, p), s.regs.a)
    ensures r.regs == s.regs.(pc := s.regs.pc + 1) && r.flags == s.flags && Routine(s, r)
  {
    s.(mem := WriteToMemory(s.mem, GetPair(s.regs, p), s.regs.a), regs := s.regs.(pc := s.regs.pc + 1))
  }

  /** LD (HL+),A and LD (HL-),A: A is stored through writeToMemory at HL,
      then HL moves up or down by one. */
  function StoreAtHlStep(s: State, inc: bool): (r: State)
    ensures r.mem == WriteToMemory(s.mem, HLValue(s.regs), s.regs.a)
    ensures HLValue(r.regs) == if inc then HLValue(s.regs) + 1 else HLValue(s.regs) - 1
    ensures r.regs.pc == s.regs.pc + 1 && r.regs.a == s.regs.a && r.regs.sp == s.regs.sp
    ensures r.flags == s.flags && Routine(s, r)
  {
    var hl := HLValue(s.regs);
    s.(mem := WriteToMemory(s.mem, hl, s.regs.a),
       regs := SetPair(s.regs.(pc := s.regs.pc + 1), HL, if inc then hl + 1 else hl - 1))
  }

  /** LD A,(BC) and LD A,(DE): a plain read into A. */
  function LoadFromPair(s: State, p: Pair): (r: State)
    ensures r.regs == s.regs.(a := Read(s.mem, GetPair(s.regs, p)), pc := s.regs.pc + 1)
    ensures r.mem == s.mem && r.flags == s.flags && Routine(s, r)
  {
    s.(regs := s.regs.(a := Read(s.mem, GetPair(s.regs, p)), pc := s.regs.pc + 1))
  }

  /** LD A,(HL+) and LD A,(HL-): a plain read into A, then HL moves up or
      down by one. */
  function LoadFromHlStep(s: State, inc: bool): (r: State)
    ensures r.regs.a == Read(s.mem, HLValue(s.regs))
    ensures HLValue(r.regs) == if inc then HLValue(s.regs) + 1 else HLValue(s.regs) - 1
    ensures r.regs.pc == s.regs.pc + 1 && r.regs.sp == s.regs.sp
    ensures r.mem == s.mem && r.flags == s.flags && Routine(s, r)
  {
    var hl := HLValue(s.regs);
    s.(regs := SetPair(s.regs.(a := Read(s.mem, hl), pc := s.regs.pc + 1), HL, if inc then hl + 1 else hl - 1))
  }

  /** LD (a16),SP: the low byte of SP goes through writeToMemory to the
      operand word; then the operand is read again, from the memory as that
      store left it, and the high byte goes to that word plus one. PC moves on
      by 3. Where the bytes land is stated by `StoreSpHighByteLands` and
      `StoreSpSideBySide`; `InstructionsProps.StoreSpRereadsAddress` shows
      a case where they are not side by side. */
  function StoreSp(s: State): (r: State)
    ensures r.regs == s.regs.(pc := s.regs.pc + 3) && r.flags == s.flags && Routine(s, r)
  {
    s.(mem := StoreSpMem(s.mem, s.regs.pc, WordAfter(s.mem, s.regs.pc), Low(s.regs.sp), High(s.regs.sp)),
       regs := s.regs.(pc := s.regs.pc + 3))
  }

  /** LD (a16),SP: the high byte of SP lands at the operand word as the
      first store left it, plus one. */
  lemma StoreSpHighByteLands(s: State)
    requires PlainlyWritable(WordAfter(WriteToMemory(s.mem, WordAfter(s.mem, s.regs.pc), Low(s.regs.sp)), s.regs.pc) + 1)
    ensures Read(StoreSp(s).mem, WordAfter(WriteToMemory(s.mem, WordAfter(s.mem, s.regs.pc), Low(s.regs.sp)), s.regs.pc) + 1)
            == High(s.regs.sp)
  {
    StoreSpHighByte(s.mem, s.regs.pc, WordAfter(s.mem, s.regs.pc), Low(s.regs.sp), High(s.regs.sp));
  }

  /** LD (a16),SP: when the operand word is plainly writable, as is the byte
      after it, and the first store hits neither PC+1 nor PC+2, the low byte
      of SP lands at the word and the high byte right after it. */
  lemma StoreSpSideBySide(s: State)
    requires PlainlyWritable(WordAfter(s.mem, s.regs.pc)) && PlainlyWritable(WordAfter(s.mem, s.regs.pc) + 1)
    requires !OperandByte(s.regs.pc, WordAfter(s.mem, s.regs.pc))
    ensures Read(StoreSp(s).mem, WordAfter(s.mem, s.regs.pc)) == Low(s.regs.sp)
    ensures Read(StoreSp(s).mem, WordAfter(s.mem, s.regs.pc) + 1) == High(s.regs.sp)
  {
    StoreSpPlain(s.mem, s.regs.pc, WordAfter(s.mem, s.regs.pc), Low(s.regs.sp), High(s.regs.sp));
  }

  /** Memory after the two stores of LD (a16),SP at `pc`: `lo` at `first`,
      then `hi` at the operand word, read again, plus one. */
  function StoreSpMem(m: Mem, pc: bv16, first: bv16, lo: bv8, hi: bv8): Mem
  {
    var m1 := WriteToMemory(m, first, lo);
    WriteToMemory(m1, WordAfter(m1, pc) + 1, hi)
  }

  /** The second store reads back at the re-read word plus one. */
  lemma StoreSpHighByte(m: Mem, pc: bv16, first: bv16, lo: bv8, hi: bv8)
    requires PlainlyWritable(WordAfter(WriteToMemory(m, first, lo), pc) + 1)
    ensures Read(StoreSpMem(m, pc, first, lo, hi), WordAfter(WriteToMemory(m, first, lo), pc) + 1) == hi
  {
    var m1 := WriteToMemory(m, first, lo);
    WriteReadsBack(m1, WordAfter(m1, pc) + 1, hi);
  }

  /** When the first store leaves the operand word at `first`, the two bytes
      land side by side. */
  lemma StoreSpAdjacent(m: Mem, pc: bv16, first: bv16, lo: bv8, hi: bv8)
    requires PlainlyWritable(first) && PlainlyWritable(first + 1) && WordAfter(WriteToMemory(m, first, lo), pc) == first
    ensures Read(StoreSpMem(m, pc, first, lo, hi), first) == lo && Read(StoreSpMem(m, pc, first, lo, hi), first + 1) == hi
  {
    AdjacentWritesAfter(m, first, lo, hi, pc);
  }

  /** A first store that misses PC+1 and PC+2 leaves the operand word, so
      the two bytes land side by side. */
  lemma StoreSpPlain(m: Mem, pc: bv16, first: bv16, lo: bv8, hi: bv8)
    requires first == WordAfter(m, pc) && !OperandByte(pc, first)
    requires PlainlyWritable(first) && PlainlyWritable(first + 1)
    ensures Read(StoreSpMem(m, pc, first, lo, hi), first) == lo && Read(StoreSpMem(m, pc, first, lo, hi), first + 1) == hi
  {
    WriteKeepsWord(m, first, lo, pc);
    StoreSpAdjacent(m, pc, first, lo, hi);
  }

  /** RLCA, RRCA, RLA, RRA: ROT on A, then Z is forced to 0. */
  function RotateA(s: State, dir: Dir, throughCarry: bool): (r: State)
    ensures r.regs.a == Rot(dir, throughCarry, s.regs.a, s.flags).value
    ensures r.flags == Rot(dir, throughCarry, s.regs.a, s.flags).flags.(zero := false)
    ensures r.regs.pc == s.regs.pc + 1 && r.mem == s.mem && Routine(s, r)
  {
    var out := Rot(dir, throughCarry, s.regs.a, s.flags);
    s.(regs := s.regs.(a := out.value, pc := s.regs.pc + 1), flags := out.flags.(zero := false))
  }

  /** Apply a result to A and the flags and move PC on by 1 (DAA, CPL). */
  function OnA(s: State, out: AluOut): (r: State)
    ensures r.regs == s.regs.(a := out.value, pc := s.regs.pc + 1)
    ensures r.flags == out.flags && r.mem == s.mem && Routine(s, r)
  {
    s.(regs := s.regs.(a := out.value, pc := s.regs.pc + 1), flags := out.flags)
  }

  /** Replace the flags and move PC on by 1 (SCF, CCF). */
  function OnFlags(s: State, fl: Flags): (r: State)
    ensures r.regs == s.regs.(pc := s.regs.pc + 1) && r.flags == fl && r.mem == s.mem && Routine(s, r)
  {
    s.(regs := s.regs.(pc := s.regs.pc + 1), flags := fl)
  }

  /** ADD SP,r8 (gb.cpp:2949-2952). */
  function AddSp(s: State): (r: State)
    ensures r.regs.sp == s.regs.sp + SignExtend(Imm8(s, 1))
    ensures r.flags == AddSigned(s.regs.sp, Imm8(s, 1), s.flags).flags
    ensures r.regs.pc == s.regs.pc + 2 && r.mem == s.mem && Routine(s, r)
  {
    var out := AddSigned(s.regs.sp, Imm8(s, 1), s.flags);
    s.(regs := s.regs.(sp := out.value, pc := s.regs.pc + 2), flags := out.flags)
  }

  /** LD HL,SP+r8 (gb.cpp:3040-3047): HL takes SP moved by the signed
      offset, with the flags of ADD SP,r8; SP itself is kept. */
  function LoadHlSpOffset(s: State): (r: State)
    ensures HLValue(r.regs) == s.regs.sp + SignExtend(Imm8(s, 1))
    ensures r.flags == AddSigned(s.regs.sp, Imm8(s, 1), s.flags).flags
    ensures r.regs.sp == s.regs.sp && r.regs.pc == s.regs.pc + 2 && r.mem == s.mem && Routine(s, r)
  {
    var out := AddSigned(s.regs.sp, Imm8(s, 1), s.flags);
    s.(regs := SetPair(s.regs.(pc := s.regs.pc + 2), HL, out.value), flags := out.flags)
  }

  /** LDH (a8),A / LDH (C),A / LD (a16),A: A through writeToMemory. */
  function StoreA(s: State, addr: bv16, len: bv16): (r: State)
    ensures r.mem == WriteToMemory(s.mem, addr, s.regs.a)
    ensures r.regs == s.regs.(pc := s.regs.pc + len) && r.flags == s.flags && Routine(s, r)
  {
    s.(mem := WriteToMemory(s.mem, addr, s.regs.a), regs := s.regs.(pc := s.regs.pc + len))
  }

  /** LDH A,(a8) / LDH A,(C) / LD A,(a16): a plain read into A. */
  function LoadA(s: State, addr: bv16, len: bv16): (r: State)
    ensures r.regs == s.regs.(a := Read(s.mem, addr), pc := s.regs.pc + len)
    ensures r.mem == s.mem && r.flags == s.flags && Routine(s, r)
  {
    s.(regs := s.regs.(a := Read(s.mem, addr), pc := s.regs.pc + len))
  }

  /** The interrupt-state change of EI() (gb.cpp:3534-3539). */
  function EnableNow(irq: Irq): (r: Irq)
    ensures r.ime && !r.scheduled && r.delay == 1
  {
    Irq(true, false, 1)
  }

  /** The interrupt-state change of DI() (gb.cpp:3542-3546). */
  function Disable(irq: Irq): (r: Irq)
    ensures !r.ime && !r.scheduled && r.delay == 1
  {
    Irq(false, false, 1)
  }

  // ---------------------------------------------------------------------
  // The unprefixed table, one quarter at a time
  // ---------------------------------------------------------------------

  /** Opcodes 0x00-0x3F. */
  function Quarter0(s: State, op: bv8): (r: State)
    requires op < 0x40
    ensures Routine(s, r)
  {
    var col := op & 0x0F;
    var row := op >> 4;
    var k := (op >> 3) & 7;
    if col == 0x0 then
      if row < 2 then Advance(s, 1)   // NOP, STOP
      else JumpRelative(s, Condition(s.flags, (op >> 3) & 3))
    else if col == 0x1 then LoadPairImmediate(s, PairOf(row))
    else if col == 0x2 then
      if row < 2 then StoreAtPair(s, PairOf(row)) else StoreAtHlStep(s, row == 2)
    else if col == 0x3 then IncDecPair(s, PairOf(row), true)
    else if col == 0x4 || col == 0xC then IncDecOperand(s, OperandOf(k), true)
    else if col == 0x5 || col == 0xD then IncDecOperand(s, OperandOf(k), false)
    else if col == 0x6 || col == 0xE then LoadOperandImmediate(s, OperandOf(k))
    else if col == 0x7 then
      if row == 0 then RotateA(s, Left, false)
      else if row == 1 then RotateA(s, Left, true)
      else if row == 2 then OnA(s, Daa(s.regs.a, s.flags))
      else OnFlags(s, Scf(s.flags))
    else if col == 0x8 then
      if row == 0 then StoreSp(s)
      else if row == 1 then JumpRelative(s, true)
      else JumpRelative(s, Condition(s.flags, (op >> 3) & 3))
    else if col == 0x9 then AddHl(s, PairOf(row))
    else if col == 0xA then
      if row < 2 then LoadFromPair(s, PairOf(row)) else LoadFromHlStep(s, row == 2)
    else if col == 0xB then IncDecPair(s, PairOf(row), false)
    else
      if row == 0 then RotateA(s, Right, false)
      else if row == 1 then RotateA(s, Right, true)
      else if row == 2 then OnA(s, Cpl(s.regs.a, s.flags))
      else OnFlags(s, Ccf(s.flags))
  }

  /** Opcodes 0x40-0x7F: LD r,r' and, in place of LD (HL),(HL), HALT. */
  function Quarter1(s: State, op: bv8): (r: State)
    requires 0x40 <= op < 0x80
    ensures Routine(s, r) && r.flags == s.flags
  {
    if op == 0x76 then Halt(s)
    else LoadOperand(s, OperandOf((op >> 3) & 7), OperandOf(op & 7))
  }

  /** Opcodes 0x80-0xBF: ADD, ADC, SUB, SBC, AND, XOR, OR, CP with a
      register or (HL). XOR A and CP A additionally set Z, which their
      results already have. */
  function Quarter2(s: State, op: bv8): (r: State)
    requires 0x80 <= op < 0xC0
    ensures Routine(s, r) && r.mem == s.mem && r.regs.pc == s.regs.pc + 1
  {
    var r := AluOnA(s, AluOpOf((op >> 3) & 7), ReadOperand(s, OperandOf(op & 7)), 1);
    if op == 0xAF || op == 0xBF then r.(flags := r.flags.(zero := true)) else r
  }

  /** The opcodes the table reports as unknown: only PC moves on. */
  predicate IsIllegal(op: bv8)
  {
    op == 0xD3 || op == 0xDB || op == 0xDD || op == 0xE3 || op == 0xE4 || op == 0xEB
    || op == 0xEC || op == 0xED || op == 0xF4 || op == 0xFC || op == 0xFD
  }

  /** Opcodes 0xC0-0xFF other than POP AF, DI, EI and RETI, which are the
      only ones in the table that write F or the interrupt state. 0xCB never
      reaches this table (the prefix is handled first), and its entry does
      nothing, as the source's switch has no case for it. */
  function Quarter3Routine(s: State, op: bv8): (r: State)
    requires 0xC0 <= op && op != 0xF1 && op != 0xF3 && op != 0xFB && op != 0xD9
    ensures Routine(s, r)
    ensures IsIllegal(op) ==> r == Advance(s, 1)
  {
    var col := op & 0x0F;
    var row := (op >> 4) & 3;
    var cond := (op >> 3) & 3;
    if IsIllegal(op) then Advance(s, 1)
    else if col == 0x0 then
      if row < 2 then ReturnIf(s, Condition(s.flags, cond))
      else if row == 2 then StoreA(s, 0xFF00 + Imm8(s, 1) as bv16, 2)
      else LoadA(s, 0xFF00 + Imm8(s, 1) as bv16, 2)
    else if col == 0x1 then PopPair(s, PairOf(row))
    else if col == 0x2 then
      if row < 2 then JumpAbsolute(s, Condition(s.flags, cond))
      else if row == 2 then StoreA(s, 0xFF00 + s.regs.c as bv16, 1)
      else LoadA(s, 0xFF00 + s.regs.c as bv16, 1)
    else if col == 0x3 then JumpAbsolute(s, true)
    else if col == 0x4 || col == 0xC then CallIf(s, Condition(s.flags, cond))
    else if col == 0x5 then PushPair(s, StackHigh(s.regs, row), StackLow(s.regs, row))
    else if col == 0x6 || col == 0xE then AluOnA(s, AluOpOf((op >> 3) & 7), Imm8(s, 1), 2)
    else if col == 0x7 || col == 0xF then Restart(s, op & 0x38)
    else if col == 0x8 then
      if row < 2 then ReturnIf(s, Condition(s.flags, cond))
      else if row == 2 then AddSp(s)
      else LoadHlSpOffset(s)
    else if col == 0x9 then
      if row == 0 then Return(s)
      else if row == 2 then s.(regs := s.regs.(pc := HLValue(s.regs)))   // JP HL
      else s.(regs := s.regs.(sp := HLValue(s.regs), pc := s.regs.pc + 1))   // LD SP,HL
    else if col == 0xA then
      if row < 2 then JumpAbsolute(s, Condition(s.flags, cond))
      else if row == 2 then StoreA(s, Imm16(s), 3)
      else LoadA(s, Imm16(s), 3)
    else if col == 0xB then s   // 0xCB: no case in this switch
    else Call(s)   // 0xCD, the only legal opcode left in this column
  }

  /** Opcodes 0xC0-0xFF. */
  function Quarter3(s: State, op: bv8): (r: State)
    requires 0xC0 <= op
    ensures op != 0xF1 && op != 0xF3 && op != 0xFB && op != 0xD9 ==> Routine(s, r)
    ensures op == 0xF1 ==> r == PopAf(s)
    ensures op == 0xF3 ==> r == s.(regs := s.regs.(pc := s.regs.pc + 1), irq := Disable(s.irq))
    ensures op == 0xFB ==> r == s.(regs := s.regs.(pc := s.regs.pc + 1), irq := s.irq.(scheduled := true, delay := 1))
    ensures op == 0xD9 ==> r == Return(s).(irq := EnableNow(s.irq))
  {
    if op == 0xF1 then PopAf(s)
    else if op == 0xF3 then s.(regs := s.regs.(pc := s.regs.pc + 1), irq := Disable(s.irq))   // DI
    else if op == 0xFB then s.(regs := s.regs.(pc := s.regs.pc + 1), irq := s.irq.(scheduled := true, delay := 1))   // EI
    else if op == 0xD9 then Return(s).(irq := EnableNow(s.irq))   // RETI
    else Quarter3Routine(s, op)
  }

  /** One fetch and execute: the CB table when the byte at PC is 0xCB,
      otherwise the unprefixed table. Only DI, EI and RETI touch the
      interrupt state (EI only schedules), only POP AF writes F (leaving it
      in agreement with the flags), and nothing touches the counter. */
  function Execute(s: State): (r: State)
    ensures r.counter == s.counter
    ensures Opcode(s) != 0xF1 ==> r.regs.f == s.regs.f
    ensures Opcode(s) == 0xF1 ==> FlagRegAgrees(r.regs.f, r.flags)
    ensures Opcode(s) != 0xF3 && Opcode(s) != 0xFB && Opcode(s) != 0xD9 ==> r.irq == s.irq
    ensures Opcode(s) == 0xF3 ==> !r.irq.ime && !r.irq.scheduled && r.irq.delay == 1
    ensures Opcode(s) == 0xFB ==> r.irq == s.irq.(scheduled := true, delay := 1)
    ensures Opcode(s) == 0xD9 ==> r.irq.ime && !r.irq.scheduled && r.irq.delay == 1
  {
    var op := Opcode(s);
    if op == 0xCB then ExecuteCb(s)
    else if op < 0x40 then Quarter0(s, op)
    else if op < 0x80 then Quarter1(s, op)
    else if op < 0xC0 then Quarter2(s, op)
    else Quarter3(s, op)
  }
}
