/** The interpreter's state (class gb, gb.h:26-77): the registers, the flag
    bytes, the 64 KiB memory, the interrupt-enable bookkeeping and the cycle
    counter, with the accessors the opcode tables use and the initial state
    that `initialize` builds. */
module Cpu {
  import opened Bits
  import opened Bus
  import opened Registers

  /** IME, scheduleIME and cyclesBeforeEnableIME. The last is an `int` in the
      source that only ever holds 0 or 1. */
  datatype Irq = Irq(ime: bool, scheduled: bool, delay: int)

  /** Everything one cycle reads and writes. `counter` is kept modulo 0x10000:
      every use of it (DIV and the timer periods) depends on its low 16 bits
      only. */
  datatype State = State(regs: Regs, flags: Flags, mem: Mem, irq: Irq, counter: bv16)

  /** The seven 8-bit registers an opcode can name. */
  datatype Reg8 = RegB | RegC | RegD | RegE | RegH | RegL | RegA

  /** An 8-bit operand: a register, or the byte HL points at. */
  datatype Operand = Direct(reg: Reg8) | AtHL

  /** The register pairs BC, DE, HL and the stack pointer, in the order rows
      0x0_ to 0x3_ of the opcode table use them. */
  datatype Pair = BC | DE | HL | SP

  function Get(regs: Regs, r: Reg8): bv8
  {
    match r
    case RegB => regs.b
    case RegC => regs.c
    case RegD => regs.d
    case RegE => regs.e
    case RegH => regs.h
    case RegL => regs.l
    case RegA => regs.a
  }

  /** Assign one register; every other register, F, SP and PC keep their
      values. */
  function Set(regs: Regs, r: Reg8, v: bv8): (q: Regs)
    ensures Get(q, r) == v
    ensures forall o: Reg8 :: o != r ==> Get(q, o) == Get(regs, o)
    ensures q.f == regs.f && q.sp == regs.sp && q.pc == regs.pc
  {
    match r
    case RegB => regs.(b := v)
    case RegC => regs.(c := v)
    case RegD => regs.(d := v)
    case RegE => regs.(e := v)
    case RegH => regs.(h := v)
    case RegL => regs.(l := v)
    case RegA => regs.(a := v)
  }

  /** The operand named by the low three bits of an opcode (or by bits 3-5):
      B, C, D, E, H, L, (HL), A. */
  function OperandOf(k: bv8): (o: Operand)
    requires k < 8
    ensures o == AtHL <==> k == 6
  {
    if k == 0 then Direct(RegB)
    else if k == 1 then Direct(RegC)
    else if k == 2 then Direct(RegD)
    else if k == 3 then Direct(RegE)
    else if k == 4 then Direct(RegH)
    else if k == 5 then Direct(RegL)
    else if k == 6 then AtHL
    else Direct(RegA)
  }

  /** The register pair named by bits 4-5 of an opcode in rows 0x0_-0x3_. */
  function PairOf(k: bv8): Pair
    requires k < 4
  {
    if k == 0 then BC else if k == 1 then DE else if k == 2 then HL else SP
  }

  /** combineReg(H, L). */
  function HLValue(regs: Regs): bv16
  {
    Combine(regs.h, regs.l)
  }

  /** The 16-bit value of a register pair. */
  function GetPair(regs: Regs, p: Pair): bv16
  {
    match p
    case BC => Combine(regs.b, regs.c)
    case DE => Combine(regs.d, regs.e)
    case HL => Combine(regs.h, regs.l)
    case SP => regs.sp
  }

  /** splitReg into a register pair (or a plain assignment to SP); A, F and
      PC keep their values. */
  function SetPair(regs: Regs, p: Pair, w: bv16): (q: Regs)
    ensures GetPair(q, p) == w
    ensures q.a == regs.a && q.f == regs.f && q.pc == regs.pc
    ensures p != SP ==> q.sp == regs.sp
  {
    match p
    case BC => regs.(b := High(w), c := Low(w))
    case DE => regs.(d := High(w), e := Low(w))
    case HL => regs.(h := High(w), l := Low(w))
    case SP => regs.(sp := w)
  }

  /** The value of an operand. */
  function ReadOperand(s: State, o: Operand): bv8
  {
    match o
    case Direct(r) => Get(s.regs, r)
    case AtHL => Read(s.mem, HLValue(s.regs))
  }

  /** Store into an operand the way the ALU, INC/DEC and CB instructions do:
      registers are assigned and (HL) is written through the reference,
      bypassing writeToMemory. */
  function WriteOperandDirect(s: State, o: Operand, v: bv8): (r: State)
    ensures ReadOperand(r, o) == v
    ensures r.flags == s.flags && r.irq == s.irq && r.counter == s.counter
    ensures r.regs.f == s.regs.f && r.regs.sp == s.regs.sp && r.regs.pc == s.regs.pc
    ensures o.Direct? ==> r.mem == s.mem
    ensures o == AtHL ==> r.regs == s.regs
    ensures forall b: bv16 :: b != HLValue(s.regs) ==> Read(r.mem, b) == Read(s.mem, b)
  {
    match o
    case Direct(reg) => s.(regs := Set(s.regs, reg, v))
    case AtHL => s.(mem := Store(s.mem, HLValue(s.regs), v))
  }

  /** Store into an operand the way the LD instructions do: registers are
      assigned and (HL) goes through writeToMemory. */
  function WriteOperandBus(s: State, o: Operand, v: bv8): (r: State)
    ensures r.flags == s.flags && r.irq == s.irq && r.counter == s.counter
    ensures r.regs.f == s.regs.f && r.regs.sp == s.regs.sp && r.regs.pc == s.regs.pc
    ensures o.Direct? ==> ReadOperand(r, o) == v && r.mem == s.mem
    ensures o == AtHL ==> r.regs == s.regs && r.mem == WriteToMemory(s.mem, HLValue(s.regs), v)
  {
    match o
    case Direct(reg) => s.(regs := Set(s.regs, reg, v))
    case AtHL => s.(mem := WriteToMemory(s.mem, HLValue(s.regs), v))
  }

  /** The byte `k` places after PC (the source indexes `memory[PC + k]`; see
      the README on addresses past 0xFFFF). */
  function Imm8(s: State, k: bv16): bv8
  {
    Read(s.mem, s.regs.pc + k)
  }

  /** The little-endian word at PC+1 and PC+2. */
  function Imm16(s: State): (w: bv16)
    ensures Low(w) == Imm8(s, 1) && High(w) == Imm8(s, 2)
  {
    Combine(Imm8(s, 2), Imm8(s, 1))
  }

  /** Push two bytes the way PUSH, CALL, RST and interrupt dispatch do: the
      high byte through writeToMemory at SP-1, then the low byte at SP-2, then
      SP -= 2. Registers other than SP, the flags, the interrupt state and the
      counter are left alone. */
  function Push(s: State, hi: bv8, lo: bv8): (r: State)
    ensures r.regs == s.regs.(sp := s.regs.sp - 2)
    ensures r.flags == s.flags && r.irq == s.irq && r.counter == s.counter
    ensures PlainlyWritable(s.regs.sp - 1) && PlainlyWritable(s.regs.sp - 2) ==>
      r.mem == Store(Store(s.mem, s.regs.sp - 1, hi), s.regs.sp - 2, lo)
    ensures PlainlyWritable(s.regs.sp - 1) && PlainlyWritable(s.regs.sp - 2) ==>
      Read(r.mem, s.regs.sp - 1) == hi && Read(r.mem, s.regs.sp - 2) == lo
  {
    var m1 := WriteToMemory(s.mem, s.regs.sp - 1, hi);
    var m2 := WriteToMemory(m1, s.regs.sp - 2, lo);
    s.(mem := m2, regs := s.regs.(sp := s.regs.sp - 2))
  }

  /** The two bytes POP and RET read, high byte at SP+1 and low byte at SP. */
  function PopWord(s: State): (w: bv16)
    ensures High(w) == Read(s.mem, s.regs.sp + 1) && Low(w) == Read(s.mem, s.regs.sp)
  {
    Combine(Read(s.mem, s.regs.sp + 1), Read(s.mem, s.regs.sp))
  }

  /** The initial I/O register values of `initialize` (gb.cpp:37-68); every
      other address starts at zero. DIV is `counter >> 8` with counter
      0xABBC. */
  function InitialByte(i: int): bv8
  {
    if i == 0xFF04 then 0xAB
    else if i == 0xFF10 then 0x80
    else if i == 0xFF11 then 0xBF
    else if i == 0xFF12 then 0xF3
    else if i == 0xFF14 then 0xBF
    else if i == 0xFF16 then 0x3F
    else if i == 0xFF19 then 0xBF
    else if i == 0xFF1A then 0x7F
    else if i == 0xFF1B then 0xFF
    else if i == 0xFF1C then 0x9F
    else if i == 0xFF1E then 0xBF
    else if i == 0xFF20 then 0xFF
    else if i == 0xFF23 then 0xBF
    else if i == 0xFF24 then 0x77
    else if i == 0xFF25 then 0xF3
    else if i == 0xFF26 then 0xF1
    else if i == 0xFF40 then 0x91
    else if i == 0xFF47 then 0xFC
    else if i == 0xFF48 then 0xFF
    else if i == 0xFF49 then 0xFF
    else 0
  }

  /** initialize: the register values after the boot ROM, F = 0xB0 with the
      flag bytes Z=1, N=0, H=1, C=1 to match, PC = 0x100, SP = 0xFFFE,
      counter 0xABBC with DIV showing its high byte, and interrupts off with
      no EI pending. */
  function Initialize(): (s: State)
    ensures s.regs.f == 0xB0 && s.flags == Flags(true, false, true, true)
    ensures FlagRegAgrees(s.regs.f, s.flags)
    ensures s.regs.pc == 0x100 && s.regs.sp == 0xFFFE
    ensures s.mem[0xFF04] == High(s.counter)
    ensures !s.irq.ime && !s.irq.scheduled && s.irq.delay == 1
  {
    State(Regs(0x01, 0x00, 0x13, 0x00, 0xD8, 0xB0, 0x01, 0x4D, 0xFFFE, 0x100),
          Flags(true, false, true, true),
          seq(0x10000, i => InitialByte(i)),
          Irq(false, false, 1),
          0xABBC)
  }

  /** The timer starts stopped at zero, no interrupt is requested or enabled,
      and the LCD is on (LCDC = 0x91). */
  lemma InitialIoRegisters()
    ensures Initialize().mem[0xFF05] == 0 && Initialize().mem[0xFF06] == 0
    ensures Initialize().mem[0xFF07] == 0 && Initialize().mem[0xFF0F] == 0
    ensures Initialize().mem[0xFFFF] == 0 && Initialize().mem[0xFF40] == 0x91
  {
  }

  /** loadGame's copy of the ROM image into the bottom of memory; the bytes
      above it keep their values. */
  function LoadRom(m: Mem, rom: seq<bv8>): (r: Mem)
    requires |rom| <= 0x10000
    ensures forall i :: 0 <= i < |rom| ==> r[i] == rom[i]
    ensures forall i :: |rom| <= i < 0x10000 ==> r[i] == m[i]
  {
    rom + m[|rom|..]
  }

  /** The game title: the 16 header bytes at 0x134-0x143, in order. */
  function Title(m: Mem): (t: seq<bv8>)
    ensures |t| == 16
    ensures forall i :: 0 <= i < 16 ==> t[i] == m[0x134 + i]
  {
    m[0x134..0x144]
  }
}
