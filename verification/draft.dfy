/** The older draft interpreter (gb/gb.cpp), kept apart from the main one.
    It decodes only the rows 0x0_ and 0x1_, and the row 0x0_ has no `break`
    after its inner switch: an opcode 0x0N runs the body of 0x0N, then the
    body of 0x1N on the state that left, then the empty `default`. Every
    opcode from 0x20 on reaches only `default`. The cycle ends with setFlags,
    which copies the flag bytes Zb, Nb, Hb and Cb into F. */
module Draft {
  import opened Bits
  import opened Bus

  datatype Option<T> = None | Some(value: T)

  /** The draft's state (gb/gb.h:6-16). PC and SP are `unsigned int`, the
      flags are the bytes setFlags reads and IME is a byte. The scratch pairs
      HL, BC and DE are recomputed from their halves before every use, so
      they are not part of the state. */
  datatype Gb = Gb(a: bv8, b: bv8, c: bv8, d: bv8, e: bv8, f: bv8, h: bv8, l: bv8,
                   sp: bv32, pc: bv32,
                   zb: bv8, nb: bv8, hb: bv8, cb: bv8, ime: bv8,
                   mem: Mem)

  /** The draft declares a 16-bit checkHalfCarry (gb/gb.h:23) but never
      defines it; ADD HL,BC and ADD HL,DE call it. The model takes whatever
      byte it would give as a parameter of the cycle. */
  type HalfCarry16 = (bv32, bv32) -> bv8

  /** `memory[PC + k]` with the index computed in `unsigned int`. Past the
      64 KiB array the access is undefined; the model calls it a fault. */
  function Fetch(g: Gb, k: bv32): Option<bv8>
  {
    var i := g.pc + k;
    if i < 0x10000 then Some(Read(g.mem, i as bv16)) else None
  }

  /** `memory[A]`, the byte the draft's LD (BC),A and LD (DE),A store. */
  function AtA(g: Gb): bv8
  {
    Read(g.mem, g.a as bv16)
  }

  function Advance(g: Gb, n: bv32): Gb
  {
    g.(pc := g.pc + n)
  }

  /** setFlags (gb/gb.cpp:306-347): Z, N, H and C in turn into bits 7, 6, 5
      and 4 of F. */
  function SetFlags(f: bv8, z: bv8, n: bv8, h: bv8, c: bv8): bv8
  {
    Switch(Switch(Switch(Switch(f, z, 0x80), n, 0x40), h, 0x20), c, 0x10)
  }

  /** One `switch` of setFlags: 0 clears the bits of `mask`, 1 sets them,
      any other value matches no case. */
  function Switch(f: bv8, v: bv8, mask: bv8): bv8
  {
    if v == 0 then f & !mask else if v == 1 then f | mask else f
  }

  /** setFlags never touches the low nibble of F. */
  lemma SetFlagsKeepsLowNibble(f: bv8, z: bv8, n: bv8, h: bv8, c: bv8)
    ensures SetFlags(f, z, n, h, c) & 0x0F == f & 0x0F
  {
  }

  /** The bit a flag byte leaves under `mask`: cleared for 0, set for 1,
      and F's own bit for any other value. */
  function Selected(f: bv8, v: bv8, mask: bv8): bv8
  {
    if v == 0 then 0 else if v == 1 then mask else f & mask
  }

  /** Each flag byte decides its own bit of F (Z bit 7, N bit 6, H bit 5, C
      bit 4): 0 clears it, 1 sets it, and any other value leaves the bit as
      it was. */
  lemma SetFlagsBits(f: bv8, z: bv8, n: bv8, h: bv8, c: bv8)
    ensures SetFlags(f, z, n, h, c) & 0x80 == Selected(f, z, 0x80)
    ensures SetFlags(f, z, n, h, c) & 0x40 == Selected(f, n, 0x40)
    ensures SetFlags(f, z, n, h, c) & 0x20 == Selected(f, h, 0x20)
    ensures SetFlags(f, z, n, h, c) & 0x10 == Selected(f, c, 0x10)
  {
    ZeroBit(f, z, n, h, c);
    SubtractBit(f, z, n, h, c);
    HalfCarryBit(f, z, n, h, c);
    CarryBit(f, z, n, h, c);
  }

  lemma ZeroBit(f: bv8, z: bv8, n: bv8, h: bv8, c: bv8)
    ensures SetFlags(f, z, n, h, c) & 0x80 == Selected(f, z, 0x80)
  {
    var f7 := Switch(f, z, 0x80);
    var f6 := Switch(f7, n, 0x40);
    var f5 := Switch(f6, h, 0x20);
    SwitchMasks(f, z, 0x80, 0x80);
    SwitchMasks(f7, n, 0x40, 0x80);
    SwitchMasks(f6, h, 0x20, 0x80);
    SwitchMasks(f5, c, 0x10, 0x80);
  }

  lemma SubtractBit(f: bv8, z: bv8, n: bv8, h: bv8, c: bv8)
    ensures SetFlags(f, z, n, h, c) & 0x40 == Selected(f, n, 0x40)
  {
    var f7 := Switch(f, z, 0x80);
    var f6 := Switch(f7, n, 0x40);
    var f5 := Switch(f6, h, 0x20);
    SwitchMasks(f, z, 0x80, 0x40);
    SwitchMasks(f7, n, 0x40, 0x40);
    SwitchMasks(f6, h, 0x20, 0x40);
    SwitchMasks(f5, c, 0x10, 0x40);
  }

  lemma HalfCarryBit(f: bv8, z: bv8, n: bv8, h: bv8, c: bv8)
    ensures SetFlags(f, z, n, h, c) & 0x20 == Selected(f, h, 0x20)
  {
    var f7 := Switch(f, z, 0x80);
    var f6 := Switch(f7, n, 0x40);
    var f5 := Switch(f6, h, 0x20);
    SwitchMasks(f, z, 0x80, 0x20);
    SwitchMasks(f7, n, 0x40, 0x20);
    SwitchMasks(f6, h, 0x20, 0x20);
    SwitchMasks(f5, c, 0x10, 0x20);
  }

  lemma CarryBit(f: bv8, z: bv8, n: bv8, h: bv8, c: bv8)
    ensures SetFlags(f, z, n, h, c) & 0x10 == Selected(f, c, 0x10)
  {
    var f7 := Switch(f, z, 0x80);
    var f6 := Switch(f7, n, 0x40);
    var f5 := Switch(f6, h, 0x20);
    SwitchMasks(f, z, 0x80, 0x10);
    SwitchMasks(f7, n, 0x40, 0x10);
    SwitchMasks(f6, h, 0x20, 0x10);
    SwitchMasks(f5, c, 0x10, 0x10);
  }

  /** One switch decides the bits of its mask and keeps the bits of any
      mask disjoint from it. */
  lemma SwitchMasks(f: bv8, v: bv8, mask: bv8, other: bv8)
    ensures mask == other ==> Switch(f, v, mask) & other == Selected(f, v, mask)
    ensures mask & other == 0 ==> Switch(f, v, mask) & other == f & other
  {
  }

  /** Running setFlags a second time with the same flag bytes changes
      nothing. */
  lemma SetFlagsIdempotent(f: bv8, z: bv8, n: bv8, h: bv8, c: bv8)
    ensures SetFlags(SetFlags(f, z, n, h, c), z, n, h, c) == SetFlags(f, z, n, h, c)
  {
  }

  /** checkHalfCarry on bytes (gb/gb.cpp:350-362). Mode 1 asks whether the
      low nibbles carry into bit 4 when added, mode -1 whether the low
      nibble of `a` is below that of `b`. For any other mode the function
      falls off its end without a value, so callers must pass 1 or -1. The
      parameters are `char`, but only their low nibbles matter. */
  function CheckHalfCarry(a: bv8, b: bv8, mode: int): (r: bv8)
    requires mode == 1 || mode == -1
    ensures r <= 1
    ensures mode == 1 ==> (r == 1 <==> HalfCarryAdd(a, b))
    ensures mode == -1 ==> (r == 1 <==> HalfCarrySub(a, b))
  {
    if mode == 1 then
      (if ((a & 0xF) + (b & 0xF)) & 0x10 == 0x10 then 1 else 0)
    else
      (if (a & 0xF) as int - (b & 0xF) as int < 0 then 1 else 0)
  }

  /** checkZero (gb/gb.cpp:364-370): 1 for a zero byte, else 0. */
  function CheckZero(a: bv8): (r: bv8)
    ensures r <= 1 && (r == 1 <==> IsZero(a))
  {
    if a == 0 then 1 else 0
  }

  /** The two bytes after the opcode, or a fault. */
  function Operands(g: Gb): Option<(bv8, bv8)>
  {
    match (Fetch(g, 1), Fetch(g, 2))
    case (Some(x), Some(y)) => Some((x, y))
    case _ => None
  }

  /** `(hi << 8) | lo` in `unsigned int`, as the draft builds HL, BC and DE. */
  function Wide(hi: bv8, lo: bv8): bv32
  {
    Combine(hi, lo) as bv32
  }

  /** LD BC,d16 (gb/gb.cpp:52-56): B from PC+1, C from PC+2. */
  function LoadBc(g: Gb): Option<Gb>
  {
    match Operands(g)
    case None => None
    case Some((x, y)) => Some(g.(b := x, c := y, pc := g.pc + 3))
  }

  /** LD DE,d16 (gb/gb.cpp:175-179): D from PC+1, E from PC+2. */
  function LoadDe(g: Gb): Option<Gb>
  {
    match Operands(g)
    case None => None
    case Some((x, y)) => Some(g.(d := x, e := y, pc := g.pc + 3))
  }

  /** INC BC and DEC BC (gb/gb.cpp:63-69, 128-134): the pair is widened to
      `unsigned int`, stepped by one and split again. Only its low 16 bits
      come back, so the step is taken on the 16-bit pair. */
  function StepBc(g: Gb, up: bool): Gb
  {
    var bc := if up then Combine(g.b, g.c) + 1 else Combine(g.b, g.c) - 1;
    Advance(g.(b := High(bc), c := Low(bc)), 1)
  }

  /** INC DE and DEC DE (gb/gb.cpp:186-192, 254-260). */
  function StepDe(g: Gb, up: bool): Gb
  {
    var de := if up then Combine(g.d, g.e) + 1 else Combine(g.d, g.e) - 1;
    Advance(g.(d := High(de), e := Low(de)), 1)
  }

  /** LD (a16),SP (gb/gb.cpp:101-104): the low byte of SP is stored at the
      address whose high byte is at PC+1 and low byte at PC+2. */
  function StoreSp(g: Gb): Option<Gb>
  {
    match Operands(g)
    case None => None
    case Some((x, y)) => Some(g.(mem := Store(g.mem, Combine(x, y), (g.sp & 0xFF) as bv8), pc := g.pc + 3))
  }

  /** ADD HL,BC (gb/gb.cpp:106-121). Both pairs fit in 16 bits, so the
      `unsigned int` carry test `HL > 0xFFFF - BC` holds exactly when the
      sum needs a 17th bit, and H and L take the low 16 bits of the sum. The 16-bit
      checkHalfCarry is asked of the full sum, after the add. */
  function AddHlBc(g: Gb, hc16: HalfCarry16): Gb
  {
    var hl := Combine(g.h, g.l);
    var bc := Combine(g.b, g.c);
    var sum := hl + bc;
    Advance(g.(cb := if Sum17(hl, bc) > 0xFFFF then 1 else 0, h := High(sum), l := Low(sum),
               nb := 0, hb := hc16(Wide(g.h, g.l) + Wide(g.b, g.c), Wide(g.b, g.c))), 1)
  }

  /** ADD HL,DE (gb/gb.cpp:233-247): the same, but checkHalfCarry is asked
      of HL before the add. */
  function AddHlDe(g: Gb, hc16: HalfCarry16): Gb
  {
    var hl := Combine(g.h, g.l);
    var de := Combine(g.d, g.e);
    var sum := hl + de;
    Advance(g.(cb := if Sum17(hl, de) > 0xFFFF then 1 else 0, hb := hc16(Wide(g.h, g.l), Wide(g.d, g.e)),
               h := High(sum), l := Low(sum), nb := 0), 1)
  }

  /** RLCA (gb/gb.cpp:92-99): bit 7 into the carry byte and A shifted left,
      bit 0 becoming 0. */
  function Rlca(g: Gb): Gb
  {
    Advance(g.(cb := (g.a >> 7) & 1, a := g.a << 1, zb := 0, nb := 0, hb := 0), 1)
  }

  /** RRCA (gb/gb.cpp:157-164): bit 0 into the carry byte and A shifted
      right, bit 7 becoming 0. */
  function Rrca(g: Gb): Gb
  {
    Advance(g.(cb := g.a & 1, a := g.a >> 1, zb := 0, nb := 0, hb := 0), 1)
  }

  /** RLA (gb/gb.cpp:215-227): bit 7 into the carry byte, A shifted left and
      bit 0 set exactly when the old carry byte was 1. */
  function Rla(g: Gb): Gb
  {
    var shifted := g.a << 1;
    Advance(g.(cb := (g.a >> 7) & 1, a := if g.cb == 1 then shifted | 1 else shifted & !1,
               zb := 0, nb := 0, hb := 0), 1)
  }

  /** RRA (gb/gb.cpp:283-295): bit 0 into the carry byte, A shifted right and
      bit 7 set exactly when the old carry byte was 1. */
  function Rra(g: Gb): Gb
  {
    var shifted := g.a >> 1;
    Advance(g.(cb := g.a & 1, a := if g.cb == 1 then shifted | 0x80 else shifted & !0x80,
               zb := 0, nb := 0, hb := 0), 1)
  }

  /** JR r8 (gb/gb.cpp:229-231): the byte at PC+1 is added to PC. */
  function JumpRelative(g: Gb): Option<Gb>
  {
    match Fetch(g, 1)
    case None => None
    case Some(x) => Some(g.(pc := Offset(g.pc, x)))
  }

  /** `PC += memory[PC + 1]`: the byte widened to `unsigned int`, no sign. */
  function Offset(pc: bv32, x: bv8): bv32
  {
    pc + x as bv32
  }

  /** The inner switch of row 0x0_ (gb/gb.cpp:46-165), for the low nibble
      `low` of the opcode. INC C updates C before asking for the half carry,
      and DEC C clears the zero byte instead of testing C. */
  function Row0(g: Gb, low: bv8, hc16: HalfCarry16): Option<Gb>
    requires low < 16
  {
    if low == 0x0 then Some(Advance(g, 1))
    else if low == 0x1 then LoadBc(g)
    else if low == 0x2 then Some(Advance(g.(mem := Store(g.mem, Combine(g.b, g.c), AtA(g))), 1))
    else if low == 0x3 then Some(StepBc(g, true))
    else if low == 0x4 then
      Some(Advance(g.(hb := CheckHalfCarry(g.b, 1, 1), b := g.b + 1, zb := CheckZero(g.b + 1), nb := 0), 1))
    else if low == 0x5 then
      Some(Advance(g.(hb := CheckHalfCarry(g.b, 1, -1), b := g.b - 1, zb := CheckZero(g.b - 1), nb := 1), 1))
    else if low == 0x6 then 
      match Fetch(g, 1)
      case None => None
      case Some(x) => Some(Advance(g.(b := x), 2))
    else if low == 0x7 then Some(Rlca(g))
    else if low == 0x8 then StoreSp(g)
    else if low == 0x9 then Some(AddHlBc(g, hc16))
    else if low == 0xA then Some(Advance(g.(a := Read(g.mem, Combine(g.b, g.c))), 1))
    else if low == 0xB then Some(StepBc(g, false))
    else if low == 0xC then
      Some(Advance(g.(c := g.c + 1, zb := CheckZero(g.c + 1), nb := 0, hb := CheckHalfCarry(g.c + 1, 1, 1)), 1))
    else if low == 0xD then
      Some(Advance(g.(hb := CheckHalfCarry(g.c, 1, -1), c := g.c - 1, zb := 0, nb := 1), 1))
    else if low == 0xE then 
      match Fetch(g, 1)
      case None => None
      case Some(x) => Some(Advance(g.(c := x), 2))
    else Some(Rrca(g))
  }

  /** The inner switch of row 0x1_ (gb/gb.cpp:168-296). INC E asks for the
      half carry before the increment, and DEC E clears the zero byte. */
  function Row1(g: Gb, low: bv8, hc16: HalfCarry16): Option<Gb>
    requires low < 16
  {
    if low == 0x0 then Some(Advance(g.(ime := 0), 1))
    else if low == 0x1 then LoadDe(g)
    else if low == 0x2 then Some(Advance(g.(mem := Store(g.mem, Combine(g.d, g.e), AtA(g))), 1))
    else if low == 0x3 then Some(StepDe(g, true))
    else if low == 0x4 then
      Some(Advance(g.(hb := CheckHalfCarry(g.d, 1, 1), d := g.d + 1, zb := CheckZero(g.d + 1), nb := 0), 1))
    else if low == 0x5 then
      Some(Advance(g.(hb := CheckHalfCarry(g.d, 1, -1), d := g.d - 1, zb := CheckZero(g.d - 1), nb := 1), 1))
    else if low == 0x6 then 
      match Fetch(g, 1)
      case None => None
      case Some(x) => Some(Advance(g.(d := x), 2))
    else if low == 0x7 then Some(Rla(g))
    else if low == 0x8 then JumpRelative(g)
    else if low == 0x9 then Some(AddHlDe(g, hc16))
    else if low == 0xA then Some(Advance(g.(a := Read(g.mem, Combine(g.d, g.e))), 1))
    else if low == 0xB then Some(StepDe(g, false))
    else if low == 0xC then
      Some(Advance(g.(hb := CheckHalfCarry(g.e, 1, 1), e := g.e + 1, zb := CheckZero(g.e + 1), nb := 0), 1))
    else if low == 0xD then
      Some(Advance(g.(hb := CheckHalfCarry(g.e, 1, -1), e := g.e - 1, zb := 0, nb := 1), 1))
    else if low == 0xE then 
      match Fetch(g, 1)
      case None => None
      case Some(x) => Some(Advance(g.(e := x), 2))
    else Some(Rra(g))
  }

  /** The closing setFlags call of the cycle. */
  function Sync(g: Gb): Gb
  {
    g.(f := SetFlags(g.f, g.zb, g.nb, g.hb, g.cb))
  }

  /** The opcode at PC, or a fault. */
  function Opcode(g: Gb): Option<bv8>
  {
    Fetch(g, 0)
  }

  /** Row 0x1_ run on whatever row 0x0_ left, unless it faulted. */
  function FallInto(o: Option<Gb>, low: bv8, hc16: HalfCarry16): Option<Gb>
    requires low < 16
  {
    match o
    case None => None
    case Some(g0) => Row1(g0, low, hc16)
  }

  /** setFlags on whatever the switch left, unless it faulted. */
  function Close(o: Option<Gb>): Option<Gb>
  {
    match o
    case None => None
    case Some(g1) => Some(Sync(g1))
  }

  /** emulateCycle of the draft (gb/gb.cpp:35-303), without its console
      output: row 0x0_ falls into row 0x1_, which falls into `default`, and
      setFlags closes the cycle. */
  function Step(g: Gb, hc16: HalfCarry16): Option<Gb>
  {
    match Opcode(g)
    case None => None
    case Some(op) =>
      if op & 0xF0 == 0x00 then Close(FallInto(Row0(g, op & 0x0F, hc16), op & 0x0F, hc16))
      else if op & 0xF0 == 0x10 then Close(Row1(g, op & 0x0F, hc16))
      else Close(Some(g))
  }

  /** The bytes from PC up to PC+n-1 all lie inside memory. */
  predicate Fits(g: Gb, n: bv32)
    requires 0 < n <= 0x10
  {
    g.pc <= 0x10000 - n
  }

  /** The byte `k` places after PC; meaningful where the lemmas use it, for
      a PC that fits. */
  function At(g: Gb, k: bv32): bv8
    requires k < 0x10 && Fits(g, k + 1)
  {
    Read(g.mem, (g.pc + k) as bv16)
  }

  /** With the operands inside memory, LD BC,d16 and LD DE,d16 load the
      bytes at PC+1 and PC+2, and JR adds the byte at PC+1. */
  lemma OperandsInside(g: Gb)
    requires Fits(g, 3)
    ensures LoadBc(g) == Some(g.(b := At(g, 1), c := At(g, 2), pc := g.pc + 3))
    ensures LoadDe(g) == Some(g.(d := At(g, 1), e := At(g, 2), pc := g.pc + 3))
  {
    assert Fetch(g, 1) == Some(At(g, 1)) && Fetch(g, 2) == Some(At(g, 2));
  }

  lemma OffsetInside(g: Gb)
    requires Fits(g, 2)
    ensures JumpRelative(g) == Some(g.(pc := Offset(g.pc, At(g, 1))))
  {
    assert Fetch(g, 1) == Some(At(g, 1));
  }

  /** Three bytes on, the operand bytes are the fifth and sixth bytes from
      the old PC. */
  lemma OperandsThreeOn(g: Gb, h: Gb)
    requires Fits(g, 6) && h.mem == g.mem && h.pc == g.pc + 3
    ensures Fits(h, 3) && At(h, 1) == At(g, 4) && At(h, 2) == At(g, 5)
  {
    FirstOperandThreeOn(g, h);
    SecondOperandThreeOn(g, h);
  }

  lemma FirstOperandThreeOn(g: Gb, h: Gb)
    requires Fits(g, 6) && h.mem == g.mem && h.pc == g.pc + 3
    ensures Fits(h, 3) && At(h, 1) == At(g, 4)
  {
  }

  lemma SecondOperandThreeOn(g: Gb, h: Gb)
    requires Fits(g, 6) && h.mem == g.mem && h.pc == g.pc + 3
    ensures Fits(h, 3) && At(h, 2) == At(g, 5)
  {
  }

  /** A row body faults only when it reads an operand byte (LD rr,d16, LD
      r,d8, LD (a16),SP, JR r8) and that byte lies past the end of memory. */
  lemma RowsFaultOnlyPastTheEnd(g: Gb, low: bv8, hc16: HalfCarry16)
    requires low < 16
    ensures Row0(g, low, hc16).None? ==> (low == 0x1 || low == 0x6 || low == 0x8 || low == 0xE) && g.pc > 0xFFFD
    ensures Row1(g, low, hc16).None? ==> (low == 0x1 || low == 0x6 || low == 0x8 || low == 0xE) && g.pc > 0xFFFD
  {
  }

  /** No instruction of row 0x0_ changes SP, F or IME. */
  lemma Row0Keeps(g: Gb, low: bv8, hc16: HalfCarry16)
    requires low < 16 && Row0(g, low, hc16).Some?
    ensures Row0(g, low, hc16).value.sp == g.sp && Row0(g, low, hc16).value.f == g.f
    ensures Row0(g, low, hc16).value.ime == g.ime
  {
  }

  /** No instruction of row 0x1_ changes SP or F, and only STOP changes IME. */
  lemma Row1Keeps(g: Gb, low: bv8, hc16: HalfCarry16)
    requires low < 16 && Row1(g, low, hc16).Some?
    ensures Row1(g, low, hc16).value.sp == g.sp && Row1(g, low, hc16).value.f == g.f
    ensures low != 0x0 ==> Row1(g, low, hc16).value.ime == g.ime
  {
  }

  /** A cycle with PC past the end of memory faults, and a cycle that
      completes keeps SP and the low nibble of F. */
  lemma StepKeeps(g: Gb, hc16: HalfCarry16)
    ensures g.pc > 0xFFFF ==> Step(g, hc16).None?
    ensures Step(g, hc16).Some? ==> Step(g, hc16).value.sp == g.sp && Step(g, hc16).value.f & 0x0F == g.f & 0x0F
  {
    if Opcode(g).Some? {
      var op := Opcode(g).value;
      StepOfRow(g, op, hc16);
      if op < 0x10 {
        assert op & 0xF0 == 0x00;
        RowZeroKeeps(g, op & 0x0F, hc16);
      } else if op < 0x20 {
        assert op & 0xF0 == 0x10;
        RowOneKeeps(g, op & 0x0F, hc16);
      } else {
        SyncKeeps(g);
      }
    }
  }

  /** Row 0x0_ falling into row 0x1_, then setFlags, keeps SP and the low
      nibble of F. */
  lemma RowZeroKeeps(g: Gb, low: bv8, hc16: HalfCarry16)
    requires low < 16
    ensures var r := Close(FallInto(Row0(g, low, hc16), low, hc16));
      r.Some? ==> r.value.sp == g.sp && r.value.f & 0x0F == g.f & 0x0F
  {
    var o := Row0(g, low, hc16);
    if o.Some? {
      Row0Keeps(g, low, hc16);
      RowOneKeeps(o.value, low, hc16);
    }
  }

  /** Row 0x1_, then setFlags, keeps SP and the low nibble of F. */
  lemma RowOneKeeps(g: Gb, low: bv8, hc16: HalfCarry16)
    requires low < 16
    ensures var r := Close(Row1(g, low, hc16));
      r.Some? ==> r.value.sp == g.sp && r.value.f & 0x0F == g.f & 0x0F
  {
    if Row1(g, low, hc16).Some? {
      Row1Keeps(g, low, hc16);
      SyncKeeps(Row1(g, low, hc16).value);
    }
  }

  /** The closing setFlags keeps SP and the low nibble of F. */
  lemma SyncKeeps(g: Gb)
    ensures Sync(g).sp == g.sp && Sync(g).f & 0x0F == g.f & 0x0F
  {
    SetFlagsKeepsLowNibble(g.f, g.zb, g.nb, g.hb, g.cb);
  }

  /** A second setFlags changes nothing. */
  lemma SyncIdempotent(g: Gb)
    ensures Sync(Sync(g)) == Sync(g)
  {
    SetFlagsIdempotent(g.f, g.zb, g.nb, g.hb, g.cb);
  }

  /** An opcode of row 0x0_ runs its row-0x0_ body, then the row-0x1_ body
      of the same low nibble, then setFlags. */
  lemma StepFallsThrough(g: Gb, hc16: HalfCarry16)
    requires Fits(g, 1) && At(g, 0) < 0x10
    ensures Step(g, hc16) == Close(FallInto(Row0(g, At(g, 0), hc16), At(g, 0), hc16))
  {
    var op := At(g, 0);
    assert Opcode(g) == Some(op);
    assert op & 0xF0 == 0x00 && op & 0x0F == op;
    StepOfRow(g, op, hc16);
  }

  /** When the row-0x0_ body of a row-0x0_ opcode reaches state h, the cycle
      is the row-0x1_ body of the same low nibble from h, then setFlags. */
  lemma FallsThroughFrom(g: Gb, h: Gb, hc16: HalfCarry16)
    requires Fits(g, 1) && At(g, 0) < 0x10 && Row0(g, At(g, 0), hc16) == Some(h)
    ensures Step(g, hc16) == Close(Row1(h, At(g, 0), hc16))
  {
    StepFallsThrough(g, hc16);
  }

  /** An opcode of row 0x1_ runs its own body, then setFlags. */
  lemma StepRowOne(g: Gb, hc16: HalfCarry16)
    requires Fits(g, 1) && 0x10 <= At(g, 0) < 0x20
    ensures Step(g, hc16) == Close(Row1(g, At(g, 0) - 0x10, hc16))
  {
    var op := At(g, 0);
    assert Opcode(g) == Some(op);
    assert op & 0xF0 == 0x10 && op & 0x0F == op - 0x10;
    StepOfRow(g, op, hc16);
  }

  /** The cycle by the row of the opcode at PC. */
  lemma StepOfRow(g: Gb, op: bv8, hc16: HalfCarry16)
    requires Opcode(g) == Some(op)
    ensures op & 0xF0 == 0x00 ==> Step(g, hc16) == Close(FallInto(Row0(g, op & 0x0F, hc16), op & 0x0F, hc16))
    ensures op & 0xF0 == 0x10 ==> Step(g, hc16) == Close(Row1(g, op & 0x0F, hc16))
    ensures op >= 0x20 ==> Step(g, hc16) == Some(Sync(g))
  {
  }

  /** NOP falls into STOP: opcode 0x00 moves PC on by two and clears IME. */
  lemma NopFallsIntoStop(g: Gb, hc16: HalfCarry16)
    requires Fits(g, 1) && At(g, 0) == 0x00
    ensures Step(g, hc16) == Some(Sync(g.(pc := g.pc + 2, ime := 0)))
  {
    StepFallsThrough(g, hc16);
    assert Row0(g, 0, hc16) == Some(Advance(g, 1));
  }

  /** LD BC,d16 falls into LD DE,d16: opcode 0x01 loads B and C from the two
      bytes after it, then D and E from the two bytes after those plus one,
      and moves PC on by six. */
  lemma LoadBcFallsIntoLoadDe(g: Gb, hc16: HalfCarry16)
    requires Fits(g, 6) && At(g, 0) == 0x01
    ensures Step(g, hc16) ==
      Some(Sync(g.(b := At(g, 1), c := At(g, 2), d := At(g, 4), e := At(g, 5), pc := g.pc + 6)))
  {
    var g0 := g.(b := At(g, 1), c := At(g, 2), pc := g.pc + 3);
    LoadBcFirst(g, hc16);
    LoadDeSecond(g, g0, hc16);
  }

  /** The first half of opcode 0x01: the row-0x0_ body, then the row-0x1_
      body still to run. */
  lemma LoadBcFirst(g: Gb, hc16: HalfCarry16)
    requires Fits(g, 6) && At(g, 0) == 0x01
    ensures Step(g, hc16) == Close(Row1(g.(b := At(g, 1), c := At(g, 2), pc := g.pc + 3), 1, hc16))
  {
    LoadBcBody(g, hc16);
    FallsThroughFrom(g, g.(b := At(g, 1), c := At(g, 2), pc := g.pc + 3), hc16);
  }

  /** The second half of opcode 0x01: the row-0x1_ body from three bytes
      on. */
  lemma LoadDeSecond(g: Gb, g0: Gb, hc16: HalfCarry16)
    requires Fits(g, 6) && g0 == g.(b := At(g, 1), c := At(g, 2), pc := g.pc + 3)
    ensures Row1(g0, 1, hc16) ==
      Some(g.(b := At(g, 1), c := At(g, 2), d := At(g, 4), e := At(g, 5), pc := g.pc + 6))
  {
    OperandsThreeOn(g, g0);
    LoadDeBody(g0, hc16);
  }

  /** The row-0x0_ body of opcode 0x01. */
  lemma LoadBcBody(g: Gb, hc16: HalfCarry16)
    requires Fits(g, 3)
    ensures Row0(g, 1, hc16) == Some(g.(b := At(g, 1), c := At(g, 2), pc := g.pc + 3))
  {
    OperandsInside(g);
  }

  /** The row-0x1_ body of opcode 0x11. */
  lemma LoadDeBody(g: Gb, hc16: HalfCarry16)
    requires Fits(g, 3)
    ensures Row1(g, 1, hc16) == Some(g.(d := At(g, 1), e := At(g, 2), pc := g.pc + 3))
  {
    OperandsInside(g);
  }

  /** INC B falls into INC D: opcode 0x04 increments both B and D, and the
      flag bytes are those of the increment of D. */
  lemma IncBAlsoIncrementsD(g: Gb, hc16: HalfCarry16)
    requires Fits(g, 1) && At(g, 0) == 0x04
    ensures Step(g, hc16).Some?
    ensures var r := Step(g, hc16).value;
      r.b == g.b + 1 && r.d == g.d + 1 && r.pc == g.pc + 2 &&
      (r.zb == 1 <==> g.d + 1 == 0) && (r.hb == 1 <==> HalfCarryAdd(g.d, 1)) && r.nb == 0 &&
      r.cb == g.cb
  {
    StepFallsThrough(g, hc16);
  }

  /** INC BC falls into INC DE: opcode 0x03 increments both pairs, each
      wrapping from 0xFFFF to 0, and leaves the flag bytes alone. */
  lemma IncBcAlsoIncrementsDe(g: Gb, hc16: HalfCarry16)
    requires Fits(g, 1) && At(g, 0) == 0x03
    ensures Step(g, hc16).Some?
    ensures var r := Step(g, hc16).value;
      Combine(r.b, r.c) == Combine(g.b, g.c) + 1 && Combine(r.d, r.e) == Combine(g.d, g.e) + 1 &&
      r.pc == g.pc + 2 && r.zb == g.zb && r.nb == g.nb && r.hb == g.hb && r.cb == g.cb
  {
    StepFallsThrough(g, hc16);
    var g0 := StepBc(g, true);
    assert Row0(g, 3, hc16) == Some(g0);
    assert Row1(g0, 3, hc16) == Some(StepDe(g0, true));
    SplitCombine(Combine(g.b, g.c) + 1);
    SplitCombine(Combine(g.d, g.e) + 1);
  }

  /** Opcodes from 0x20 on reach only `default`: PC, the registers, the flag
      bytes and memory stay as they are, and only F is brought in line with
      the flag bytes. */
  lemma HighRowsOnlySyncFlags(g: Gb, hc16: HalfCarry16)
    requires Fits(g, 1) && At(g, 0) >= 0x20
    ensures Step(g, hc16) == Some(Sync(g))
  {
  }

  /** Since PC does not move, the draft runs such an opcode forever: once
      F agrees with the flag bytes, a cycle changes nothing at all. */
  lemma HighRowsAreStuck(g: Gb, hc16: HalfCarry16)
    requires Fits(g, 1) && At(g, 0) >= 0x20
    requires g.f == SetFlags(g.f, g.zb, g.nb, g.hb, g.cb)
    ensures Step(g, hc16) == Some(g)
  {
    HighRowsOnlySyncFlags(g, hc16);
  }

  /** LD DE,d16 (opcode 0x11) takes D from PC+1 and E from PC+2 and moves PC
      on by three; nothing else but F changes. */
  lemma LoadDeHighByteFirst(g: Gb, hc16: HalfCarry16)
    requires Fits(g, 3) && At(g, 0) == 0x11
    ensures Step(g, hc16) == Some(Sync(g.(d := At(g, 1), e := At(g, 2), pc := g.pc + 3)))
  {
    StepRowOne(g, hc16);
    OperandsInside(g);
    assert Row1(g, 1, hc16) == LoadDe(g);
  }

  /** INC DE (opcode 0x13) steps the pair D:E up by one modulo 0x10000 and
      changes no flag byte and nothing else but F. */
  lemma IncDeWraps(g: Gb, hc16: HalfCarry16)
    requires Fits(g, 1) && At(g, 0) == 0x13
    ensures Step(g, hc16).Some?
    ensures var r := Step(g, hc16).value;
      Combine(r.d, r.e) == Combine(g.d, g.e) + 1 &&
      r == Sync(g.(d := r.d, e := r.e, pc := g.pc + 1))
  {
    StepRowOne(g, hc16);
    assert Row1(g, 3, hc16) == Some(StepDe(g, true));
    SplitCombine(Combine(g.d, g.e) + 1);
  }

  /** DEC DE (opcode 0x1B) steps D:E down by one modulo 0x10000 in the same
      way. */
  lemma DecDeWraps(g: Gb, hc16: HalfCarry16)
    requires Fits(g, 1) && At(g, 0) == 0x1B
    ensures Step(g, hc16).Some?
    ensures var r := Step(g, hc16).value;
      Combine(r.d, r.e) == Combine(g.d, g.e) - 1 &&
      r == Sync(g.(d := r.d, e := r.e, pc := g.pc + 1))
  {
    StepRowOne(g, hc16);
    assert Row1(g, 0xB, hc16) == Some(StepDe(g, false));
    SplitCombine(Combine(g.d, g.e) - 1);
  }

  /** RLA (opcode 0x17) rotates A left through the carry byte: bit 7 goes to
      the carry and the old carry into bit 0; Z, N and H are cleared. */
  lemma RlaRotatesThroughCarry(g: Gb, hc16: HalfCarry16)
    requires Fits(g, 1) && At(g, 0) == 0x17 && g.cb <= 1
    ensures Step(g, hc16) == Some(Sync(Rla(g)))
    ensures var r := Rla(g);
      r.a == (g.a << 1) | g.cb && r.cb == g.a >> 7 && r.zb == 0 && r.nb == 0 && r.hb == 0 &&
      r.pc == g.pc + 1 && r.mem == g.mem
  {
    StepRowOne(g, hc16);
    assert Row1(g, 7, hc16) == Some(Rla(g));
  }

  /** RRA (opcode 0x1F) rotates A right through the carry byte. */
  lemma RraRotatesThroughCarry(g: Gb, hc16: HalfCarry16)
    requires Fits(g, 1) && At(g, 0) == 0x1F && g.cb <= 1
    ensures Step(g, hc16) == Some(Sync(Rra(g)))
    ensures var r := Rra(g);
      r.a == (g.a >> 1) | (g.cb << 7) && r.cb == g.a & 1 && r.zb == 0 && r.nb == 0 && r.hb == 0 &&
      r.pc == g.pc + 1
  {
    StepRowOne(g, hc16);
    assert Row1(g, 0xF, hc16) == Some(Rra(g));
  }

  /** RRA undoes RLA: A and the carry byte come back. */
  lemma RraUndoesRla(g: Gb)
    requires g.cb <= 1
    ensures Rra(Rla(g)).a == g.a && Rra(Rla(g)).cb == g.cb
  {
  }

  /** JR (opcode 0x18) adds the byte after it to PC, unsigned, and from PC
      itself rather than from the next instruction. */
  lemma JumpAddsUnsignedOffset(g: Gb, hc16: HalfCarry16)
    requires Fits(g, 2) && At(g, 0) == 0x18
    ensures Step(g, hc16) == Some(Sync(g.(pc := Offset(g.pc, At(g, 1)))))
  {
    StepRowOne(g, hc16);
    OffsetInside(g);
    assert Row1(g, 8, hc16) == JumpRelative(g);
  }

  /** ADD HL,DE (opcode 0x19) runs its body and then setFlags. */
  lemma StepAddHlDe(g: Gb, hc16: HalfCarry16)
    requires Fits(g, 1) && At(g, 0) == 0x19
    ensures Step(g, hc16) == Some(Sync(AddHlDe(g, hc16)))
  {
    StepRowOne(g, hc16);
    assert Row1(g, 9, hc16) == Some(AddHlDe(g, hc16));
  }

  /** ADD HL,DE clears N, takes H from the undefined 16-bit checkHalfCarry
      applied to the operands before the add, and moves PC on by one. */
  lemma AddHlDeOtherBytes(g: Gb, hc16: HalfCarry16)
    ensures var r := AddHlDe(g, hc16);
      r.nb == 0 && r.hb == hc16(Wide(g.h, g.l), Wide(g.d, g.e)) && r.pc == g.pc + 1 &&
      r.zb == g.zb && r.a == g.a && r.d == g.d && r.e == g.e && r.mem == g.mem
  {
  }

  /** ADD HL,DE leaves the 16-bit sum in H:L. */
  lemma AddHlDeValue(g: Gb, hc16: HalfCarry16)
    ensures var r := AddHlDe(g, hc16);
      Combine(r.h, r.l) == Combine(g.h, g.l) + Combine(g.d, g.e)
  {
    SplitCombine(Combine(g.h, g.l) + Combine(g.d, g.e));
  }

  /** ADD HL,DE sets the carry byte to 1 exactly when the sum passes
      0xFFFF, and to 0 otherwise. */
  lemma AddHlDeCarry(g: Gb, hc16: HalfCarry16)
    ensures var r := AddHlDe(g, hc16);
      r.cb <= 1 && (r.cb == 1 <==> Sum17(Combine(g.h, g.l), Combine(g.d, g.e)) > 0xFFFF)
  {
  }
}
