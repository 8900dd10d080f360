/** The 64 KiB address space and `writeToMemory`, the policy that CPU
    instructions use for most stores (gb.cpp:3215-3258). */
module Bus {
  import opened Bits

  /** The flat memory array, indexed 0x0000-0xFFFF. */
  type Mem = m: seq<bv8> | |m| == 0x10000 witness seq(0x10000, _ => 0 as bv8)

  // Named I/O registers (gb.h:7-20; STAT and LYC as main.cpp uses them).
  const JOYP: bv16 := 0xFF00
  const DIV: bv16 := 0xFF04
  const TIMA: bv16 := 0xFF05
  const TMA: bv16 := 0xFF06
  const TAC: bv16 := 0xFF07
  const IF: bv16 := 0xFF0F
  const LCDC: bv16 := 0xFF40
  const STAT: bv16 := 0xFF41
  const SCROLLY: bv16 := 0xFF42
  const SCROLLX: bv16 := 0xFF43
  const LY: bv16 := 0xFF44
  const LYC: bv16 := 0xFF45
  const DMA: bv16 := 0xFF46
  const BGP: bv16 := 0xFF47
  const WINY: bv16 := 0xFF4A
  const WINX: bv16 := 0xFF4B
  const IE: bv16 := 0xFFFF

  /** A plain array read. */
  function Read(m: Mem, a: bv16): bv8
  {
    m[a as int]
  }

  /** A direct array store `memory[a] = v`, bypassing the write policy. */
  function Store(m: Mem, a: bv16, v: bv8): (r: Mem)
    ensures Read(r, a) == v
    ensures forall b: bv16 :: b != a ==> Read(r, b) == Read(m, b)
  {
    forall b: bv16 | b != a
      ensures Read(m[a as int := v], b) == Read(m, b)
    {
      if b as int == a as int {
        SameIndexSameWord(b, a);
      }
    }
    m[a as int := v]
  }

  /** A store leaves every other address alone. */
  lemma StoreKeeps(m: Mem, a: bv16, v: bv8, b: bv16)
    requires b != a
    ensures Read(Store(m, a, v), b) == Read(m, b)
  {
  }

  /** The little-endian word `memory[p + 2] << 8 | memory[p + 1]` that an
      instruction at `p` names as its 16-bit operand. */
  function WordAfter(m: Mem, p: bv16): bv16
  {
    Combine(Read(m, p + 2), Read(m, p + 1))
  }

  /** The C++ expression `hi >= addr >= lo`: it compares `hi >= addr`, a
      bool that promotes to 0 or 1, with `lo`. */
  predicate ChainedAtLeast(hi: int, addr: int, lo: int)
  {
    (if hi >= addr then 1 else 0) >= lo
  }

  /** With the thresholds the source uses, the chained test never holds, so
      none of the three range branches of writeToMemory is ever taken. */
  lemma ChainedRangeTestsNeverHold(addr: int)
    ensures !ChainedAtLeast(0xDDFF, addr, 0xC000)
    ensures !ChainedAtLeast(0xFDFF, addr, 0xE000)
    ensures !ChainedAtLeast(0xFEFF, addr, 0xFEA0)
  {
  }

  /** The addresses writeToMemory stores to unchanged: everything from 0x8000
      up except JOYP, DIV, 0xFF05 and the DMA register. */
  predicate PlainlyWritable(a: bv16)
  {
    a >= 0x8000 && a != JOYP && a != DIV && a != TIMA && a != DMA
  }

  /** The byte OAM slot `0xFE00 + k` receives from a DMA transfer of page `page`
      out of memory `m`. */
  function DmaSource(m: Mem, page: bv8, k: int): bv8
    requires 0 <= k < 0xA0
  {
    m[page as int * 0x100 + k]
  }

  /** The copy loop of the DMA branch (gb.cpp:3253-3254): slots `i` to 0x9F of
      OAM receive bytes `i` to 0x9F of the page, one store after the other.
      Source and destination never overlap in a way that feeds a copied byte
      back into the copy, so the sequential loop equals a simultaneous copy. */
  function DmaCopy(m: Mem, page: bv8, i: nat): (r: Mem)
    requires i <= 0xA0
    ensures forall k :: 0 <= k < 0x10000 ==>
      r[k] == (if 0xFE00 + i <= k < 0xFEA0 then DmaSource(m, page, k - 0xFE00) else m[k])
    decreases 0xA0 - i
  {
    if i == 0xA0 then m
    else DmaCopy(m[0xFE00 + i := DmaSource(m, page, i)], page, i + 1)
  }

  /** writeToMemory, branch by branch in the source's order. The three range
      branches use the source's chained comparisons, which never hold. */
  function WriteToMemory(m: Mem, addr: bv16, data: bv8): (r: Mem)
    ensures addr < 0x8000 ==> r == m
    ensures addr == JOYP ==>
      r == Store(m, JOYP, (Read(m, JOYP) & 0xCF) | (data & 0x30))
    ensures addr == DIV ==> r == Store(m, DIV, 0)
    ensures addr == TIMA ==>
      r == Store(m, TAC, (Read(m, TAC) & 0xF8) | (data & 0x07))
    ensures addr == DMA ==> r[DMA as int] == data
    ensures addr == DMA ==> forall k :: 0 <= k < 0x10000 ==>
      r[k] == (if 0xFE00 <= k < 0xFEA0 then DmaSource(m[DMA as int := data], data, k - 0xFE00)
               else if k == DMA as int then data else m[k])
    ensures PlainlyWritable(addr) ==> r == Store(m, addr, data)
  {
    if addr < 0x8000 then m
    else if ChainedAtLeast(0xDDFF, addr as int, 0xC000) then
      Store(Store(m, addr, data), addr + 0x2000, data)
    else if ChainedAtLeast(0xFDFF, addr as int, 0xE000) then
      Store(Store(m, addr, data), addr - 0x2000, data)
    else if ChainedAtLeast(0xFEFF, addr as int, 0xFEA0) then
      m
    else if addr == JOYP then
      var j := ModifyBit(Read(m, JOYP), BitValue(IsSet(data, 4)), 4);
      Store(m, JOYP, ModifyBit(j, BitValue(IsSet(data, 5)), 5))
    else if addr == DIV then
      Store(m, DIV, 0)
    else if addr == TIMA then
      // The source's comment calls this branch TAC; it copies bits 0-2 of the
      // data into TAC and leaves TIMA alone.
      var t0 := ModifyBit(Read(m, TAC), BitValue(IsSet(data, 0)), 0);
      var t1 := ModifyBit(t0, BitValue(IsSet(data, 1)), 1);
      Store(m, TAC, ModifyBit(t1, BitValue(IsSet(data, 2)), 2))
    else if addr == DMA then
      DmaCopy(Store(m, DMA, data), data, 0)
    else
      Store(m, addr, data)
  }

  /** There is no echo-RAM mirroring: a write into work RAM leaves the echo
      region alone and vice versa. */
  lemma NoEchoMirroring(m: Mem, addr: bv16, data: bv8)
    requires 0xC000 <= addr <= 0xDDFF || 0xE000 <= addr <= 0xFDFF
    ensures Read(WriteToMemory(m, addr, data), addr) == data
    ensures forall b: bv16 :: b != addr ==> Read(WriteToMemory(m, addr, data), b) == Read(m, b)
  {
  }

  /** The "unusable" range 0xFEA0-0xFEFF is written like any other address. */
  lemma UnusableRangeIsWritten(m: Mem, addr: bv16, data: bv8)
    requires 0xFEA0 <= addr <= 0xFEFF
    ensures WriteToMemory(m, addr, data) == Store(m, addr, data)
  {
  }

  /** A write to a plainly writable address reads back. */
  lemma WriteReadsBack(m: Mem, a: bv16, v: bv8)
    requires PlainlyWritable(a)
    ensures Read(WriteToMemory(m, a, v), a) == v
  {
  }

  /** A write to a plainly writable address leaves every other address alone. */
  lemma WriteKeeps(m: Mem, a: bv16, v: bv8, b: bv16)
    requires PlainlyWritable(a) && b != a
    ensures Read(WriteToMemory(m, a, v), b) == Read(m, b)
  {
    StoreKeeps(m, a, v, b);
  }

  /** Whether `a` is one of the two operand bytes of an instruction at `p`. */
  predicate OperandByte(p: bv16, a: bv16)
  {
    a == p + 1 || a == p + 2
  }

  /** A plain write that misses both operand bytes of an instruction at `p`
      leaves the word after `p` as it was. */
  lemma WriteKeepsWord(m: Mem, a: bv16, v: bv8, p: bv16)
    requires PlainlyWritable(a) && !OperandByte(p, a)
    ensures WordAfter(WriteToMemory(m, a, v), p) == WordAfter(m, p)
  {
    WriteKeeps(m, a, v, p + 1);
    WriteKeeps(m, a, v, p + 2);
  }

  /** Two plain writes in a row: the second byte reads back, and so does the
      first when the second write lands elsewhere. */
  lemma TwoWrites(m: Mem, a1: bv16, v1: bv8, a2: bv16, v2: bv8)
    requires PlainlyWritable(a1) && PlainlyWritable(a2)
    ensures Read(WriteToMemory(WriteToMemory(m, a1, v1), a2, v2), a2) == v2
    ensures a2 != a1 ==> Read(WriteToMemory(WriteToMemory(m, a1, v1), a2, v2), a1) == v1
  {
    WriteReadsBack(WriteToMemory(m, a1, v1), a2, v2);
    if a2 != a1 {
      WriteReadsBack(m, a1, v1);
      WriteKeeps(WriteToMemory(m, a1, v1), a2, v2, a1);
    }
  }

  /** Plain writes to `a` and then `a + 1` both read back. */
  lemma AdjacentWrites(m: Mem, a: bv16, v1: bv8, v2: bv8)
    requires PlainlyWritable(a) && PlainlyWritable(a + 1)
    ensures Read(WriteToMemory(WriteToMemory(m, a, v1), a + 1, v2), a) == v1
    ensures Read(WriteToMemory(WriteToMemory(m, a, v1), a + 1, v2), a + 1) == v2
  {
    assert a + 1 != a;
    TwoWrites(m, a, v1, a + 1, v2);
  }

  /** When a write to `a` leaves the word after `p` equal to `a`, a second
      write to that word plus one lands right after the first. */
  lemma AdjacentWritesAfter(m: Mem, a: bv16, lo: bv8, hi: bv8, p: bv16)
    requires PlainlyWritable(a) && PlainlyWritable(a + 1) && WordAfter(WriteToMemory(m, a, lo), p) == a
    ensures Read(WriteToMemory(WriteToMemory(m, a, lo), WordAfter(WriteToMemory(m, a, lo), p) + 1, hi), a) == lo
    ensures Read(WriteToMemory(WriteToMemory(m, a, lo), WordAfter(WriteToMemory(m, a, lo), p) + 1, hi), a + 1) == hi
  {
    AdjacentWrites(m, a, lo, hi);
  }
}
