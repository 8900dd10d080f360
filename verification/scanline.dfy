/** The host's main loop (main.cpp:333-405): 456 CPU cycles per scanline,
    each followed by a joypad update, then the scanline bookkeeping of LY,
    the STAT mode bits and the V-blank and STAT interrupt requests. */
module Scanline {
  import opened Bits
  import opened Bus
  import opened Cpu
  import opened Joypad
  import opened Machine

  /** The three registers the scanline update writes: LY, STAT and IF. */
  datatype Lcd = Lcd(ly: bv8, stat: bv8, iflag: bv8)

  /** STAT's mode bits 0-1: 00 for H-blank, 01 for V-blank. */
  function WithMode(stat: bv8, vblank: bool): (r: bv8)
    ensures r & 0xFC == stat & 0xFC
    ensures r & 3 == (if vblank then 1 else 0)
  {
    ModifyBit(ModifyBit(stat, BitValue(vblank), 0), 0, 1)
  }

  /** Request the STAT interrupt (IF bit 1) when `cond` holds. */
  function RequestStat(iflag: bv8, cond: bool): (r: bv8)
    ensures IsSet(r, 1) == (IsSet(iflag, 1) || cond)
    ensures r & !2 == iflag & !2
  {
    if cond then ModifyBit(iflag, 1, 1) else iflag
  }

  /** The scanline update (main.cpp:365-404), given LYC. LY goes up by one
      as a byte. LY == LYC with STAT bit 6 requests the STAT interrupt; the
      mode becomes H-blank and STAT bit 3 requests it again. On reaching
      0x90 the V-blank interrupt is requested, the mode becomes V-blank and
      STAT bit 4 requests the STAT interrupt. Past 0x99 LY returns to 0 in
      H-blank, STAT bit 3 requesting once more. */
  function NextLine(v: Lcd, lyc: bv8): (r: Lcd)
    ensures r.ly <= 0x99
    ensures r.stat & 0xFC == v.stat & 0xFC && r.iflag & 0xFC == v.iflag & 0xFC
  {
    var ly1 := v.ly + 1;
    var if1 := RequestStat(v.iflag, ly1 == lyc && IsSet(v.stat, 6));
    var st1 := WithMode(v.stat, false);
    var if2 := RequestStat(if1, IsSet(st1, 3));
    var st2 := if ly1 == 0x90 then WithMode(st1, true) else st1;
    var if3 := if ly1 == 0x90 then RequestStat(ModifyBit(if2, 1, 0), IsSet(st2, 4)) else if2;
    if ly1 > 0x99 then
      Lcd(0, WithMode(st2, false), RequestStat(if3, IsSet(st2, 3)))
    else
      Lcd(ly1, st2, if3)
  }

  /** LY counts up by one and wraps from 0x99 (or any larger value) to 0. */
  lemma NextLineCounts(v: Lcd, lyc: bv8)
    ensures v.ly < 0x99 ==> NextLine(v, lyc).ly == v.ly + 1
    ensures 0x99 <= v.ly < 0xFF ==> NextLine(v, lyc).ly == 0
  {
  }

  /** The mode bits after the update read V-blank exactly on the line that
      reaches 0x90, and the V-blank request (IF bit 0) is added exactly
      then. */
  lemma NextLineVBlank(v: Lcd, lyc: bv8)
    ensures NextLine(v, lyc).stat & 3 == (if v.ly + 1 == 0x90 then 1 else 0)
    ensures IsSet(NextLine(v, lyc).iflag, 0) == (IsSet(v.iflag, 0) || v.ly + 1 == 0x90)
  {
  }

  /** Whether the update requests the STAT interrupt, case by case below. */
  predicate StatCause(v: Lcd, lyc: bv8)
  {
    (v.ly + 1 == lyc && IsSet(v.stat, 6)) || IsSet(v.stat, 3) || (v.ly + 1 == 0x90 && IsSet(v.stat, 4))
  }

  /** IF bit 1 after the first two requests of the update. */
  lemma EarlyStatRequests(v: Lcd, lyc: bv8)
    ensures var if1 := RequestStat(v.iflag, v.ly + 1 == lyc && IsSet(v.stat, 6));
      IsSet(RequestStat(if1, IsSet(WithMode(v.stat, false), 3)), 1) ==
      (IsSet(v.iflag, 1) || (v.ly + 1 == lyc && IsSet(v.stat, 6)) || IsSet(v.stat, 3))
  {
    assert IsSet(WithMode(v.stat, false), 3) == IsSet(v.stat, 3);
  }

  /** The STAT request on the line that starts V-blank. */
  lemma StatRequestAtVBlank(v: Lcd, lyc: bv8)
    requires v.ly + 1 == 0x90
    ensures IsSet(NextLine(v, lyc).iflag, 1) == (IsSet(v.iflag, 1) || StatCause(v, lyc))
  {
    EarlyStatRequests(v, lyc);
    assert IsSet(WithMode(WithMode(v.stat, false), true), 4) == IsSet(v.stat, 4);
  }

  /** The STAT request on the line that wraps LY to 0. */
  lemma StatRequestAtWrap(v: Lcd, lyc: bv8)
    requires v.ly + 1 > 0x99
    ensures IsSet(NextLine(v, lyc).iflag, 1) == (IsSet(v.iflag, 1) || StatCause(v, lyc))
  {
    EarlyStatRequests(v, lyc);
    assert IsSet(WithMode(v.stat, false), 3) == IsSet(v.stat, 3);
  }

  /** The STAT request on any other line. */
  lemma StatRequestOtherwise(v: Lcd, lyc: bv8)
    requires v.ly + 1 != 0x90 && v.ly + 1 <= 0x99
    ensures IsSet(NextLine(v, lyc).iflag, 1) == (IsSet(v.iflag, 1) || StatCause(v, lyc))
  {
    EarlyStatRequests(v, lyc);
  }

  /** The STAT interrupt is requested exactly for a LY == LYC match with
      STAT bit 6, for STAT bit 3 on every line, or for STAT bit 4 when
      V-blank starts. */
  lemma NextLineStatRequest(v: Lcd, lyc: bv8)
    ensures IsSet(NextLine(v, lyc).iflag, 1) ==
      (IsSet(v.iflag, 1) || (v.ly + 1 == lyc && IsSet(v.stat, 6)) || IsSet(v.stat, 3)
       || (v.ly + 1 == 0x90 && IsSet(v.stat, 4)))
  {
    if v.ly + 1 == 0x90 {
      StatRequestAtVBlank(v, lyc);
    } else if v.ly + 1 > 0x99 {
      StatRequestAtWrap(v, lyc);
    } else {
      StatRequestOtherwise(v, lyc);
    }
  }

  /** `n` scanline updates. */
  function Lines(v: Lcd, lyc: bv8, n: nat): Lcd
    decreases n
  {
    if n == 0 then v else NextLine(Lines(v, lyc, n - 1), lyc)
  }

  /** From line 0, the k-th update shows line k, for k up to 0x99. */
  lemma {:induction false} LinesCountUp(v: Lcd, lyc: bv8, k: nat)
    requires v.ly == 0 && k <= 0x99
    ensures Lines(v, lyc, k).ly as int == k
    decreases k
  {
    if k > 0 {
      LinesCountUp(v, lyc, k - 1);
      NextLineCounts(Lines(v, lyc, k - 1), lyc);
    }
  }

  /** A frame is 154 lines: from line 0, LY is back at 0 after 154 updates,
      having passed through 0x90, where V-blank starts. */
  lemma FrameIs154Lines(v: Lcd, lyc: bv8)
    requires v.ly == 0
    ensures Lines(v, lyc, 0x90).ly == 0x90
    ensures Lines(v, lyc, 154).ly == 0
  {
    LinesCountUp(v, lyc, 0x90);
    LastLineWraps(v, lyc);
  }

  /** The 154th update, from line 0x99, brings LY back to 0. */
  lemma LastLineWraps(v: Lcd, lyc: bv8)
    requires v.ly == 0
    ensures Lines(v, lyc, 154).ly == 0
  {
    var last := Lines(v, lyc, 153);
    LinesCountUp(v, lyc, 153);
    assert last.ly == 0x99;
    NextLineCounts(last, lyc);
    assert Lines(v, lyc, 154) == NextLine(last, lyc);
  }

  /** The scanline update on memory: LY, STAT and IF get the new values, all
      stored directly, and nothing else changes. */
  function ScanlineUpdate(m: Mem): (r: Mem)
    ensures Read(r, LY) <= 0x99
    ensures forall b: bv16 :: b != LY && b != STAT && b != IF ==> Read(r, b) == Read(m, b)
  {
    var next := NextLine(Lcd(Read(m, LY), Read(m, STAT), Read(m, IF)), Read(m, LYC));
    Store(Store(Store(m, LY, next.ly), STAT, next.stat), IF, next.iflag)
  }

  /** One CPU cycle of the loop: emulateCycle, then the joypad answers with
      the keys held at that moment. */
  function CycleWithInput(s: State, k: Keys): (r: State)
    ensures Read(r.mem, JOYP) & 0xF0 == Read(Step(s).mem, JOYP) & 0xF0
  {
    var t := Step(s);
    t.(mem := Store(t.mem, JOYP, ProcessInputs(Read(t.mem, JOYP), k)))
  }

  /** The cycles of one scanline, one key state per cycle. */
  function Cycles(s: State, keys: seq<Keys>): State
    decreases |keys|
  {
    if |keys| == 0 then s
    else
      Cycles(CycleWithInput(s, keys[0]), keys[1..])
  }

  /** One pass of the loop: 456 cycles, then the scanline update. Drawing
      reads memory but writes only the frame buffer, so it is left out. */
  function Scanline(s: State, keys: seq<Keys>): (r: State)
    requires |keys| == 456
    ensures Read(r.mem, LY) <= 0x99
    ensures r.regs == Cycles(s, keys).regs && r.irq == Cycles(s, keys).irq
  {
    var t := Cycles(s, keys);
    t.(mem := ScanlineUpdate(t.mem))
  }
}
