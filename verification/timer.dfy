/** The end of every cycle (gb.cpp:3097-3135): DIV shows the high byte of
    the cycle counter, and when TAC enables the timer TIMA counts at the
    selected rate, reloading from TMA and requesting the timer interrupt
    when it overflows. */
module Timer {
  import opened Bits
  import opened Bus
  import opened Cpu

  /** The number of cycles per TIMA increment for TAC bits 0-1: 256, 4, 16
      or 64 (gb.cpp:3101-3119). */
  function Period(tac: bv8): (p: bv16)
  {
    var sel := tac & 3;
    if sel == 0 then 256 else if sel == 1 then 4 else if sel == 2 then 16 else 64
  }

  /** Every period is a power of two from 4 to 256, so it divides 0x10000:
      whether the counter is a multiple of it depends on the counter's low
      16 bits only, which is why the counter is kept as a 16-bit word. */
  lemma PeriodIsSmallPowerOfTwo(tac: bv8)
    ensures 4 <= Period(tac) <= 256 && Period(tac) & (Period(tac) - 1) == 0
  {
  }

  /** The timer fires on this cycle (gb.cpp:3099-3121): TAC bit 2 is set
      and the counter is a multiple of the divisor the clock select names. */
  predicate FiresWith(tac: bv8, counter: bv16)
    ensures FiresWith(tac, counter) ==> IsSet(tac, 2) && counter % 4 == 0
  {
    var sel := tac & 3;
    IsSet(tac, 2) &&
    if sel == 0 then counter % 256 == 0
    else if sel == 1 then counter % 4 == 0
    else if sel == 2 then counter % 16 == 0
    else counter % 64 == 0
  }

  /** The timer fires at the current TAC. */
  predicate Fires(m: Mem, counter: bv16)
  {
    FiresWith(Read(m, TAC), counter)
  }

  /** `c` is a multiple of the power of two `p`: its bits below `p` are
      clear. */
  predicate MultipleOf(c: bv16, p: bv16)
  {
    c & (p - 1) == 0
  }

  /** The timer fires exactly on the multiples of the selected period. */
  lemma FiresOnPeriod(tac: bv8, counter: bv16)
    ensures FiresWith(tac, counter) <==> IsSet(tac, 2) && MultipleOf(counter, Period(tac))
  {
  }

  /** incTimer (gb.cpp:3127-3135): TIMA goes up by one; on the wrap to zero
      it is reloaded from TMA and bit 2 of IF is set. Both stores bypass
      writeToMemory, so writing TIMA does not land on TAC. */
  function IncTimer(m: Mem): (r: Mem)
    ensures Read(m, TIMA) != 0xFF ==> Read(r, TIMA) == Read(m, TIMA) + 1 && Read(r, IF) == Read(m, IF)
    ensures Read(m, TIMA) == 0xFF ==> Read(r, TIMA) == Read(m, TMA) && Read(r, IF) == Read(m, IF) | 4
    ensures forall b: bv16 :: b != TIMA && b != IF ==> Read(r, b) == Read(m, b)
  {
    var m1 := Store(m, TIMA, Read(m, TIMA) + 1);
    if Read(m1, TIMA) == 0 then
      var m2 := Store(m1, TIMA, Read(m1, TMA));
      Store(m2, IF, ModifyBit(Read(m2, IF), 1, 2))
    else m1
  }

  /** The timer part of one cycle: DIV is stored directly as the counter's
      high byte, TIMA goes up when the timer fires, and the counter advances.
      Registers, flags and the interrupt state are not touched. */
  function TimerTick(s: State): (r: State)
    ensures r.regs == s.regs && r.flags == s.flags && r.irq == s.irq
    ensures r.counter == s.counter + 1
    ensures Read(r.mem, DIV) == High(s.counter)
    ensures Read(r.mem, TAC) == Read(s.mem, TAC) && Read(r.mem, TMA) == Read(s.mem, TMA)
  {
    var m1 := Store(s.mem, DIV, High(s.counter));
    var m2 := if Fires(m1, s.counter) then IncTimer(m1) else m1;
    s.(mem := m2, counter := s.counter + 1)
  }

  /** The store to DIV at the start of the tick does not change whether the
      timer fires, nor TIMA, TMA or IF. */
  lemma DivStoreKeepsTimer(m: Mem, c: bv16, v: bv8)
    ensures Fires(Store(m, DIV, v), c) == Fires(m, c)
    ensures Read(Store(m, DIV, v), TIMA) == Read(m, TIMA) && Read(Store(m, DIV, v), TMA) == Read(m, TMA)
    ensures Read(Store(m, DIV, v), IF) == Read(m, IF)
  {
    assert Read(Store(m, DIV, v), TAC) == Read(m, TAC);
  }

  /** When the timer does not fire, TIMA and IF keep their values. */
  lemma QuietTickKeepsTima(s: State)
    requires !Fires(s.mem, s.counter)
    ensures Read(TimerTick(s).mem, TIMA) == Read(s.mem, TIMA)
    ensures Read(TimerTick(s).mem, IF) == Read(s.mem, IF)
  {
    DivStoreKeepsTimer(s.mem, s.counter, High(s.counter));
  }

  /** When the timer fires below 0xFF, TIMA goes up by one and IF is kept. */
  lemma FiringTickCounts(s: State)
    requires Fires(s.mem, s.counter) && Read(s.mem, TIMA) != 0xFF
    ensures Read(TimerTick(s).mem, TIMA) == Read(s.mem, TIMA) + 1
    ensures Read(TimerTick(s).mem, IF) == Read(s.mem, IF)
  {
    DivStoreKeepsTimer(s.mem, s.counter, High(s.counter));
  }

  /** When the timer fires at 0xFF, TIMA is reloaded from TMA and the timer
      interrupt is requested. */
  lemma FiringTickOverflows(s: State)
    requires Fires(s.mem, s.counter) && Read(s.mem, TIMA) == 0xFF
    ensures Read(TimerTick(s).mem, TIMA) == Read(s.mem, TMA)
    ensures IsSet(Read(TimerTick(s).mem, IF), 2)
  {
    DivStoreKeepsTimer(s.mem, s.counter, High(s.counter));
  }

  /** With the timer disabled a tick changes memory only at DIV. */
  lemma DisabledTimerOnlyMovesDiv(s: State)
    requires !IsSet(Read(s.mem, TAC), 2)
    ensures forall b: bv16 :: b != DIV ==> Read(TimerTick(s).mem, b) == Read(s.mem, b)
  {
    var m1 := Store(s.mem, DIV, High(s.counter));
    assert Read(m1, TAC) == Read(s.mem, TAC);
  }

  /** `n` timer ticks in a row. */
  function Ticks(s: State, n: nat): State
    decreases n
  {
    if n == 0 then s else Ticks(TimerTick(s), n - 1)
  }

  /** How many of the `n` counter values from `c` on are multiples of `p`. */
  function Multiples(c: bv16, n: nat, p: bv16): nat
    decreases n
  {
    if n == 0 then 0 else (if MultipleOf(c, p) then 1 else 0) + Multiples(c + 1, n - 1, p)
  }

  /** One tick of an enabled timer that does not overflow moves TIMA up by
      one exactly when the counter is a multiple of the period. */
  lemma TickCountsMultiple(s: State)
    requires IsSet(Read(s.mem, TAC), 2)
    requires Read(s.mem, TIMA) != 0xFF || !MultipleOf(s.counter, Period(Read(s.mem, TAC)))
    ensures Read(TimerTick(s).mem, TIMA) as int
      == Read(s.mem, TIMA) as int + (if MultipleOf(s.counter, Period(Read(s.mem, TAC))) then 1 else 0)
  {
    FiresOnPeriod(Read(s.mem, TAC), s.counter);
    if Fires(s.mem, s.counter) {
      FiringTickCounts(s);
    } else {
      QuietTickKeepsTima(s);
    }
  }

  /** Over `n` ticks of an enabled timer that does not overflow, TIMA goes
      up by the number of counter values in the run that are multiples of
      the period. */
  lemma {:induction false} TimaCountsMultiples(s: State, n: nat)
    requires IsSet(Read(s.mem, TAC), 2)
    requires Read(s.mem, TIMA) as int + Multiples(s.counter, n, Period(Read(s.mem, TAC))) <= 0xFF
    ensures Read(Ticks(s, n).mem, TIMA) as int
      == Read(s.mem, TIMA) as int + Multiples(s.counter, n, Period(Read(s.mem, TAC)))
    decreases n
  {
    if n > 0 {
      var t := TimerTick(s);
      var p := Period(Read(s.mem, TAC));
      var k := if MultipleOf(s.counter, p) then 1 else 0;
      assert Multiples(s.counter, n, p) == k + Multiples(t.counter, n - 1, p);
      assert Read(s.mem, TIMA) != 0xFF || k == 0;
      TickCountsMultiple(s);
      TimaCountsMultiples(t, n - 1);
    }
  }
}
