/** The start of every cycle (gb.cpp:107-140): the delayed effect of EI, and
    interrupt dispatch. */
module Interrupts {
  import opened Bits
  import opened Bus
  import opened Registers
  import opened Cpu
  import opened Instructions

  /** The delayed EI (gb.cpp:107-116). When an enable is scheduled, the
      first cycle only counts the delay down to zero; the next one runs EI(),
      which sets IME and clears the schedule. Nothing else changes. */
  function ScheduleEnable(s: State): (r: State)
    ensures r.regs == s.regs && r.flags == s.flags && r.mem == s.mem && r.counter == s.counter
    ensures !s.irq.scheduled ==> r.irq == s.irq
    ensures s.irq.scheduled && s.irq.delay == 1 ==> r.irq == s.irq.(delay := 0) && !r.irq.ime == !s.irq.ime
    ensures s.irq.scheduled && s.irq.delay != 1 ==> r.irq.ime && !r.irq.scheduled
  {
    if s.irq.scheduled then
      if s.irq.delay == 1 then s.(irq := s.irq.(delay := 0))
      else s.(irq := EnableNow(s.irq))
    else s
  }

  /** DI cancels an EI still waiting to take effect: the start of the next
      cycle leaves IME clear. EI() sets IME at once and clears the
      schedule, so that start changes nothing. */
  lemma DisableCancelsSchedule(s: State)
    ensures !ScheduleEnable(s.(irq := Disable(s.irq))).irq.ime
    ensures ScheduleEnable(s.(irq := EnableNow(s.irq))).irq.ime
    ensures ScheduleEnable(s.(irq := EnableNow(s.irq))) == s.(irq := EnableNow(s.irq))
  {
  }

  /** The interrupt vectors, in priority order (gb.h:75): V-blank, LCD
      status, timer, serial, joypad. */
  const Vectors: seq<bv16> := [0x40, 0x48, 0x50, 0x58, 0x60]

  /** The vector of interrupt `i`: eight bytes apart, from 0x40 up. */
  function Vector(i: bv8): (v: bv16)
    requires i < 5
    ensures v == 0x40 + 8 * i as bv16
  {
    Vectors[i as int]
  }

  /** Interrupt `i` is requested in IF and enabled in IE. */
  predicate Pending(s: State, i: bv8)
    requires i < 5
  {
    IsSet(Read(s.mem, IF), i) && IsSet(Read(s.mem, IE), i)
  }

  /** The two bytes below SP are stored plainly and are not IF. */
  predicate StackClear(s: State)
  {
    PlainlyWritable(s.regs.sp - 1) && PlainlyWritable(s.regs.sp - 2)
    && s.regs.sp - 1 != IF && s.regs.sp - 2 != IF
  }

  /** Servicing interrupt `i` (gb.cpp:128-133): its IF bit is cleared with a
      direct store, DI() runs, PC is pushed as by CALL and jumps to the
      vector. */
  function Service(s: State, i: bv8): (r: State)
    requires i < 5
    ensures r.regs == s.regs.(sp := s.regs.sp - 2, pc := Vector(i))
    ensures r.irq == Irq(false, false, 1)
    ensures r.flags == s.flags && r.counter == s.counter
  {
    var cleared := s.(mem := Store(s.mem, IF, ModifyBit(Read(s.mem, IF), 0, i)), irq := Disable(s.irq));
    var pushed := Push(cleared, High(s.regs.pc), Low(s.regs.pc));
    pushed.(regs := pushed.regs.(pc := Vector(i)))
  }

  /** With the stack clear, servicing leaves the interrupted PC on the
      stack, high byte above low byte, as CALL does. */
  lemma ServicePushesPc(s: State, i: bv8)
    requires i < 5 && StackClear(s)
    ensures Read(Service(s, i).mem, s.regs.sp - 1) == High(s.regs.pc)
    ensures Read(Service(s, i).mem, s.regs.sp - 2) == Low(s.regs.pc)
  {
  }

  /** With the stack clear of IF, servicing interrupt `i` acknowledges it:
      bit `i` of IF ends up cleared and the other IF bits are kept. */
  lemma ServiceAcknowledges(s: State, i: bv8)
    requires i < 5 && StackClear(s)
    ensures !IsSet(Read(Service(s, i).mem, IF), i)
    ensures Read(Service(s, i).mem, IF) & !(1 << i) == Read(s.mem, IF) & !(1 << i)
  {
    var cleared := s.(mem := Store(s.mem, IF, ModifyBit(Read(s.mem, IF), 0, i)), irq := Disable(s.irq));
    assert Read(cleared.mem, IF) == ModifyBit(Read(s.mem, IF), 0, i);
    assert Service(s, i).mem == Store(Store(cleared.mem, s.regs.sp - 1, High(s.regs.pc)), s.regs.sp - 2, Low(s.regs.pc));
  }

  /** The search loop of gb.cpp:121-139 from interrupt `i` on: the first
      pending interrupt is serviced and the loop stops; if none is pending,
      nothing changes. */
  function DispatchFrom(s: State, i: bv8): (r: State)
    requires i <= 5
    ensures (forall j: bv8 :: i <= j < 5 ==> !Pending(s, j)) ==> r == s
    ensures forall j: bv8 :: i <= j < 5 && Pending(s, j) && (forall k: bv8 :: i <= k < j ==> !Pending(s, k)) ==>
      r == Service(s, j)
    decreases 5 - i
  {
    if i == 5 then s
    else if Pending(s, i) then Service(s, i)
    else DispatchFrom(s, i + 1)
  }

  /** Interrupt dispatch: only with IME set, the lowest-numbered pending
      interrupt is serviced. */
  function Dispatch(s: State): (r: State)
    ensures !s.irq.ime ==> r == s
    ensures (forall j: bv8 :: j < 5 ==> !Pending(s, j)) ==> r == s
    ensures forall j: bv8 :: s.irq.ime && j < 5 && Pending(s, j) && (forall k: bv8 :: k < j ==> !Pending(s, k)) ==>
      r == Service(s, j)
  {
    if s.irq.ime then DispatchFrom(s, 0) else s
  }

  /** Dispatch clears IME whenever it services an interrupt, so a second
      dispatch right after the first does nothing. */
  lemma {:induction false} DispatchIsIdempotent(s: State)
    ensures Dispatch(Dispatch(s)) == Dispatch(s)
  {
    if s.irq.ime && exists j: bv8 :: j < 5 && Pending(s, j) {
      var j := LowestPending(s);
      assert Dispatch(s) == Service(s, j);
    }
  }

  /** Some pending interrupt has a lowest-numbered one. */
  lemma LowestPending(s: State) returns (j: bv8)
    requires exists j: bv8 :: j < 5 && Pending(s, j)
    ensures j < 5 && Pending(s, j) && forall k: bv8 :: k < j ==> !Pending(s, k)
  {
    j := 0;
    while !Pending(s, j)
      invariant j < 5 && forall k: bv8 :: k < j ==> !Pending(s, k)
      decreases 5 - j
    {
      j := j + 1;
    }
  }
}
