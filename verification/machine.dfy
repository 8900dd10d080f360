/** One call of emulateCycle (gb.cpp:105-3124) in the source's order: the
    delayed EI, interrupt dispatch, fetch and execute, updateFlagReg, the
    timer. */
module Machine {
  import opened Bits
  import opened Bus
  import opened Registers
  import opened Cpu
  import opened Instructions
  import opened Interrupts
  import opened Timer

  /** The part of the cycle before the opcode fetch (gb.cpp:107-140). */
  function Begin(s: State): (r: State)
    ensures r.flags == s.flags && r.counter == s.counter && r.regs.f == s.regs.f
    ensures !s.irq.scheduled && !s.irq.ime ==> r == s
  {
    DispatchKeepsFlags(ScheduleEnable(s));
    Dispatch(ScheduleEnable(s))
  }

  /** updateFlagReg applied to the state (gb.cpp:3093). */
  function UpdateF(s: State): (r: State)
    ensures r.regs == s.regs.(f := r.regs.f) && r.flags == s.flags && r.mem == s.mem
    ensures r.irq == s.irq && r.counter == s.counter
    ensures s.regs.f & 0x0F == 0 ==> FlagRegAgrees(r.regs.f, r.flags)
  {
    UpdateFlagRegAgrees(s.regs.f & 0xF0, s.flags);
    s.(regs := s.regs.(f := UpdateFlagReg(s.regs.f, s.flags)))
  }

  /** The part of the cycle after the instruction (gb.cpp:3093-3123). */
  function Finish(s: State): (r: State)
    ensures r.irq == s.irq && r.flags == s.flags && r.counter == s.counter + 1
    ensures s.regs.f & 0x0F == 0 ==> FlagRegAgrees(r.regs.f, r.flags)
  {
    TimerTick(UpdateF(s))
  }

  /** emulateCycle: every cycle advances the counter by one. */
  function Step(s: State): (r: State)
    ensures r.counter == s.counter + 1
  {
    Finish(Execute(Begin(s)))
  }

  /** `n` cycles from `s`. */
  function Run(s: State, n: nat): State
    decreases n
  {
    if n == 0 then s else Run(Step(s), n - 1)
  }

  /** Dispatch never touches F, the flags or the counter. */
  lemma DispatchKeepsFlags(s: State)
    ensures Dispatch(s).regs.f == s.regs.f && Dispatch(s).flags == s.flags
    ensures Dispatch(s).counter == s.counter
  {
    if s.irq.ime && exists j: bv8 :: j < 5 && Pending(s, j) {
      var j := LowestPending(s);
      assert Dispatch(s) == Service(s, j);
    }
  }

  /** The low nibble of F stays clear across a cycle, and F agrees with the
      flags after it: every instruction but POP AF leaves F alone, POP AF
      clears its low nibble, and updateFlagReg copies the flags in. */
  lemma StepKeepsFlagsInF(s: State)
    requires s.regs.f & 0x0F == 0
    ensures FlagRegAgrees(Step(s).regs.f, Step(s).flags)
  {
    var x := Execute(Begin(s));
    assert x.regs.f & 0x0F == 0;
  }

  /** From the initial state F agrees with the flags after every number of
      cycles. */
  lemma {:induction false} RunKeepsFlagsInF(s: State, n: nat)
    requires FlagRegAgrees(s.regs.f, s.flags)
    ensures FlagRegAgrees(Run(s, n).regs.f, Run(s, n).flags)
    decreases n
  {
    if n > 0 {
      StepKeepsFlagsInF(s);
      RunKeepsFlagsInF(Step(s), n - 1);
    }
  }

  /** The initial state keeps F in agreement with the flags forever. */
  lemma InitialRunKeepsFlagsInF(n: nat)
    ensures FlagRegAgrees(Run(Initialize(), n).regs.f, Run(Initialize(), n).flags)
  {
    RunKeepsFlagsInF(Initialize(), n);
  }

  /** The cycle that executes EI with interrupts off schedules the enable
      with a delay of one and leaves IME clear. */
  lemma EiSchedules(s: State)
    requires s.irq == Irq(false, false, 1) && Opcode(s) == 0xFB
    ensures Step(s).irq == Irq(false, true, 1)
  {
    assert Begin(s) == s;
  }

  /** The next cycle, running any instruction but DI, EI or RETI, only
      counts the delay down: IME is still clear while that instruction
      runs. */
  lemma EiCountsDown(s: State)
    requires s.irq == Irq(false, true, 1)
    requires Opcode(s) != 0xF3 && Opcode(s) != 0xFB && Opcode(s) != 0xD9
    ensures Step(s).irq == Irq(false, true, 0)
  {
    var a := ScheduleEnable(s);
    assert a == s.(irq := Irq(false, true, 0));
    assert Begin(s) == a;
    assert Opcode(a) == Opcode(s);
  }

  /** The cycle after that sets IME before dispatch, so a pending interrupt
      is taken before its instruction. */
  lemma EiTakesEffect(s: State)
    requires s.irq == Irq(false, true, 0)
    ensures ScheduleEnable(s).irq == Irq(true, false, 1)
    ensures ScheduleEnable(s).regs == s.regs && ScheduleEnable(s).mem == s.mem
  {
  }

  /** EI takes effect after the instruction that follows it: IME is clear
      during the cycles that run EI and the next instruction, and set at the
      start of the cycle after. */
  lemma EnableAfterNextInstruction(s: State)
    requires s.irq == Irq(false, false, 1) && Opcode(s) == 0xFB
    requires Opcode(Step(s)) != 0xF3 && Opcode(Step(s)) != 0xFB && Opcode(Step(s)) != 0xD9
    ensures !Step(s).irq.ime && !Step(Step(s)).irq.ime
    ensures ScheduleEnable(Step(Step(s))).irq.ime
  {
    EiSchedules(s);
    EiCountsDown(Step(s));
    EiTakesEffect(Step(Step(s)));
  }

  /** With IME set and no EI pending, the lowest pending interrupt is taken
      before the fetch: the instruction of this cycle is the first one of the
      interrupt's handler, and the interrupted PC is on the stack. */
  lemma InterruptPreemptsFetch(s: State, j: bv8)
    requires s.irq.ime && !s.irq.scheduled && StackClear(s)
    requires j < 5 && Pending(s, j) && forall k: bv8 :: k < j ==> !Pending(s, k)
    ensures Begin(s).regs.pc == Vector(j) && Opcode(Begin(s)) == Read(Begin(s).mem, Vector(j))
    ensures Read(Begin(s).mem, s.regs.sp - 1) == High(s.regs.pc)
    ensures Read(Begin(s).mem, s.regs.sp - 2) == Low(s.regs.pc)
    ensures !Begin(s).irq.ime
  {
    assert ScheduleEnable(s) == s;
    assert Begin(s) == Service(s, j);
    ServicePushesPc(s, j);
  }
}
