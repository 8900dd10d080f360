# GameJoy in Dafny

A Dafny model of the core of GameJoy, a Game Boy emulator. Three parts of the
program are modelled.

- **The interpreter (`gb.cpp`).** It runs one Sharp LR35902 instruction per
  call of `emulateCycle`. One cycle does five things in order:
  1. the delayed effect of EI;
  2. interrupt dispatch;
  3. fetch and execute, through the CB-prefixed and the unprefixed opcode tables;
  4. `updateFlagReg`, which copies the Z, N, H and C flag bytes into register F;
  5. the DIV/TIMA timer.

  Stores made by instructions go through `writeToMemory`, the memory-write
  policy. Arithmetic goes through the ALU routines: ADD, SUB, AND, XOR, OR,
  CP, INC, DEC, ROT, SHIFT, BIT, SWAP, and DAA, CPL, SCF and CCF.
- **The host loop (`main.cpp`).** This covers:
  - the joypad answer in JOYP;
  - the 2bpp tile and palette decoding;
  - the two tile-data addressing modes;
  - the background and window map offsets;
  - the sprite visibility test;
  - the per-scanline update of LY, STAT and IF that follows every 456 CPU cycles.
- **The draft interpreter (`gb/gb.cpp`).** An older interpreter that decodes
  only rows 0x0_ and 0x1_, with its own `setFlags`, `checkHalfCarry` and
  `checkZero`. It is a separate module and shares nothing with the main
  interpreter's semantics. A comparison module relates the two where they
  overlap.

Every operation is a pure function on an immutable state. That state holds:
- bv8 registers;
- bv16 SP and PC;
- boolean flags;
- a 65536-byte memory;
- the interrupt bookkeeping;
- the cycle counter.

Byte and word arithmetic uses Dafny bit-vectors, so 8-bit and 16-bit
wrap-around is explicit.

The model follows the code as written, including the order in which it
reads memory again after a store. Where the code and the comments
around it disagree, the code wins:
- **writeToMemory's range tests.** Each is a C++ chained comparison such as
  `0xDDFF >= addr >= 0xC000`, and none of them can ever hold. So there is no
  echo-RAM mirroring, and the "unusable" range is written like any other
  address (`Bus.ChainedRangeTestsNeverHold`, `Bus.NoEchoMirroring`,
  `Bus.UnusableRangeIsWritten`).
- **The 0xFF05 branch.** The comment calls it TAC. It copies bits 0-2 of the
  data into TAC (0xFF07) and never writes TIMA.
- **LD (a16),SP.** The operand word is read again after the low byte is
  stored, so the high byte goes to that re-read word plus one. When the
  first store hits the operand itself, the two bytes are not side by side
  (`InstructionsProps.StoreSpRereadsAddress`).
- **A write to DIV.** It stores 0 but does not reset the internal counter.
- **Direct stores to (HL).** INC/DEC (HL) and the CB instructions on (HL)
  store straight into memory and bypass writeToMemory. The ALU
  instructions on (HL) only read it.
- **HALT.** It only clears bit 2 of TAC.
- **RLCA, RRCA, RLA and RRA.** They force Z to 0.
- **XOR A and CP A.** They additionally force Z to 1, which their results
  already imply.
- **The draft interpreter:**
  - row 0x0_ falls through into row 0x1_;
  - LD DE,d16 loads D from PC+1 and E from PC+2, the reverse of the main
    interpreter;
  - JR adds its offset unsigned, from PC itself;
  - every opcode from 0x20 on does nothing but re-sync F.

Module layout:
- **Bits:** byte helpers, modifyBit, combineReg/splitReg.
- **Bus:** memory and writeToMemory.
- **Registers:** F and the flags.
- **Alu** and **AluProps:** the ALU and properties relating its operations.
- **Cpu:** the state, its accessors, initialize and the title.
- **Instructions** and **InstructionsProps:** both opcode tables and
  properties of single instructions and short sequences.
- **Interrupts:** the delayed EI and dispatch.
- **Timer.**
- **Machine:** emulateCycle and runs of cycles.
- **Joypad**, **Graphics** and **Scanline:** the host loop.
- **Draft:** the draft interpreter.
- **DraftVersusMain:** the comparison of the two interpreters.

## Model

| member | source | states |
|---|---|---|
| Bits.ModifyBit | gb.cpp:3148-3159 | modifyBit with value 0 clears bit `pos`, with 1 sets it, with anything else leaves the byte alone; other bits are untouched |
| Bits.OtherBitsAgree | gb.cpp:3148-3159 | bytes that agree outside bit `pos` agree on every other bit index |
| Bits.ModifyBitRestore | gb.cpp:3148-3159 | setting or clearing a bit and then writing back its old value restores the byte |
| Bits.Combine | gb.cpp:3207-3210 | combineReg gives the word whose high byte is `hi` and low byte `lo` |
| Bits.SplitCombine | gb.cpp:3261-3265 | splitReg followed by combineReg gives back the word |
| Bits.SignExtend | gb.cpp:2950 | the `int8_t` widening of a byte: the same low byte, and the high byte all ones exactly when bit 7 is set |
| Bus.Store | gb.cpp:3257 | a plain store changes exactly the addressed byte |
| Bus.ChainedRangeTestsNeverHold | gb.cpp:3221-3234 | the three chained range tests of writeToMemory are false for every address |
| Bus.DmaCopy | gb.cpp:3251-3254 | the DMA copy loop leaves OAM slot k holding byte k of the page and every other byte unchanged |
| Bus.WriteToMemory | gb.cpp:3215-3258 | below 0x8000 nothing changes; JOYP takes data bits 4-5 only; DIV becomes 0; 0xFF05 copies data bits 0-2 into TAC; 0xFF46 stores the page and copies 0xA0 bytes of it into OAM; every other address gets one plain store |
| Bus.NoEchoMirroring | gb.cpp:3221-3229 | a write into work RAM or echo RAM changes only the addressed byte |
| Bus.UnusableRangeIsWritten | gb.cpp:3231-3234 | a write to 0xFEA0-0xFEFF is an ordinary store |
| Registers.UpdateFlagReg | gb.cpp:3138-3145 | bits 7, 6, 5, 4 of F become Z, N, H, C and the low nibble is kept |
| Registers.FlagRoundTrip | gb.cpp:3002-3005 | reading the flags back out of F after updateFlagReg gives the same four flags |
| Registers.PackUnpack | gb.cpp:2999-3005 | for an F with a clear low nibble, updateFlagReg of the flags POP AF reads from F gives back F |
| Registers.UpdateFlagRegAgrees | gb.cpp:3138-3145 | from an F with a clear low nibble, updateFlagReg leaves F in agreement with the flags |
| Alu.AddNoCarryIn | gb.cpp:3313-3320 | ADD without carry-in: carry and result form the exact 9-bit sum, H is the low-nibble carry, Z iff zero, N clear |
| Alu.AddCarryIn | gb.cpp:3301-3311 | ADC with C set: carry and result form the exact 9-bit sum plus one, H includes the carry-in |
| Alu.Add | gb.cpp:3298-3321 | ADD/ADC: the result with the carry out is A + b (+1 when adding C and C is set) |
| Alu.SubNoCarryIn | gb.cpp:3366-3375 | SUB: borrow and result form the exact 9-bit difference, H is the low-nibble borrow, Z iff zero, N set |
| Alu.SubCarryIn | gb.cpp:3354-3364 | SBC with C set: the exact difference minus one, H includes the borrow-in |
| Alu.Sub | gb.cpp:3351-3376 | SUB/SBC: the result with the borrow is A - b (-1 when subtracting C and C is set) |
| Alu.Cp | gb.cpp:3409-3415 | CP gives SUB's flags: Z iff A == b, C iff b > A |
| Alu.Inc | gb.cpp:3268-3274 | INC: C kept, H iff the low nibble was 0xF, Z iff the byte was 0xFF, N clear |
| Alu.Dec | gb.cpp:3283-3289 | DEC: C kept, H iff the low nibble was 0, Z iff the byte was 1, N set |
| Alu.And | gb.cpp:3379-3386 | AND: Z iff the result is 0, N clear, H set, C clear |
| Alu.Xor | gb.cpp:3389-3396 | XOR: Z iff the result is 0, N, H and C clear |
| Alu.Or | gb.cpp:3399-3406 | OR: Z iff the result is 0, N, H and C clear |
| Alu.RotLeft | gb.cpp:3418-3434 | ROT left: bit 7 goes to C; bit 0 becomes the old C through carry or bit 7 otherwise |
| Alu.RotRight | gb.cpp:3437-3447 | ROT right: bit 0 goes to C; bit 7 becomes the old C through carry or bit 0 otherwise |
| Alu.Rot | gb.cpp:3418-3453 | C takes the bit that leaves the byte, the other seven bits move one place, and the vacated end takes the old C through carry or the leaving bit otherwise; Z is set iff the result is 0, N and H are cleared |
| Alu.Shift | gb.cpp:3456-3487 | SLA shifts in 0 and takes bit 7 to C; SRA keeps bit 7; SRL shifts in 0 at bit 7; both right shifts take bit 0 to C |
| Alu.Bit | gb.cpp:3490-3499 | BIT sets Z iff the tested bit is 0, clears N, sets H and keeps C |
| Alu.Swap | gb.cpp:3502-3509 | SWAP exchanges the nibbles; Z iff the byte is 0, N, H and C clear |
| Alu.Add16 | gb.cpp:3324-3334 | the 16-bit ADD: carry and result form the exact 17-bit sum, H from bit 11, Z kept, N clear |
| Alu.AddSigned | gb.cpp:3337-3348 | the word plus the sign-extended byte, with C and H computed on the low byte as an 8-bit add, Z and N cleared |
| Alu.Daa | gb.cpp:1786-1815 | DAA keeps N, clears H, never clears C after an addition, keeps C after a subtraction, Z iff the result is 0 |
| Alu.Cpl | gb.cpp:1867-1872 | CPL flips every bit of A and sets N and H |
| AluProps.SubUndoesAdd | gb.cpp:3298-3376 | SUB of b undoes ADD of b, and borrows exactly when the addition carried |
| AluProps.SbcUndoesAdc | gb.cpp:3298-3376 | SBC with C set undoes ADC with C set |
| AluProps.SbcBorrowsIffAdcCarries | gb.cpp:3298-3376 | with C set, SBC borrows exactly when ADC carried |
| AluProps.AddCommutes | gb.cpp:3298-3321 | ADD and ADC give the same result and flags with the operands swapped |
| AluProps.IncIsAddOne | gb.cpp:3268-3274 | INC equals ADD of 1 in result, Z, N and H, and keeps C |
| AluProps.DecIsSubOne | gb.cpp:3283-3289 | DEC equals SUB of 1 in result, Z, N and H, and keeps C |
| AluProps.DecUndoesInc | gb.cpp:3268-3289 | DEC after INC gives back the byte |
| AluProps.AndBits | gb.cpp:3379-3386 | every bit of AND's result is the conjunction of the operands' bits |
| AluProps.OrBits | gb.cpp:3399-3406 | every bit of OR's result is the disjunction of the operands' bits |
| AluProps.XorBits | gb.cpp:3389-3396 | every bit of XOR's result is the inequality of the operands' bits |
| AluProps.XorSelfIsZero | gb.cpp:2581-2585 | XOR A with itself gives 0 and sets Z |
| AluProps.RotThroughCarryRoundTrip | gb.cpp:3418-3453 | RR through carry after RL through carry restores both the byte and C |
| AluProps.RotIsRotation | gb.cpp:3418-3453 | RLC and RRC rotate the byte by one place |
| AluProps.RlcEightTimes | gb.cpp:3418-3434 | RLC applied eight times in a row gives back the original byte |
| AluProps.SrlAfterSla | gb.cpp:3456-3487 | SRL after SLA gives back bits 0-6 of the byte |
| AluProps.SwapTwice | gb.cpp:3502-3509 | SWAP applied twice is the identity |
| AluProps.CplTwice | gb.cpp:1867-1872 | CPL applied twice restores A |
| AluProps.CcfTwice | gb.cpp:1980-1988 | CCF applied twice restores C |
| AluProps.DaaAfterAdd | gb.cpp:1786-1815 | ADD of two packed-BCD bytes followed by DAA gives their decimal sum modulo 100, with C the decimal carry |
| AluProps.DaaAfterSub | gb.cpp:1786-1815 | SUB of two packed-BCD bytes followed by DAA gives their decimal difference modulo 100, with C the decimal borrow |
| Cpu.Set | gb.cpp:1546-1550 | assigning one register changes that register only |
| Cpu.OperandOf | gb.cpp:2291-2330 | the three-bit operand field names (HL) exactly for 6 |
| Cpu.SetPair | gb.cpp:3261-3265 | splitReg into a pair sets exactly that pair's two registers, or SP |
| Cpu.WriteOperandDirect | gb.cpp:1910-1918 | an ALU or INC/DEC result for (HL) is stored directly at HL, bypassing writeToMemory |
| Cpu.WriteOperandBus | gb.cpp:2286-2289 | an LD into (HL) goes through writeToMemory; into a register it sets that register |
| Cpu.Imm16 | gb.cpp:1892-1895 | the immediate word has PC+1 as its low byte and PC+2 as its high byte |
| Cpu.Push | gb.cpp:2719-2724 | a push stores the high byte at SP-1 and the low byte at SP-2 through writeToMemory and moves SP down by 2 |
| Cpu.PopWord | gb.cpp:2747-2750 | the popped word has the byte at SP+1 as its high byte and the byte at SP as its low byte |
| Cpu.Initialize | gb.cpp:6-72 | the initial state: PC 0x100, SP 0xFFFE, F = 0xB0 and the flag bytes Z=1 N=0 H=1 C=1, so the two agree, DIV the high byte of the counter, IME clear and no EI pending |
| Cpu.InitialIoRegisters | gb.cpp:37-69 | TIMA, TMA, TAC, IF and IE start at 0 and LCDC at 0x91 |
| Cpu.LoadRom | gb.cpp:88-89 | the ROM image is copied into the bottom of memory and the rest is unchanged |
| Cpu.Title | gb.cpp:96-101 | the title is the 16 bytes at 0x134-0x143, in order |
| Instructions.CbRotShift | gb.cpp:164-503 | CB rows 0x00-0x3F: the operation in bits 3-5, SWAP for 6, and the rotate carry from bit 7 or bit 0 |
| Instructions.CbResult | gb.cpp:504-1520 | BIT leaves the byte and sets BIT's flags; RES and SET leave the flags |
| Instructions.ExecuteCb | gb.cpp:145-1524 | a CB-prefixed instruction moves PC by 2, applies the operation named by its second byte to its operand, and touches no interrupt state, counter or F |
| Instructions.LoadPairImmediate | gb.cpp:1546-1550 | LD rr,d16 puts PC+1 in the low register, PC+2 in the high one, and moves PC by 3 |
| Instructions.Call | gb.cpp:3512-3521 | CALL pushes PC+3, high byte at SP-1, moves SP down by 2, and jumps to the word read at PC+1 after the pushes; that word is the immediate word whenever the pushes miss the two operand bytes |
| Instructions.Return | gb.cpp:2747-2750 | RET pops PC, low byte from SP and high byte from SP+1, and moves SP up by 2 |
| Instructions.Restart | gb.cpp:3524-3531 | RST pushes PC+1 and jumps to the vector |
| Instructions.PushPair | gb.cpp:2719-2724 | PUSH stores the high register at SP-1 and the low one at SP-2, SP down by 2, PC up by 1 |
| Instructions.PopPair | gb.cpp:2800-2805 | POP loads the high register from SP+1 and the low one from SP, SP up by 2 |
| Instructions.PopAf | gb.cpp:2997-3006 | POP AF: A from SP+1, F from SP with the low nibble cleared, and the flags agree with F |
| Instructions.ApplyAlu | gb.cpp:2333-2672 | CP leaves A and sets Z iff A equals the operand; arithmetic sets Z iff the result is 0; AND, XOR and OR clear C and N |
| Instructions.IncDecOperand | gb.cpp:1565-1574 | INC and DEC on a register or (HL) step the operand by one, keep C and set N for DEC only |
| Instructions.IncDecPair | gb.cpp:1558-1563 | INC rr and DEC rr step the pair by one modulo 0x10000 and change no flag |
| Instructions.AddHl | gb.cpp:1691-1697 | ADD HL,rr leaves the 16-bit sum in HL and the flags of the 16-bit ADD |
| Instructions.LoadOperandImmediate | gb.cpp:1920-1923 | LD r,d8 sets the register; LD (HL),d8 goes through writeToMemory; PC moves by 2 |
| Instructions.LoadOperand | gb.cpp:2291-2294 | LD r,r' copies the source operand into the destination, through writeToMemory for (HL) |
| Instructions.Halt | gb.cpp:2280-2284 | HALT clears only bit 2 of TAC and moves PC by 1 |
| Instructions.StoreAtHlStep | gb.cpp:1897-1903 | LD (HL±),A stores A through writeToMemory at HL, then steps HL by one |
| Instructions.LoadFromHlStep | gb.cpp:1837-1844 | LD A,(HL±) reads memory at HL into A, then steps HL by one |
| Instructions.StoreSp | gb.cpp:1586-1591 | LD (a16),SP changes no register but PC, which moves on by 3, keeps the flags and leaves the interrupt state and counter alone |
| Instructions.StoreSpHighByteLands | gb.cpp:1586-1591 | the high byte of SP goes to the operand word read again after the first store, plus one |
| Instructions.StoreSpSideBySide | gb.cpp:1586-1591 | when the operand word is not PC+1 or PC+2 and it and the next address are plainly writable, the low byte of SP lands at the word and the high byte right after it |
| Instructions.AddSp | gb.cpp:2949-2952 | ADD SP,r8 moves SP by the signed offset, with the flags of the signed add |
| Instructions.LoadHlSpOffset | gb.cpp:3039-3047 | LD HL,SP+r8 puts SP plus the signed offset in HL and keeps SP |
| Instructions.Quarter0 | gb.cpp:1539-1990 | opcodes 0x00-0x3F leave the interrupt state, counter and F alone |
| Instructions.Quarter1 | gb.cpp:1992-2331 | opcodes 0x40-0x7F also leave the flags alone |
| Instructions.Quarter2 | gb.cpp:2333-2673 | opcodes 0x80-0xBF leave memory alone and move PC by 1 |
| Instructions.Quarter3Routine | gb.cpp:2675-3088 | opcodes 0xC0-0xFF other than POP AF, DI, EI and RETI leave the interrupt state, counter and F alone; the unknown opcodes only move PC by 1 |
| Instructions.Quarter3 | gb.cpp:2675-3088 | POP AF, DI, EI (which only schedules) and RETI (which enables at once) are the only entries that write F or the interrupt state |
| Instructions.Execute | gb.cpp:142-3090 | a fetch and execute never touches the counter; only POP AF writes F, leaving it in agreement with the flags; only DI, EI and RETI change the interrupt state, as stated |
| InstructionsProps.ExecuteQuarter0 | gb.cpp:1537-1990 | an opcode below 0x40 is decoded by the first quarter of the table |
| InstructionsProps.ExecuteRoutine | gb.cpp:2675-3088 | an opcode from 0xC0 other than the prefix, POP AF, DI, EI and RETI is decoded as a routine instruction |
| InstructionsProps.LoadBcImmediate | gb.cpp:1546-1550 | LD BC,d16 puts PC+1 in C and PC+2 in B, and moves PC by 3 |
| InstructionsProps.LoadSpImmediate | gb.cpp:1892-1895 | LD SP,d16 puts the little-endian word at PC+1 in SP |
| InstructionsProps.JumpRelativeDecode | gb.cpp:1682-1690 | JR r8 sets PC to PC+2 plus the signed offset |
| InstructionsProps.JumpRelativeBackTwo | gb.cpp:1682-1690 | JR with offset 0xFE lands on itself |
| InstructionsProps.JumpRelativeMinusTwoLoops | gb.cpp:1682-1690 | executing JR -2 gives back the same state |
| InstructionsProps.JumpRelativeConditions | gb.cpp:1737-1748 | JR NZ, JR Z, JR NC, JR C are taken exactly when Z is clear, Z set, C clear, C set |
| InstructionsProps.IllegalOpcodesOnlyAdvance | gb.cpp:2818-2821 | the opcodes the table reports as unknown only move PC by 1 |
| InstructionsProps.RestartDecode | gb.cpp:3084-3086 | RST 38H pushes PC+1 and jumps to 0x38 |
| InstructionsProps.ForcedZeroIsRedundant | gb.cpp:2581-2585 | XOR A and CP A already leave Z set before the forced Z = 1 |
| InstructionsProps.CompareKeepsA | gb.cpp:2632-2671 | CP with a register or (HL) leaves A alone |
| InstructionsProps.CompareImmediate | gb.cpp:3079-3082 | CP d8 leaves A alone and sets Z exactly when A equals the immediate byte |
| InstructionsProps.HaltStopsTimer | gb.cpp:2280-2284 | HALT clears bit 2 of TAC and changes no other byte of memory |
| InstructionsProps.EnableIsDelayed | gb.cpp:3063-3067 | the EI opcode leaves IME as it was and only schedules the enable |
| InstructionsProps.LoadAFromB | gb.cpp:2291-2294 | LD A,B copies B into A and changes nothing but PC |
| InstructionsProps.IncrementAtDivBypassesReset | gb.cpp:1910-1913 | INC (HL) with HL at DIV increments DIV, because the store is direct |
| InstructionsProps.LoadAtDivResets | gb.cpp:1920-1923 | LD (HL),d8 with HL at DIV stores 0, because the store goes through writeToMemory |
| InstructionsProps.ExecutePrefixed | gb.cpp:145-160 | the prefix byte 0xCB selects the CB table |
| InstructionsProps.PrefixedTouchesOnlyHl | gb.cpp:145-1524 | a CB instruction writes no byte of memory other than the one at HL |
| InstructionsProps.ResetAndSetBit | gb.cpp:844-1520 | RES n clears bit n and SET n sets it, keeping the other bits and the flags |
| InstructionsProps.TestBit | gb.cpp:504-843 | BIT n sets Z exactly when bit n is 0 and leaves the operand alone |
| InstructionsProps.SwapNibbles | gb.cpp:419-456 | SWAP exchanges the nibbles of its operand |
| InstructionsProps.CallLeavesReturnAddress | gb.cpp:3512-3521 | after CALL the word at the new SP is the address after the call |
| InstructionsProps.ReturnUndoesCall | gb.cpp:2747-2750 | RET after CALL restores SP and resumes at PC+3 when the stack bytes are plainly writable |
| InstructionsProps.CallThenReturn | gb.cpp:2770-2772 | CALL a16 followed by RET at the target resumes after the call with SP restored |
| InstructionsProps.PushLeavesPair | gb.cpp:2719-2724 | after PUSH the word at the new SP is the pushed pair |
| InstructionsProps.PopUndoesPush | gb.cpp:2800-2805 | POP into a pair after PUSH of two bytes gives the pair those bytes and restores SP |
| InstructionsProps.PushThenPop | gb.cpp:2719-2805 | PUSH BC followed by POP DE copies BC into DE and restores SP |
| InstructionsProps.ConditionsComeInPairs | gb.cpp:1737-1748 | the condition codes come in complementary pairs: NZ/Z and NC/C, k and k xor 1, are never both true |
| InstructionsProps.ConditionReadsOneFlag | gb.cpp:1737-1748 | conditions 0 and 1 depend on Z alone, 2 and 3 on C alone |
| InstructionsProps.JumpToSelfLoops | gb.cpp:2708-2710 | JP a16 to its own address gives back the same state |
| InstructionsProps.CallReadsTargetAfterPush | gb.cpp:3512-3521 | with PC 0xC000 and SP 0xC003 the pushes overwrite the operand bytes and CALL goes to 0xC003, not to the immediate word |
| InstructionsProps.StoreSpRereadsAddress | gb.cpp:1586-1591 | with PC 0xC000, operand 0xC002 and SP 0xFFFE the low byte 0xFE lands at 0xC002, the high byte 0xFF at 0xFE03, and 0xC003 is left alone |
| InstructionsProps.CallConditions | gb.cpp:2712-2885 | CALL NZ, CALL Z, CALL NC, CALL C call exactly when Z is clear, Z set, C clear, C set, and otherwise move PC by 3 |
| InstructionsProps.ReturnConditions | gb.cpp:2678-2856 | RET NZ, RET Z, RET NC, RET C return exactly when Z is clear, Z set, C clear, C set, and otherwise move PC by 1 |
| InstructionsProps.AddThenSubRestoresA | gb.cpp:2333-2432 | ADD A,v followed by SUB v gives A back |
| InstructionsProps.LoadFromPairAfterStore | gb.cpp:1699-1702 | LD A,(rr) after LD (rr),A reads back A at a plainly writable address, and the old byte below 0x8000 |
| InstructionsProps.LoadAAfterStoreA | gb.cpp:3008-3011 | LDH A,(a8) after LDH (a8),A at the same address reads back A where memory is plainly writable, and the old byte below 0x8000 |
| InstructionsProps.RotateAIsRotation | gb.cpp:3418-3453 | RLCA and RRCA rotate A by one place |
| InstructionsProps.RraUndoesRla | gb.cpp:3418-3453 | RRA after RLA restores A and C |
| InstructionsProps.CplTwiceRestoresA | gb.cpp:1867-1872 | on the whole state, two CPL instructions restore every register but PC, which moves on by 2, keep memory, Z and C, and leave N and H set |
| InstructionsProps.ScfThenCcfClearsCarry | gb.cpp:1925-1988 | SCF then CCF leaves C clear and Z as it was |
| InstructionsProps.CcfTwiceRestoresCarry | gb.cpp:1980-1988 | on the whole state, two CCF instructions restore C, Z and every register but PC, which moves on by 2, keep memory, and leave N and H clear |
| Interrupts.DisableCancelsSchedule | gb.cpp:3534-3546 | after DI a pending schedule never sets IME; after EI IME is set and the schedule step changes nothing |
| Interrupts.ScheduleEnable | gb.cpp:107-116 | with an enable scheduled and delay 1 the delay drops to 0 and IME is kept; with any other delay EI() runs; without a schedule nothing changes |
| Interrupts.Vector | gb.cpp:133 | the vector of interrupt i is 0x40 + 8i |
| Interrupts.Service | gb.cpp:128-133 | servicing pushes PC, moves SP down by 2, jumps to the vector and clears IME and the schedule |
| Interrupts.ServicePushesPc | gb.cpp:130-131 | the interrupted PC is left on the stack, high byte at SP-1 and low byte at SP-2 |
| Interrupts.ServiceAcknowledges | gb.cpp:128 | servicing clears the interrupt's IF bit and keeps the others |
| Interrupts.DispatchFrom | gb.cpp:121-139 | the search services the first pending interrupt from i on and stops; with none pending nothing changes |
| Interrupts.Dispatch | gb.cpp:119-140 | with IME clear or nothing pending nothing changes; otherwise the lowest pending interrupt is serviced |
| Interrupts.DispatchIsIdempotent | gb.cpp:119-140 | at most one interrupt is serviced per cycle: dispatch right after dispatch does nothing |
| Interrupts.LowestPending | gb.cpp:121-125 | if some interrupt is pending there is a lowest-numbered pending one |
| Timer.PeriodIsSmallPowerOfTwo | gb.cpp:3101-3119 | each timer period is a power of two from 4 to 256 |
| Timer.FiresWith | gb.cpp:3099-3121 | the timer fires only with TAC bit 2 set and on a counter that is a multiple of 4 |
| Timer.FiresOnPeriod | gb.cpp:3099-3121 | the timer fires exactly when TAC bit 2 is set and the counter is a multiple of the selected period |
| Timer.IncTimer | gb.cpp:3127-3135 | incTimer increments TIMA; on the wrap from 0xFF it reloads TMA and sets IF bit 2; nothing else changes |
| Timer.TimerTick | gb.cpp:3097-3123 | the timer step stores DIV as the counter's high byte, keeps TAC and TMA, and advances the counter by one |
| Timer.DivStoreKeepsTimer | gb.cpp:3097 | the store to DIV changes neither the firing test nor TIMA, TMA or IF |
| Timer.QuietTickKeepsTima | gb.cpp:3099-3121 | when the timer does not fire, TIMA and IF keep their values |
| Timer.FiringTickCounts | gb.cpp:3129 | when the timer fires below 0xFF, TIMA goes up by one and IF is kept |
| Timer.FiringTickOverflows | gb.cpp:3130-3134 | when the timer fires at 0xFF, TIMA is reloaded from TMA and the timer interrupt is requested |
| Timer.DisabledTimerOnlyMovesDiv | gb.cpp:3097-3099 | with TAC bit 2 clear a timer step changes memory only at DIV |
| Timer.TickCountsMultiple | gb.cpp:3099-3123 | without overflow, one step moves TIMA up by one exactly when the counter is a multiple of the period |
| Timer.TimaCountsMultiples | gb.cpp:3099-3123 | over n steps without overflow, TIMA goes up by the number of multiples of the period among the counter values passed |
| Machine.Step | gb.cpp:105-3124 | every cycle advances the counter by one, modulo 0x10000 |
| Machine.Begin | gb.cpp:107-140 | the start of a cycle keeps F, the flags and the counter, and changes nothing with no EI pending and IME clear |
| Machine.UpdateF | gb.cpp:3093 | updateFlagReg changes only F and leaves it agreeing with the flags |
| Machine.Finish | gb.cpp:3093-3123 | the end of a cycle syncs F and advances the counter by one |
| Machine.DispatchKeepsFlags | gb.cpp:119-140 | dispatch touches neither F, the flags nor the counter |
| Machine.StepKeepsFlagsInF | gb.cpp:105-3124 | from an F with a clear low nibble, F agrees with the flags after a cycle |
| Machine.RunKeepsFlagsInF | gb.cpp:105-3124 | once F agrees with the flags it does so after any number of cycles |
| Machine.InitialRunKeepsFlagsInF | gb.cpp:6-72 | from the initial state F agrees with the flags after every number of cycles |
| Machine.EiSchedules | gb.cpp:3063-3067 | the cycle that runs EI with interrupts off schedules the enable and leaves IME clear |
| Machine.EiCountsDown | gb.cpp:107-111 | the next cycle, running any instruction but DI, EI or RETI, only counts the delay down |
| Machine.EiTakesEffect | gb.cpp:113-115 | the cycle after that sets IME before dispatch |
| Machine.EnableAfterNextInstruction | gb.cpp:107-116 | IME is clear while EI and the next instruction run, and set at the start of the cycle after |
| Machine.InterruptPreemptsFetch | gb.cpp:119-142 | with IME set, the lowest pending interrupt is taken before the fetch: the byte fetched is the one at its vector |
| Joypad.AnswerLine | main.cpp:23-41 | four modifyBit calls: bits 0-3 read 0 exactly for the pressed keys; the high nibble is kept |
| Joypad.ProcessInputs | main.cpp:20-66 | with bit 5 clear bits 0-3 answer A, B, Select, Start; else with bit 4 clear Right, Left, Up, Down; else JOYP is unchanged; bits 4-7 never change |
| Joypad.ReadBack | main.cpp:20-66 | the answer is the selection nibble above the active-low nibble of the selected keys |
| Joypad.ProcessInputsIdempotent | main.cpp:20-66 | answering twice with the same keys is answering once |
| Graphics.ColourIndex | main.cpp:81-86 | the colour number is bit 7-x of the low byte plus twice bit 7-x of the high byte |
| Graphics.Shade | main.cpp:89-92 | the grey level is one of 0xFF, 0xAA, 0x55, 0x00 |
| Graphics.ShadeKeepsPaletteEntry | main.cpp:89-92 | the grey level determines the BGP entry it came from |
| Graphics.TilePixel | main.cpp:73-97 | a tile pixel is one of the four grey levels |
| Graphics.TilePixelReadsRow | main.cpp:73-97 | a tile pixel shows the BGP entry numbered by bit 7 - x%8 of the row byte at loc + 2*(y%8) (low bit) and of the byte after it (high bit) |
| Graphics.SpriteRow | main.cpp:100-119 | a sprite row is eight pixels, each one of the four grey levels |
| Graphics.SpriteRowIsTileRow | main.cpp:100-119 | each sprite pixel equals the tile pixel in the same column |
| Graphics.TileStart | main.cpp:164-169 | LCDC bit 4 set: 0x8000 + 16n, within 0x8000-0x8FF0; clear: 0x9000 + 16 * int8(n), within 0x8800-0x97F0; always 16-aligned |
| Graphics.TileStartInjective | main.cpp:198-203 | different tile numbers name different tiles in either mode |
| Graphics.ModesShareHighTiles | main.cpp:164-169 | tiles 0x80-0xFF are addressed identically in both modes |
| Graphics.BackgroundMapOffset | main.cpp:145-159 | the background map offset is always within 0-1023 |
| Graphics.TileUnderBound | main.cpp:145-159 | a wrapped pixel lies on one of the 1024 map tiles |
| Graphics.TileColumnWraps | main.cpp:147 | for a coordinate below 512, the tile column modulo 32 is that of the coordinate modulo 256 |
| Graphics.OffsetBranchesWrap | main.cpp:146-159 | the branches of the offset compute the tile under the position wrapped modulo 256 in both directions |
| Graphics.BackgroundMapOffsetWraps | main.cpp:143-161 | the offset is the tile under (x + SCX, LY + SCY), each taken modulo 256; the third branch is dead |
| Graphics.WindowMapOffset | main.cpp:182-194 | the window offset's column is ((x + WX - 7 as a byte) / 8) mod 32 and the offset is below 2048 |
| Graphics.WindowOffsetInMapIff | main.cpp:194 | the window offset stays inside the 1 KiB map exactly when LY + WY is below 256 |
| Graphics.RowPastMapIff | main.cpp:194 | a map index is below 1024 exactly when its pixel row is below 256 |
| Graphics.MapBase | main.cpp:137-140 | the map base is 0x9C00 exactly when the selecting LCDC bit is set, else 0x9800 |
| Graphics.BackgroundPixel | main.cpp:122-178 | a background pixel is one of the four grey levels |
| Graphics.BackgroundReadsInsideMap | main.cpp:161 | the background tile number is read from inside the selected 1 KiB map |
| Graphics.WindowPixel | main.cpp:176-207 | a window pixel is one of the four grey levels |
| Graphics.SpriteDrawn | main.cpp:216-234 | a sprite is drawn only on lines 1-150, and only within eight lines below its y |
| Graphics.SpriteDrawnIff | main.cpp:216-234 | sprite i is drawn on line LY exactly when its y is in 1-143, its x in 1-159, flag bit 7 set, and y <= LY <= y+7 |
| Graphics.SpriteRowAsWritten | main.cpp:228-230 | as written, the row drawn is row LY % 8 of the sprite's tile from 0x8000 |
| Graphics.SpriteRowMisaligned | main.cpp:102 | for a sprite at y = 1 the code draws tile row 1 on the sprite's first line, where row 0 belongs |
| Graphics.MisalignedRowIndex | main.cpp:218-230 | for a sprite whose y is not a multiple of 8, the row index taken on line y + k is never k, for every k below 8 |
| Graphics.SpriteLine | main.cpp:218-230 | corrected: the row drawn is the line's distance from the sprite's top |
| Graphics.SpriteLineRows | main.cpp:218-230 | corrected: rows 0 to 7 of the tile appear on lines y to y+7 |
| Scanline.WithMode | main.cpp:374-375 | the STAT mode bits become 00 or 01; the other bits are kept |
| Scanline.RequestStat | main.cpp:369-370 | IF bit 1 is set when requested; the other bits are kept |
| Scanline.NextLine | main.cpp:365-404 | after the update LY is at most 0x99, and the bits of STAT and IF outside 0-1 are kept |
| Scanline.NextLineCounts | main.cpp:365-397 | LY counts up by one and wraps from 0x99 to 0 |
| Scanline.NextLineVBlank | main.cpp:380-392 | the mode reads V-blank and IF bit 0 is added exactly on the line that reaches 0x90 |
| Scanline.NextLineStatRequest | main.cpp:367-403 | IF bit 1 is set exactly for LY == LYC with STAT bit 6, for STAT bit 3, or for STAT bit 4 when V-blank starts |
| Scanline.LinesCountUp | main.cpp:365 | from line 0, the k-th update shows line k for k up to 0x99 |
| Scanline.FrameIs154Lines | main.cpp:365-404 | from line 0, LY reaches 0x90 after 144 updates and is back at 0 after 154 |
| Scanline.LastLineWraps | main.cpp:395-397 | the 154th update brings LY back to 0 |
| Scanline.ScanlineUpdate | main.cpp:365-404 | on memory, the update leaves LY at most 0x99 and changes nothing but LY, STAT and IF |
| Scanline.CycleWithInput | main.cpp:338-349 | a CPU cycle followed by the joypad answer keeps the upper nibble of JOYP as the cycle left it |
| Scanline.Scanline | main.cpp:336-404 | one pass of the loop runs 456 cycles and then the scanline update, leaving LY at most 0x99 |
| Draft.SetFlagsKeepsLowNibble | gb/gb.cpp:306-347 | setFlags never touches the low nibble of F |
| Draft.SetFlagsBits | gb/gb.cpp:306-347 | each flag byte decides its own bit of F: 0 clears it, 1 sets it, any other value leaves it |
| Draft.SetFlagsIdempotent | gb/gb.cpp:306-347 | a second setFlags with the same flag bytes changes nothing |
| Draft.CheckHalfCarry | gb/gb.cpp:350-362 | mode 1 gives 1 iff the low-nibble sum reaches bit 4; mode -1 gives 1 iff a's low nibble is below b's |
| Draft.CheckZero | gb/gb.cpp:364-370 | 1 for a zero byte, else 0 |
| Draft.SyncIdempotent | gb/gb.cpp:302 | a second closing setFlags changes nothing |
| Draft.Row0Keeps | gb/gb.cpp:45-165 | no instruction of row 0x0_ changes SP, F or IME |
| Draft.Row1Keeps | gb/gb.cpp:167-296 | no instruction of row 0x1_ changes SP or F, and only STOP changes IME |
| Draft.RowsFaultOnlyPastTheEnd | gb/gb.cpp:45-296 | a row body faults only for an instruction with operand bytes, and only when they lie past the end of memory |
| Draft.StepKeeps | gb/gb.cpp:35-303 | a cycle with PC past memory faults; a cycle that completes keeps SP and the low nibble of F |
| Draft.StepOfRow | gb/gb.cpp:35-303 | the opcode's high nibble selects the row: row 0x0_ falls into row 0x1_, row 0x1_ runs alone, and any higher opcode only re-syncs F |
| Draft.StepFallsThrough | gb/gb.cpp:45-170 | an opcode of row 0x0_ runs its own body, then the row-0x1_ body of the same low nibble, then setFlags |
| Draft.StepRowOne | gb/gb.cpp:167-302 | an opcode of row 0x1_ runs its own body, then setFlags |
| Draft.NopFallsIntoStop | gb/gb.cpp:48-50 | opcode 0x00 moves PC by two and clears IME |
| Draft.LoadBcFallsIntoLoadDe | gb/gb.cpp:52-56 | opcode 0x01 loads B and C from PC+1 and PC+2, then D and E from PC+4 and PC+5, and moves PC by six |
| Draft.IncBAlsoIncrementsD | gb/gb.cpp:71-77 | opcode 0x04 increments both B and D, with the flag bytes of the increment of D |
| Draft.IncBcAlsoIncrementsDe | gb/gb.cpp:63-69 | opcode 0x03 increments both BC and DE modulo 0x10000 and leaves the flag bytes alone |
| Draft.HighRowsOnlySyncFlags | gb/gb.cpp:298-302 | opcodes from 0x20 on leave PC, registers, flag bytes and memory alone and only re-sync F |
| Draft.HighRowsAreStuck | gb/gb.cpp:298-302 | once F agrees with the flag bytes, a cycle on such an opcode changes nothing at all |
| Draft.LoadDeHighByteFirst | gb/gb.cpp:175-179 | LD DE,d16 takes D from PC+1 and E from PC+2 and moves PC by three |
| Draft.IncDeWraps | gb/gb.cpp:186-192 | INC DE steps D:E up by one modulo 0x10000 and touches no flag byte |
| Draft.DecDeWraps | gb/gb.cpp:254-260 | DEC DE steps D:E down by one modulo 0x10000 and touches no flag byte |
| Draft.RlaRotatesThroughCarry | gb/gb.cpp:215-227 | RLA: new carry is old bit 7, new bit 0 is the old carry, Z, N and H cleared |
| Draft.RraRotatesThroughCarry | gb/gb.cpp:283-295 | RRA: new carry is old bit 0, new bit 7 is the old carry |
| Draft.RraUndoesRla | gb/gb.cpp:215-295 | RRA after RLA gives back A and the carry byte |
| Draft.JumpAddsUnsignedOffset | gb/gb.cpp:229-231 | JR adds the byte after it to PC, unsigned, from PC itself |
| Draft.StepAddHlDe | gb/gb.cpp:233-247 | opcode 0x19 runs ADD HL,DE and then setFlags |
| Draft.AddHlDeValue | gb/gb.cpp:233-247 | ADD HL,DE leaves the 16-bit sum in H:L |
| Draft.AddHlDeCarry | gb/gb.cpp:233-247 | the carry byte is 1 exactly when the sum passes 0xFFFF, and 0 otherwise |
| Draft.AddHlDeOtherBytes | gb/gb.cpp:233-247 | ADD HL,DE clears N, takes H from the 16-bit half-carry, and moves PC by one |
| DraftVersusMain.SetFlagsIsUpdateFlagReg | gb/gb.cpp:306-347 | setFlags on 0/1 flag bytes writes the same F as updateFlagReg (gb.cpp:3138-3145) |
| DraftVersusMain.LoadDeSwapsBytes | gb/gb.cpp:175-179 | from the same PC and memory, the draft's LD DE,d16 puts in D what the main one (gb.cpp:1643-1646) puts in E, and the other way round |
| DraftVersusMain.RlaAgrees | gb/gb.cpp:215-227 | given the same A and carry, the draft's RLA computes the same A and flags as the main one (gb.cpp:1676-1680) |
| DraftVersusMain.AddHlDeAgrees | gb/gb.cpp:233-247 | given the same HL and DE, both ADD HL,DE (gb.cpp:1691-1697) give the same H, L and carry and clear N |

## Left out

- File and console I/O are not modelled. This covers ROM file reading, the log file, logging output, and console messages (gb.cpp:8-13, 74-93, 134-135, 148-158, 1528-1535; gb/gb.cpp:14-33, 38-41). ROM loading appears only as `Cpu.LoadRom`, a copy of bytes into the bottom of memory.
- The SDL host is not modelled. This covers window and texture setup, presentation, event pumping, controller discovery, the file dialog, and the RGB packing of pixels into the frame buffer. Drawing writes only the frame buffer, so the scanline loop (`Scanline.Scanline`) skips the draw calls.
- The spacebar logging toggle and the concrete key bindings of `processInputs` are not modelled. The eight keys are booleans.
- The host refreshes its key state only every 100 cycles. `Scanline.Cycles` takes one key state per cycle, which covers that as a special case.
- The single write of LCDC bit 7 before the loop (main.cpp:330) is not modelled.
- PC + k and SP + 1 past 0xFFFF are not modelled faithfully. The source indexes the array with an `int`, so such a read runs off the end of the array. The main model wraps the address modulo 0x10000.
- The draft interpreter, which keeps PC in `unsigned int`, treats such a read as a fault (`None`).
- The cycle counter is kept modulo 0x10000. DIV and every timer period depend only on its low 16 bits.
- The draft's 16-bit `checkHalfCarry` is declared but never defined. The draft step takes its result as a parameter (`hc16`).
- The draft's scratch pairs HL, BC and DE are recomputed from their halves before every use, so they are not part of its state.
- The draft's `initialize` and `loadGame` only clear or read files and are not modelled.
- The dead third branch of the background offset (main.cpp:153-155) is kept in the function, and `Graphics.OffsetBranchesWrap` shows that it is never taken.
- WX and WY are used by `drawWindow` but not defined in the header. The model reads WINX and WINY at 0xFF4B and 0xFF4A. STAT and LYC are taken as 0xFF41 and 0xFF45.
- The window's `winX` uses byte wrap-around for WX - 7, as the `uint8_t` variable does. Its `winY` is added to LY without wrapping, so the window offset can leave the 1 KiB map. `Graphics.WindowOffsetInMapIff` states exactly when.
- Cpu.LoadRom: requires the image to fit in 64 KiB. loadGame (gb.cpp:88-89) copies a file of any size into memory and would run past its end for a larger one.
- Machine.Run and Scanline.Cycles carry no contract of their own. What holds across runs of cycles is stated by `Machine.RunKeepsFlagsInF`, `Machine.InitialRunKeepsFlagsInF` and `Scanline.Scanline`.
- Alu.Daa: the contract states the flag rules and the decimal round trip after ADD and SUB of packed-BCD bytes (`AluProps.DaaAfterAdd`, `AluProps.DaaAfterSub`). It does not state DAA's value on inputs that are not the result of a BCD addition or subtraction.
- Instructions.StoreSp: where the low byte ends up when the re-read word plus one coincides with it is stated only for the input of `InstructionsProps.StoreSpRereadsAddress`, not for every input.

## Findings

| source | as written | input that shows it | evidently intended | confidence | as-written member | corrected member |
|---|---|---|---|---|---|---|
| main.cpp:102, 218-230 | drawSprites passes LY as the row and drawPixelOfSprite reads tile row LY % 8, whatever the sprite's y | OAM y byte 17 (sprite y = 1), x byte 16, flag bit 7 set, LY = 1: tile row 1 is drawn on the sprite's first line | the row drawn on line LY is LY - y, so rows 0-7 of the tile appear on lines y to y+7 | not executed | Graphics.SpriteRowAsWritten (shown by Graphics.SpriteRowMisaligned) | Graphics.SpriteLine (proved by Graphics.SpriteLineRows) |
