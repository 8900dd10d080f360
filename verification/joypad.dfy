/** The joypad half of the host's input handling (processInputs,
    main.cpp:14-67): the program selects the button line or the direction
    line through JOYP bits 5 and 4, and the host answers in bits 0-3, a
    pressed key reading as 0. */
module Joypad {
  import opened Bits

  /** The eight keys, each true while held. Which host key or controller
      button stands for which is left to the host. */
  datatype Keys = Keys(a: bool, b: bool, select: bool, start: bool,
                       right: bool, left: bool, up: bool, down: bool)

  /** The value modifyBit is given for a key: 0 when pressed, 1 when not. */
  function KeyBit(pressed: bool): int
  {
    if pressed then 0 else 1
  }

  /** The four modifyBit calls of one line, bit 0 first. */
  function AnswerLine(joyp: bv8, k0: bool, k1: bool, k2: bool, k3: bool): (r: bv8)
    ensures r & 0xF0 == joyp & 0xF0
    ensures IsSet(r, 0) == !k0 && IsSet(r, 1) == !k1
    ensures IsSet(r, 2) == !k2 && IsSet(r, 3) == !k3
  {
    var j0 := ModifyBit(joyp, KeyBit(k0), 0);
    var j1 := ModifyBit(j0, KeyBit(k1), 1);
    var j2 := ModifyBit(j1, KeyBit(k2), 2);
    ModifyBit(j2, KeyBit(k3), 3)
  }

  /** processInputs without the logging toggle: with bit 5 clear the buttons
      A, B, Select and Start are reported, else with bit 4 clear the
      directions Right, Left, Up and Down, else JOYP is left alone. The upper
      nibble never changes. */
  function ProcessInputs(joyp: bv8, k: Keys): (r: bv8)
    ensures r & 0xF0 == joyp & 0xF0
    ensures !IsSet(joyp, 5) ==>
      IsSet(r, 0) == !k.a && IsSet(r, 1) == !k.b && IsSet(r, 2) == !k.select && IsSet(r, 3) == !k.start
    ensures IsSet(joyp, 5) && !IsSet(joyp, 4) ==>
      IsSet(r, 0) == !k.right && IsSet(r, 1) == !k.left && IsSet(r, 2) == !k.up && IsSet(r, 3) == !k.down
    ensures IsSet(joyp, 5) && IsSet(joyp, 4) ==> r == joyp
  {
    if !IsSet(joyp, 5) then AnswerLine(joyp, k.a, k.b, k.select, k.start)
    else if !IsSet(joyp, 4) then AnswerLine(joyp, k.right, k.left, k.up, k.down)
    else joyp
  }

  /** The active-low nibble for four keys, written as arithmetic. */
  function ActiveLow(k0: bool, k1: bool, k2: bool, k3: bool): bv8
  {
    (if k0 then 0 else 1) | (if k1 then 0 else 2) | (if k2 then 0 else 4) | (if k3 then 0 else 8)
  }

  /** The byte a program reads back after processInputs is the selection
      nibble it wrote above the active-low nibble of the selected line. */
  lemma ReadBack(joyp: bv8, k: Keys)
    ensures !IsSet(joyp, 5) ==>
      ProcessInputs(joyp, k) == (joyp & 0xF0) | ActiveLow(k.a, k.b, k.select, k.start)
    ensures IsSet(joyp, 5) && !IsSet(joyp, 4) ==>
      ProcessInputs(joyp, k) == (joyp & 0xF0) | ActiveLow(k.right, k.left, k.up, k.down)
  {
  }

  /** Answering twice with the same keys is answering once. */
  lemma ProcessInputsIdempotent(joyp: bv8, k: Keys)
    ensures ProcessInputs(ProcessInputs(joyp, k), k) == ProcessInputs(joyp, k)
  {
  }
}
