/** The trap-time register record `struct pt_regs` of arch/riscv/include/asm/ptrace.h
    and its accessors. Every register slot is a 64-bit word. */
module Ptrace {
  type Word = bv64

  /** A register record in memory, in the order the trap entry code saves it: the
      integer registers, then the supervisor CSRs. The setters overwrite one slot in
      place; their field-precise `modifies` clauses say that no other slot changes. */
  class PtRegs {
    var sepc: Word
    var ra: Word
    var sp: Word
    var gp: Word
    var tp: Word
    var t0: Word
    var t1: Word
    var t2: Word
    var s0: Word
    var s1: Word
    var a0: Word
    var a1: Word
    var a2: Word
    var a3: Word
    var a4: Word
    var a5: Word
    var a6: Word
    var a7: Word
    var s2: Word
    var s3: Word
    var s4: Word
    var s5: Word
    var s6: Word
    var s7: Word
    var s8: Word
    var s9: Word
    var s10: Word
    var s11: Word
    var t3: Word
    var t4: Word
    var t5: Word
    var t6: Word
    var sstatus: Word
    var sbadaddr: Word
    var scause: Word

    /** `user_mode(regs)`: the trap came from user mode when the previous-privilege
        bits selected by `srPs` (SR_PS) are clear in `sstatus`. */
    predicate UserMode(srPs: Word)
      reads this
    {
      sstatus & srPs == 0
    }

    /** `instruction_pointer(regs)`: the saved exception program counter. */
    function InstructionPointer(): Word
      reads this
    {
      sepc
    }

    /** `instruction_pointer_set(regs, val)`. */
    method InstructionPointerSet(val: Word)
      modifies this`sepc
      ensures InstructionPointer() == val
      ensures UserStackPointer() == old(UserStackPointer())
      ensures FramePointer() == old(FramePointer())
      ensures forall m :: UserMode(m) == old(UserMode(m))
    {
      sepc := val;
    }

    /** `user_stack_pointer(regs)`: the saved stack pointer. */
    function UserStackPointer(): Word
      reads this
    {
      sp
    }

    /** `user_stack_pointer_set(regs, val)`. */
    method UserStackPointerSet(val: Word)
      modifies this`sp
      ensures UserStackPointer() == val
      ensures InstructionPointer() == old(InstructionPointer())
      ensures FramePointer() == old(FramePointer())
    {
      sp := val;
    }

    /** `frame_pointer(regs)`: the saved frame pointer, which is register s0. */
    function FramePointer(): Word
      reads this
    {
      s0
    }

    /** `frame_pointer_set(regs, val)`. */
    method FramePointerSet(val: Word)
      modifies this`s0
      ensures FramePointer() == val
      ensures InstructionPointer() == old(InstructionPointer())
      ensures UserStackPointer() == old(UserStackPointer())
    {
      s0 := val;
    }
  }
}
