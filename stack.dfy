/** `arch_reserve_stacks` of arch/riscv/lib/stack.c: carve the boot stacks out of the
    top of memory so that one capability with representable bounds can cover them. */
module Stack {
  import opened Words

  /** `CONFIG_SMP`, `CONFIG_NR_CPUS` and `CONFIG_STACK_SIZE_SHIFT`. */
  datatype StackConfig = StackConfig(smp: bool, nrCpus: nat, stackSizeShift: nat) {
    /** The length of all boot stacks: `NR_CPUS << STACK_SIZE_SHIFT` with SMP,
        `1 << STACK_SIZE_SHIFT` without. */
    function StackLength(): nat
    {
      if smp then nrCpus * Pow2(stackSizeShift) else Pow2(stackSizeShift)
    }

    /** The length is computed with C `int` shifts, which must not overflow. */
    predicate LengthFits()
    {
      StackLength() < 0x8000_0000
    }
  }

  /** `cheri_representable_length` and `cheri_representable_alignment_mask`, the
      compressed-capability codec's rounding rules, left uninterpreted. The mask
      for a length is given by the number of low bits it clears. */
  datatype Representability = Representability(length: Word -> Word, alignmentBits: Word -> nat)

  /** The stack base `end_addr_sp` computed from the old `start_addr_sp`. */
  function StackBase(oldStart: Word, len: Word, rep: Representability): Word
  {
    var roundedLen := rep.length(len);
    ClearLowBits(SubWrap(oldStart, roundedLen), rep.alignmentBits(roundedLen))
  }

  /** The new `start_addr_sp`: the top of the stacks placed on that base. */
  function StackTop(oldStart: Word, len: Word, rep: Representability): Word
  {
    AddWrap(StackBase(oldStart, len, rep), len)
  }

  /** The field of U-Boot's global data `gd` that `arch_reserve_stacks` reads and writes. */
  class GlobalData {
    var startAddrSp: Word
  }

  /** `arch_reserve_stacks()`, with the global data pointer passed explicitly:
      it changes `start_addr_sp` and no other field, and returns 0. */
  method ArchReserveStacks(gd: GlobalData, cfg: StackConfig, rep: Representability) returns (r: int)
    requires cfg.LengthFits()
    modifies gd`startAddrSp
    ensures r == 0
    ensures gd.startAddrSp == StackTop(old(gd.startAddrSp), cfg.StackLength(), rep)
  {
    var len: Word := if cfg.smp then cfg.nrCpus * Pow2(cfg.stackSizeShift) else Pow2(cfg.stackSizeShift);
    var roundedLen := rep.length(len);
    var endAddrSp := SubWrap(gd.startAddrSp, roundedLen);
    endAddrSp := ClearLowBits(endAddrSp, rep.alignmentBits(roundedLen));
    gd.startAddrSp := AddWrap(endAddrSp, len);
    return 0;
  }

  /** The base is fixed by the alignment mask: it has none of the cleared bits set,
      so masking it again changes nothing. */
  lemma BaseIsAligned(oldStart: Word, len: Word, rep: Representability)
    ensures var k := rep.alignmentBits(rep.length(len));
      && LowBitsClear(StackBase(oldStart, len, rep), k)
      && ClearLowBits(StackBase(oldStart, len, rep), k) == StackBase(oldStart, len, rep)
  {
    ClearLowBitsAligns(SubWrap(oldStart, rep.length(len)), rep.alignmentBits(rep.length(len)));
  }

  /** When the rounded length covers the requested length and does not exceed the old
      `start_addr_sp`, the whole rounded region lies below the old `start_addr_sp`, and
      the new `start_addr_sp` lies between the base and the old value. */
  lemma StacksBelowOldStart(oldStart: Word, len: Word, rep: Representability)
    requires len <= rep.length(len) <= oldStart
    ensures var base := StackBase(oldStart, len, rep);
      && base + rep.length(len) <= oldStart
      && StackTop(oldStart, len, rep) == base + len
      && base <= StackTop(oldStart, len, rep) <= oldStart
  {
  }
}
