/** The RISC-V trap dispatcher of arch/riscv/lib/interrupts.c: `handle_trap` routes
    interrupts, skips semihosting breakpoints, and hands every other trap to
    `_exit_trap`, which either delivers the fault to a registered recovery point
    (`set_resume`) or reports it and panics. The non-local jump and the panic are
    modelled as outcome values. */
module Interrupts {
  import opened Wrappers
  import Ptrace
  import Words

  /** `ulong`: causes, trap values and register contents, as bit patterns. */
  type Word = bv64

  /** `uintptr_t`: a code address, with wrap-around arithmetic. */
  type Addr = Words.Word

  /** An `unsigned long` used as a number: a CHERI type or cause field. */
  type Num = Words.Word

  /** The constants of asm/encoding.h and the configuration options the dispatcher
      consults. Their values are not fixed here, only the relations the code relies on. */
  datatype TrapConfig = TrapConfig(
    mcauseInt: Word,                 // MCAUSE_INT: the interrupt flag of a cause
    irqMExt: Word, irqSExt: Word,    // IRQ_M_EXT, IRQ_S_EXT
    irqMTimer: Word, irqSTimer: Word,  // IRQ_M_TIMER, IRQ_S_TIMER
    causeBreakpoint: Word,           // CAUSE_BREAKPOINT
    excCheriFault: Word,             // EXC_CHERI_FAULT
    typeInst: Num, typeData: Num, typeJmpBranch: Num,     // EXC_CHERI_TYPE_*
    causeTag: Num, causeSeal: Num, causePerm: Num,        // EXC_CHERI_CAUSE_*
    causeInvalidAddr: Num, causeBounds: Num,
    cheriType: Word -> Num,          // XTVAL2_CHERI_TYPE: the type field of tval2
    cheriCause: Word -> Num,         // XTVAL2_CHERI_CAUSE: the cause field of tval2
    pageShift: nat,                  // PAGE_SIZE is 2^pageShift
    semihostingFallback: bool,       // CONFIG_SEMIHOSTING_FALLBACK
    zcheriPurecap: bool)             // CONFIG_RISCV_ISA_ZCHERIPURECAP
  {
    /** The relations between the constants that the code depends on: the case
        labels of the interrupt switch are distinct, the CHERI fault is an exception
        code above the standard table and differs from a breakpoint, and the CHERI
        type and cause constants index their designated-initializer tables densely. */
    predicate Valid()
    {
      && irqMExt != irqMTimer && irqMExt != irqSTimer
      && irqSExt != irqMTimer && irqSExt != irqSTimer
      && excCheriFault >= 16 && excCheriFault & mcauseInt == 0
      && excCheriFault != causeBreakpoint
      && typeInst < 3 && typeData < 3 && typeJmpBranch < 3
      && typeInst != typeData && typeInst != typeJmpBranch && typeData != typeJmpBranch
      && causeTag < 5 && causeSeal < 5 && causePerm < 5 && causeInvalidAddr < 5 && causeBounds < 5
      && causeTag != causeSeal && causeTag != causePerm && causeTag != causeInvalidAddr
      && causeTag != causeBounds && causeSeal != causePerm && causeSeal != causeInvalidAddr
      && causeSeal != causeBounds && causePerm != causeInvalidAddr && causePerm != causeBounds
      && causeInvalidAddr != causeBounds
    }
  }

  /** `instr_len(i)`: the length, in 16-bit parcels, of the instruction whose low
      16 bits are `i`. */
  function InstrLen(i: bv16): (n: int)
    ensures n == 1 || n == 2
    ensures n == 2 <==> i & 0x03 == 0x03
  {
    if i & 0x03 != 0x03 then 1 else 2
  }

  // ---- Fault naming, as `_exit_trap` prints it ----

  /** `exception_code[]`: names of the standard exception codes 0 to 15. */
  const ExceptionCodeNames: seq<string> := [
    "Instruction address misaligned",
    "Instruction access fault",
    "Illegal instruction",
    "Breakpoint",
    "Load address misaligned",
    "Load access fault",
    "Store/AMO address misaligned",
    "Store/AMO access fault",
    "Environment call from U-mode",
    "Environment call from S-mode",
    "Reserved",
    "Environment call from M-mode",
    "Instruction page fault",
    "Load page fault",
    "Reserved",
    "Store/AMO page fault"
  ]

  /** The entries of `cheri_exception_type[]`, each with the text it prints. */
  datatype CheriTypeEntry = InstructionAccess | DataAccess | JumpOrBranch {
    function Message(): string
    {
      match this
      case InstructionAccess => "Instruction access fault"
      case DataAccess => "Data fault due to load, store or AMO"
      case JumpOrBranch => "Jump or branch fault"
    }
  }

  /** The entries of `cheri_exception_cause[]`, each with the text it prints. */
  datatype CheriCauseEntry = TagViolation | SealViolation | PermissionViolation
                           | InvalidAddressViolation | BoundsViolation {
    function Message(): string
    {
      match this
      case TagViolation => "Tag violation"
      case SealViolation => "Seal violation"
      case PermissionViolation => "Permission violation"
      case InvalidAddressViolation => "Invalid address violation"
      case BoundsViolation => "Bounds violation"
    }
  }

  /** `cheri_exception_type[t]` behind the bounds check of `_exit_trap`: None when `t`
      is outside the three-entry table. */
  function CheriTypeName(cfg: TrapConfig, t: Num): Option<CheriTypeEntry>
  {
    if t < 3 then
      Some(if t == cfg.typeInst then InstructionAccess
           else if t == cfg.typeData then DataAccess
           else JumpOrBranch)
    else None
  }

  /** `cheri_exception_cause[c]` behind the bounds check of `_exit_trap`: None when `c`
      is outside the five-entry table. */
  function CheriCauseName(cfg: TrapConfig, c: Num): Option<CheriCauseEntry>
  {
    if c < 5 then
      Some(if c == cfg.causeTag then TagViolation
           else if c == cfg.causeSeal then SealViolation
           else if c == cfg.causePerm then PermissionViolation
           else if c == cfg.causeInvalidAddr then InvalidAddressViolation
           else BoundsViolation)
    else None
  }

  /** What `_exit_trap` says about the fault before it panics. */
  datatype FaultReport =
    | Named(name: string)            // "Unhandled exception: <name>"
    | CheriFault(rawType: Num, rawCause: Num, typeName: Option<CheriTypeEntry>,
                 dataAddress: Option<Word>, causeName: Option<CheriCauseEntry>)
    | UnknownCode(code: Word)        // "Unhandled exception code: <code>"

  /** The report, followed by the EPC, RA and TVAL line. */
  datatype Diagnostic = Diagnostic(report: FaultReport, epc: Addr, ra: Word, tval: Word)

  /** The report for a fault with code `code`: a standard name, the decoded CHERI
      type and cause, or the raw code. */
  function DescribeFault(cfg: TrapConfig, code: Word, tval: Word, tval2: Word): FaultReport
  {
    if code < 16 then Named(ExceptionCodeNames[code as int])
    else if cfg.zcheriPurecap && code == cfg.excCheriFault then
      var cheriType := cfg.cheriType(tval2);
      var cheriCause := cfg.cheriCause(tval2);
      CheriFault(cheriType, cheriCause, CheriTypeName(cfg, cheriType),
                 if cheriType < 3 && cheriType == cfg.typeData then Some(tval) else None,
                 CheriCauseName(cfg, cheriCause))
    else UnknownCode(code)
  }

  // ---- Outcomes of a trap ----

  /** The landing slot `struct resume_data` of a recovery point, as a value. */
  datatype ResumeRecord = ResumeRecord(code: Word, tval: Word, tval2: Word)

  /** The two interrupt handlers, `external_interrupt` and `timer_interrupt`. */
  datatype IrqHandler = ExternalInterrupt | TimerInterrupt

  /** How a trap ends. */
  datatype TrapOutcome =
    | Routed(handler: IrqHandler, handlerArg: int, epc: Addr)  // handler(0) called, `epc` returned
    | SkipSemihost(epc: Addr)             // disable_semihosting() called, `epc` returned
    | Resumed(jumpValue: int, record: ResumeRecord)  // longjmp to the recovery point
    | Halted(diag: Diagnostic)            // panic

  /** What `_exit_trap` leaves in the landing slot: the code always, the trap values
      only when the CHERI extension is configured. */
  function StoreResume(cfg: TrapConfig, prior: ResumeRecord, code: Word, tval: Word, tval2: Word): ResumeRecord
  {
    if cfg.zcheriPurecap then ResumeRecord(code, tval, tval2) else prior.(code := code)
  }

  /** `_exit_trap(code, epc, tval, tval2, regs)` where `slot` is the registered landing
      slot's contents, None when no recovery point is registered, and `ra` is `regs->ra`. */
  function ExitTrapSpec(cfg: TrapConfig, slot: Option<ResumeRecord>, code: Word, epc: Addr,
                        tval: Word, tval2: Word, ra: Word): TrapOutcome
  {
    if slot.Some? then Resumed(1, StoreResume(cfg, slot.value, code, tval, tval2))
    else Halted(Diagnostic(DescribeFault(cfg, code, tval, tval2), epc, ra, tval))
  }

  /** `a & ~(PAGE_SIZE - 1) == b & ~(PAGE_SIZE - 1)`: the two addresses lie in the
      same page. */
  predicate SamePage(pageShift: nat, a: Addr, b: Addr)
  {
    Words.ClearLowBits(a, pageShift) == Words.ClearLowBits(b, pageShift)
  }

  /** The addresses of the words before and after the breakpoint. */
  function PreAddr(epc: Addr): Addr { Words.SubWrap(epc, 4) }
  function PostAddr(epc: Addr): Addr { Words.AddWrap(epc, 4) }

  /** The breakpoint sits in the semihosting sequence `slli zero,zero,0x1f; ebreak;
      srai zero,zero,0x7`, with both neighbours readable in the same page. `mem`
      gives the 32-bit word stored at an address. */
  predicate IsSemihostingTrap(cfg: TrapConfig, mem: Addr -> bv32, cause: Word, epc: Addr)
  {
    && cause == cfg.causeBreakpoint && cfg.semihostingFallback
    && SamePage(cfg.pageShift, PreAddr(epc), PostAddr(epc))
    && mem(PreAddr(epc)) == 0x01f01013 && mem(PostAddr(epc)) == 0x40705013
  }

  /** The interrupt flag and the interrupt number of a cause. */
  function SplitCause(mcauseInt: Word, cause: Word): (bool, Word)
  {
    (cause & mcauseInt != 0, cause & !mcauseInt)
  }

  /** `handle_trap(cause, epc, tval, tval2, regs)` as a function of the registered
      landing slot and of memory. */
  function TrapSpec(cfg: TrapConfig, mem: Addr -> bv32, slot: Option<ResumeRecord>, cause: Word,
                    epc: Addr, tval: Word, tval2: Word, ra: Word): TrapOutcome
  {
    if IsSemihostingTrap(cfg, mem, cause, epc) then SkipSemihost(PostAddr(epc))
    else
      var (isIrq, irq) := SplitCause(cfg.mcauseInt, cause);
      if !isIrq then ExitTrapSpec(cfg, slot, cause, epc, tval, tval2, ra)
      else if irq == cfg.irqMExt || irq == cfg.irqSExt then Routed(ExternalInterrupt, 0, epc)
      else if irq == cfg.irqMTimer || irq == cfg.irqSTimer then Routed(TimerInterrupt, 0, epc)
      else ExitTrapSpec(cfg, slot, cause, epc, tval, tval2, ra)
  }

  // ---- The dispatcher's state ----

  /** `struct resume_data`, owned by the caller that registers it. The jump buffer
      is not modelled. */
  class ResumeData {
    var code: Word
    var tval: Word
    var tval2: Word

    function Record(): ResumeRecord
      reads this
    {
      ResumeRecord(code, tval, tval2)
    }

    constructor ()
    {
    }
  }

  /** The file-static `resume` pointer of interrupts.c and the trap entry points that use it. */
  class TrapDispatcher {
    var resume: ResumeData?

    /** The registered landing slot's contents. */
    function Slot(): Option<ResumeRecord>
      reads this, resume
    {
      if resume == null then None else Some(resume.Record())
    }

    constructor ()
      ensures resume == null
    {
      resume := null;
    }

    /** `set_resume(data)`: register a recovery point, or clear it with NULL. */
    method SetResume(data: ResumeData?)
      modifies this`resume
      ensures resume == data
    {
      resume := data;
    }

    /** `_exit_trap`: deliver the fault to the recovery point if one is registered,
        otherwise report it and halt. The registration itself is never changed. */
    method ExitTrap(cfg: TrapConfig, code: Word, epc: Addr, tval: Word, tval2: Word, regs: Ptrace.PtRegs)
      returns (out: TrapOutcome)
      modifies resume
      ensures resume == old(resume)
      ensures out == ExitTrapSpec(cfg, old(Slot()), code, epc, tval, tval2, regs.ra)
      ensures Slot() == if out.Resumed? then Some(out.record) else old(Slot())
    {
      if resume != null {
        resume.code := code;
        if cfg.zcheriPurecap {
          resume.tval := tval;
          resume.tval2 := tval2;
        }
        return Resumed(1, resume.Record());
      }
      return Halted(Diagnostic(DescribeFault(cfg, code, tval, tval2), epc, regs.ra, tval));
    }

    /** The semihosting test at the head of `handle_trap`: a breakpoint with the
        fallback configured, whose neighbouring words are in the same page and hold
        the semihosting sequence. The words are read only when the page test passes. */
    static method SemihostingCheck(cfg: TrapConfig, mem: Addr -> bv32, cause: Word, epc: Addr)
      returns (skip: bool)
      ensures skip == IsSemihostingTrap(cfg, mem, cause, epc)
    {
      skip := false;
      if cause == cfg.causeBreakpoint && cfg.semihostingFallback {
        var preAddr, postAddr := Words.SubWrap(epc, 4), Words.AddWrap(epc, 4);
        if SamePage(cfg.pageShift, preAddr, postAddr) {
          var pre, post := mem(preAddr), mem(postAddr);
          skip := pre == 0x01f01013 && post == 0x40705013;
        }
      }
    }

    /** `handle_trap`: the trap entry point. */
    method HandleTrap(cfg: TrapConfig, mem: Addr -> bv32, cause: Word, epc: Addr, tval: Word, tval2: Word,
                      regs: Ptrace.PtRegs)
      returns (out: TrapOutcome)
      modifies resume
      ensures resume == old(resume)
      ensures out == TrapSpec(cfg, mem, old(Slot()), cause, epc, tval, tval2, regs.ra)
      ensures Slot() == if out.Resumed? then Some(out.record) else old(Slot())
    {
      var pc := epc;
      var skip := SemihostingCheck(cfg, mem, cause, pc);
      if skip {
        pc := Words.AddWrap(pc, 4);
        return SkipSemihost(pc);
      }

      var (isIrq, irq) := SplitCause(cfg.mcauseInt, cause);
      if isIrq {
        if irq == cfg.irqMExt || irq == cfg.irqSExt {
          out := Routed(ExternalInterrupt, 0, pc);
        } else if irq == cfg.irqMTimer || irq == cfg.irqSTimer {
          out := Routed(TimerInterrupt, 0, pc);
        } else {
          out := ExitTrap(cfg, cause, pc, tval, tval2, regs);
          return;
        }
      } else {
        out := ExitTrap(cfg, cause, pc, tval, tval2, regs);
        return;
      }
      return out;
    }
  }
}
