/** Properties of the trap dispatcher of arch/riscv/lib/interrupts.c, stated over the
    specification functions that `TrapDispatcher.HandleTrap` and
    `TrapDispatcher.ExitTrap` are proved to implement. */
module TrapProperties {
  import opened Wrappers
  import opened Interrupts
  import Words
  import Ptrace

  /** The interrupt flag and the interrupt number split the cause without loss: the
      number has the flag cleared, and putting the flag back gives the cause. */
  lemma SplitCauseLossless(mcauseInt: Word, cause: Word)
    ensures var (isIrq, irq) := SplitCause(mcauseInt, cause);
      && irq & mcauseInt == 0
      && irq | (cause & mcauseInt) == cause
      && (isIrq <==> cause & mcauseInt != 0)
  {
  }

  /** An external or timer interrupt that is not a semihosting breakpoint calls its
      handler with 0 and returns the trap address unchanged, whatever recovery point
      is registered; every other cause ends in `_exit_trap`. */
  lemma InterruptRouting(cfg: TrapConfig, mem: Addr -> bv32, slot: Option<ResumeRecord>,
                         cause: Word, epc: Addr, tval: Word, tval2: Word, ra: Word)
    requires cfg.Valid()
    requires !IsSemihostingTrap(cfg, mem, cause, epc)
    ensures var (isIrq, irq) := SplitCause(cfg.mcauseInt, cause);
      var out := TrapSpec(cfg, mem, slot, cause, epc, tval, tval2, ra);
      && (isIrq && irq in {cfg.irqMExt, cfg.irqSExt} ==> out == Routed(ExternalInterrupt, 0, epc))
      && (isIrq && irq in {cfg.irqMTimer, cfg.irqSTimer} ==> out == Routed(TimerInterrupt, 0, epc))
      && (!(isIrq && irq in {cfg.irqMExt, cfg.irqSExt, cfg.irqMTimer, cfg.irqSTimer}) ==>
            out == ExitTrapSpec(cfg, slot, cause, epc, tval, tval2, ra))
  {
  }

  /** With a recovery point registered, `_exit_trap` jumps to it with value 1 and never
      halts; the slot then holds the code, and the trap values exactly when the CHERI
      extension is configured (otherwise the values it held before). */
  lemma ResumeDelivers(cfg: TrapConfig, prior: ResumeRecord, code: Word, epc: Addr,
                       tval: Word, tval2: Word, ra: Word)
    ensures var out := ExitTrapSpec(cfg, Some(prior), code, epc, tval, tval2, ra);
      && out.Resumed? && out.jumpValue == 1
      && out.record.code == code
      && out.record.tval == (if cfg.zcheriPurecap then tval else prior.tval)
      && out.record.tval2 == (if cfg.zcheriPurecap then tval2 else prior.tval2)
  {
  }

  /** Without a recovery point, `_exit_trap` always halts, after reporting the fault
      together with the trap address, `regs->ra` and `tval`. */
  lemma NoRecoveryHalts(cfg: TrapConfig, code: Word, epc: Addr, tval: Word, tval2: Word, ra: Word)
    ensures var out := ExitTrapSpec(cfg, None, code, epc, tval, tval2, ra);
      && out.Halted?
      && out.diag.report == DescribeFault(cfg, code, tval, tval2)
      && out.diag.epc == epc && out.diag.ra == ra && out.diag.tval == tval
  {
  }

  /** A trap resumes at the recovery point exactly when one is registered and the trap
      is neither a semihosting breakpoint nor a routed interrupt; it halts exactly when
      none is registered under the same conditions. */
  lemma TrapResumesOrHalts(cfg: TrapConfig, mem: Addr -> bv32, slot: Option<ResumeRecord>,
                           cause: Word, epc: Addr, tval: Word, tval2: Word, ra: Word)
    requires cfg.Valid()
    ensures var (isIrq, irq) := SplitCause(cfg.mcauseInt, cause);
      var reachesExit := !IsSemihostingTrap(cfg, mem, cause, epc)
        && !(isIrq && irq in {cfg.irqMExt, cfg.irqSExt, cfg.irqMTimer, cfg.irqSTimer});
      var out := TrapSpec(cfg, mem, slot, cause, epc, tval, tval2, ra);
      && (out.Resumed? <==> reachesExit && slot.Some?)
      && (out.Halted? <==> reachesExit && slot.None?)
  {
    var (isIrq, irq) := SplitCause(cfg.mcauseInt, cause);
    if !IsSemihostingTrap(cfg, mem, cause, epc) {
      InterruptRouting(cfg, mem, slot, cause, epc, tval, tval2, ra);
      if !(isIrq && irq in {cfg.irqMExt, cfg.irqSExt, cfg.irqMTimer, cfg.irqSTimer}) {
        if slot.Some? {
          ResumeDelivers(cfg, slot.value, cause, epc, tval, tval2, ra);
        } else {
          NoRecoveryHalts(cfg, cause, epc, tval, tval2, ra);
        }
      }
    }
  }

  /** The semihosting skip happens exactly for a semihosting breakpoint, and then the
      trap returns the address of the instruction after the `ebreak`, with no handler
      called and no recovery point touched. */
  lemma SemihostingSkip(cfg: TrapConfig, mem: Addr -> bv32, slot: Option<ResumeRecord>,
                        cause: Word, epc: Addr, tval: Word, tval2: Word, ra: Word)
    ensures var out := TrapSpec(cfg, mem, slot, cause, epc, tval, tval2, ra);
      && (out.SkipSemihost? <==> IsSemihostingTrap(cfg, mem, cause, epc))
      && (out.SkipSemihost? ==> out.epc == (epc + 4) % Words.WordModulus)
  {
  }

  /** When the words before and after the breakpoint are in the same page, neither
      address wrapped around: the test reads exactly `epc - 4` and `epc + 4`. */
  lemma {:induction false} SemihostingProbeDoesNotWrap(pageShift: nat, epc: Addr)
    requires pageShift < 64
    requires SamePage(pageShift, PreAddr(epc), PostAddr(epc))
    ensures PreAddr(epc) == epc - 4 && PostAddr(epc) == epc + 4
  {
    Words.ClearLowBitsBounds(PreAddr(epc), pageShift);
    Words.ClearLowBitsBounds(PostAddr(epc), pageShift);
    Words.Pow2Monotone(pageShift, 63);
    Words.Pow2TopBit();
  }

  /** The three kinds of fault report: a code below 16 is named from the standard
      table, whose only "Reserved" entries are 10 and 14; `EXC_CHERI_FAULT` with the
      CHERI extension configured is decoded; every other code is reported raw. */
  lemma FaultReportKinds(cfg: TrapConfig, code: Word, tval: Word, tval2: Word)
    ensures var report := DescribeFault(cfg, code, tval, tval2);
      && (report.Named? <==> code < 16)
      && (report.Named? ==> report.name == ExceptionCodeNames[code as int]
                            && (report.name == "Reserved" <==> code == 10 || code == 14))
      && (report.CheriFault? <==> !(code < 16) && cfg.zcheriPurecap && code == cfg.excCheriFault)
      && (report.UnknownCode? ==> report.code == code)
  {
    if code < 16 {
      var k := code as int;
      assert ExceptionCodeNames[k] == "Reserved" <==> k == 10 || k == 14 by {
        ReservedNames(k);
      }
    }
  }

  /** Entries 10 and 14, and only they, of the standard table read "Reserved". */
  lemma ReservedNames(k: int)
    requires 0 <= k < 16
    ensures ExceptionCodeNames[k] == "Reserved" <==> k == 10 || k == 14
  {
    if k !in {10, 14} {
      assert ExceptionCodeNames[k][0] != 'R';
    }
  }

  /** The CHERI report always carries the raw type and cause, a type name exactly when
      the type indexes the type table, and a cause name exactly when the cause indexes
      the cause table. */
  lemma CheriFaultReport(cfg: TrapConfig, tval: Word, tval2: Word)
    requires cfg.zcheriPurecap && cfg.excCheriFault >= 16
    ensures var report := DescribeFault(cfg, cfg.excCheriFault, tval, tval2);
      && report.CheriFault?
      && report.rawType == cfg.cheriType(tval2) && report.rawCause == cfg.cheriCause(tval2)
      && (report.typeName.Some? <==> report.rawType < 3)
      && (report.causeName.Some? <==> report.rawCause < 5)
  {
  }

  /** The CHERI report carries the faulting address `tval` exactly for a data fault. */
  lemma CheriDataAddress(cfg: TrapConfig, tval: Word, tval2: Word)
    requires cfg.Valid() && cfg.zcheriPurecap
    ensures var report := DescribeFault(cfg, cfg.excCheriFault, tval, tval2);
      && report.CheriFault?
      && report.dataAddress == (if cfg.cheriType(tval2) == cfg.typeData then Some(tval) else None)
  {
  }

  /** Each CHERI type and cause constant selects its own name, as the designated
      initializers of the two tables say. */
  lemma CheriNamesByConstant(cfg: TrapConfig)
    requires cfg.Valid()
    ensures CheriTypeName(cfg, cfg.typeInst) == Some(InstructionAccess)
    ensures CheriTypeName(cfg, cfg.typeData) == Some(DataAccess)
    ensures CheriTypeName(cfg, cfg.typeJmpBranch) == Some(JumpOrBranch)
    ensures CheriCauseName(cfg, cfg.causeTag) == Some(TagViolation)
    ensures CheriCauseName(cfg, cfg.causeSeal) == Some(SealViolation)
    ensures CheriCauseName(cfg, cfg.causePerm) == Some(PermissionViolation)
    ensures CheriCauseName(cfg, cfg.causeInvalidAddr) == Some(InvalidAddressViolation)
    ensures CheriCauseName(cfg, cfg.causeBounds) == Some(BoundsViolation)
  {
  }

  /** The data tag violation unit test: a recovery point is registered, a CHERI data
      fault with cause TAG is taken, and control comes back to the recovery point with
      value 1, the code `EXC_CHERI_FAULT` and a `tval2` whose type and cause fields are
      DATA and TAG. The registration is still in place until the caller clears it. */
  method DataTagViolationIsDelivered(cfg: TrapConfig, mem: Addr -> bv32, epc: Addr, tval: Word,
                                     tval2: Word, regs: Ptrace.PtRegs)
    returns (ret: int, code: Word, seenTval2: Word, stillRegistered: bool)
    requires cfg.Valid() && cfg.zcheriPurecap
    requires cfg.cheriType(tval2) == cfg.typeData && cfg.cheriCause(tval2) == cfg.causeTag
    ensures ret == 1 && code == cfg.excCheriFault && stillRegistered
    ensures cfg.cheriType(seenTval2) == cfg.typeData && cfg.cheriCause(seenTval2) == cfg.causeTag
  {
    var dispatcher := new TrapDispatcher();
    var resume := new ResumeData();
    dispatcher.SetResume(resume);
    var out := dispatcher.HandleTrap(cfg, mem, cfg.excCheriFault, epc, tval, tval2, regs);
    assert out.Resumed?;
    ret, code, seenTval2 := out.jumpValue, resume.code, resume.tval2;
    stillRegistered := dispatcher.resume == resume;
    dispatcher.SetResume(null);
  }
}
