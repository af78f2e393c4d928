# CHERI RISC-V boot-firmware core, modelled in Dafny

This project models the CHERI-specific core of a U-Boot port to RISC-V with the
CHERI capability extension (Zcheripurecap):

- **The trap dispatcher** (`arch/riscv/lib/interrupts.c`).
  - `handle_trap` recognises the semihosting breakpoint sequence and skips it.
  - It routes external and timer interrupts to their handlers.
  - It hands every other trap to `_exit_trap`. That function either delivers the fault
    to the recovery point registered with `set_resume` (a `longjmp` with value 1),
    or reports the fault and panics. The report decodes CHERI faults by type and cause.
  - `instr_len` gives the length of an instruction from its low bits.
- **The saved register record** `struct pt_regs` and its accessors
  (`arch/riscv/include/asm/ptrace.h`).
- **The named capability-permission presets** of `arch/riscv/include/asm/cheri.h`.
- **The capability relocation table format** of `include/elf_cheri.h`: its dynamic tags,
  its flag bits, and its 32-bit and 64-bit entry layouts in either byte order.
- **The front end of the `prerelocs-riscv-cheri` host tool**: argument check, ELF magic
  check, and the choice of one of four relocation routines by class and data byte.
- **`arch_reserve_stacks`** (`arch/riscv/lib/stack.c`): it places the boot stacks so
  that a capability with representable bounds covers them.

Modules:

- `Words`: 64-bit words as bounded integers, with wrap-around `+`/`-` and low-bit clearing.
- `Ptrace`: the register record as a class.
- `CheriPerms`: the presets.
- `ElfCheri`: the relocation format, with byte codecs and round-trip proofs.
- `Prerelocs`: the tool.
- `Interrupts`: the dispatcher as a class over its file-static `resume` pointer, plus the
  pure functions that specify it.
- `TrapProperties`: what is proved about the dispatcher.
- `Stack`: the stack reservation.
- `Wrappers`: `Option`.

Non-local control flow becomes an outcome value:

| C behaviour | Model |
|---|---|
| `longjmp` | `Resumed` |
| `panic` | `Halted`, with what was reported |
| interrupt handler call | `Routed` |
| semihosting skip | `SkipSemihost` |

Constants whose values come from headers that are not part of this model are fields of
configuration datatypes. Each `Valid()` predicate states only the relations the code
relies on:

- `MCAUSE_INT`, `IRQ_*`, `CAUSE_BREAKPOINT`, `EXC_CHERI_*`, `XTVAL2_CHERI_*` and `PAGE_SIZE`;
- the permission bit positions.

The two rounding functions `cheri_representable_length` and
`cheri_representable_alignment_mask` are uninterpreted function fields of
`Stack.Representability`, which has no `Valid()`. The one fact about them the stack
reasoning needs, `len <= rounded_len <= start_addr_sp`, is a `requires` of
`Stack.StacksBelowOldStart`, the lemma that uses it.

A trap does not consume the registration: the trap path never clears `resume`
(arch/riscv/lib/interrupts.c:184-191); only the caller's `set_resume(NULL)` does. The
model does the same: `HandleTrap` and `ExitTrap` leave `resume` unchanged.

## Model

| member | source | states |
|---|---|---|
| Words.SubWrap | arch/riscv/lib/stack.c:17 | unsigned subtraction wraps modulo 2^64: adding the subtrahend back gives the minuend |
| Words.AddWrap | arch/riscv/lib/stack.c:20 | unsigned addition is the sum reduced modulo 2^64 |
| Words.ClearLowBits | arch/riscv/lib/stack.c:19 | masking with `~(2^k - 1)` never increases the value |
| Words.ClearLowBitsAligns | arch/riscv/lib/stack.c:19 | after masking, the k low bits are clear, and masking again changes nothing |
| Words.ClearLowBitsBounds | arch/riscv/lib/stack.c:19 | masking removes less than 2^k from the value |
| Ptrace.PtRegs.InstructionPointerSet | arch/riscv/include/asm/ptrace.h:60-71 | afterwards `instruction_pointer` reads the new value; only `sepc` changes, so the stack and frame pointers and `user_mode` are as before |
| Ptrace.PtRegs.UserStackPointerSet | arch/riscv/include/asm/ptrace.h:76-87 | afterwards `user_stack_pointer` reads the new value; only `sp` changes, so the instruction and frame pointers are as before |
| Ptrace.PtRegs.FramePointerSet | arch/riscv/include/asm/ptrace.h:90-101 | afterwards `frame_pointer` reads the new value; only `s0` changes, so the instruction and stack pointers are as before |
| CheriPerms.NotGrants | arch/riscv/include/asm/cheri.h:27-39 | the complement of the bits of some permissions grants exactly the other permissions, given distinct bit positions |
| CheriPerms.StackHeapDataAgree | arch/riscv/include/asm/cheri.h:26-37 | STACK, HEAP and DATA are the same word and grant every permission except EXECUTE |
| CheriPerms.ExecutableGrants | arch/riscv/include/asm/cheri.h:30-31 | EXECUTABLE grants everything except WRITE, including EXECUTE and READ |
| CheriPerms.ReadOnlyDataGrants | arch/riscv/include/asm/cheri.h:32-33 | R_DATA grants everything except WRITE and EXECUTE, keeps READ, and is EXECUTABLE & DATA |
| CheriPerms.WriteOnlyDataGrants | arch/riscv/include/asm/cheri.h:34-35 | W_DATA grants everything except READ and EXECUTE and keeps WRITE |
| CheriPerms.IoGrants | arch/riscv/include/asm/cheri.h:38-39 | IO grants everything except EXECUTE and CAP and keeps READ and WRITE |
| CheriPerms.RestrictIsMonotoneAndIdempotent | arch/riscv/include/asm/cheri.h:26-39 | `perms & preset` never adds a bit, and applying a preset twice equals applying it once |
| CheriPerms.StackRestrictionDropsOnlyExecute | arch/riscv/include/asm/cheri.h:26-29 | restricting with STACK or HEAP removes EXECUTE and keeps every other permission held |
| ElfCheri.FieldSize | include/elf_cheri.h:28-42 | a field is 4 bytes in the 32-bit layout and 8 in the 64-bit one (its width in bits over 8) |
| ElfCheri.RecordSize | include/elf_cheri.h:28-42 | an entry is five fields: 20 bytes for `Elf32_cap_reloc`, 40 for `Elf64_cap_reloc` |
| ElfCheri.FlagBits | include/elf_cheri.h:17-21 | FUNC is bit width-1 and CONST bit width-2; they are single, disjoint bits, 0xC0000000 together in 32 bits |
| ElfCheri.GenericFlagsMatch | include/elf_cheri.h:17-24 | the `__SIZE_WIDTH__`-generic flags equal the 32-bit or 64-bit flags on the matching target |
| ElfCheri.Fields | include/elf_cheri.h:28-42 | an entry has the five fields location, base, offset, length and flags |
| ElfCheri.EncodeLE | include/elf_cheri.h:28-42 | a little-endian field encoding has the requested number of bytes |
| ElfCheri.DecodeLE | include/elf_cheri.h:28-42 | decoding n bytes gives a value below 256^n |
| ElfCheri.EncodeBE | include/elf_cheri.h:28-42 | a big-endian field encoding has the requested number of bytes |
| ElfCheri.DecodeBE | include/elf_cheri.h:28-42 | decoding n bytes gives a value below 256^n |
| ElfCheri.LEByteAt | include/elf_cheri.h:28-42 | byte k of a little-endian field is digit k of the value in base 256, so the first byte is the least significant |
| ElfCheri.BEByteAt | include/elf_cheri.h:28-42 | byte n-1-k of an n-byte big-endian field is digit k of the value in base 256, so the last byte is the least significant |
| ElfCheri.EncodeWord | include/elf_cheri.h:28-42 | a field encoding in either byte order has the requested number of bytes |
| ElfCheri.DecodeWord | include/elf_cheri.h:28-42 | decoding n bytes in either byte order gives a value below 256^n |
| ElfCheri.LERoundTrip | include/elf_cheri.h:28-42 | decoding the little-endian encoding of a value that fits gives the value back |
| ElfCheri.LEBytesRoundTrip | include/elf_cheri.h:28-42 | re-encoding a decoded little-endian field gives the same bytes |
| ElfCheri.BERoundTrip | include/elf_cheri.h:28-42 | decoding the big-endian encoding of a value that fits gives the value back |
| ElfCheri.BEBytesRoundTrip | include/elf_cheri.h:28-42 | re-encoding a decoded big-endian field gives the same bytes |
| ElfCheri.WordRoundTrip | include/elf_cheri.h:28-42 | decode after encode is the identity in both byte orders |
| ElfCheri.BytesRoundTrip | include/elf_cheri.h:28-42 | encode after decode is the identity in both byte orders |
| ElfCheri.SerializeEntry | include/elf_cheri.h:28-42 | a serialised entry occupies exactly the record size of its layout |
| ElfCheri.SerializeTable | include/elf_cheri.h:28-42 | a table of k entries occupies k record sizes |
| ElfCheri.TagPair | include/elf_cheri.h:14-15 | the size tag `DT_RISCV_CHERI___CAPRELOCSSZ` is the address tag `DT_RISCV_CHERI___CAPRELOCS` plus one, and the address tag is even |
| ElfCheri.EntryCount | include/elf_cheri.h:15 | the count from the table size `DT_RISCV_CHERI___CAPRELOCSSZ` is the number of whole records that fit |
| ElfCheri.EntryRoundTrip | include/elf_cheri.h:28-42 | parsing a serialised entry gives back the entry, in both widths and byte orders |
| ElfCheri.TableSlice | include/elf_cheri.h:28-42 | entry i of a serialised table lies at bytes i*size up to (i+1)*size |
| ElfCheri.ParseEntryLocal | include/elf_cheri.h:28-42 | parsing an entry reads only that entry's bytes |
| ElfCheri.TableRoundTrip | include/elf_cheri.h:28-42 | reading entry i of a serialised table gives the i-th entry |
| ElfCheri.TableCount | include/elf_cheri.h:15 | the entry count of a serialised table is its number of entries |
| ElfCheri.EntriesInBounds | include/elf_cheri.h:15 | every entry below the count can be parsed wholly inside the table |
| Prerelocs.VariantWidths | tools/prerelocs-riscv-cheri.c:48-78 | each of the four inclusions has a capability twice its address width, and entry fields of its address width |
| Prerelocs.MagicIsPrefix | tools/prerelocs-riscv-cheri.c:107-110 | the magic check passes exactly when the file starts with 0x7f 'E' 'L' 'F' |
| Prerelocs.SelectVariant | tools/prerelocs-riscv-cheri.c:112-125 | the routine is one of the four; it is 64-bit exactly when the class byte is ELFCLASS64, and big-endian exactly when the data byte is ELFDATA2MSB |
| Prerelocs.ExitCode | tools/prerelocs-riscv-cheri.c:42-46 | the exit status is 0 exactly when the run ends with a relocation routine that returned; every `die` exits with EXIT_FAILURE |
| Prerelocs.UsageErrorFirst | tools/prerelocs-riscv-cheri.c:84-87 | with fewer than two arguments the tool fails with the usage error, whatever the files |
| Prerelocs.RoutineCalledExactlyWhenElf | tools/prerelocs-riscv-cheri.c:89-125 | a relocation routine is called exactly when the file opens and starts with the ELF magic, and it is the one the class and data bytes select |
| Prerelocs.SuccessExactlyWhenRoutineReturns | tools/prerelocs-riscv-cheri.c:115-129 | the status is 0 exactly when a routine was called and returned instead of calling `die` |
| Prerelocs.Tool.constructor | tools/prerelocs-riscv-cheri.c:40 | `argv0` starts out unset |
| Prerelocs.Tool.Run | tools/prerelocs-riscv-cheri.c:80-130 | records `argv[0]`; the outcome and exit status are those of the tool's decision function, given whether the selected routine returns |
| Interrupts.InstrLen | arch/riscv/lib/interrupts.c:137-143 | the length is 1 or 2 parcels, and 2 exactly when both low bits are set |
| Interrupts.TrapDispatcher.constructor | arch/riscv/lib/interrupts.c:26 | no recovery point is registered at first |
| Interrupts.TrapDispatcher.SetResume | arch/riscv/lib/interrupts.c:28-31 | the registration becomes the given record, or none for NULL |
| Interrupts.TrapDispatcher.ExitTrap | arch/riscv/lib/interrupts.c:163-245 | the outcome is `_exit_trap`'s specification; the registration is unchanged; the slot changes only by being written on delivery |
| Interrupts.TrapDispatcher.SemihostingCheck | arch/riscv/lib/interrupts.c:274-289 | the test succeeds exactly for a breakpoint with the fallback on, both neighbours in one page, holding the semihosting sequence |
| Interrupts.TrapDispatcher.HandleTrap | arch/riscv/lib/interrupts.c:267-319 | the outcome is `handle_trap`'s specification; the registration is unchanged; the slot changes only on delivery |
| TrapProperties.SplitCauseLossless | arch/riscv/lib/interrupts.c:297-298 | the interrupt number has the flag cleared, and with the flag restored gives the cause |
| TrapProperties.InterruptRouting | arch/riscv/lib/interrupts.c:297-316 | M/S external calls the external handler with 0, and M/S timer the timer handler with 0; both return the unchanged epc whatever is registered; anything else reaches `_exit_trap` |
| TrapProperties.ResumeDelivers | arch/riscv/lib/interrupts.c:184-191 | with a recovery point: jump value 1, never halts, code stored, tval and tval2 stored exactly under ZCHERIPURECAP |
| TrapProperties.NoRecoveryHalts | arch/riscv/lib/interrupts.c:193-244 | without a recovery point: always halts, reporting the fault with the epc, `regs->ra` and tval |
| TrapProperties.TrapResumesOrHalts | arch/riscv/lib/interrupts.c:267-319 | a trap resumes exactly when registered and neither semihosting nor a routed interrupt; under the same conditions it halts exactly when not registered |
| TrapProperties.SemihostingSkip | arch/riscv/lib/interrupts.c:274-295 | the skip happens exactly for a semihosting trap and returns epc + 4 |
| TrapProperties.SemihostingProbeDoesNotWrap | arch/riscv/lib/interrupts.c:276-282 | if both neighbours are in one page, neither address wrapped: the words read are at epc - 4 and epc + 4 |
| TrapProperties.FaultReportKinds | arch/riscv/lib/interrupts.c:165-229 | codes below 16 are named from the table, Reserved exactly at 10 and 14; EXC_CHERI_FAULT under ZCHERIPURECAP is decoded; other codes are reported raw |
| TrapProperties.ReservedNames | arch/riscv/lib/interrupts.c:165-182 | entries 10 and 14, and only those, of the exception table are "Reserved" |
| TrapProperties.CheriFaultReport | arch/riscv/lib/interrupts.c:211-225 | the CHERI report always has the raw type and cause, a type name exactly when type < 3, and a cause name exactly when cause < 5 |
| TrapProperties.CheriDataAddress | arch/riscv/lib/interrupts.c:218-222 | the faulting address is reported exactly for the DATA type |
| TrapProperties.CheriNamesByConstant | arch/riscv/lib/interrupts.c:197-209 | each EXC_CHERI_TYPE_* and EXC_CHERI_CAUSE_* constant selects its own table entry |
| TrapProperties.DataTagViolationIsDelivered | test/zcheri_ut.c:74-95 | registered recovery point plus a data tag fault: the jump value is 1, the code is EXC_CHERI_FAULT, tval2 decodes to DATA and TAG, and the registration stays until cleared |
| Stack.ArchReserveStacks | arch/riscv/lib/stack.c:7-23 | returns 0 and changes only `start_addr_sp`, to the top of stacks placed on the masked base below the rounded length |
| Stack.BaseIsAligned | arch/riscv/lib/stack.c:16-19 | the stack base has the alignment mask's cleared bits clear, so masking it again changes nothing |
| Stack.StacksBelowOldStart | arch/riscv/lib/stack.c:16-20 | if `len <= rounded_len <= start_addr_sp`: the rounded region ends at or below the old start, and the new start is base + len, between base and the old start |

Definitions given without a contract of their own; the rows above state what is proved
about them:

- `Words.Pow2`: `1 << n` (arch/riscv/lib/stack.c:12-14). `Words.LowBitsClear`: the bits
  that `~(2^k - 1)` clears are zero (arch/riscv/lib/stack.c:19).
- `Ptrace.PtRegs.UserMode`, `InstructionPointer`, `UserStackPointer` and `FramePointer`
  (arch/riscv/include/asm/ptrace.h:57-101).
- `CheriPerms.Not`, `Bit`, `Has` and `PermsOf`, and the seven presets `StackPerms`,
  `HeapPerms`, `ExecutablePerms`, `ReadOnlyDataPerms`, `WriteOnlyDataPerms`, `DataPerms`
  and `IoPerms` (arch/riscv/include/asm/cheri.h:27-39).
- `ElfCheri.FlagFunc`, `FlagConst`, `FlagFuncXX` and `FlagConstXX`, and the tag constants
  `DtCapRelocs` and `DtCapRelocsSz` (include/elf_cheri.h:14-24).
- `ElfCheri.Bits`, `FitsIn`, `FieldAt`, `ParseEntryAt` and `ParseEntry`: reading field
  `k` and entry `i` of a table in the layouts of include/elf_cheri.h:28-42.
- `Prerelocs.MappedByte`: byte `k` of the `mmap` view of the file, zero past its end
  (tools/prerelocs-riscv-cheri.c:99-107). `Prerelocs.MagicMatches`
  (tools/prerelocs-riscv-cheri.c:109). `Prerelocs.VariantLayout`: the entry layout of
  each inclusion (tools/prerelocs-riscv-cheri.c:48-78). `Prerelocs.RunTool` and
  `RoutineCalled` (tools/prerelocs-riscv-cheri.c:80-130).
- `Interrupts.CheriTypeName`, `CheriCauseName` and the `Message` functions of
  `CheriTypeEntry` and `CheriCauseEntry` (arch/riscv/lib/interrupts.c:197-225);
  `Interrupts.DescribeFault` (arch/riscv/lib/interrupts.c:193-229);
  `Interrupts.StoreResume` (arch/riscv/lib/interrupts.c:185-189);
  `Interrupts.ExitTrapSpec` (arch/riscv/lib/interrupts.c:163-245);
  `Interrupts.SamePage`, `PreAddr` and `PostAddr` (arch/riscv/lib/interrupts.c:276-280);
  `Interrupts.IsSemihostingTrap` (arch/riscv/lib/interrupts.c:274-289);
  `Interrupts.SplitCause` (arch/riscv/lib/interrupts.c:297-298);
  `Interrupts.TrapSpec` (arch/riscv/lib/interrupts.c:267-319);
  `Interrupts.ResumeData.Record` and `Interrupts.TrapDispatcher.Slot`, the landing slot's
  contents (arch/riscv/lib/interrupts.c:26,184-189).
- `Stack.StackConfig.StackLength` and `LengthFits` (arch/riscv/lib/stack.c:11-15);
  `Stack.StackBase` and `StackTop` (arch/riscv/lib/stack.c:16-20).

## Left out

- The relocation routines of prerelocs-riscv-cheri.inc (the loop over the table, the
  capability encoding, the permissions derived from the flags, and the cases in which they
  call `die`) and the compressed capability codec. prerelocs-riscv-cheri.inc is not part
  of this model; whether the selected routine returns is a parameter of `RunTool`.
- Finding the table through the dynamic section. Only the tags and the entry format are
  modelled.
- `open`, `fstat`, `mmap`, `munmap` and `close`. The file system is a map from path to
  contents. A failed `fstat` is folded into `CannotOpen`. `mmap` refuses an empty file.
  Bytes past the end of a short file read as zero, as in a mapped page. Messages written
  to stderr are not modelled; only the exit status and the reason are.
- Everything `_exit_trap` prints besides the report and the EPC/RA/TVAL line:
  - the relocation-adjusted line;
  - `show_regs`, `show_backtrace` (and its loop), `show_code` and
    `show_efi_loaded_images`;
  - the `panic` text;
  - the output format.
- `efi_restore_gd` at the start of `handle_trap`.
- The jump buffer of `struct resume_data`. The `longjmp` is the `Resumed` outcome.
- `disable_semihosting()` itself. Its effect on later traps is outside this model.
- The bodies of the weak `external_interrupt` and `timer_interrupt`. They are empty in the
  source; the model records which one is called and with what argument.
- `interrupt_init`, `enable_interrupts` and `disable_interrupts`. They are stubs that
  return 0 or do nothing.
- Interrupts.TrapDispatcher.HandleTrap: memory is a total function from address to
  32-bit word, so a fault while reading the neighbouring words is not modelled.
- Interrupts.TrapConfig.Valid: the CHERI type and cause constants are assumed to be
  distinct and below 3 and 5, so the designated-initializer tables have no NULL entry.
  The encoding header that fixes them is not part of this model.
- Interrupts.TrapConfig: PAGE_SIZE is represented by its logarithm `pageShift`, so that
  `~(PAGE_SIZE - 1)` is low-bit clearing.
- Stack.Representability: the mask from `cheri_representable_alignment_mask` is
  represented by the number of low bits it clears. Both rounding functions are left
  uninterpreted.
- Stack.StacksBelowOldStart: assumes `len <= rounded_len`, the codec's promise, because
  the codec is not modelled.
- Stack.ArchReserveStacks requires the stack length to fit in a C `int`. The shift in the
  source overflows otherwise.
- Firmware words are 64 bits (RV64). RV32 firmware widths are not modelled. Under the purecap ABI, `uintptr_t` is capability-wide; only its
  address is modelled.
- The CHERI type and cause are extracted from `tval2` by uninterpreted functions
  (`XTVAL2_CHERI_TYPE`, `XTVAL2_CHERI_CAUSE`), whose definitions are not part of this
  model.
- Board files, `sbi.c`, `disk.c`, `mkimage.h`, `global_data.h` beyond the fields used,
  and `setjmp.h` are outside the modelled core.
