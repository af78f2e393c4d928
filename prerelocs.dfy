/** The front end of tools/prerelocs-riscv-cheri.c: argument check, ELF magic check
    and the choice of one of the four width/byte-order instantiations of the
    relocation routine. Opening and mapping the file are modelled by a map from
    path to file contents; the relocation routines themselves are not modelled. */
module Prerelocs {
  import opened Wrappers
  import opened ElfCheri

  // Identification bytes of an ELF header, section "ELF Identification" of the
  // System V Application Binary Interface.

  /** `ELFMAG`: 0x7f 'E' 'L' 'F'. */
  const ElfMag: seq<Byte> := [0x7f, 0x45, 0x4c, 0x46]
  /** `SELFMAG`, `EI_CLASS`, `EI_DATA`. */
  const SelfMag: nat := 4
  const EiClass: nat := 4
  const EiData: nat := 5
  /** `ELFCLASS64` and `ELFDATA2MSB`. */
  const ElfClass64: Byte := 2
  const ElfData2Msb: Byte := 2

  /** `EXIT_SUCCESS` (the `return 0` of `main`) and `EXIT_FAILURE`. */
  const ExitSuccess: int := 0
  const ExitFailure: int := 1

  /** One inclusion of prerelocs-riscv-cheri.inc: `RELOCS_BYTEORDER`, `RELOCS_INC_BITS`
      and `RELOCS_INC_CAP_BITS`. */
  datatype RelocsVariant = RelocsVariant(order: ByteOrder, bits: nat, capBits: nat)

  /** `cheri_relocs_le32`, `cheri_relocs_le64`, `cheri_relocs_be32`, `cheri_relocs_be64`. */
  const RelocsLe32: RelocsVariant := RelocsVariant(LittleEndian, 32, 64)
  const RelocsLe64: RelocsVariant := RelocsVariant(LittleEndian, 64, 128)
  const RelocsBe32: RelocsVariant := RelocsVariant(BigEndian, 32, 64)
  const RelocsBe64: RelocsVariant := RelocsVariant(BigEndian, 64, 128)

  const AllVariants: set<RelocsVariant> := {RelocsLe32, RelocsLe64, RelocsBe32, RelocsBe64}

  /** The entry layout a variant reads and writes. */
  function VariantLayout(v: RelocsVariant): Layout
  {
    Layout(if v.bits == 64 then Elf64 else Elf32, v.order)
  }

  /** Each instantiation's capability is twice as wide as its addresses, and its
      entry layout has fields of its address width. */
  lemma VariantWidths(v: RelocsVariant)
    requires v in AllVariants
    ensures v.capBits == 2 * v.bits
    ensures Bits(VariantLayout(v).width) == v.bits
  {
  }

  /** Byte `k` of the mapped image. The mapping covers whole pages and reads zero
      past the end of the file, so a short file reads as zero-filled. */
  function MappedByte(image: seq<Byte>, k: nat): Byte
  {
    if k < |image| then image[k] else 0
  }

  /** `memcmp(e_ident, ELFMAG, SELFMAG) == 0`. */
  predicate MagicMatches(image: seq<Byte>)
  {
    forall k :: 0 <= k < SelfMag ==> MappedByte(image, k) == ElfMag[k]
  }

  /** The magic check passes exactly when the file starts with the four magic bytes:
      the zero fill past the end of a short file never matches them. */
  lemma MagicIsPrefix(image: seq<Byte>)
    ensures MagicMatches(image) <==> |image| >= SelfMag && image[..SelfMag] == ElfMag
  {
    if MagicMatches(image) {
      assert MappedByte(image, 3) == 0x46;
      assert forall k :: 0 <= k < SelfMag ==> image[..SelfMag][k] == ElfMag[k];
    }
    if |image| >= SelfMag && image[..SelfMag] == ElfMag {
      forall k | 0 <= k < SelfMag ensures MappedByte(image, k) == ElfMag[k] {
        assert image[k] == image[..SelfMag][k];
      }
    }
  }

  /** The `is64`/`isbe` decision tree: `is64` is `e_ident[EI_CLASS] == ELFCLASS64`,
      `isbe` is `e_ident[EI_DATA] == ELFDATA2MSB`, and every other class or data
      byte falls back to 32 bits or little-endian. */
  function SelectVariant(image: seq<Byte>): (v: RelocsVariant)
    ensures v in AllVariants
    ensures v.bits == 64 <==> MappedByte(image, EiClass) == ElfClass64
    ensures v.order == BigEndian <==> MappedByte(image, EiData) == ElfData2Msb
  {
    var is64 := MappedByte(image, EiClass) == ElfClass64;
    var isbe := MappedByte(image, EiData) == ElfData2Msb;
    if is64 then
      if isbe then RelocsBe64 else RelocsLe64
    else
      if isbe then RelocsBe32 else RelocsLe32
  }

  /** Why the tool stopped with `EXIT_FAILURE`. */
  datatype Failure =
    | Usage          // fewer than one argument after the program name
    | CannotOpen     // open or fstat failed
    | CannotMap      // mmap failed; it refuses an empty file
    | InvalidElf     // the magic bytes do not match
    | RoutineFailed(variant: RelocsVariant)  // the selected relocation routine called `die`

  /** How a run of the tool ends: it dies, or the one relocation routine it calls returns. */
  datatype ToolOutcome = Died(failure: Failure) | Patched(variant: RelocsVariant)

  /** The process exit status of an outcome. */
  function ExitCode(o: ToolOutcome): (code: int)
    ensures code == ExitSuccess <==> o.Patched?
  {
    if o.Patched? then ExitSuccess else ExitFailure
  }

  /** `main(argc, argv)` with `args` as `argv[0..argc]` and `files` giving the
      contents of every file that can be opened read-write. `routineReturns(v, image)`
      says whether relocation routine `v` returns on `image` rather than calling `die`;
      the routines themselves are not modelled. */
  function RunTool(args: seq<string>, files: map<string, seq<Byte>>,
                   routineReturns: (RelocsVariant, seq<Byte>) -> bool): ToolOutcome
  {
    if |args| < 2 then Died(Usage)
    else if args[1] !in files then Died(CannotOpen)
    else if |files[args[1]]| == 0 then Died(CannotMap)
    else if !MagicMatches(files[args[1]]) then Died(InvalidElf)
    else
      var variant := SelectVariant(files[args[1]]);
      if routineReturns(variant, files[args[1]]) then Patched(variant)
      else Died(RoutineFailed(variant))
  }

  /** The relocation routine a run called, if it got that far. */
  function RoutineCalled(o: ToolOutcome): Option<RelocsVariant>
  {
    match o
    case Patched(v) => Some(v)
    case Died(RoutineFailed(v)) => Some(v)
    case Died(_) => None
  }

  /** With fewer than two arguments the tool fails whatever the file system holds. */
  lemma UsageErrorFirst(args: seq<string>, files: map<string, seq<Byte>>,
                        routineReturns: (RelocsVariant, seq<Byte>) -> bool)
    requires |args| < 2
    ensures RunTool(args, files, routineReturns) == Died(Usage)
    ensures ExitCode(RunTool(args, files, routineReturns)) == ExitFailure
  {
  }

  /** A relocation routine is called exactly when the file exists and carries the ELF
      magic, and it is the one selected by the class and data bytes. A file without
      the magic never reaches a relocation routine. */
  lemma RoutineCalledExactlyWhenElf(args: seq<string>, files: map<string, seq<Byte>>,
                                    routineReturns: (RelocsVariant, seq<Byte>) -> bool)
    ensures var o := RunTool(args, files, routineReturns);
      && (RoutineCalled(o).Some? <==>
            |args| >= 2 && args[1] in files && |files[args[1]]| >= SelfMag
            && files[args[1]][..SelfMag] == ElfMag)
      && (RoutineCalled(o).Some? ==> RoutineCalled(o).value == SelectVariant(files[args[1]]))
  {
    if |args| >= 2 && args[1] in files {
      MagicIsPrefix(files[args[1]]);
    }
  }

  /** The tool exits with 0 exactly when it reaches a relocation routine and that
      routine returns. */
  lemma SuccessExactlyWhenRoutineReturns(args: seq<string>, files: map<string, seq<Byte>>,
                                         routineReturns: (RelocsVariant, seq<Byte>) -> bool)
    ensures var o := RunTool(args, files, routineReturns);
      ExitCode(o) == ExitSuccess <==>
        RoutineCalled(o).Some? && routineReturns(RoutineCalled(o).value, files[args[1]])
  {
  }

  /** The program's entry point, which also records `argv[0]` for diagnostics. */
  class Tool {
    /** `argv0`: the program name used in messages; NULL when `argc` is 0. */
    var argv0: Option<string>

    constructor ()
      ensures argv0 == None
    {
      argv0 := None;
    }

    method Run(args: seq<string>, files: map<string, seq<Byte>>,
               routineReturns: (RelocsVariant, seq<Byte>) -> bool)
      returns (exitCode: int, outcome: ToolOutcome)
      modifies this
      ensures argv0 == (if |args| > 0 then Some(args[0]) else None)
      ensures outcome == RunTool(args, files, routineReturns)
      ensures exitCode == ExitCode(outcome)
    {
      argv0 := if |args| > 0 then Some(args[0]) else None;
      if |args| < 2 {
        return ExitFailure, Died(Usage);
      }
      if args[1] !in files {
        return ExitFailure, Died(CannotOpen);
      }
      var data := files[args[1]];
      if |data| == 0 {
        return ExitFailure, Died(CannotMap);
      }
      if !MagicMatches(data) {
        return ExitFailure, Died(InvalidElf);
      }
      var is64 := MappedByte(data, EiClass) == ElfClass64;
      var isbe := MappedByte(data, EiData) == ElfData2Msb;
      var variant;
      if is64 {
        if isbe { variant := RelocsBe64; } else { variant := RelocsLe64; }
      } else {
        if isbe { variant := RelocsBe32; } else { variant := RelocsLe32; }
      }
      if !routineReturns(variant, data) {
        return ExitFailure, Died(RoutineFailed(variant));
      }
      return ExitSuccess, Patched(variant);
    }
  }
}
