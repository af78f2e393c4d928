/** The CHERI additions to the ELF format in include/elf_cheri.h: the two dynamic
    tags that locate the capability relocation table, the flag bits of a relocation
    entry, and the 32-bit and 64-bit layouts of an entry. */
module ElfCheri {
  import opened Wrappers

  type Byte = b: int | 0 <= b < 256

  /** `DT_RISCV_CHERI___CAPRELOCS`: the dynamic tag whose value is the table's address. */
  const DtCapRelocs: nat := 0x7000c000
  /** `DT_RISCV_CHERI___CAPRELOCSSZ`: the dynamic tag whose value is the table's size in bytes. */
  const DtCapRelocsSz: nat := 0x7000c001

  /** The size tag directly follows the address tag, which is even. */
  lemma TagPair()
    ensures DtCapRelocsSz == DtCapRelocs + 1 && DtCapRelocs % 2 == 0
  {
  }

  /** The address width of an ELF image. */
  datatype AddrWidth = Elf32 | Elf64

  /** The byte order of an ELF image. */
  datatype ByteOrder = LittleEndian | BigEndian

  /** A width and byte order, which together fix how relocation entries are laid out. */
  datatype Layout = Layout(width: AddrWidth, order: ByteOrder)

  /** Bits in an address, offset or word field: `Elf32_Addr`/`Elf32_Word` are 32 bits,
      `Elf64_Addr`/`Elf64_Xword` 64 bits. */
  function Bits(w: AddrWidth): nat
  {
    match w
    case Elf32 => 32
    case Elf64 => 64
  }

  /** Bytes in one field of an entry. */
  function FieldSize(w: AddrWidth): (n: nat)
    ensures n * 8 == Bits(w)
  {
    match w
    case Elf32 => 4
    case Elf64 => 8
  }

  /** Bytes in one entry: five fields with no padding between them. */
  function RecordSize(w: AddrWidth): (n: nat)
    ensures n == 5 * FieldSize(w)
    ensures w == Elf32 ==> n == 20
    ensures w == Elf64 ==> n == 40
  {
    match w
    case Elf32 => 20
    case Elf64 => 40
  }

  function Pow256(n: nat): (r: nat)
    ensures r >= 1
  {
    if n == 0 then 1 else 256 * Pow256(n - 1)
  }

  // ---- Flag bits of `cr_flags` ----

  /** `ELF32_CAP_RELOC_CR_FLAG_FUNC` / `ELF64_CAP_RELOC_CR_FLAG_FUNC`: the entry is a function pointer. */
  function FlagFunc(w: AddrWidth): bv64
  {
    match w
    case Elf32 => 1 << 31
    case Elf64 => 1 << 63
  }

  /** `ELF32_CAP_RELOC_CR_FLAG_CONST` / `ELF64_CAP_RELOC_CR_FLAG_CONST`: the entry points to constant data. */
  function FlagConst(w: AddrWidth): bv64
  {
    match w
    case Elf32 => 1 << 30
    case Elf64 => 1 << 62
  }

  /** `ELFXX_CAP_RELOC_CR_FLAG_FUNC` for a target whose `__SIZE_WIDTH__` is `sizeWidth`. */
  function FlagFuncXX(sizeWidth: bv64): bv64
    requires 2 <= sizeWidth <= 64
  {
    1 << (sizeWidth - 1)
  }

  /** `ELFXX_CAP_RELOC_CR_FLAG_CONST` for a target whose `__SIZE_WIDTH__` is `sizeWidth`. */
  function FlagConstXX(sizeWidth: bv64): bv64
    requires 2 <= sizeWidth <= 64
  {
    1 << (sizeWidth - 2)
  }

  /** FUNC is the top bit of the flags word and CONST the bit below it; the two are
      distinct single bits, and both fit in the width's flags field. */
  lemma FlagBits(w: AddrWidth)
    ensures FlagFunc(w) == (1 as bv64) << (Bits(w) - 1)
    ensures FlagConst(w) == (1 as bv64) << (Bits(w) - 2)
    ensures FlagFunc(w) & FlagConst(w) == 0
    ensures FlagFunc(w) & (FlagFunc(w) - 1) == 0 && FlagConst(w) & (FlagConst(w) - 1) == 0
    ensures w == Elf32 ==> FlagFunc(w) | FlagConst(w) == 0xC000_0000
  {
  }

  /** The width-generic flags are the 32-bit flags on a 32-bit target and the 64-bit
      flags on a 64-bit target. */
  lemma GenericFlagsMatch(sizeWidth: bv64)
    requires sizeWidth == 32 || sizeWidth == 64
    ensures sizeWidth == 32 ==> FlagFuncXX(sizeWidth) == FlagFunc(Elf32) && FlagConstXX(sizeWidth) == FlagConst(Elf32)
    ensures sizeWidth == 64 ==> FlagFuncXX(sizeWidth) == FlagFunc(Elf64) && FlagConstXX(sizeWidth) == FlagConst(Elf64)
  {
  }

  // ---- Entries ----

  /** `Elf32_cap_reloc` / `Elf64_cap_reloc`, with its five fields in layout order. */
  datatype CapReloc = CapReloc(location: nat, base: nat, offset: nat, length: nat, flags: nat)

  /** The fields of an entry in layout order. */
  function Fields(e: CapReloc): (fs: seq<nat>)
    ensures |fs| == 5
  {
    [e.location, e.base, e.offset, e.length, e.flags]
  }

  /** Every field of `e` fits in a field of width `w`. */
  predicate FitsIn(e: CapReloc, w: AddrWidth)
  {
    forall k :: 0 <= k < 5 ==> Fields(e)[k] < Pow256(FieldSize(w))
  }

  // ---- Bytes of a field ----

  /** The `n` bytes of `v`, least significant first. */
  function EncodeLE(v: nat, n: nat): (s: seq<Byte>)
    ensures |s| == n
  {
    if n == 0 then [] else [v % 256] + EncodeLE(v / 256, n - 1)
  }

  /** The number whose bytes, least significant first, are `s`. */
  function DecodeLE(s: seq<Byte>): (v: nat)
    ensures v < Pow256(|s|)
  {
    if s == [] then 0 else s[0] + 256 * DecodeLE(s[1..])
  }

  /** The `n` bytes of `v`, most significant first. */
  function EncodeBE(v: nat, n: nat): (s: seq<Byte>)
    ensures |s| == n
  {
    if n == 0 then [] else EncodeBE(v / 256, n - 1) + [v % 256]
  }

  /** The number whose bytes, most significant first, are `s`. */
  function DecodeBE(s: seq<Byte>): (v: nat)
    ensures v < Pow256(|s|)
  {
    if s == [] then 0 else 256 * DecodeBE(s[..|s| - 1]) + s[|s| - 1]
  }

  function EncodeWord(v: nat, n: nat, o: ByteOrder): (s: seq<Byte>)
    ensures |s| == n
  {
    match o
    case LittleEndian => EncodeLE(v, n)
    case BigEndian => EncodeBE(v, n)
  }

  function DecodeWord(s: seq<Byte>, o: ByteOrder): (v: nat)
    ensures v < Pow256(|s|)
  {
    match o
    case LittleEndian => DecodeLE(s)
    case BigEndian => DecodeBE(s)
  }

  lemma {:induction false} LERoundTrip(v: nat, n: nat)
    requires v < Pow256(n)
    ensures DecodeLE(EncodeLE(v, n)) == v
  {
    if n > 0 {
      assert v / 256 < Pow256(n - 1);
      LERoundTrip(v / 256, n - 1);
      assert EncodeLE(v, n)[1..] == EncodeLE(v / 256, n - 1);
    }
  }

  lemma {:induction false} LEBytesRoundTrip(s: seq<Byte>)
    ensures EncodeLE(DecodeLE(s), |s|) == s
  {
    if s != [] {
      LEBytesRoundTrip(s[1..]);
      assert DecodeLE(s) % 256 == s[0];
      assert DecodeLE(s) / 256 == DecodeLE(s[1..]);
    }
  }

  lemma {:induction false} BERoundTrip(v: nat, n: nat)
    requires v < Pow256(n)
    ensures DecodeBE(EncodeBE(v, n)) == v
  {
    if n > 0 {
      assert v / 256 < Pow256(n - 1);
      BERoundTrip(v / 256, n - 1);
      var s := EncodeBE(v, n);
      assert s[..|s| - 1] == EncodeBE(v / 256, n - 1);
    }
  }

  lemma {:induction false} BEBytesRoundTrip(s: seq<Byte>)
    ensures EncodeBE(DecodeBE(s), |s|) == s
  {
    if s != [] {
      BEBytesRoundTrip(s[..|s| - 1]);
      assert DecodeBE(s) % 256 == s[|s| - 1];
      assert DecodeBE(s) / 256 == DecodeBE(s[..|s| - 1]);
    }
  }

  /** Writing a field in either byte order and reading it back in the same order
      gives the field; reading any `n` bytes and writing the value back gives the bytes. */
  lemma WordRoundTrip(v: nat, n: nat, o: ByteOrder)
    requires v < Pow256(n)
    ensures DecodeWord(EncodeWord(v, n, o), o) == v
  {
    match o
    case LittleEndian => LERoundTrip(v, n);
    case BigEndian => BERoundTrip(v, n);
  }

  lemma BytesRoundTrip(s: seq<Byte>, o: ByteOrder)
    ensures EncodeWord(DecodeWord(s, o), |s|, o) == s
  {
    match o
    case LittleEndian => LEBytesRoundTrip(s);
    case BigEndian => BEBytesRoundTrip(s);
  }

  /** Dividing by a divisor and a remainder that satisfy Euclid's equation gives
      that quotient. */
  lemma DivUnique(v: nat, d: nat, q: nat, r: nat)
    requires d > 0 && v == d * q + r && r < d
    ensures v / d == q
  {
    var q', r' := v / d, v % d;
    if q' < q {
      MulGap(d, q, q');
      assert false;
    } else if q' > q {
      MulGap(d, q', q);
      assert false;
    }
  }

  /** Quotients that differ by at least one differ by at least the divisor once multiplied. */
  lemma MulGap(d: nat, a: nat, b: nat)
    requires a > b
    ensures d * a >= d * b + d
  {
    var t := a - b;
    assert d * a == d * b + d * t by { assert a == b + t; }
    assert d * t >= d by { assert d * t == d * (t - 1) + d; }
  }

  /** Dropping the low byte and then `k - 1` more is dropping `k` bytes. */
  lemma ShiftBytes(v: nat, k: nat)
    requires k > 0
    ensures (v / 256) / Pow256(k - 1) == v / Pow256(k)
  {
    var p := Pow256(k - 1);
    var q, r := v / 256, v % 256;
    var q2, r2 := q / p, q % p;
    Recombine(v, q, r, p, q2, r2);
    DivUnique(v, 256 * p, q2, 256 * r2 + r);
  }

  /** Two Euclidean divisions, by 256 and then by `p`, combine into one by `256 * p`. */
  lemma Recombine(v: nat, q: nat, r: nat, p: nat, q2: nat, r2: nat)
    requires v == 256 * q + r && r < 256
    requires q == p * q2 + r2 && r2 < p
    ensures v == (256 * p) * q2 + (256 * r2 + r) && 256 * r2 + r < 256 * p
  {
    var m := p * q2;
    assert (256 * p) * q2 == 256 * m;
    assert 256 * r2 + r < 256 * p by {
      assert r2 + 1 <= p;
    }
  }

  /** Byte `k` of the little-endian encoding carries the bits of weight `256^k`:
      the first byte is the least significant. */
  lemma {:induction false} LEByteAt(v: nat, n: nat, k: nat)
    requires k < n
    ensures EncodeLE(v, n)[k] == (v / Pow256(k)) % 256
  {
    if k > 0 {
      LEByteAt(v / 256, n - 1, k - 1);
      ShiftBytes(v, k);
    }
  }

  /** Byte `n - 1 - k` of the big-endian encoding carries the bits of weight
      `256^k`: the last byte is the least significant. */
  lemma {:induction false} BEByteAt(v: nat, n: nat, k: nat)
    requires k < n
    ensures EncodeBE(v, n)[n - 1 - k] == (v / Pow256(k)) % 256
  {
    if k > 0 {
      BEByteAt(v / 256, n - 1, k - 1);
      ShiftBytes(v, k);
    }
  }

  // ---- Whole entries and the table ----

  /** The bytes of one entry in layout `l`. */
  function SerializeEntry(l: Layout, e: CapReloc): (s: seq<Byte>)
    ensures |s| == RecordSize(l.width)
  {
    var n := FieldSize(l.width);
    EncodeWord(e.location, n, l.order) + EncodeWord(e.base, n, l.order)
      + EncodeWord(e.offset, n, l.order) + EncodeWord(e.length, n, l.order)
      + EncodeWord(e.flags, n, l.order)
  }

  /** Field `k` (0 for `cr_location` up to 4 for `cr_flags`) of the entry starting at byte `off`. */
  function FieldAt(l: Layout, bytes: seq<Byte>, off: nat, k: nat): nat
    requires k < 5 && off + RecordSize(l.width) <= |bytes|
  {
    var n := FieldSize(l.width);
    DecodeWord(bytes[off + k * n .. off + (k + 1) * n], l.order)
  }

  /** The entry starting at byte `off`, or None when the bytes end before it does. */
  function ParseEntryAt(l: Layout, bytes: seq<Byte>, off: nat): Option<CapReloc>
  {
    if off + RecordSize(l.width) <= |bytes| then
      Some(CapReloc(FieldAt(l, bytes, off, 0), FieldAt(l, bytes, off, 1), FieldAt(l, bytes, off, 2),
                    FieldAt(l, bytes, off, 3), FieldAt(l, bytes, off, 4)))
    else None
  }

  /** Entry `i` of a table: the one starting at byte `i * RecordSize`. */
  function ParseEntry(l: Layout, table: seq<Byte>, i: nat): Option<CapReloc>
  {
    ParseEntryAt(l, table, i * RecordSize(l.width))
  }

  /** The number of entries in a table of `tableSize` bytes. */
  function EntryCount(l: Layout, tableSize: nat): (count: nat)
    ensures count * RecordSize(l.width) <= tableSize < (count + 1) * RecordSize(l.width)
  {
    tableSize / RecordSize(l.width)
  }

  /** The bytes of a table holding `es` in order. */
  function SerializeTable(l: Layout, es: seq<CapReloc>): (s: seq<Byte>)
    ensures |s| == |es| * RecordSize(l.width)
  {
    if es == [] then [] else SerializeEntry(l, es[0]) + SerializeTable(l, es[1..])
  }

  /** Parsing a serialised entry gives back its five fields. */
  lemma EntryRoundTrip(l: Layout, e: CapReloc)
    requires FitsIn(e, l.width)
    ensures ParseEntryAt(l, SerializeEntry(l, e), 0) == Some(e)
  {
    var n := FieldSize(l.width);
    var s := SerializeEntry(l, e);
    forall k | 0 <= k < 5
      ensures FieldAt(l, s, 0, k) == Fields(e)[k]
    {
      assert s[k * n .. (k + 1) * n] == EncodeWord(Fields(e)[k], n, l.order);
      WordRoundTrip(Fields(e)[k], n, l.order);
    }
  }

  /** Entry `i` of a serialised table occupies bytes `i * RecordSize` up to
      `(i + 1) * RecordSize`. */
  lemma {:induction false} TableSlice(l: Layout, es: seq<CapReloc>, i: nat)
    requires i < |es|
    ensures var rs := RecordSize(l.width);
      SerializeTable(l, es)[i * rs .. (i + 1) * rs] == SerializeEntry(l, es[i])
  {
    var rs := RecordSize(l.width);
    var s := SerializeTable(l, es);
    if i > 0 {
      TableSlice(l, es[1..], i - 1);
      assert s[i * rs .. (i + 1) * rs] == SerializeTable(l, es[1..])[(i - 1) * rs .. i * rs];
    }
  }

  /** Parsing at an offset only looks at the bytes of that entry. */
  lemma ParseEntryLocal(l: Layout, bytes: seq<Byte>, off: nat)
    requires off + RecordSize(l.width) <= |bytes|
    ensures ParseEntryAt(l, bytes, off) == ParseEntryAt(l, bytes[off .. off + RecordSize(l.width)], 0)
  {
    var n := FieldSize(l.width);
    var sub := bytes[off .. off + RecordSize(l.width)];
    forall k | 0 <= k < 5
      ensures FieldAt(l, bytes, off, k) == FieldAt(l, sub, 0, k)
    {
      var a, b := k * n, (k + 1) * n;
      assert a <= b <= 5 * n == RecordSize(l.width);
      assert forall j :: 0 <= j < b - a ==> bytes[off + a .. off + b][j] == sub[a .. b][j];
      assert bytes[off + a .. off + b] == sub[a .. b];
    }
  }

  /** Serialising a table and reading entry `i` back gives the `i`-th entry, in
      either byte order and either width. */
  lemma TableRoundTrip(l: Layout, es: seq<CapReloc>, i: nat)
    requires i < |es|
    requires FitsIn(es[i], l.width)
    ensures ParseEntry(l, SerializeTable(l, es), i) == Some(es[i])
  {
    var rs := RecordSize(l.width);
    assert (i + 1) * rs == i * rs + rs;
    TableSlice(l, es, i);
    ParseEntryLocal(l, SerializeTable(l, es), i * rs);
    EntryRoundTrip(l, es[i]);
  }

  /** The entry count of a serialised table is the number of entries it holds. */
  lemma TableCount(l: Layout, es: seq<CapReloc>)
    ensures EntryCount(l, |SerializeTable(l, es)|) == |es|
  {
  }

  /** Every entry below the count lies wholly inside the table. */
  lemma EntriesInBounds(l: Layout, table: seq<Byte>, i: nat)
    requires i < EntryCount(l, |table|)
    ensures ParseEntry(l, table, i).Some?
  {
    var rs := RecordSize(l.width);
    assert (i + 1) * rs <= EntryCount(l, |table|) * rs;
  }
}
