/** The capability permission vocabulary and the named permission presets of
    arch/riscv/include/asm/cheri.h. A permission word is modelled as the set of
    positions of its one bits within a 64-bit word, so `~`, `&` and `|` on words
    are complement, intersection and union. */
module CheriPerms {
  /** The positions of the one bits of a 64-bit permission word. */
  type Mask = set<nat>

  /** Every bit position of a permission word. */
  const WordBits: Mask := set i: nat | i < 64

  /** The permission bits the compiler exposes through cheriintrin.h. */
  datatype Perm =
    | Cap | Write | Read | Execute | SystemRegs | LoadMutable
    | ElevateLevel | StoreLevel | CapabilityLevel

  const AllPerms: set<Perm> :=
    {Cap, Write, Read, Execute, SystemRegs, LoadMutable, ElevateLevel, StoreLevel, CapabilityLevel}

  /** Where each permission sits in a permission word. The positions are compiler
      builtins and not fixed here; they are only known to be distinct bits of the word. */
  datatype PermEncoding = PermEncoding(pos: Perm -> nat) {
    ghost predicate Valid() {
      && (forall p :: pos(p) < 64)
      && (forall p, q :: p != q ==> pos(p) != pos(q))
    }
  }

  /** The bitwise complement `~m` of a permission word. */
  function Not(m: Mask): Mask
  {
    WordBits - m
  }

  /** The single-bit word `CHERI_PERM_<p>`. */
  function Bit(enc: PermEncoding, p: Perm): Mask
  {
    {enc.pos(p)}
  }

  /** Whether the permission word `m` grants `p`. */
  predicate Has(enc: PermEncoding, m: Mask, p: Perm)
  {
    enc.pos(p) in m
  }

  /** The permissions of the vocabulary that `m` grants. */
  function PermsOf(enc: PermEncoding, m: Mask): set<Perm>
  {
    set p | p in AllPerms && Has(enc, m, p)
  }

  // The presets. Each is the complement of a union of single bits, so it also
  // sets every bit of the word outside the vocabulary.

  function StackPerms(enc: PermEncoding): Mask
  {
    Not(Bit(enc, Execute))
  }

  function HeapPerms(enc: PermEncoding): Mask
  {
    Not(Bit(enc, Execute))
  }

  function ExecutablePerms(enc: PermEncoding): Mask
  {
    Not(Bit(enc, Write))
  }

  function ReadOnlyDataPerms(enc: PermEncoding): Mask
  {
    Not(Bit(enc, Write) + Bit(enc, Execute))
  }

  function WriteOnlyDataPerms(enc: PermEncoding): Mask
  {
    Not(Bit(enc, Read) + Bit(enc, Execute))
  }

  function DataPerms(enc: PermEncoding): Mask
  {
    Not(Bit(enc, Execute))
  }

  function IoPerms(enc: PermEncoding): Mask
  {
    Not(Bit(enc, Execute) + Bit(enc, Cap))
  }

  /** The complement of the bits of the permissions in `excluded` grants exactly
      the permissions outside `excluded`. */
  lemma NotGrants(enc: PermEncoding, excluded: set<Perm>, m: Mask)
    requires enc.Valid()
    requires m == Not(set q | q in excluded :: enc.pos(q))
    ensures PermsOf(enc, m) == AllPerms - excluded
  {
    forall p | p in AllPerms
      ensures Has(enc, m, p) <==> p !in excluded
    {
      if p !in excluded {
        forall q | q in excluded ensures enc.pos(q) != enc.pos(p) { }
      }
    }
  }

  /** STACK, HEAP and DATA are one word: every permission except EXECUTE. */
  lemma StackHeapDataAgree(enc: PermEncoding)
    requires enc.Valid()
    ensures StackPerms(enc) == HeapPerms(enc) == DataPerms(enc)
    ensures PermsOf(enc, DataPerms(enc)) == AllPerms - {Execute}
  {
    NotGrants(enc, {Execute}, DataPerms(enc));
  }

  /** EXECUTABLE withholds only WRITE, so it keeps EXECUTE and READ. */
  lemma ExecutableGrants(enc: PermEncoding)
    requires enc.Valid()
    ensures PermsOf(enc, ExecutablePerms(enc)) == AllPerms - {Write}
    ensures Has(enc, ExecutablePerms(enc), Execute) && Has(enc, ExecutablePerms(enc), Read)
  {
    NotGrants(enc, {Write}, ExecutablePerms(enc));
  }

  /** R_DATA withholds WRITE and EXECUTE, keeps READ, and is the intersection of
      EXECUTABLE and DATA. */
  lemma ReadOnlyDataGrants(enc: PermEncoding)
    requires enc.Valid()
    ensures PermsOf(enc, ReadOnlyDataPerms(enc)) == AllPerms - {Write, Execute}
    ensures Has(enc, ReadOnlyDataPerms(enc), Read)
    ensures ReadOnlyDataPerms(enc) == ExecutablePerms(enc) * DataPerms(enc)
  {
    NotGrants(enc, {Write, Execute}, ReadOnlyDataPerms(enc));
  }

  /** W_DATA withholds READ and EXECUTE and keeps WRITE. */
  lemma WriteOnlyDataGrants(enc: PermEncoding)
    requires enc.Valid()
    ensures PermsOf(enc, WriteOnlyDataPerms(enc)) == AllPerms - {Read, Execute}
    ensures Has(enc, WriteOnlyDataPerms(enc), Write)
  {
    NotGrants(enc, {Read, Execute}, WriteOnlyDataPerms(enc));
  }

  /** IO withholds EXECUTE and CAP and keeps READ and WRITE. */
  lemma IoGrants(enc: PermEncoding)
    requires enc.Valid()
    ensures PermsOf(enc, IoPerms(enc)) == AllPerms - {Execute, Cap}
    ensures Has(enc, IoPerms(enc), Read) && Has(enc, IoPerms(enc), Write)
  {
    NotGrants(enc, {Execute, Cap}, IoPerms(enc));
  }

  /** Restricting a capability's permission word with a preset (`perms & CHERI_PERM_*`)
      never adds a bit, and restricting twice is restricting once. */
  lemma RestrictIsMonotoneAndIdempotent(perms: Mask, preset: Mask)
    ensures perms * preset <= perms
    ensures (perms * preset) * preset == perms * preset
  {
  }

  /** Restricting a permission word with STACK or HEAP removes EXECUTE and keeps
      every other permission that was there. */
  lemma StackRestrictionDropsOnlyExecute(enc: PermEncoding, perms: Mask)
    requires enc.Valid()
    ensures PermsOf(enc, perms * StackPerms(enc)) == PermsOf(enc, perms) - {Execute}
    ensures PermsOf(enc, perms * HeapPerms(enc)) == PermsOf(enc, perms) - {Execute}
  {
    forall p | p in AllPerms
      ensures Has(enc, perms * StackPerms(enc), p) <==> Has(enc, perms, p) && p != Execute
    {
    }
  }
}
