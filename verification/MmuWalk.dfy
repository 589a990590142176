/** What the ARM926EJ-S memory management unit makes of a virtual address: the two-level table walk
    of chapter 3 of its technical reference manual, over a memory of 32-bit words. */
module MmuWalk {

  /** A physical address. */
  datatype Addr = Addr(bits: bv32)

  /** Physical memory, by word address; an address outside the map is not backed. */
  type Words = map<Addr, bv32>

  datatype Outcome =
    | ExternalAbort(level: nat)
    | SectionFault
    | PageFault(domain: bv32)
    | Mapped(pa: bv32, ap: bv32, cb: bv32, domain: bv32)

  /** Address of entry `i` of a table. */
  function EntryAt(table: bv32, i: bv32): Addr
  {
    Addr(table | (i << 2))
  }

  function L1Index(va: bv32): bv32
  {
    va >> 20
  }

  function L2SmallPageIndex(va: bv32): bv32
  {
    (va >> 12) & 0xFF
  }

  function L1Table(ttbr: bv32): bv32
  {
    ttbr & 0xFFFF_C000
  }

  function L1Address(ttbr: bv32, va: bv32): Addr
  {
    EntryAt(L1Table(ttbr), L1Index(va))
  }

  predicate IsCoarse(d: bv32) { d & 3 == 1 }

  predicate IsSection(d: bv32) { d & 3 == 2 }

  predicate IsFine(d: bv32) { d & 3 == 3 }

  function CoarseTable(d: bv32): bv32
  {
    d & 0xFFFF_FC00
  }

  /** Where the walk finds the second-level descriptor, given a coarse or fine first-level one. */
  function L2Address(d: bv32, va: bv32): Addr
  {
    if IsCoarse(d) then EntryAt(CoarseTable(d), L2SmallPageIndex(va))
    else EntryAt(d & 0xFFFF_F000, (va >> 10) & 0x3FF)
  }

  function DomainOf(d: bv32): bv32
  {
    (d >> 5) & 0xF
  }

  /** Access permission of subpage 0 to 3, moved to bits 11:10. */
  function SubpagePermission(e: bv32, subpage: bv32): bv32
  {
    if subpage == 0 then (e & 0x30) << 6
    else if subpage == 1 then (e & 0xC0) << 4
    else if subpage == 2 then (e & 0x300) << 2
    else e & 0xC00
  }

  function LargePage(e: bv32, va: bv32, domain: bv32): Outcome
  {
    Mapped((e & 0xFFFF_0000) | (va & 0xFFFF), SubpagePermission(e, (va >> 14) & 3), e & 0xC, domain)
  }

  function SmallPage(e: bv32, va: bv32, domain: bv32): Outcome
  {
    Mapped((e & 0xFFFF_F000) | (va & 0xFFF), SubpagePermission(e, (va >> 10) & 3), e & 0xC, domain)
  }

  /** Tiny pages exist in fine tables only. */
  function TinyPage(e: bv32, va: bv32, fine: bool, domain: bv32): Outcome
  {
    if fine then Mapped((e & 0xFFFF_FC00) | (va & 0x3FF), (e & 0x30) << 6, e & 0xC, domain) else PageFault(domain)
  }

  function Page(e: bv32, va: bv32, fine: bool, domain: bv32): Outcome
  {
    if e & 3 == 0 then PageFault(domain)
    else if e & 3 == 1 then LargePage(e, va, domain)
    else if e & 3 == 2 then SmallPage(e, va, domain)
    else TinyPage(e, va, fine, domain)
  }

  function Section(d: bv32, va: bv32): Outcome
  {
    Mapped((d & 0xFFF0_0000) | (va & 0x000F_FFFF), d & 0xC00, d & 0xC, DomainOf(d))
  }

  /** The second half of a walk, from the first-level descriptor. */
  function WalkFrom(m: Words, d: bv32, va: bv32): Outcome
  {
    if d & 3 == 0 then SectionFault
    else if IsSection(d) then Section(d, va)
    else if L2Address(d, va) !in m then ExternalAbort(2)
    else Page(m[L2Address(d, va)], va, IsFine(d), DomainOf(d))
  }

  function Walk(m: Words, ttbr: bv32, va: bv32): Outcome
  {
    if L1Address(ttbr, va) !in m then ExternalAbort(1)
    else WalkFrom(m, m[L1Address(ttbr, va)], va)
  }

  /** A 16 KB, 1 KB aligned block: the mask keeps the bits that name the block. */
  const TTB_MASK: bv32 := 0xFFFF_C000
  const L2_MASK: bv32 := 0xFFFF_FC00

  predicate InBlock(a: Addr, base: bv32, mask: bv32)
  {
    a.bits & mask == base
  }

  /** Nothing the walk reads lies in the block: the allocator hands out memory that is not in use. */
  ghost predicate Unused(m: Words, ttbr: bv32, base: bv32, mask: bv32)
  {
    forall va :: UnusedBy(m, ttbr, base, mask, va)
  }

  ghost predicate UnusedBy(m: Words, ttbr: bv32, base: bv32, mask: bv32, va: bv32)
  {
    && !InBlock(L1Address(ttbr, va), base, mask)
    && (L1Address(ttbr, va) in m && (IsCoarse(m[L1Address(ttbr, va)]) || IsFine(m[L1Address(ttbr, va)])) ==>
          !InBlock(L2Address(m[L1Address(ttbr, va)], va), base, mask))
  }

  /** The second-level tables lie outside the first-level table. */
  ghost predicate Separate(m: Words, ttbr: bv32)
  {
    forall va :: SeparateAt(m, ttbr, va)
  }

  ghost predicate SeparateAt(m: Words, ttbr: bv32, va: bv32)
  {
    L1Address(ttbr, va) in m && (IsCoarse(m[L1Address(ttbr, va)]) || IsFine(m[L1Address(ttbr, va)])) ==>
      !InBlock(L2Address(m[L1Address(ttbr, va)], va), L1Table(ttbr), TTB_MASK)
  }

  /** Entries of a table lie in its block, and different entries at different addresses. */
  lemma EntryInBlock(table: bv32, i: bv32, mask: bv32)
    requires table & mask == table && ((mask == TTB_MASK && i < 4096) || (mask == L2_MASK && i < 256))
    ensures InBlock(EntryAt(table, i), table, mask)
  {
  }

  lemma EntriesDiffer(table: bv32, i: bv32, j: bv32, mask: bv32)
    requires table & mask == table && i != j
    requires (mask == TTB_MASK && i < 4096 && j < 4096) || (mask == L2_MASK && i < 256 && j < 256)
    ensures EntryAt(table, i) != EntryAt(table, j)
  {
  }
}
