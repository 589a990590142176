/** The second-level editor: it lays a coarse page table of its own over one section of the parent
    editor's table, whatever the section was mapped by, and takes it away again when it closes. */
module CoarseEditor {
  import opened MmuWalk
  import opened MmuEditor

  /** What an address translates to once its section is translated through a coarse table: the page,
      permission and cache policy of before, in the domain asked for.  A section fault becomes a page
      fault: the access still faults, with another status code. */
  function Converted(o: Outcome, domain: bv32): Outcome
  {
    match o
    case Mapped(pa, ap, cb, _) => Mapped(pa, ap, cb, domain)
    case SectionFault => PageFault(domain)
    case PageFault(_) => PageFault(domain)
    case ExternalAbort(level) => ExternalAbort(level)
  }

  /** Permissions of the four subpages, from values in bits 11:10. */
  function SubpagePermissions(ap0: bv32, ap1: bv32, ap2: bv32, ap3: bv32): bv32
  {
    (ap0 >> 6) | (ap1 >> 4) | (ap2 >> 2) | ap3
  }

  predicate IsPermission(ap: bv32)
  {
    ap & 0xC00 == ap
  }

  /** Decoding gives back what was encoded, in every subpage. */
  lemma PermissionsRoundTrip(ap0: bv32, ap1: bv32, ap2: bv32, ap3: bv32)
    requires IsPermission(ap0) && IsPermission(ap1) && IsPermission(ap2) && IsPermission(ap3)
    ensures var e := SubpagePermissions(ap0, ap1, ap2, ap3);
      && SubpagePermission(e, 0) == ap0 && SubpagePermission(e, 1) == ap1
      && SubpagePermission(e, 2) == ap2 && SubpagePermission(e, 3) == ap3
      && e & 0xFFFF_F00F == 0
  {
    var e := SubpagePermissions(ap0, ap1, ap2, ap3);
    assert (e & 0x30) << 6 == ap0;
    assert (e & 0xC0) << 4 == ap1;
    assert (e & 0x300) << 2 == ap2;
  }

  /** Entry `i` of a table that maps what the section descriptor `d` maps. */
  function SectionPage(d: bv32, i: bv32): bv32
  {
    (((d & 0xFFF0_0000) + i * 0x1000) & 0xFFFF_F000) | 2
    | SubpagePermissions(d & 0xC00, d & 0xC00, d & 0xC00, d & 0xC00)
    | (d & 0xC)
  }

  /** Adding the page offset to a section base only sets bits 19:12. */
  lemma PageBase(d: bv32, i: bv32)
    requires i < 256
    ensures ((d & 0xFFF0_0000) + i * 0x1000) & 0xFFFF_F000 == (d & 0xFFF0_0000) | (i << 12)
  {
    assert i * 0x1000 == i << 12;
    assert i << 12 <= 0xF_F000;
    assert (d & 0xFFF0_0000) + (i << 12) == (d & 0xFFF0_0000) | (i << 12);
  }

  /** The page descriptor with its address bits already merged. */
  function MergedPage(d: bv32, i: bv32): bv32
  {
    (d & 0xFFF0_0000) | (i << 12) | 2 | SubpagePermissions(d & 0xC00, d & 0xC00, d & 0xC00, d & 0xC00) | (d & 0xC)
  }

  lemma MergedPageBits(d: bv32, i: bv32, v: bv32)
    requires i == (v >> 12) & 0xFF
    ensures var e := MergedPage(d, i);
      && e & 3 == 2 && e & 0xC == d & 0xC
      && (e & 0xFFFF_F000) | (v & 0xFFF) == (d & 0xFFF0_0000) | (v & 0x000F_FFFF)
      && (e & 0x30) << 6 == d & 0xC00 && (e & 0xC0) << 4 == d & 0xC00
      && (e & 0x300) << 2 == d & 0xC00 && e & 0xC00 == d & 0xC00
  {
  }

  lemma SectionPageIsMerged(d: bv32, i: bv32)
    requires i < 256
    ensures SectionPage(d, i) == MergedPage(d, i)
  {
    PageBase(d, i);
    hide SubpagePermissions;
  }

  /** A descriptor with those bits translates an address of its page as the section does. */
  lemma MergedConverted(d: bv32, e: bv32, v: bv32, domain: bv32)
    requires IsSection(d) && e == MergedPage(d, L2SmallPageIndex(v))
    ensures Page(e, v, false, domain) == Converted(Section(d, v), domain)
  {
    MergedPageBits(d, L2SmallPageIndex(v), v);
    hide MergedPage, L2SmallPageIndex;
  }

  lemma SectionConverted(d: bv32, v: bv32, domain: bv32)
    requires IsSection(d)
    ensures Page(SectionPage(d, L2SmallPageIndex(v)), v, false, domain) == Converted(Section(d, v), domain)
  {
    IndexInRange(v);
    SectionPageIsMerged(d, L2SmallPageIndex(v));
    MergedConverted(d, SectionPage(d, L2SmallPageIndex(v)), v, domain);
    hide *;
  }

  /** The first-level entry that names a coarse table. */
  function CoarseEntry(block: bv32, domain: bv32): bv32
  {
    (block & 0xFFFF_FC00) | 1 | ((domain & 0xF) << 5) | 0x10
  }

  lemma CoarseEntryBits(block: bv32, domain: bv32)
    requires block & L2_MASK == block
    ensures var d := CoarseEntry(block, domain);
      d & 3 == 1 && CoarseTable(d) == block && DomainOf(d) == domain & 0xF
  {
  }

  /** What the constructor stores in entry `i` when the old first-level entry is `d`. */
  ghost function TableWord(m: Words, d: bv32): bv32 -> bv32
  {
    if IsCoarse(d) then SourceWord(m, CoarseTable(d))
    else if IsSection(d) then (i: bv32) => SectionPage(d, i)
    else (i: bv32) => 0
  }

  lemma SamePage(e: bv32, v: bv32, d: bv32, domain: bv32)
    ensures Page(e, v, false, domain) == Converted(Page(e, v, false, d), domain)
  {
    hide SubpagePermission;
  }

  /** A walk of the new table reads one of the stored words. */
  lemma TableWordConverted(m: Words, d: bv32, v: bv32, domain: bv32)
    requires Copyable(m, d)
    ensures Page(TableWord(m, d)(L2SmallPageIndex(v)), v, false, domain) == Converted(WalkFrom(m, d, v), domain)
  {
    IndexInRange(v);
    if IsSection(d) {
      SectionConverted(d, v, domain);
    } else if IsCoarse(d) {
      var page := EntryAt(CoarseTable(d), L2SmallPageIndex(v));
      assert page in m && TableWord(m, d)(L2SmallPageIndex(v)) == m[page];
      assert L2Address(d, v) == page;
      SamePage(m[page], v, DomainOf(d), domain);
    } else {
      assert TableWord(m, d)(L2SmallPageIndex(v)) == 0;
    }
    hide Page, Section, SectionPage, EntryAt, CoarseTable, L2SmallPageIndex;
  }

  /** Memory after the section of `va0` was given a table in the block. */
  function WithTable(m: Words, ttbr: bv32, va0: bv32, block: bv32, domain: bv32): Words
  {
    m[L1Address(ttbr, va0) := CoarseEntry(block, domain)]
  }

  /** What the constructor needs and leaves: the block, filled from the old entry of `va0`. */
  ghost predicate TableBuilt(m: Words, m1: Words, ttbr: bv32, va0: bv32, block: bv32)
  {
    && L1Address(ttbr, va0) in m
    && Copyable(m, m[L1Address(ttbr, va0)])
    && block & L2_MASK == block
    && Filled(m1, block, 256, TableWord(m, m[L1Address(ttbr, va0)]))
    && SameOutside(m, m1, block, L2_MASK)
  }

  ghost predicate Copyable(m: Words, d: bv32)
  {
    !IsFine(d) && (IsCoarse(d) ==> Backed(m, CoarseTable(d), 256))
  }

  /** Whatever the section was mapped by, replacing it by the filled table converts its addresses. */
  lemma ConvertedInside(m: Words, m1: Words, ttbr: bv32, va0: bv32, block: bv32, domain: bv32, v: bv32)
    requires TableBuilt(m, m1, ttbr, va0, block) && UnusedBy(m, ttbr, block, L2_MASK, v)
    requires L1Index(v) == L1Index(va0)
    ensures Walk(WithTable(m1, ttbr, va0, block, domain), ttbr, v) == Converted(Walk(m, ttbr, v), domain & 0xF)
  {
    var d := m[L1Address(ttbr, va0)];
    var page := EntryAt(block, L2SmallPageIndex(v));
    IndexInRange(v);
    CoarseEntryBits(block, domain);
    EntryInBlock(block, L2SmallPageIndex(v), L2_MASK);
    assert page != L1Address(ttbr, v) && L1Address(ttbr, v) == L1Address(ttbr, va0);
    assert page in m1 && m1[page] == TableWord(m, d)(L2SmallPageIndex(v));
    assert L2Address(CoarseEntry(block, domain), v) == page;
    TableWordConverted(m, d, v, domain & 0xF);
    hide L1Index, L1Address, L1Table, L2Address, L2SmallPageIndex, EntryAt, CoarseTable, DomainOf, Page, Section,
      InBlock, UnusedBy, TableBuilt, Filled, SameOutside, Copyable, TableWord, Converted, CoarseEntry, Backed;
  }

  /** Other addresses translate as before. */
  lemma UnchangedOutside(m: Words, m1: Words, ttbr: bv32, va0: bv32, block: bv32, domain: bv32, v: bv32)
    requires TableBuilt(m, m1, ttbr, va0, block) && UnusedBy(m, ttbr, block, L2_MASK, v) && SeparateAt(m, ttbr, v)
    requires L1Index(v) != L1Index(va0)
    ensures Walk(WithTable(m1, ttbr, va0, block, domain), ttbr, v) == Walk(m, ttbr, v)
  {
    TableAligned(ttbr);
    OtherSlot(L1Table(ttbr), v, va0);
    SlotInTable(ttbr, va0);
    hide EntryAt, InBlock, TableWord, Page, CoarseEntry, L1Index, L1Table, L2Address, DomainOf, Filled, Section,
      Copyable;
  }

  /** Of all the walks only those of the section of `va0` read the block. */
  ghost predicate OnlyUse(m: Words, ttbr: bv32, va0: bv32, block: bv32)
  {
    forall v :: OnlyUseAt(m, ttbr, va0, block, v)
  }

  ghost predicate OnlyUseAt(m: Words, ttbr: bv32, va0: bv32, block: bv32, v: bv32)
  {
    && !InBlock(L1Address(ttbr, v), block, L2_MASK)
    && (&& L1Index(v) != L1Index(va0) && L1Address(ttbr, v) in m
        && (IsCoarse(m[L1Address(ttbr, v)]) || IsFine(m[L1Address(ttbr, v)]))
        ==> !InBlock(L2Address(m[L1Address(ttbr, v)], v), block, L2_MASK))
  }

  /** The table the old entry `d` names still holds what it held, away from both tables. */
  ghost predicate SourceKept(before: Words, m: Words, ttbr: bv32, block: bv32, d: bv32)
  {
    IsCoarse(d) ==> forall i: bv32 :: i < 256 ==> SourceKeptAt(before, m, ttbr, block, EntryAt(CoarseTable(d), i))
  }

  ghost predicate SourceKeptAt(before: Words, m: Words, ttbr: bv32, block: bv32, a: Addr)
  {
    a in before && a in m && m[a] == before[a] && !InBlock(a, block, L2_MASK) && !InBlock(a, L1Table(ttbr), TTB_MASK)
  }

  /** The section of `va0` is translated through the block, which nothing else reads. */
  ghost predicate Laid(m: Words, ttbr: bv32, va0: bv32, block: bv32, domain: bv32)
  {
    && block & L2_MASK == block
    && L1Address(ttbr, va0) in m && m[L1Address(ttbr, va0)] == CoarseEntry(block, domain)
    && Backed(m, block, 256)
    && OnlyUse(m, ttbr, va0, block)
  }

  /** What closing the editor goes back to: the old entry, and what it stands for. */
  ghost predicate Remembers(before: Words, m: Words, ttbr: bv32, va0: bv32, block: bv32, d: bv32)
  {
    && L1Address(ttbr, va0) in before && before[L1Address(ttbr, va0)] == d && !IsFine(d)
    && SourceKept(before, m, ttbr, block, d)
  }

  /** The section of `va0` is translated as before up to the domain, the rest exactly as before. */
  ghost predicate SectionConvertedTo(m: Words, m': Words, ttbr: bv32, va0: bv32, domain: bv32)
  {
    forall v :: Walk(m', ttbr, v) == if L1Index(v) == L1Index(va0) then Converted(Walk(m, ttbr, v), domain & 0xF)
      else Walk(m, ttbr, v)
  }

  /** The first-level entry of an address. */
  ghost function Entry(m: Words, ttbr: bv32, va: bv32): bv32
  {
    if L1Address(ttbr, va) in m then m[L1Address(ttbr, va)] else 0
  }

  /** A block that no walk reads shares no word with the first-level table. */
  lemma BlockApart(m: Words, ttbr: bv32, block: bv32, a: Addr)
    requires block & L2_MASK == block && InBlock(a, block, L2_MASK) && Unused(m, ttbr, block, L2_MASK)
    ensures !InBlock(a, L1Table(ttbr), TTB_MASK)
  {
    var i := (block & 0x3FFF) >> 2;
    assert UnusedBy(m, ttbr, block, L2_MASK, i << 20);
    assert !InBlock(L1Address(ttbr, i << 20), block, L2_MASK);
  }

  lemma LaidInside(m: Words, m1: Words, ttbr: bv32, va0: bv32, block: bv32, domain: bv32, v: bv32)
    requires TableBuilt(m, m1, ttbr, va0, block) && Unused(m, ttbr, block, L2_MASK) && L1Index(v) == L1Index(va0)
    ensures SeparateAt(WithTable(m1, ttbr, va0, block, domain), ttbr, v)
  {
    IndexInRange(v);
    CoarseEntryBits(block, domain);
    EntryInBlock(block, L2SmallPageIndex(v), L2_MASK);
    BlockApart(m, ttbr, block, EntryAt(block, L2SmallPageIndex(v)));
    hide L1Index, L1Table, L2SmallPageIndex, EntryAt, CoarseTable, InBlock, Unused, CoarseEntry, Filled, TableWord,
      Copyable;
  }

  /** The first-level entry of an address outside the section stays. */
  lemma OtherEntryKept(m: Words, m1: Words, ttbr: bv32, va0: bv32, block: bv32, domain: bv32, v: bv32)
    requires TableBuilt(m, m1, ttbr, va0, block) && !InBlock(L1Address(ttbr, v), block, L2_MASK)
      && L1Index(v) != L1Index(va0)
    ensures var m2 := WithTable(m1, ttbr, va0, block, domain);
      (L1Address(ttbr, v) in m2 <==> L1Address(ttbr, v) in m)
      && (L1Address(ttbr, v) in m ==> m2[L1Address(ttbr, v)] == m[L1Address(ttbr, v)])
  {
    TableAligned(ttbr);
    OtherSlot(L1Table(ttbr), v, va0);
    hide EntryAt, InBlock, L1Index, L1Table, CoarseEntry, Filled, Copyable, TableWord;
  }

  lemma LaidAt(m: Words, m1: Words, ttbr: bv32, va0: bv32, block: bv32, domain: bv32, v: bv32)
    requires TableBuilt(m, m1, ttbr, va0, block) && Unused(m, ttbr, block, L2_MASK) && SeparateAt(m, ttbr, v)
    ensures SeparateAt(WithTable(m1, ttbr, va0, block, domain), ttbr, v)
    ensures OnlyUseAt(WithTable(m1, ttbr, va0, block, domain), ttbr, va0, block, v)
  {
    hide TableBuilt, WithTable, EntryAt, InBlock, L1Address, L1Index, L1Table, L2Address;
    assert UnusedBy(m, ttbr, block, L2_MASK, v);
    hide Unused;
    if L1Index(v) == L1Index(va0) {
      LaidInside(m, m1, ttbr, va0, block, domain, v);
    } else {
      OtherEntryKept(m, m1, ttbr, va0, block, domain, v);
    }
  }

  /** Entries of the table the old entry names lie where a walk of the section looks. */
  lemma SourceAway(m: Words, ttbr: bv32, va0: bv32, block: bv32, i: bv32)
    requires L1Address(ttbr, va0) in m && IsCoarse(m[L1Address(ttbr, va0)]) && i < 256
    requires Unused(m, ttbr, block, L2_MASK) && Separate(m, ttbr)
    ensures var a := EntryAt(CoarseTable(m[L1Address(ttbr, va0)]), i);
      !InBlock(a, block, L2_MASK) && !InBlock(a, L1Table(ttbr), TTB_MASK)
  {
    var v := (va0 & 0xFFF0_0000) | (i << 12);
    assert L1Index(v) == L1Index(va0) && L2SmallPageIndex(v) == i;
    assert UnusedBy(m, ttbr, block, L2_MASK, v) && SeparateAt(m, ttbr, v);
    hide EntryAt, InBlock, L1Index, L1Table, L2SmallPageIndex, CoarseTable;
  }

  lemma KeptAfter(m: Words, m1: Words, ttbr: bv32, va0: bv32, block: bv32, domain: bv32)
    requires TableBuilt(m, m1, ttbr, va0, block) && Unused(m, ttbr, block, L2_MASK) && Separate(m, ttbr)
    ensures SourceKept(m, WithTable(m1, ttbr, va0, block, domain), ttbr, block, m[L1Address(ttbr, va0)])
  {
    var d := m[L1Address(ttbr, va0)];
    if IsCoarse(d) {
      SlotInTable(ttbr, va0);
      hide EntryAt, InBlock, L1Address, L1Table, CoarseTable, CoarseEntry, Filled, TableWord, Unused, Separate;
      forall i: bv32 | i < 256
        ensures SourceKeptAt(m, WithTable(m1, ttbr, va0, block, domain), ttbr, block, EntryAt(CoarseTable(d), i))
      {
        SourceAway(m, ttbr, va0, block, i);
      }
    }
  }

  /** Address `v` lies in page `i` of the section of `va0`. */
  predicate OnPage(v: bv32, va0: bv32, i: bv32)
  {
    L1Index(v) == L1Index(va0) && L2SmallPageIndex(v) == i
  }

  /** Memory after entry `i` of the table at the block was written. */
  function WithPage(m: Words, block: bv32, i: bv32, e: bv32): Words
  {
    m[EntryAt(block, i) := e]
  }

  /** Writing an entry of the block leaves the first-level entry of every address. */
  lemma FirstLevelKept(m: Words, ttbr: bv32, va0: bv32, block: bv32, i: bv32, e: bv32, v: bv32)
    requires block & L2_MASK == block && i < 256 && OnlyUseAt(m, ttbr, va0, block, v)
    ensures var m' := WithPage(m, block, i, e);
      (L1Address(ttbr, v) in m' <==> L1Address(ttbr, v) in m)
      && (L1Address(ttbr, v) in m ==> m'[L1Address(ttbr, v)] == m[L1Address(ttbr, v)])
  {
    EntryInBlock(block, i, L2_MASK);
    hide EntryAt, InBlock, L1Address;
  }

  /** An address of the page is walked from the entry written. */
  lemma WrittenInside(m: Words, ttbr: bv32, va0: bv32, block: bv32, domain: bv32, i: bv32, e: bv32, v: bv32)
    requires Laid(m, ttbr, va0, block, domain) && i < 256 && OnPage(v, va0, i)
    ensures Walk(WithPage(m, block, i, e), ttbr, v) == Page(e, v, false, domain & 0xF)
  {
    CoarseEntryBits(block, domain);
    assert OnlyUseAt(m, ttbr, va0, block, v);
    FirstLevelKept(m, ttbr, va0, block, i, e, v);
    assert L1Address(ttbr, v) == L1Address(ttbr, va0);
    hide L1Address, L1Index, L2SmallPageIndex, EntryAt, CoarseTable, CoarseEntry, DomainOf, Backed, OnlyUse, OnlyUseAt,
      Page;
  }

  /** Another address of the section is walked as before. */
  lemma WrittenBeside(m: Words, ttbr: bv32, va0: bv32, block: bv32, domain: bv32, i: bv32, e: bv32, v: bv32)
    requires Laid(m, ttbr, va0, block, domain) && i < 256
    requires L1Index(v) == L1Index(va0) && L2SmallPageIndex(v) != i
    ensures Walk(WithPage(m, block, i, e), ttbr, v) == Walk(m, ttbr, v)
  {
    CoarseEntryBits(block, domain);
    assert OnlyUseAt(m, ttbr, va0, block, v);
    FirstLevelKept(m, ttbr, va0, block, i, e, v);
    assert L1Address(ttbr, v) == L1Address(ttbr, va0);
    IndexInRange(v);
    EntriesDiffer(block, i, L2SmallPageIndex(v), L2_MASK);
    hide L1Address, L1Index, L2SmallPageIndex, EntryAt, CoarseTable, CoarseEntry, DomainOf, Backed, OnlyUse, OnlyUseAt,
      Page;
  }

  /** An address outside the section is walked as before. */
  lemma WrittenElsewhere(m: Words, ttbr: bv32, va0: bv32, block: bv32, domain: bv32, i: bv32, e: bv32, v: bv32)
    requires Laid(m, ttbr, va0, block, domain) && i < 256 && L1Index(v) != L1Index(va0)
    ensures Walk(WithPage(m, block, i, e), ttbr, v) == Walk(m, ttbr, v)
  {
    assert OnlyUseAt(m, ttbr, va0, block, v);
    FirstLevelKept(m, ttbr, va0, block, i, e, v);
    EntryInBlock(block, i, L2_MASK);
    hide L1Address, L1Index, L2SmallPageIndex, L2Address, EntryAt, InBlock, CoarseEntry, DomainOf, Backed, OnlyUse,
      Page, Section;
  }

  lemma WrittenPage(m: Words, ttbr: bv32, va0: bv32, block: bv32, domain: bv32, i: bv32, e: bv32, v: bv32)
    requires Laid(m, ttbr, va0, block, domain) && i < 256
    ensures Walk(WithPage(m, block, i, e), ttbr, v) ==
      if OnPage(v, va0, i) then Page(e, v, false, domain & 0xF) else Walk(m, ttbr, v)
  {
    hide Laid, Walk, WithPage, Page;
    if OnPage(v, va0, i) {
      WrittenInside(m, ttbr, va0, block, domain, i, e, v);
    } else if L1Index(v) == L1Index(va0) {
      WrittenBeside(m, ttbr, va0, block, domain, i, e, v);
    } else {
      WrittenElsewhere(m, ttbr, va0, block, domain, i, e, v);
    }
  }

  /** Writing an entry of the block keeps everything the editor relies on. */
  lemma WrittenKeeps(m: Words, ttbr: bv32, va0: bv32, block: bv32, domain: bv32, i: bv32, e: bv32, v: bv32)
    requires Laid(m, ttbr, va0, block, domain) && i < 256 && SeparateAt(m, ttbr, v)
    ensures SeparateAt(WithPage(m, block, i, e), ttbr, v)
    ensures OnlyUseAt(WithPage(m, block, i, e), ttbr, va0, block, v)
  {
    assert OnlyUseAt(m, ttbr, va0, block, v);
    FirstLevelKept(m, ttbr, va0, block, i, e, v);
    hide WithPage, L1Address, L1Index, L2Address, EntryAt, InBlock, CoarseEntry, Backed, OnlyUse;
  }

  lemma LaidKept(m: Words, ttbr: bv32, va0: bv32, block: bv32, domain: bv32, i: bv32, e: bv32)
    requires Laid(m, ttbr, va0, block, domain) && i < 256 && Separate(m, ttbr) && Backed(m, L1Table(ttbr), 4096)
    ensures var m' := WithPage(m, block, i, e);
      Laid(m', ttbr, va0, block, domain) && Separate(m', ttbr) && Backed(m', L1Table(ttbr), 4096)
  {
    var m' := WithPage(m, block, i, e);
    forall v
      ensures SeparateAt(m', ttbr, v) && OnlyUseAt(m', ttbr, va0, block, v)
    {
      assert SeparateAt(m, ttbr, v);
      WrittenKeeps(m, ttbr, va0, block, domain, i, e, v);
    }
    assert OnlyUseAt(m, ttbr, va0, block, va0);
    FirstLevelKept(m, ttbr, va0, block, i, e, va0);
    hide L1Address, L1Table, EntryAt, CoarseEntry, OnlyUseAt, SeparateAt;
  }

  lemma SourceStays(before: Words, m: Words, ttbr: bv32, block: bv32, d: bv32, i: bv32, e: bv32)
    requires SourceKept(before, m, ttbr, block, d) && block & L2_MASK == block && i < 256
    ensures SourceKept(before, WithPage(m, block, i, e), ttbr, block, d)
  {
    EntryInBlock(block, i, L2_MASK);
    hide EntryAt, InBlock, CoarseTable, L1Table, IsCoarse;
  }

  /** Once the table is built and named by the entry, the editor is in place. */
  lemma LaidWhole(m: Words, m1: Words, ttbr: bv32, va0: bv32, block: bv32, domain: bv32)
    requires TableBuilt(m, m1, ttbr, va0, block) && Unused(m, ttbr, block, L2_MASK)
    requires Separate(m, ttbr) && Backed(m, L1Table(ttbr), 4096)
    ensures var m2 := WithTable(m1, ttbr, va0, block, domain);
      && Laid(m2, ttbr, va0, block, domain) && Separate(m2, ttbr) && Backed(m2, L1Table(ttbr), 4096)
      && Remembers(m, m2, ttbr, va0, block, m[L1Address(ttbr, va0)])
      && SectionConvertedTo(m, m2, ttbr, va0, domain)
  {
    hide Walk, WalkFrom, Converted, SourceKept, SameOutside, Unused, UnusedBy, EntryAt, InBlock, L1Index, L1Table,
      CoarseEntry;
    var m2 := WithTable(m1, ttbr, va0, block, domain);
    forall v
      ensures SeparateAt(m2, ttbr, v) && OnlyUseAt(m2, ttbr, va0, block, v)
    {
      assert SeparateAt(m, ttbr, v);
      LaidAt(m, m1, ttbr, va0, block, domain, v);
    }
    AllConverted(m, m1, ttbr, va0, block, domain);
    KeptAfter(m, m1, ttbr, va0, block, domain);
    TablesBacked(m, m1, ttbr, va0, block, domain);
    hide SectionConvertedTo, SeparateAt, OnlyUseAt, Backed, Filled, TableWord, Copyable;
  }

  lemma AllConverted(m: Words, m1: Words, ttbr: bv32, va0: bv32, block: bv32, domain: bv32)
    requires TableBuilt(m, m1, ttbr, va0, block) && Unused(m, ttbr, block, L2_MASK) && Separate(m, ttbr)
    ensures SectionConvertedTo(m, WithTable(m1, ttbr, va0, block, domain), ttbr, va0, domain)
  {
    hide Walk, Converted, TableBuilt, L1Index, UnusedBy, SeparateAt, WithTable;
    forall v
      ensures Walk(WithTable(m1, ttbr, va0, block, domain), ttbr, v)
           == if L1Index(v) == L1Index(va0) then Converted(Walk(m, ttbr, v), domain & 0xF) else Walk(m, ttbr, v)
    {
      assert SeparateAt(m, ttbr, v);
      assert UnusedBy(m, ttbr, block, L2_MASK, v);
      if L1Index(v) == L1Index(va0) {
        ConvertedInside(m, m1, ttbr, va0, block, domain, v);
      } else {
        UnchangedOutside(m, m1, ttbr, va0, block, domain, v);
      }
    }
  }

  lemma TablesBacked(m: Words, m1: Words, ttbr: bv32, va0: bv32, block: bv32, domain: bv32)
    requires TableBuilt(m, m1, ttbr, va0, block) && Unused(m, ttbr, block, L2_MASK) && Backed(m, L1Table(ttbr), 4096)
    ensures var m2 := WithTable(m1, ttbr, va0, block, domain); Backed(m2, L1Table(ttbr), 4096) && Backed(m2, block, 256)
  {
    UnusedSlots(m, ttbr, block);
    hide EntryAt, InBlock, L1Address, L1Table, CoarseEntry, TableWord, Copyable, Unused;
  }

  /** No entry of the first-level table lies in a block that no walk reads. */
  lemma UnusedSlots(m: Words, ttbr: bv32, block: bv32)
    requires Unused(m, ttbr, block, L2_MASK)
    ensures Outside(L1Table(ttbr), 4096, block, L2_MASK)
  {
    forall i: bv32 | i < 4096
      ensures !InBlock(EntryAt(L1Table(ttbr), i), block, L2_MASK)
    {
      assert L1Index(i << 20) == i;
      assert UnusedBy(m, ttbr, block, L2_MASK, i << 20);
    }
  }

  lemma SourceOutside(m: Words, ttbr: bv32, va0: bv32, block: bv32)
    requires L1Address(ttbr, va0) in m && Unused(m, ttbr, block, L2_MASK) && Separate(m, ttbr)
    ensures var d := m[L1Address(ttbr, va0)]; IsCoarse(d) ==> Outside(CoarseTable(d), 256, block, L2_MASK)
  {
    var d := m[L1Address(ttbr, va0)];
    if IsCoarse(d) {
      forall i: bv32 | i < 256
        ensures !InBlock(EntryAt(CoarseTable(d), i), block, L2_MASK)
      {
        SourceAway(m, ttbr, va0, block, i);
      }
    }
    hide L1Address, CoarseTable, EntryAt, InBlock, Unused, Separate;
  }

  /** Laying the table writes the block and the entry only. */
  lemma OnlyTable(m: Words, m1: Words, ttbr: bv32, va0: bv32, block: bv32, domain: bv32)
    requires SameOutside(m, m1, block, L2_MASK)
    ensures SameOutside(m[L1Address(ttbr, va0) := CoarseEntry(block, domain)],
      WithTable(m1, ttbr, va0, block, domain), block, L2_MASK)
  {
    hide InBlock, L1Address, CoarseEntry;
  }

  /** Fill the block from the old first-level entry: copy its table, spell its section out page by
      page, or leave faults. */
  method BuildTable(machine: Machine, l1Entry: bv32, block: bv32)
    requires block & L2_MASK == block && Copyable(machine.words, l1Entry)
    requires IsCoarse(l1Entry) ==> Outside(CoarseTable(l1Entry), 256, block, L2_MASK)
    modifies machine`words
    ensures SameOutside(old(machine.words), machine.words, block, L2_MASK)
    ensures Filled(machine.words, block, 256, TableWord(old(machine.words), l1Entry))
  {
    hide Filled, SameOutside, Outside, SectionPage;
    if IsCoarse(l1Entry) {
      CopyTable(machine, CoarseTable(l1Entry), block, 256, L2_MASK);
    } else {
      FillTable(machine, l1Entry, block);
    }
  }

  /** The loop over a section, or memset to faults. */
  method FillTable(machine: Machine, l1Entry: bv32, block: bv32)
    requires block & L2_MASK == block && !IsCoarse(l1Entry)
    modifies machine`words
    ensures SameOutside(old(machine.words), machine.words, block, L2_MASK)
    ensures Filled(machine.words, block, 256, TableWord(old(machine.words), l1Entry))
  {
    ghost var word := TableWord(machine.words, l1Entry);
    hide SectionPage, EntryAt, InBlock;
    var i: bv32 := 0;
    while i < 256
      invariant i <= 256
      invariant SameOutside(old(machine.words), machine.words, block, L2_MASK)
      invariant Filled(machine.words, block, i, word)
      decreases 256 - i
    {
      FillNext(old(machine.words), machine.words, block, i, word, L2_MASK);
      hide Filled, SameOutside;
      var entry := if IsSection(l1Entry) then SectionPage(l1Entry, i) else 0;
      assert entry == word(i);
      machine.words := machine.words[EntryAt(block, i) := entry];
      i := i + 1;
    }
  }

  /** How a caller of Map4KBPage or Map64KBPage asks for an address to be translated. */
  function SmallPageMapping(pa: bv32, attributes: bv32, v: bv32, domain: bv32): Outcome
  {
    Mapped((pa & 0xFFFF_F000) | (v & 0xFFF), SubpagePermission(attributes, (v >> 10) & 3), attributes & 0xC, domain)
  }

  function LargePageMapping(pa: bv32, attributes: bv32, v: bv32, domain: bv32): Outcome
  {
    Mapped((pa & 0xFFFF_0000) | (v & 0xFFFF), SubpagePermission(attributes, (v >> 14) & 3), attributes & 0xC, domain)
  }

  /** Attributes that only hold permissions and a cache policy. */
  predicate PageAttributes(attributes: bv32)
  {
    attributes & 0xFFFF_F003 == 0
  }

  lemma SamePermissions(e: bv32, attributes: bv32, subpage: bv32)
    requires e & 0xFF0 == attributes & 0xFF0
    ensures SubpagePermission(e, subpage) == SubpagePermission(attributes, subpage)
  {
    assert e & 0x30 == attributes & 0x30 && e & 0xC0 == attributes & 0xC0;
    assert e & 0x300 == attributes & 0x300 && e & 0xC00 == attributes & 0xC00;
  }

  lemma DescriptorBits(base: bv32, kind: bv32, attributes: bv32)
    requires PageAttributes(attributes) && base & 0xFFF == 0 && kind < 4
    ensures var e := base | kind | attributes;
      e & 3 == kind && e & 0xFFFF_F000 == base && e & 0xC == attributes & 0xC && e & 0xFF0 == attributes & 0xFF0
  {
  }

  lemma SmallPageBits(pa: bv32, attributes: bv32, v: bv32, domain: bv32)
    requires PageAttributes(attributes)
    ensures Page((pa & 0xFFFF_F000) | 2 | attributes, v, false, domain) == SmallPageMapping(pa, attributes, v, domain)
  {
    var e := (pa & 0xFFFF_F000) | 2 | attributes;
    DescriptorBits(pa & 0xFFFF_F000, 2, attributes);
    SamePermissions(e, attributes, (v >> 10) & 3);
    SmallPageOf(e, pa, attributes, v, domain);
  }

  lemma SmallPageOf(e: bv32, pa: bv32, attributes: bv32, v: bv32, domain: bv32)
    requires e & 3 == 2 && e & 0xFFFF_F000 == pa & 0xFFFF_F000 && e & 0xC == attributes & 0xC
    requires SubpagePermission(e, (v >> 10) & 3) == SubpagePermission(attributes, (v >> 10) & 3)
    ensures Page(e, v, false, domain) == SmallPageMapping(pa, attributes, v, domain)
  {
    hide SubpagePermission;
  }

  lemma LargePageBits(pa: bv32, attributes: bv32, v: bv32, domain: bv32)
    requires PageAttributes(attributes)
    ensures Page((pa & 0xFFFF_0000) | 1 | attributes, v, false, domain) == LargePageMapping(pa, attributes, v, domain)
  {
    var e := (pa & 0xFFFF_0000) | 1 | attributes;
    DescriptorBits(pa & 0xFFFF_0000, 1, attributes);
    SamePermissions(e, attributes, (v >> 14) & 3);
    LargePageOf(e, pa, attributes, v, domain);
  }

  lemma LargePageOf(e: bv32, pa: bv32, attributes: bv32, v: bv32, domain: bv32)
    requires e & 3 == 1 && e & 0xFFFF_F000 == pa & 0xFFFF_0000 && e & 0xC == attributes & 0xC
    requires SubpagePermission(e, (v >> 14) & 3) == SubpagePermission(attributes, (v >> 14) & 3)
    ensures Page(e, v, false, domain) == LargePageMapping(pa, attributes, v, domain)
  {
    assert e & 0xFFFF_0000 == pa & 0xFFFF_0000;
    hide SubpagePermission;
  }

  /** First entry of the large page of an address. */
  function L2LargePageIndex(va: bv32): bv32
  {
    L2SmallPageIndex(va) & 0xF0
  }

  /** Address `v` lies in the large page that `va` names in the section of `va0`. */
  predicate OnLargePage(v: bv32, va0: bv32, va: bv32)
  {
    L1Index(v) == L1Index(va0) && L2LargePageIndex(v) == L2LargePageIndex(va)
  }

  /** Address `v` lies on one of `n` pages from page `first` of the section of `va0`. */
  predicate OnPages(v: bv32, va0: bv32, first: bv32, n: bv32)
  {
    L1Index(v) == L1Index(va0) && first <= L2SmallPageIndex(v) < first + n
  }

  lemma PageInBlock(m: Words, block: bv32, i: bv32, e: bv32)
    requires block & L2_MASK == block && i < 256
    ensures SameOutside(m, WithPage(m, block, i, e), block, L2_MASK)
  {
    EntryInBlock(block, i, L2_MASK);
    hide EntryAt, InBlock;
  }

  lemma StoreKeeps(before: Words, m: Words, ttbr: bv32, va0: bv32, block: bv32, domain: bv32, d: bv32, i: bv32, e: bv32)
    requires Laid(m, ttbr, va0, block, domain) && Separate(m, ttbr) && Backed(m, L1Table(ttbr), 4096)
    requires Remembers(before, m, ttbr, va0, block, d) && i < 256
    ensures var m' := WithPage(m, block, i, e);
      && Laid(m', ttbr, va0, block, domain) && Separate(m', ttbr) && Backed(m', L1Table(ttbr), 4096)
      && Remembers(before, m', ttbr, va0, block, d) && SameOutside(m, m', block, L2_MASK)
  {
    hide SameOutside, Separate, Backed, EntryAt, L1Table, L1Address, CoarseEntry, OnlyUse, SourceKept, WithPage;
    LaidKept(m, ttbr, va0, block, domain, i, e);
    SourceStays(before, m, ttbr, block, d, i, e);
    PageInBlock(m, block, i, e);
  }

  lemma SameOutsideTwice(m: Words, m1: Words, m2: Words, base: bv32, mask: bv32)
    requires SameOutside(m, m1, base, mask) && SameOutside(m1, m2, base, mask)
    ensures SameOutside(m, m2, base, mask)
  {
    hide InBlock;
  }

  lemma SameOutsideSelf(m: Words, base: bv32, mask: bv32)
    ensures SameOutside(m, m, base, mask)
  {
    hide InBlock;
  }

  /** The first `n` pages from `first` are walked from the descriptor `e`, the rest as before. */
  ghost predicate PagesMapped(m: Words, m': Words, ttbr: bv32, va0: bv32, first: bv32, n: bv32, e: bv32, domain: bv32)
  {
    forall v :: Walk(m', ttbr, v) == if OnPages(v, va0, first, n) then Page(e, v, false, domain & 0xF)
      else Walk(m, ttbr, v)
  }

  lemma LargeIndexInRange(va: bv32, i: bv32)
    requires i < 16
    ensures L2LargePageIndex(va) <= 0xF0 && L2LargePageIndex(va) + i < 256
  {
  }

  lemma PagesBegin(m: Words, ttbr: bv32, va0: bv32, first: bv32, e: bv32, domain: bv32)
    ensures PagesMapped(m, m, ttbr, va0, first, 0, e, domain)
  {
    forall v
      ensures !OnPages(v, va0, first, 0)
    {
    }
    hide Walk, OnPages, Page;
  }

  lemma OneMorePage(v: bv32, va0: bv32, first: bv32, n: bv32)
    requires first <= 0xF0 && n < 16
    ensures OnPages(v, va0, first, n + 1) <==> OnPages(v, va0, first, n) || OnPage(v, va0, first + n)
  {
    hide L1Index, L2SmallPageIndex;
  }

  lemma PagesNext(m: Words, m1: Words, ttbr: bv32, va0: bv32, block: bv32, first: bv32, n: bv32, e: bv32, domain: bv32)
    requires first <= 0xF0 && n < 16 && Laid(m1, ttbr, va0, block, domain)
    requires PagesMapped(m, m1, ttbr, va0, first, n, e, domain)
    ensures PagesMapped(m, WithPage(m1, block, first + n, e), ttbr, va0, first, n + 1, e, domain)
  {
    hide Walk, OnPages, OnPage, Page, Laid, WithPage;
    forall v
      ensures Walk(WithPage(m1, block, first + n, e), ttbr, v)
           == if OnPages(v, va0, first, n + 1) then Page(e, v, false, domain & 0xF) else Walk(m, ttbr, v)
    {
      OneMorePage(v, va0, first, n);
      WrittenPage(m1, ttbr, va0, block, domain, first + n, e, v);
    }
  }

  /** Sixteen pages from a large page's first entry are that large page. */
  lemma SixteenPages(v: bv32, va0: bv32, va: bv32)
    ensures OnPages(v, va0, L2LargePageIndex(va), 16) <==> OnLargePage(v, va0, va)
  {
    var p, q := L2SmallPageIndex(v), L2SmallPageIndex(va);
    IndexInRange(v);
    IndexInRange(va);
    LargeRange(p, q);
    hide L1Index, L2SmallPageIndex;
  }

  lemma LargeRange(p: bv32, q: bv32)
    requires p < 256 && q < 256
    ensures q & 0xF0 <= p < (q & 0xF0) + 16 <==> p & 0xF0 == q & 0xF0
  {
  }

  lemma LargePageMapped(m: Words, m': Words, ttbr: bv32, va0: bv32, va: bv32, pa: bv32, attributes: bv32, domain: bv32)
    requires PagesMapped(m, m', ttbr, va0, L2LargePageIndex(va), 16, (pa & 0xFFFF_0000) | 1 | attributes, domain)
    ensures forall v :: !OnLargePage(v, va0, va) ==> Walk(m', ttbr, v) == Walk(m, ttbr, v)
    ensures PageAttributes(attributes) ==>
      forall v :: OnLargePage(v, va0, va) ==> Walk(m', ttbr, v) == LargePageMapping(pa, attributes, v, domain & 0xF)
  {
    var e := (pa & 0xFFFF_0000) | 1 | attributes;
    hide Walk, OnPages, OnLargePage, Page, PageAttributes, LargePageMapping, L2LargePageIndex;
    forall v
      ensures Walk(m', ttbr, v) == if OnLargePage(v, va0, va) then Page(e, v, false, domain & 0xF) else Walk(m, ttbr, v)
      ensures PageAttributes(attributes) ==>
        Page(e, v, false, domain & 0xF) == LargePageMapping(pa, attributes, v, domain & 0xF)
    {
      SixteenPages(v, va0, va);
      if PageAttributes(attributes) {
        LargePageBits(pa, attributes, v, domain & 0xF);
      }
    }
  }

  /** Writing the old entry back. */
  lemma Restored(before: Words, m: Words, ttbr: bv32, va0: bv32, block: bv32, domain: bv32, d: bv32, v: bv32)
    requires Laid(m, ttbr, va0, block, domain) && Separate(m, ttbr) && Remembers(before, m, ttbr, va0, block, d)
    ensures Walk(m[L1Address(ttbr, va0) := d], ttbr, v)
         == if L1Index(v) == L1Index(va0) then Walk(before, ttbr, v) else Walk(m, ttbr, v)
  {
    assert SeparateAt(m, ttbr, v);
    WrittenEntry(m, ttbr, va0, d, v);
    if L1Index(v) == L1Index(va0) {
      RestoredInside(before, m, ttbr, va0, block, d, v);
    }
    hide Walk, WalkFrom, Laid, Separate, SeparateAt, Remembers;
  }

  lemma RestoredInside(before: Words, m: Words, ttbr: bv32, va0: bv32, block: bv32, d: bv32, v: bv32)
    requires Remembers(before, m, ttbr, va0, block, d) && L1Index(v) == L1Index(va0)
    ensures WalkFrom(m[L1Address(ttbr, va0) := d], d, v) == Walk(before, ttbr, v)
  {
    IndexInRange(v);
    SlotInTable(ttbr, va0);
    assert IsCoarse(d) ==> SourceKeptAt(before, m, ttbr, block, L2Address(d, v));
    assert L1Address(ttbr, v) == L1Address(ttbr, va0);
    hide L1Address, L1Index, L1Table, L2Address, EntryAt, InBlock, Page, Section, SourceKept, CoarseTable, DomainOf;
  }

  class CoarseEditor {
    const parent: MmuEditor
    const virtualAddr: bv32
    const oldL1Entry: bv32
    var l2Table: Pointer
    ghost const domain: bv32
    /** Memory when the editor was made. */
    ghost const before: Words

    constructor Over(parent: MmuEditor, virtualAddr: bv32, oldL1Entry: bv32, domain: bv32, block: bv32)
      ensures this.parent == parent && this.virtualAddr == virtualAddr && this.oldL1Entry == oldL1Entry
      ensures this.domain == domain && l2Table == At(block) && before == parent.machine.words
    {
      this.parent, this.virtualAddr, this.oldL1Entry := parent, virtualAddr, oldL1Entry;
      this.domain, before := domain, parent.machine.words;
      l2Table := At(block);
    }

    /** While the editor has its table, the section is translated through it, nothing else reads it,
        and what the old entry stood for is still there. */
    ghost predicate Valid()
      reads this, parent, parent.machine
    {
      l2Table.At? ==>
        && parent.Valid() && parent.editedTable.At?
        && Laid(parent.machine.words, parent.machine.ttbr, virtualAddr, l2Table.addr, domain)
        && Remembers(before, parent.machine.words, parent.machine.ttbr, virtualAddr, l2Table.addr, oldL1Entry)
    }

    /** Every address of the section keeps its page, permission and cache policy; every other address
        keeps its translation. */
    static method Create(parent: MmuEditor, virtualAddr: bv32, domain: bv32, block: Pointer)
      returns (r: Result<CoarseEditor>)
      requires parent.Valid()
      requires parent.editedTable.At? ==>
        var d := Entry(parent.machine.words, parent.machine.ttbr, virtualAddr);
        IsCoarse(d) ==> Backed(parent.machine.words, CoarseTable(d), 256)
      requires parent.editedTable.At? && block.At? ==>
        block.addr & L2_MASK == block.addr && Unused(parent.machine.words, parent.machine.ttbr, block.addr, L2_MASK)
      modifies parent.machine`words
      ensures r.Err? ==> parent.machine.words == old(parent.machine.words)
      ensures r == Err(RuntimeError) <==>
        parent.editedTable == Null || IsFine(Entry(old(parent.machine.words), parent.machine.ttbr, virtualAddr))
      ensures r == Err(BadAlloc) <==> r != Err(RuntimeError) && block == Null
      ensures r.Ok? ==>
        && fresh(r.value) && r.value.parent == parent && r.value.virtualAddr == virtualAddr && r.value.l2Table == block
        && r.value.domain == domain && r.value.before == old(parent.machine.words) && r.value.Valid()
        && SameOutside(
             old(parent.machine.words)[L1Address(parent.machine.ttbr, virtualAddr) := CoarseEntry(block.addr, domain)],
             parent.machine.words, block.addr, L2_MASK)
        && SectionConvertedTo(old(parent.machine.words), parent.machine.words, parent.machine.ttbr, virtualAddr, domain)
    {
      var l1Entry := parent.GetEntry(virtualAddr);
      if IsFine(l1Entry) {
        return Err(RuntimeError);
      }
      if block == Null {
        return Err(BadAlloc);
      }
      var editor := new CoarseEditor.Over(parent, virtualAddr, l1Entry, domain, block.addr);
      editor.Lay(block.addr, domain);
      return Ok(editor);
    }

    /** Fill the table and put it in place of the old entry. */
    method Lay(block: bv32, domain: bv32)
      requires domain == this.domain
      requires parent.Valid() && parent.editedTable.At? && l2Table == At(block) && before == parent.machine.words
      requires L1Address(parent.machine.ttbr, virtualAddr) in before
        && before[L1Address(parent.machine.ttbr, virtualAddr)] == oldL1Entry
      requires Copyable(before, oldL1Entry)
      requires block & L2_MASK == block && Unused(before, parent.machine.ttbr, block, L2_MASK)
      modifies parent.machine`words
      ensures Valid()
      ensures SameOutside(before[L1Address(parent.machine.ttbr, virtualAddr) := CoarseEntry(block, domain)],
                          parent.machine.words, block, L2_MASK)
      ensures SectionConvertedTo(before, parent.machine.words, parent.machine.ttbr, virtualAddr, domain)
    {
      hide Laid, Remembers, SectionConvertedTo, Unused, Copyable, Filled, SameOutside, TableWord, CoarseEntry, Backed,
        Separate, Outside, EntryAt, L1Table, L1Index;
      ghost var ttbr := parent.machine.ttbr;
      SourceOutside(before, ttbr, virtualAddr, block);
      BuildTable(parent.machine, oldL1Entry, block);
      ghost var filled := parent.machine.words;
      LaidWhole(before, filled, ttbr, virtualAddr, block, domain);
      OnlyTable(before, filled, ttbr, virtualAddr, block, domain);
      var newL1Entry := CoarseEntry(block, domain);
      parent.Map(virtualAddr, newL1Entry);
    }

    /** Store one entry of the editor's table. */
    method Store(index: bv32, e: bv32)
      requires Valid() && l2Table.At? && index < 256
      modifies parent.machine`words
      ensures Valid()
      ensures parent.machine.words == WithPage(old(parent.machine.words), l2Table.addr, index, e)
      ensures SameOutside(old(parent.machine.words), parent.machine.words, l2Table.addr, L2_MASK)
    {
      hide Laid, Remembers, SameOutside, Separate, Backed, EntryAt, L1Table;
      StoreKeeps(before, parent.machine.words, parent.machine.ttbr, virtualAddr, l2Table.addr, domain, oldL1Entry,
        index, e);
      parent.machine.words := parent.machine.words[EntryAt(l2Table.addr, index) := e];
    }

    /** Map one small page: exactly the addresses of that page of the editor's section, which need
        not be the section `va` lies in, are translated as asked. */
    method Map4KBPage(va: bv32, pa: bv32, attributes: bv32)
      requires Valid()
      modifies parent.machine`words
      ensures Valid()
      ensures l2Table == Null ==> parent.machine.words == old(parent.machine.words)
      ensures l2Table.At? ==> SameOutside(old(parent.machine.words), parent.machine.words, l2Table.addr, L2_MASK)
      ensures l2Table.At? ==>
        forall v :: !OnPage(v, virtualAddr, L2SmallPageIndex(va)) ==>
          Walk(parent.machine.words, parent.machine.ttbr, v) == Walk(old(parent.machine.words), parent.machine.ttbr, v)
      ensures l2Table.At? && PageAttributes(attributes) ==>
        forall v :: OnPage(v, virtualAddr, L2SmallPageIndex(va)) ==>
          Walk(parent.machine.words, parent.machine.ttbr, v) == SmallPageMapping(pa, attributes, v, domain & 0xF)
    {
      if l2Table == Null {
        return;
      }
      IndexInRange(va);
      var index := L2SmallPageIndex(va);
      var newDescriptor := (pa & 0xFFFF_F000) | 2 | attributes;
      Store(index, newDescriptor);
      forall v
        ensures Walk(parent.machine.words, parent.machine.ttbr, v) ==
          if OnPage(v, virtualAddr, index) then Page(newDescriptor, v, false, domain & 0xF)
          else Walk(old(parent.machine.words), parent.machine.ttbr, v)
        ensures PageAttributes(attributes) ==>
          Page(newDescriptor, v, false, domain & 0xF) == SmallPageMapping(pa, attributes, v, domain & 0xF)
      {
        WrittenPage(old(parent.machine.words), parent.machine.ttbr, virtualAddr, l2Table.addr, domain, index,
          newDescriptor, v);
        if PageAttributes(attributes) {
          SmallPageBits(pa, attributes, v, domain & 0xF);
        }
      }
      hide *;
    }

    /** Map one large page: sixteen equal entries. */
    method Map64KBPage(va: bv32, pa: bv32, attributes: bv32)
      requires Valid()
      modifies parent.machine`words
      ensures Valid()
      ensures l2Table == Null ==> parent.machine.words == old(parent.machine.words)
      ensures l2Table.At? ==> SameOutside(old(parent.machine.words), parent.machine.words, l2Table.addr, L2_MASK)
      ensures l2Table.At? ==>
        forall v :: !OnLargePage(v, virtualAddr, va) ==>
          Walk(parent.machine.words, parent.machine.ttbr, v) == Walk(old(parent.machine.words), parent.machine.ttbr, v)
      ensures l2Table.At? && PageAttributes(attributes) ==>
        forall v :: OnLargePage(v, virtualAddr, va) ==>
          Walk(parent.machine.words, parent.machine.ttbr, v) == LargePageMapping(pa, attributes, v, domain & 0xF)
    {
      if l2Table == Null {
        return;
      }
      hide *;
      var index := L2LargePageIndex(va);
      var newDescriptor := (pa & 0xFFFF_0000) | 1 | attributes;
      var i: bv32 := 0;
      SameOutsideSelf(parent.machine.words, l2Table.addr, L2_MASK);
      PagesBegin(old(parent.machine.words), parent.machine.ttbr, virtualAddr, index, newDescriptor, domain);
      while i < 16
        invariant i <= 16 && Valid()
        invariant SameOutside(old(parent.machine.words), parent.machine.words, l2Table.addr, L2_MASK)
        invariant PagesMapped(old(parent.machine.words), parent.machine.words, parent.machine.ttbr, virtualAddr,
          index, i, newDescriptor, domain)
        decreases 16 - i
      {
        LargeIndexInRange(va, i);
        ghost var m := parent.machine.words;
        PagesNext(old(parent.machine.words), parent.machine.words, parent.machine.ttbr, virtualAddr, l2Table.addr,
          index, i, newDescriptor, domain);
        Store(index + i, newDescriptor);
        SameOutsideTwice(old(parent.machine.words), m, parent.machine.words, l2Table.addr, L2_MASK);
        i := i + 1;
      }
      LargePageMapped(old(parent.machine.words), parent.machine.words, parent.machine.ttbr, virtualAddr, va, pa,
        attributes, domain);
    }

    /** Put the old first-level entry back: the section is translated as it was before the editor was
        made, and no other address is affected. */
    method Close()
      requires Valid()
      modifies this, parent.machine`words
      ensures l2Table == Null
      ensures old(l2Table) == Null ==> parent.machine.words == old(parent.machine.words)
      ensures old(l2Table).At? ==>
        parent.machine.words == old(parent.machine.words)[L1Address(parent.machine.ttbr, virtualAddr) := oldL1Entry]
      ensures old(l2Table).At? ==>
        forall v :: Walk(parent.machine.words, parent.machine.ttbr, v) ==
          if L1Index(v) == L1Index(virtualAddr) then Walk(before, parent.machine.ttbr, v)
          else Walk(old(parent.machine.words), parent.machine.ttbr, v)
    {
      if l2Table != Null {
        forall v
          ensures
            var words := parent.machine.words[L1Address(parent.machine.ttbr, virtualAddr) := oldL1Entry];
            Walk(words, parent.machine.ttbr, v) ==
            if L1Index(v) == L1Index(virtualAddr) then Walk(before, parent.machine.ttbr, v)
            else Walk(parent.machine.words, parent.machine.ttbr, v)
        {
          Restored(before, parent.machine.words, parent.machine.ttbr, virtualAddr, l2Table.addr, domain, oldL1Entry, v);
        }
        hide Walk, L1Index, L1Address, Laid, Remembers, Separate, Backed;
        parent.Map(virtualAddr, oldL1Entry);
        l2Table := Null;
      }
    }
  }

  /** Memory `m'` holds what `m` holds wherever it lies in neither block. */
  ghost predicate SameBut(m: Words, m': Words, table: bv32, l2: bv32)
  {
    forall a: Addr :: !InBlock(a, table, TTB_MASK) && !InBlock(a, l2, L2_MASK) ==>
      (a in m <==> a in m') && (a in m ==> m[a] == m'[a])
  }

  /** Walks that read neither block do not notice what happened to the blocks. */
  lemma NotNoticed(m: Words, m': Words, ttbr: bv32, table: bv32, l2: bv32)
    requires SameBut(m, m', table, l2) && Unused(m, ttbr, table, TTB_MASK) && Unused(m, ttbr, l2, L2_MASK)
    ensures SameTranslation(m, ttbr, m', ttbr)
  {
    forall v
      ensures Walk(m', ttbr, v) == Walk(m, ttbr, v)
    {
      assert UnusedBy(m, ttbr, table, TTB_MASK, v) && UnusedBy(m, ttbr, l2, L2_MASK, v);
      hide InBlock, L1Address, L2Address, Page, Section, DomainOf, Unused;
    }
  }

  lemma SlotBacked(m: Words, ttbr: bv32, va: bv32)
    requires Backed(m, L1Table(ttbr), 4096)
    ensures L1Address(ttbr, va) in m
  {
    IndexInRange(va);
    hide EntryAt, L1Index, L1Table;
  }

  /** Blocks of an allocation do not overlap. */
  predicate Disjoint(table: bv32, l2: bv32)
  {
    l2 & TTB_MASK != table
  }

  lemma DisjointBlocks(table: bv32, l2: bv32, a: Addr)
    requires Disjoint(table, l2) && l2 & L2_MASK == l2
    ensures !(InBlock(a, table, TTB_MASK) && InBlock(a, l2, L2_MASK))
  {
  }

  /** A block the old walk does not read is not read through the copy of the table either. */
  lemma StillUnused(m: Words, m': Words, ttbr: bv32, ttbr': bv32, l2: bv32, v: bv32)
    requires SameOutside(m, m', L1Table(ttbr'), TTB_MASK)
      && Filled(m', L1Table(ttbr'), 4096, SourceWord(m, L1Table(ttbr)))
    requires UnusedBy(m, ttbr, l2, L2_MASK, v) && Disjoint(L1Table(ttbr'), l2) && l2 & L2_MASK == l2
    requires Backed(m, L1Table(ttbr), 4096)
    ensures UnusedBy(m', ttbr', l2, L2_MASK, v)
  {
    IndexInRange(v);
    SlotInTable(ttbr', v);
    DisjointBlocks(L1Table(ttbr'), l2, L1Address(ttbr', v));
    hide EntryAt, InBlock, L1Index, L1Table, L2Address, Disjoint;
  }

  lemma AllStillUnused(m: Words, m': Words, ttbr: bv32, ttbr': bv32, l2: bv32)
    requires SameOutside(m, m', L1Table(ttbr'), TTB_MASK)
      && Filled(m', L1Table(ttbr'), 4096, SourceWord(m, L1Table(ttbr)))
    requires Unused(m, ttbr, l2, L2_MASK) && Disjoint(L1Table(ttbr'), l2) && l2 & L2_MASK == l2
    requires Backed(m, L1Table(ttbr), 4096)
    ensures Unused(m', ttbr', l2, L2_MASK)
  {
    hide UnusedBy, Filled, SameOutside, Disjoint, L1Table, Backed;
    forall v
      ensures UnusedBy(m', ttbr', l2, L2_MASK, v)
    {
      assert UnusedBy(m, ttbr, l2, L2_MASK, v);
      StillUnused(m, m', ttbr, ttbr', l2, v);
    }
  }

  /** The entry the copied table has for an address, and what it names, are the original's. */
  lemma CopiedEntry(m: Words, m': Words, ttbr: bv32, ttbr': bv32, va: bv32)
    requires SameOutside(m, m', L1Table(ttbr'), TTB_MASK)
      && Filled(m', L1Table(ttbr'), 4096, SourceWord(m, L1Table(ttbr)))
    requires Backed(m, L1Table(ttbr), 4096)
    ensures Entry(m', ttbr', va) == Entry(m, ttbr, va)
  {
    IndexInRange(va);
    hide EntryAt, InBlock, L1Index, L1Table;
  }

  /** A table the section names lies outside an unused block, so it is still backed. */
  lemma StillBacked(m: Words, m': Words, ttbr: bv32, table: bv32, va: bv32)
    requires SameOutside(m, m', table, TTB_MASK) && Unused(m, ttbr, table, TTB_MASK) && L1Address(ttbr, va) in m
    requires IsCoarse(Entry(m, ttbr, va)) && Backed(m, CoarseTable(Entry(m, ttbr, va)), 256)
    ensures Backed(m', CoarseTable(Entry(m, ttbr, va)), 256)
  {
    var d := Entry(m, ttbr, va);
    forall i: bv32 | i < 256
      ensures EntryAt(CoarseTable(d), i) in m'
    {
      var v := (va & 0xFFF0_0000) | (i << 12);
      assert L1Index(v) == L1Index(va) && L2SmallPageIndex(v) == i;
      assert UnusedBy(m, ttbr, table, TTB_MASK, v);
      hide EntryAt, InBlock, L1Index, L1Table, L2SmallPageIndex, CoarseTable, Unused;
    }
  }

  /** Writing an entry of the table, the block, and the entry again stays within the two blocks. */
  lemma WithinBlocks(m: Words, m1: Words, m2: Words, ttbr: bv32, va: bv32, l2: bv32, e: bv32, d: bv32)
    requires SameOutside(m[L1Address(ttbr, va) := e], m1, l2, L2_MASK) && SameOutside(m1, m2, l2, L2_MASK)
    ensures SameBut(m, m2[L1Address(ttbr, va) := d], L1Table(ttbr), l2)
  {
    SlotInTable(ttbr, va);
    hide InBlock, L1Address, L1Table;
  }

  lemma SameButTwice(m: Words, m1: Words, m2: Words, table: bv32, l2: bv32)
    requires SameOutside(m, m1, table, TTB_MASK) && SameBut(m1, m2, table, l2)
    ensures SameBut(m, m2, table, l2)
  {
    hide InBlock;
  }

  /** A page mapped for a while: only the two tables' blocks are written. */
  method EditWithin(editor: MmuEditor, l2: bv32, va: bv32, domain: bv32, pa: bv32, attributes: bv32)
      returns (mapped: bool)
    requires editor.Valid() && editor.editedTable.At?
    requires l2 & L2_MASK == l2 && Unused(editor.machine.words, editor.machine.ttbr, l2, L2_MASK)
    requires var d := Entry(editor.machine.words, editor.machine.ttbr, va);
      IsCoarse(d) ==> Backed(editor.machine.words, CoarseTable(d), 256)
    modifies editor.machine`words
    ensures SameBut(old(editor.machine.words), editor.machine.words, L1Table(editor.machine.ttbr), l2)
    ensures mapped <==> !IsFine(Entry(old(editor.machine.words), editor.machine.ttbr, va))
  {
    hide SameOutside, SameBut, Backed, Unused, Entry, IsFine, IsCoarse, L1Address, L1Table, CoarseEntry;
    ghost var m, ttbr := editor.machine.words, editor.machine.ttbr;
    var laid := CoarseEditor.Create(editor, va, domain, At(l2));
    mapped := laid.Ok?;
    assert laid.Err? ==> laid.error.BadAlloc? || laid.error.RuntimeError?;
    if mapped {
      var coarse := laid.value;
      ghost var m1 := editor.machine.words;
      coarse.Map4KBPage(va, pa, attributes);
      WithinBlocks(m, m1, editor.machine.words, ttbr, va, l2, CoarseEntry(l2, domain), coarse.oldL1Entry);
      coarse.Close();
    } else {
      SameButSelf(m, L1Table(ttbr), l2);
    }
  }

  lemma SameButSelf(m: Words, table: bv32, l2: bv32)
    ensures SameBut(m, m, table, l2)
  {
    hide InBlock;
  }

  /** What the editors are for: a page is mapped while they exist, and once they are gone, in the
      reverse order, every address translates as it did before they came. */
  method EditPage(machine: Machine, table: bv32, l2: bv32, va: bv32, domain: bv32, pa: bv32, attributes: bv32)
    returns (mapped: bool)
    requires Backed(machine.words, L1Table(machine.ttbr), 4096)
    requires table & TTB_MASK == table && Unused(machine.words, machine.ttbr, table, TTB_MASK)
    requires l2 & L2_MASK == l2 && Unused(machine.words, machine.ttbr, l2, L2_MASK) && Disjoint(table, l2)
    requires IsCoarse(Entry(machine.words, machine.ttbr, va)) ==>
      Backed(machine.words, CoarseTable(Entry(machine.words, machine.ttbr, va)), 256)
    modifies machine
    ensures machine.ttbr == old(machine.ttbr)
    ensures SameTranslation(old(machine.words), machine.ttbr, machine.words, machine.ttbr)
    ensures mapped <==> !IsFine(Entry(old(machine.words), machine.ttbr, va))
  {
    hide SameOutside, SameBut, SameTranslation, Backed, Unused, Entry, IsFine, IsCoarse, L1Address, L1Table, Filled,
      Disjoint;
    ghost var m0, ttbr0 := machine.words, machine.ttbr;
    var created := MmuEditor.Create(machine, At(table));
    var editor := created.value;
    ghost var m1, ttbr1 := machine.words, machine.ttbr;
    AllStillUnused(m0, m1, ttbr0, ttbr1, l2);
    CopiedEntry(m0, m1, ttbr0, ttbr1, va);
    SlotBacked(m0, ttbr0, va);
    if IsCoarse(Entry(m0, ttbr0, va)) {
      StillBacked(m0, m1, ttbr0, table, va);
    }
    mapped := EditWithin(editor, l2, va, domain, pa, attributes);
    SameButTwice(m0, m1, machine.words, table, l2);
    NotNoticed(m0, machine.words, ttbr0, table, l2);
    editor.Close();
  }

  /** When a conversion leaves every address of its section as it was: the section was mapped, by an
      entry of the domain asked for.  A section that faulted goes on faulting, but as a page fault. */
  lemma ConversionExact(m: Words, m': Words, ttbr: bv32, va0: bv32, domain: bv32)
    requires SectionConvertedTo(m, m', ttbr, va0, domain) && L1Address(ttbr, va0) in m
      && Copyable(m, m[L1Address(ttbr, va0)])
    ensures (forall v :: L1Index(v) == L1Index(va0) ==> Walk(m', ttbr, v) == Walk(m, ttbr, v))
        <==> (m[L1Address(ttbr, va0)] & 3 != 0 && DomainOf(m[L1Address(ttbr, va0)]) == domain & 0xF)
  {
    var d := m[L1Address(ttbr, va0)];
    hide L1Index, L1Table, EntryAt, CoarseTable, L2SmallPageIndex, DomainOf, SubpagePermission, IsSection, IsFine,
      IsCoarse, L2Address;
    forall v | L1Index(v) == L1Index(va0)
      ensures Walk(m', ttbr, v) == Walk(m, ttbr, v) <==> d & 3 != 0 && DomainOf(d) == domain & 0xF
    {
      assert L1Address(ttbr, v) == L1Address(ttbr, va0);
      ConvertedKept(m, d, v, domain & 0xF);
      hide Walk, WalkFrom, Converted, Copyable;
    }
  }

  lemma BackedPage(m: Words, d: bv32, v: bv32)
    requires Copyable(m, d) && d & 3 != 0 && !IsSection(d)
    ensures L2Address(d, v) in m
  {
    IndexInRange(v);
    hide EntryAt, CoarseTable, L2SmallPageIndex;
  }

  /** What one walk from the entry makes of a conversion. */
  lemma ConvertedKept(m: Words, d: bv32, v: bv32, domain: bv32)
    requires Copyable(m, d)
    ensures Converted(WalkFrom(m, d, v), domain) == WalkFrom(m, d, v) <==> d & 3 != 0 && DomainOf(d) == domain
  {
    if d & 3 != 0 && !IsSection(d) {
      BackedPage(m, d, v);
    }
    hide L2Address, DomainOf, SubpagePermission, IsFine;
  }
}
