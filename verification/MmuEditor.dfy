/** The page table editors: a copy of the first-level table that can be edited while its editor
    exists, and second-level tables laid over one entry of it. */
module MmuEditor {
  import opened MmuWalk

  datatype Error = BadAlloc | RuntimeError

  datatype Result<+T> = Ok(value: T) | Err(error: Error)

  datatype Pointer = Null | At(addr: bv32)

  /** The memory and the translation table base register. */
  class Machine {
    var words: Words
    var ttbr: bv32

    constructor (words: Words, ttbr: bv32)
      ensures this.words == words && this.ttbr == ttbr
    {
      this.words, this.ttbr := words, ttbr;
    }
  }

  /** All entries of a table are backed by memory. */
  ghost predicate Backed(m: Words, table: bv32, n: bv32)
  {
    forall i: bv32 :: i < n ==> EntryAt(table, i) in m
  }

  /** Two memories agree outside a block. */
  ghost predicate SameOutside(m: Words, m': Words, base: bv32, mask: bv32)
  {
    forall a: Addr :: !InBlock(a, base, mask) ==> (a in m <==> a in m') && (a in m ==> m[a] == m'[a])
  }

  /** No entry of the table lies in the block. */
  ghost predicate Outside(table: bv32, n: bv32, base: bv32, mask: bv32)
  {
    forall i: bv32 :: i < n ==> !InBlock(EntryAt(table, i), base, mask)
  }

  lemma IndexInRange(va: bv32)
    ensures L1Index(va) < 4096 && L2SmallPageIndex(va) < 256
  {
  }

  lemma TableAligned(x: bv32)
    ensures L1Table(x) & TTB_MASK == L1Table(x)
    ensures CoarseTable(x) & L2_MASK == CoarseTable(x)
  {
  }

  /** A copy of the first-level table in an unused block translates as the original does. */
  lemma CopiedTable(m: Words, m': Words, ttbr: bv32, ttbr': bv32, va: bv32)
    requires Backed(m, L1Table(ttbr), 4096) && SameOutside(m, m', L1Table(ttbr'), TTB_MASK)
    requires Filled(m', L1Table(ttbr'), 4096, SourceWord(m, L1Table(ttbr)))
    requires UnusedBy(m, ttbr, L1Table(ttbr'), TTB_MASK, va)
    ensures Walk(m', ttbr', va) == Walk(m, ttbr, va) && SeparateAt(m', ttbr', va)
  {
    IndexInRange(va);
  }

  /** Two ways of looking up translate every address alike. */
  ghost predicate SameTranslation(m: Words, ttbr: bv32, m': Words, ttbr': bv32)
  {
    forall va :: Walk(m', ttbr', va) == Walk(m, ttbr, va)
  }

  lemma CopyTranslates(m: Words, m': Words, ttbr: bv32, ttbr': bv32)
    requires Backed(m, L1Table(ttbr), 4096) && SameOutside(m, m', L1Table(ttbr'), TTB_MASK)
    requires Filled(m', L1Table(ttbr'), 4096, SourceWord(m, L1Table(ttbr)))
    requires Unused(m, ttbr, L1Table(ttbr'), TTB_MASK)
    ensures SameTranslation(m, ttbr, m', ttbr') && Separate(m', ttbr') && Backed(m', L1Table(ttbr'), 4096)
  {
    forall va
      ensures Walk(m', ttbr', va) == Walk(m, ttbr, va) && SeparateAt(m', ttbr', va)
    {
      assert UnusedBy(m, ttbr, L1Table(ttbr'), TTB_MASK, va);
      CopiedTable(m, m', ttbr, ttbr', va);
    }
  }

  /** An unused block shares no word with the table in use. */
  lemma UnusedTable(m: Words, ttbr: bv32, base: bv32)
    requires Unused(m, ttbr, base, TTB_MASK)
    ensures Outside(L1Table(ttbr), 4096, base, TTB_MASK)
  {
    forall i: bv32 | i < 4096
      ensures !InBlock(EntryAt(L1Table(ttbr), i), base, TTB_MASK)
    {
      assert L1Index(i << 20) == i;
      assert UnusedBy(m, ttbr, base, TTB_MASK, i << 20);
    }
  }

  /** Entries of a first-level table with different indices are different words. */
  lemma OtherSlot(table: bv32, va: bv32, va0: bv32)
    requires table & TTB_MASK == table && L1Index(va) != L1Index(va0)
    ensures EntryAt(table, L1Index(va)) != EntryAt(table, L1Index(va0))
  {
    IndexInRange(va);
    IndexInRange(va0);
    EntriesDiffer(table, L1Index(va), L1Index(va0), TTB_MASK);
  }

  lemma SlotInTable(ttbr: bv32, va: bv32)
    ensures InBlock(L1Address(ttbr, va), L1Table(ttbr), TTB_MASK)
  {
    IndexInRange(va);
    TableAligned(ttbr);
    EntryInBlock(L1Table(ttbr), L1Index(va), TTB_MASK);
  }

  /** Writing one first-level entry: other sections translate as before, and its own section is
      walked from the new entry. */
  lemma WrittenEntry(m: Words, ttbr: bv32, va0: bv32, entry: bv32, va: bv32)
    requires SeparateAt(m, ttbr, va)
    ensures var m' := m[L1Address(ttbr, va0) := entry];
      Walk(m', ttbr, va) == if L1Index(va) == L1Index(va0) then WalkFrom(m', entry, va) else Walk(m, ttbr, va)
  {
    SlotInTable(ttbr, va0);
    TableAligned(ttbr);
    hide EntryAt, InBlock, L1Index, L1Table, L2Address, Page, Section;
    if L1Index(va) != L1Index(va0) {
      OtherSlot(L1Table(ttbr), va, va0);
    }
  }

  /** The mapping a caller of MapSection asks for. */
  function SectionMapping(pa: bv32, attributes: bv32, v: bv32): Outcome
  {
    Mapped((pa & 0xFFF0_0000) | (v & 0x000F_FFFF), attributes & 0xC00, attributes & 0xC, DomainOf(attributes))
  }

  /** The base register names the block, and its low fourteen bits are what they were. */
  predicate Rebased(block: bv32, before: bv32, after: bv32)
  {
    after & 0xFFFF_C000 == block && after & 0x3FFF == before & 0x3FFF
  }

  class MmuEditor {
    const machine: Machine
    var originalTtbr0: bv32
    var editedTable: Pointer

    constructor Bare(machine: Machine)
      ensures this.machine == machine && editedTable == Null && originalTtbr0 == machine.ttbr
    {
      this.machine := machine;
      originalTtbr0, editedTable := machine.ttbr, Null;
    }

    /** The editor's table is the one the machine translates with. */
    ghost predicate Valid()
      reads this, machine
    {
      editedTable.At? ==>
        && L1Table(machine.ttbr) == editedTable.addr
        && Backed(machine.words, editedTable.addr, 4096)
        && Separate(machine.words, machine.ttbr)
    }

    /** Install a copy of the current table in the block the allocator returned.  Every address
        translates as before. */
    method Install(block: bv32)
      requires editedTable == Null && originalTtbr0 == machine.ttbr
      requires Backed(machine.words, L1Table(machine.ttbr), 4096)
      requires block & TTB_MASK == block && Unused(machine.words, machine.ttbr, block, TTB_MASK)
      modifies this, machine
      ensures editedTable == At(block) && originalTtbr0 == old(machine.ttbr) && Valid()
      ensures SameOutside(old(machine.words), machine.words, block, TTB_MASK)
      ensures Filled(machine.words, block, 4096, SourceWord(old(machine.words), L1Table(old(machine.ttbr))))
      ensures SameTranslation(old(machine.words), old(machine.ttbr), machine.words, machine.ttbr)
      ensures Rebased(block, old(machine.ttbr), machine.ttbr)
    {
      var oldTable := L1Table(originalTtbr0);
      UnusedTable(machine.words, machine.ttbr, block);
      FlagsKept(block, originalTtbr0);
      CopyTable(machine, oldTable, block, 4096, TTB_MASK);
      editedTable := At(block);
      machine.ttbr := NewTtbr(block, originalTtbr0);
      hide *;
      CopyTranslates(old(machine.words), machine.words, old(machine.ttbr), machine.ttbr);
    }

    /** Make an editor over the block the allocator returned, if it returned one. */
    static method Create(machine: Machine, block: Pointer) returns (r: Result<MmuEditor>)
      requires Backed(machine.words, L1Table(machine.ttbr), 4096)
      requires block.At? ==>
        block.addr & TTB_MASK == block.addr && Unused(machine.words, machine.ttbr, block.addr, TTB_MASK)
      modifies machine
      ensures block == Null ==>
        r == Err(BadAlloc) && machine.words == old(machine.words) && machine.ttbr == old(machine.ttbr)
      ensures block.At? ==> r.Ok?
      ensures r.Ok? ==>
        && fresh(r.value) && r.value.machine == machine && r.value.Valid()
        && r.value.editedTable == block && r.value.originalTtbr0 == old(machine.ttbr)
        && SameOutside(old(machine.words), machine.words, block.addr, TTB_MASK)
        && Filled(machine.words, block.addr, 4096, SourceWord(old(machine.words), L1Table(old(machine.ttbr))))
        && SameTranslation(old(machine.words), old(machine.ttbr), machine.words, machine.ttbr)
        && Rebased(block.addr, old(machine.ttbr), machine.ttbr)
    {
      hide *;
      var editor := new MmuEditor.Bare(machine);
      if block == Null {
        return Err(BadAlloc);
      }
      editor.Install(block.addr);
      return Ok(editor);
    }

    /** Restore the original base register: translation is what the original table makes it. */
    method Close()
      modifies this, machine
      ensures machine.words == old(machine.words) && editedTable == Null && originalTtbr0 == old(originalTtbr0)
      ensures machine.ttbr == if old(editedTable) == Null then old(machine.ttbr) else originalTtbr0
    {
      if editedTable != Null {
        machine.ttbr := originalTtbr0;
        editedTable := Null;
      }
    }

    /** Replace the first-level entry of an address. */
    method Map(va: bv32, entry: bv32)
      requires editedTable.At? ==> L1Table(machine.ttbr) == editedTable.addr
      modifies machine`words
      ensures machine.words ==
        if editedTable == Null then old(machine.words) else old(machine.words)[L1Address(machine.ttbr, va) := entry]
    {
      if editedTable == Null {
        return;
      }
      var index := L1Index(va);
      machine.words := machine.words[EntryAt(editedTable.addr, index) := entry];
    }

    /** Map the 1 MB section of an address. */
    method MapSection(va: bv32, pa: bv32, attributes: bv32)
      requires Valid()
      modifies machine`words
      ensures editedTable == Null ==> machine.words == old(machine.words)
      ensures editedTable != Null ==>
        forall v :: L1Index(v) != L1Index(va) ==>
          Walk(machine.words, machine.ttbr, v) == Walk(old(machine.words), machine.ttbr, v)
      ensures editedTable != Null && attributes & 0xFFF0_0003 == 0 ==>
        forall v :: L1Index(v) == L1Index(va) ==>
          Walk(machine.words, machine.ttbr, v) == SectionMapping(pa, attributes, v)
    {
      if editedTable == Null {
        return;
      }
      var index := L1Index(va);
      var descriptor := (pa & 0xFFF0_0000) | attributes | 2;
      descriptor := descriptor | 0x10;
      machine.words := machine.words[EntryAt(editedTable.addr, index) := descriptor];
      forall v
        ensures Walk(machine.words, machine.ttbr, v) ==
          if L1Index(v) == L1Index(va) then WalkFrom(machine.words, descriptor, v)
            else Walk(old(machine.words), machine.ttbr, v)
        ensures attributes & 0xFFF0_0003 == 0 ==>
          WalkFrom(machine.words, descriptor, v) == SectionMapping(pa, attributes, v)
      {
        assert SeparateAt(old(machine.words), machine.ttbr, v);
        WrittenEntry(old(machine.words), machine.ttbr, va, descriptor, v);
        if attributes & 0xFFF0_0003 == 0 {
          SectionBits(pa, attributes, v);
        }
      }
    }

    /** The current entry of an address, or all ones when there is no table. */
    method GetEntry(va: bv32) returns (entry: bv32)
      requires Valid()
      ensures editedTable == Null ==> entry == 0xFFFF_FFFF
      ensures editedTable != Null ==>
        L1Address(machine.ttbr, va) in machine.words && entry == machine.words[L1Address(machine.ttbr, va)]
    {
      if editedTable == Null {
        return 0xFFFF_FFFF;
      }
      IndexInRange(va);
      var index := L1Index(va);
      return machine.words[EntryAt(editedTable.addr, index)];
    }
  }

  /** The base register for the new table, with the other bits of the old one. */
  function NewTtbr(block: bv32, oldTtbr: bv32): bv32
  {
    block | (oldTtbr & 0x3FFF)
  }

  lemma FlagsKept(block: bv32, oldTtbr: bv32)
    requires block & TTB_MASK == block
    ensures L1Table(NewTtbr(block, oldTtbr)) == block
    ensures Rebased(block, oldTtbr, NewTtbr(block, oldTtbr))
  {
  }

  lemma SectionBits(pa: bv32, attributes: bv32, v: bv32)
    requires attributes & 0xFFF0_0003 == 0
    ensures var d := (pa & 0xFFF0_0000) | attributes | 2 | 0x10;
      IsSection(d) && d & 3 != 0 && Section(d, v) == SectionMapping(pa, attributes, v)
  {
  }

  /** The first `i` entries of the table at `block` hold what `f` says. */
  ghost predicate Filled(m: Words, block: bv32, i: bv32, f: bv32 -> bv32)
  {
    forall j: bv32 :: j < i ==> EntryAt(block, j) in m && m[EntryAt(block, j)] == f(j)
  }

  /** Filling in the next entry. */
  lemma FillNext(before: Words, m: Words, block: bv32, i: bv32, f: bv32 -> bv32, mask: bv32)
    requires block & mask == block && ((mask == TTB_MASK && i < 4096) || (mask == L2_MASK && i < 256))
    requires Filled(m, block, i, f) && SameOutside(before, m, block, mask)
    ensures var m' := m[EntryAt(block, i) := f(i)];
      Filled(m', block, i + 1, f) && SameOutside(before, m', block, mask)
  {
    EntryInBlock(block, i, mask);
    var m' := m[EntryAt(block, i) := f(i)];
    forall j: bv32 | j < i + 1
      ensures EntryAt(block, j) in m' && m'[EntryAt(block, j)] == f(j)
    {
      if j != i {
        Below(j, i);
        EntriesDiffer(block, j, i, mask);
      }
    }
  }

  lemma Below(j: bv32, i: bv32)
    requires j < i + 1 && j != i && i < 4096
    ensures j < i
  {
  }

  /** What memcpy from `source` puts in entry `j`. */
  ghost function SourceWord(m: Words, source: bv32): bv32 -> bv32
  {
    (j: bv32) => if EntryAt(source, j) in m then m[EntryAt(source, j)] else 0
  }

  /** memcpy of a table of `n` words into a block outside it. */
  method CopyTable(machine: Machine, source: bv32, block: bv32, n: bv32, mask: bv32)
    requires Backed(machine.words, source, n)
    requires (mask == TTB_MASK && n == 4096) || (mask == L2_MASK && n == 256)
    requires block & mask == block
    requires Outside(source, n, block, mask)
    modifies machine`words
    ensures SameOutside(old(machine.words), machine.words, block, mask)
    ensures Filled(machine.words, block, n, SourceWord(old(machine.words), source))
  {
    hide EntryAt, InBlock;
    var i: bv32 := 0;
    while i < n
      invariant i <= n
      invariant SameOutside(old(machine.words), machine.words, block, mask)
      invariant Filled(machine.words, block, i, SourceWord(old(machine.words), source))
      decreases n - i
    {
      FillNext(old(machine.words), machine.words, block, i, SourceWord(old(machine.words), source), mask);
      machine.words := machine.words[EntryAt(block, i) := machine.words[EntryAt(source, i)]];
      i := i + 1;
    }
  }
}
