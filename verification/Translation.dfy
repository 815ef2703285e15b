/**
 The two ways to find a physical address in `src/arch/x86_64/mm/paging.rs`: `get_physical_address` walks the
 tree, `virtual_to_physical` computes the addresses of the entries in the self-mapped region.
 */
module Translation {
  import opened Alignment
  import opened Options
  import opened PageEntry
  import opened PageRange
  import opened PageWalk
  import opened Paging
  import opened SelfMap

  // ----- The self-mapped region -----

  /** The array `SELF`: where the entries of level `l` start. */
  function SelfBase(l: nat): nat
    requires l <= 3
  {
    if l == 0 then 0xFFFF_FF80_0000_0000
    else if l == 1 then 0xFFFF_FFFF_C000_0000
    else if l == 2 then 0xFFFF_FFFF_FFE0_0000
    else 0xFFFF_FFFF_FFFF_F000
  }

  lemma NumberBound(va: nat, l: nat)
    requires l <= 3
    ensures Number(va, l + 1) < Span(3 - l)
  {
  }

  /** The tables of a level appear in the order of their regions. */
  lemma {:induction false} TableVaInOrder(va: nat, l: nat)
    requires l <= 3
    ensures TableVa(va, l) == SelfBase(l) + Number(va, l + 1) * KIB4
    decreases 3 - l
  {
    if l == 3 {
      NumberTop(va);
    } else {
      TableVaInOrder(va, l + 1);
      TableVaIndex(va, l + 1, 0);
      NumberBound(va, l + 1);
      NumberStep(va, l + 1);
      SubtableSum(TableVa(va, l + 1), Index(va, l + 1));
      hide Number, Index, SubtableVa;
      NextBase(l, Number(va, l + 2));
    }
  }

  lemma NextBase(l: nat, n: nat)
    requires l <= 2 && n < Span(2 - l)
    ensures (SelfBase(l + 1) + n * KIB4) / KIB4 % 0x800_0000_0000 * MIB2 == SelfBase(l) + n * MIB2
  {
    var m := SelfBase(l + 1) / KIB4;
    DivUnique(SelfBase(l + 1) + n * KIB4, KIB4, m + n, 0);
    DivUnique(m + n, 0x800_0000_0000, 511, m + n - 511 * 0x800_0000_0000);
  }

  /** The pointer that `virtual_to_physical` computes for level `l`, modulo 2^64. */
  function EntryPointer(va: nat, l: nat): nat
    requires l <= 2
  {
    (SelfBase(l) + 8 * (va / Shift(l))) % WORD
  }

  /** What the pointer would be if the upper sixteen bits of the address were cut off. */
  lemma CutPointer(va: nat, l: nat)
    requires l <= 2
    ensures SelfBase(l) + 8 * Number(va, l) == TableVa(va, l) + 8 * Index(va, l) < WORD
  {
    TableVaInOrder(va, l);
    NumberStep(va, l);
    NumberBound(va, l);
    var n, i := Number(va, l + 1), Index(va, l);
    hide Number, Index, TableVa;
    assert 8 * (n * 512 + i) == n * 0x1000 + 8 * i;
  }

  /** The distance between the pointers of an address and of the one without its upper sixteen bits. */
  lemma UpperNumber(va: nat, l: nat)
    requires l <= 2
    ensures va / Shift(l) == va / SPACE * (SPACE / Shift(l)) + Number(va, l)
  {
    var q, r := va / SPACE, va % SPACE;
    QuotientSplit(va, Shift(l), SPACE / Shift(l), SPACE, q, r / Shift(l), r % Shift(l));
  }

  /** The pointer is the address of the entry exactly for addresses of the lower half. */
  lemma EntryPointerExact(va: nat, l: nat)
    requires l <= 2 && ValidAddress(va)
    ensures EntryPointer(va, l) == TableVa(va, l) + 8 * Index(va, l) <==> va < LOWER_END
    ensures va < LOWER_END ==> EntryPointer(va, l) == SelfBase(l) + 8 * (va / Shift(l))
  {
    CutPointer(va, l);
    UpperNumber(va, l);
    UpperBits(va);
    Distance(l);
    var b, n, m, q, d := SelfBase(l), va / Shift(l), Number(va, l), va / SPACE, SPACE / Shift(l);
    assert EntryPointer(va, l) == (b + 8 * n) % WORD;
    hide Number, Index, TableVa, SelfBase, Shift, EntryPointer;
    assert b + 8 * n == b + 8 * m + 8 * (q * d);
    WrapsTo(b + 8 * m, 8 * (q * d));
  }

  lemma Distance(l: nat)
    requires l <= 2
    ensures SPACE % Shift(l) == 0 && 0 < 8 * (65535 * (SPACE / Shift(l))) < WORD
  {
  }

  lemma UpperBits(va: nat)
    requires ValidAddress(va)
    ensures va / SPACE == if va < LOWER_END then 0 else 65535
  {
  }

  lemma WrapsTo(p: nat, d: nat)
    requires p < WORD && d < WORD
    ensures (p + d) % WORD == p <==> d == 0
  {
    DivUnique(p + d, WORD, if p + d < WORD then 0 else 1, if p + d < WORD then p + d else p + d - WORD);
  }

  /** For every address of the upper half the first pointer leads to the lower half, where no table is. */
  lemma UpperHalfLeaves(va: nat)
    requires UPPER_START <= va < WORD
    ensures EntryPointer(va, 2) < LOWER_END
  {
    var n := va / Shift(2);
    assert 0x3_FFFE_0000 <= n < 0x4_0000_0000;
    assert SelfBase(2) + 8 * n == WORD + (8 * n - 0x20_0000);
    DivUnique(SelfBase(2) + 8 * n, WORD, 1, 8 * n - 0x20_0000);
  }

  /** The entry of the first address of the upper half is expected at the start of the last gigabyte but the code looks
      for it below 2^37. */
  lemma UpperHalfExample()
    ensures EntryPointer(UPPER_START, 2) == 0x1F_FFD0_0000
    ensures TableVa(UPPER_START, 2) + 8 * Index(UPPER_START, 2) == 0xFFFF_FFFF_FFF0_0000
  {
    CutPointer(UPPER_START, 2);
    hide TableVa;
    assert UPPER_START / Shift(2) == 0x3_FFFE_0000 && Number(UPPER_START, 2) == 0x2_0000;
  }

  // ----- Physical addresses -----

  lemma OffsetOr(base: nat, l: nat, offset: nat)
    requires l <= 2 && base % Shift(l) == 0 && offset < Shift(l)
    ensures BitOr(offset, base) == base + offset && BitOr(base, offset) == base + offset
  {
    ShiftIsPower(l);
    var q := base / Shift(l);
    hide *;
    ExactQuotient(base, Shift(l));
    OrLow(q, offset, 12 + 9 * l);
  }

  lemma ExactQuotient(a: nat, d: nat)
    requires d > 0 && a % d == 0
    ensures a == a / d * d
  {
  }

  lemma ShiftIsPower(l: nat)
    requires l <= 2
    ensures Shift(l) == Pow2(12 + 9 * l)
  {
    hide Pow2;
    Powers();
  }

  lemma BaseAligned(e: nat, l: nat)
    requires l <= 2
    ensures PageBase(e, l) % Shift(l) == 0
  {
    MultipleMod(e % BIT59 / Shift(l), Shift(l));
  }

  /** The frame and the index that the pointer into the self-mapped region reaches. */
  method PointerCell(p: PageTables, va: nat, l: nat) returns (c: (nat, nat))
    requires p.Valid() && va < LOWER_END && l <= 2 && Down(p.mem, p.root, va, 3, l).Some?
    ensures c == (Down(p.mem, p.root, va, 3, l).value, Index(va, l)) && c.0 in p.mem
  {
    PlainIsUsable(va);
    p.ValidWf();
    RootHome(va);
    DownHome(p.mem, p.root, p.tables, va, 3, l);
    EntryPointerExact(va, l);
    TableCell(p.mem, p.root, va, l, Index(va, l));
    c := Cell(p.mem, p.root, SelfBase(l) + 8 * (va / Shift(l))).value;
  }

  /** A walk that reaches level `l` ends there exactly at an entry of a page. */
  lemma EntryEnds(mem: Memory, root: nat, tables: Tables, va: nat, l: nat)
    requires Wf(mem, root, tables) && Usable(va) && l <= 2 && Down(mem, root, va, 3, l).Some?
    requires Walk(mem, root, va, 3).Some?
    ensures Home(va, l) in tables && Down(mem, root, va, 3, l).value == tables[Home(va, l)]
    ensures tables[Home(va, l)] in mem
    ensures var e := mem[tables[Home(va, l)]][Index(va, l)];
            && e == Entry(mem, tables[Home(va, l)], va, l)
            && (Huge(e) || l == 0 ==> Translate(mem, root, va) == Some(PageBase(e, l) + va % Shift(l)))
  {
    RootHome(va);
    DownHome(mem, root, tables, va, 3, l);
    WalkDown(mem, root, va, 3, l);
    hide Down, Home, Wf, Index, Shift, PageBase, Usable;
  }

  /** `virtual_to_physical` gives the translation of every mapped address of the lower half. */
  method VirtualToPhysical(p: PageTables, va: nat) returns (r: nat)
    requires p.Valid() && va < LOWER_END && Walk(p.mem, p.root, va, 3).Some?
    ensures Some(r) == Translate(p.mem, p.root, va)
  {
    PlainIsUsable(va);
    var l: nat := 2;
    p.ValidWf();
    Below(p.mem, p.root, p.tables, va, 3);
    hide *;
    while true
      invariant l <= 2 && Down(p.mem, p.root, va, 3, l).Some?
      decreases l
    {
      var c := PointerCell(p, va, l);
      var e := p.mem[c.0][c.1];
      EntryEnds(p.mem, p.root, p.tables, va, l);
      if Huge(e) || l == 0 {
        BaseAligned(e, l);
        OffsetOr(PageBase(e, l), l, va % Shift(l));
        return BitOr(va % Shift(l), PageBase(e, l));
      }
      Below(p.mem, p.root, p.tables, va, l);
      l := l - 1;
    }
  }

  /** The next table of a mapped address, unless its page ends here. */
  lemma Below(mem: Memory, root: nat, tables: Tables, va: nat, l: nat)
    requires Wf(mem, root, tables) && Usable(va) && 0 < l <= 3 && Down(mem, root, va, 3, l).Some?
    requires Walk(mem, root, va, 3).Some?
    ensures Home(va, l) in tables
    ensures (l == 3 || !Huge(Entry(mem, tables[Home(va, l)], va, l))) ==> Down(mem, root, va, 3, l - 1).Some?
  {
    RootHome(va);
    DownHome(mem, root, tables, va, 3, l);
    WalkDown(mem, root, va, 3, l);
    StepIn(mem, root, tables, va, l);
    DownFurther(mem, root, va, 3, l, l - 1);
  }

  /** `get_physical_address` */
  method GetPhysicalAddress(p: PageTables, va: nat, size: nat) returns (r: nat)
    requires p.Valid() && size <= 2 && Plain(va) && MappedAs(p.mem, p.root, va, size)
    ensures r == BitOr(Address(Walk(p.mem, p.root, va, 3).value.entry), va % Shift(size))
    ensures Address(Walk(p.mem, p.root, va, 3).value.entry) % Shift(size) == 0 ==>
            Some(r) == Translate(p.mem, p.root, va)
  {
    var page := FirstPage(va, size);
    PageOfAddress(va, size);
    PlainIsUsable(va);
    PlainIsUsable(page);
    SamePage(va, page, size);
    p.ValidWf();
    SameEntry(p.mem, p.root, p.tables, page, va, size);
    LeafIsEntry(p.mem, p.root, p.tables, page, size);
    RootTable(p.mem, p.root, page);
    hide Walk, Wf, Shift, Down, FirstPage, TableVa, Number, Usable;
    var e := p.GetEntry(PML4_ADDRESS, 3, page, size);
    r := BitOr(Address(e.value), va % Shift(size));
    if Address(e.value) % Shift(size) == 0 {
      AlignedBase(e.value, size);
      OffsetOr(Address(e.value), size, va % Shift(size));
    }
  }

  lemma PageOfAddress(va: nat, size: nat)
    requires size <= 2 && Plain(va)
    ensures Plain(FirstPage(va, size)) && FirstPage(va, size) % Shift(size) == 0
    ensures FirstPage(va, size) <= va < FirstPage(va, size) + Shift(size)
  {
    var page := AlignDown(va, Shift(size));
    if page < UPPER_START <= va {
      assert UPPER_START % Shift(size) == 0;
      MultiplesApart(page, UPPER_START, Shift(size));
    }
  }

  lemma AlignedBase(e: nat, l: nat)
    requires l <= 2 && Address(e) % Shift(l) == 0
    ensures PageBase(e, l) == Address(e)
  {
    AddressIsBase(e);
    var x, s := e % BIT59, Shift(l);
    var a := Address(e);
    assert a == x / KIB4 * KIB4;
    assert s >= KIB4;
    hide Shift, Address;
    assert a == a / s * s;
    DivUnique(x, s, a / s, x - a);
  }

  /** The tree walk agrees with the processor on a whole page exactly if the entry holds an address that is
      aligned to the size of the page; `set` asserts this for 4 KiB and 2 MiB pages, not for 1 GiB pages. */
  lemma PhysicalAddressAgrees(e: nat, l: nat)
    requires l <= 2
    ensures (forall offset: nat :: offset < Shift(l) ==> BitOr(Address(e), offset) == PageBase(e, l) + offset)
            <==> Address(e) % Shift(l) == 0
  {
    BaseAligned(e, l);
    assert BitOr(Address(e), 0) == Address(e);
    hide BitOr, Address, PageBase, Shift;
    if Address(e) % Shift(l) == 0 {
      AlignedBase(e, l);
      forall offset: nat | offset < Shift(l) ensures BitOr(Address(e), offset) == PageBase(e, l) + offset {
        OffsetOr(Address(e), l, offset);
      }
    } else {
      assert BitOr(Address(e), 0) != PageBase(e, l) + 0;
    }
  }

  /** A mapped range is translated in order exactly if the physical addresses are aligned to the page size. */
  lemma MappedTranslates(mem: Memory, mem': Memory, root: nat, pa: nat, flags: Flags, size: nat, first: nat, last: nat)
    requires size <= 2 && first % Shift(size) == 0 && last % Shift(size) == 0 && PlainRange(first, last + Shift(size))
    requires CanMap(pa, PageFlags(flags, size), size, first, last)
    requires Mapped(mem, mem', root, pa, flags, size, first, last + Shift(size))
    ensures (forall v: nat :: first <= v < last + Shift(size) ==> Translate(mem', root, v) == Some(pa + (v - first)))
            <==> pa % Shift(size) == 0
  {
    forall v: nat | first <= v < last + Shift(size)
      ensures Translate(mem', root, v) == Some(pa + (v - first)) <==> pa % Shift(size) == 0
    {
      MappedTranslatesAt(mem, mem', root, pa, flags, size, first, last, v);
    }
    assert first < last + Shift(size);
    hide Translate;
    assert Translate(mem', root, first) == Some(pa + (first - first)) <==> pa % Shift(size) == 0;
  }

  /** A 1 GiB page that is mapped to the memory at 2 MiB, which `set` accepts, leads to address 0. */
  lemma MisalignedExample(mem: Memory, mem': Memory, root: nat, flags: Flags, first: nat)
    requires first % GIB1 == 0 && PlainRange(first, first + GIB1) && flags.pkey < 16
    requires Mapped(mem, mem', root, MIB2, flags, 2, first, first + GIB1)
    ensures CanSet(MIB2, PageFlags(flags, 2)) && Translate(mem', root, first) == Some(0)
  {
    assert Shift(2) == GIB1;
    MappedEntry(mem, mem', root, MIB2, flags, 2, first, first, first);
    AlignedPage(first);
    var e := Walk(mem', root, first, 3).value.entry;
    hide Walk, Mapped, Shift, AlignDown, Address;
    TranslateLeaf(mem', root, first, e, 2);
    MisalignedBase(e);
  }

  lemma AlignedPage(first: nat)
    requires first % GIB1 == 0
    ensures AlignDown(first, Shift(2)) == first && first % Shift(2) == 0
  {
  }

  lemma MisalignedBase(e: nat)
    requires Address(e) == MIB2
    ensures PageBase(e, 2) == 0
  {
    AddressIsBase(e);
    var x := e % BIT59;
    assert MIB2 == x / KIB4 * KIB4;
    assert x < GIB1;
  }

  lemma MappedTranslatesAt(mem: Memory, mem': Memory, root: nat, pa: nat, flags: Flags, size: nat, first: nat,
                           last: nat, v: nat)
    requires size <= 2 && first % Shift(size) == 0 && last % Shift(size) == 0 && PlainRange(first, last + Shift(size))
    requires CanMap(pa, PageFlags(flags, size), size, first, last)
    requires Mapped(mem, mem', root, pa, flags, size, first, last + Shift(size))
    requires first <= v < last + Shift(size)
    ensures Translate(mem', root, v) == Some(pa + (v - first)) <==> pa % Shift(size) == 0
  {
    var s := Shift(size);
    var page := AlignDown(v, s);
    MappedEntry(mem, mem', root, pa, flags, size, first, last, v);
    PagesAround(first, last, v, s);
    var e := Walk(mem', root, v, 3).value.entry;
    var a := pa + (page - first);
    hide *;
    TranslateLeaf(mem', root, v, e, size);
    BaseOfPacked(e, a, size);
    DifferenceMultiple(first, page, s, s, 1);
    SumModulus(pa, page - first, s);
  }

  lemma MappedEntry(mem: Memory, mem': Memory, root: nat, pa: nat, flags: Flags, size: nat, first: nat, last: nat,
                    v: nat)
    requires size <= 2 && first % Shift(size) == 0 && last % Shift(size) == 0 && PlainRange(first, last + Shift(size))
    requires CanMap(pa, PageFlags(flags, size), size, first, last)
    requires Mapped(mem, mem', root, pa, flags, size, first, last + Shift(size))
    requires first <= v < last + Shift(size)
    ensures var w, page := Walk(mem', root, v, 3), AlignDown(v, Shift(size));
            && w.Some? && w.value.level == size && first <= page && Address(w.value.entry) == pa + (page - first)
  {
    hide AlignDown, Pack, Walk, Mapped, Shift, Usable, CanSet, Address;
    var s := Shift(size);
    var page := AlignDown(v, s);
    PagesAround(first, last, v, s);
    PageOffset(first, page, v, s);
    PageOfRange(pa, flags, size, first, last, page);
    hide CanMap;
    MappedAt(mem, mem', root, pa, flags, size, first, last + s, v);
    PackFields(pa + (page - first), PageFlags(flags, size));
  }

  lemma MappedAt(mem: Memory, mem': Memory, root: nat, pa: nat, flags: Flags, size: nat, first: nat, end: nat, v: nat)
    requires size <= 2 && Mapped(mem, mem', root, pa, flags, size, first, end) && PlainRange(first, end)
             && first <= v < end
    ensures Walk(mem', root, v, 3) == Some(Leaf(Pack(pa + AlignDown(v - first, Shift(size)), PageFlags(flags, size)),
                                                size))
  {
    hide Walk, Pack, AlignDown;
    assert Plain(v);
  }

  lemma TranslateLeaf(mem: Memory, root: nat, v: nat, e: nat, l: nat)
    requires l <= 2 && Walk(mem, root, v, 3) == Some(Leaf(e, l))
    ensures Translate(mem, root, v) == Some(PageBase(e, l) + v % Shift(l))
  {
    hide Walk;
  }

  lemma BaseOfPacked(e: nat, a: nat, size: nat)
    requires size <= 2 && Address(e) == a
    ensures PageBase(e, size) == a <==> a % Shift(size) == 0
  {
    hide PageBase, Address;
    BaseAligned(e, size);
    if a % Shift(size) == 0 {
      AlignedBase(e, size);
    }
  }

  lemma PagesAround(first: nat, last: nat, v: nat, s: nat)
    requires s > 0 && first % s == 0 && last % s == 0 && first <= v < last + s
    ensures first <= AlignDown(v, s) <= last && v % s == v - AlignDown(v, s)
  {
    var page := AlignDown(v, s);
    if page < first {
      MultiplesApart(page, first, s);
    }
    if last < page {
      MultiplesApart(last, page, s);
    }
  }

  lemma SumModulus(a: nat, b: nat, d: nat)
    requires d > 0 && b % d == 0
    ensures (a + b) % d == 0 <==> a % d == 0
  {
    var q, r, n := a / d, a % d, b / d;
    assert a + b == (q + n) * d + r;
    DivUnique(a + b, d, q + n, r);
  }
}
