/** `map_heap` of `src/mm/mod.rs`: memory for a heap, one page at a time. */
module HeapPages {
  import opened Alignment
  import opened FreeList
  import opened Options
  import opened PageEntry
  import opened PageRange
  import opened PageWalk
  import opened Paging

  const UNSAFE_MEM_REGION := 2

  /** The flags of a kernel or user heap. */
  function HeapFlags(isKernel: bool): Flags {
    Flags(false, true, false, false, false, false, false, false, false, true, if isKernel then UNSAFE_MEM_REGION else 0)
  }

  /** Nothing in `[a, a + n)` is free, and no table lies there. */
  ghost predicate Ours(own: Owners, a: nat, n: nat) {
    && (forall x: int :: a <= x < a + n ==> !Covers(own.free, x))
    && (forall t :: t in own.tables ==> !(a <= own.tables[t] < a + n))
  }

  /** The free list and the tables, which are the other users of physical memory. */
  datatype Owners = Owners(free: seq<Region>, tables: Tables)

  ghost predicate Grows(own: Owners, own': Owners) {
    Grown(own.tables, own.free, own'.tables, own'.free)
  }

  /** Memory that is ours stays ours while frames change from the free list to the tables. */
  lemma OursStays(own: Owners, own': Owners, a: nat, n: nat)
    requires Ours(own, a, n) && Grows(own, own')
    ensures Ours(own', a, n)
  {
    forall t | t in own'.tables ensures !(a <= own'.tables[t] < a + n) {
      if own'.tables[t] in own.tables.Values {
        var u :| u in own.tables && own.tables[u] == own'.tables[t];
      }
    }
  }

  /** `v` is mapped, with the flags of the heap, by a page of the right size whose memory is ours from its first
      byte to its last. */
  ghost predicate HeapPage(mem: Memory, root: nat, own: Owners, flags: Flags, size: nat, v: nat)
    requires size <= 2
  {
    var w := Walk(mem, root, v, 3);
    && w.Some? && w.value.level == size
    && var a := Address(w.value.entry);
       PageAs(w.value.entry, a, flags, size) && a % Shift(size) == 0 && Ours(own, a, Shift(size))
  }

  /** The page of `v` can be read and written but not executed, and has the key of unsafe memory in a kernel heap and no
      key in a user heap. */
  predicate HeapEntry(mem: Memory, root: nat, isKernel: bool, size: nat, v: nat) {
    var w := Walk(mem, root, v, 3);
    && w.Some? && w.value.level == size
    && var e := w.value.entry;
       && Present(e) && Writable(e) && ExecuteDisable(e) && Key(e) == (if isKernel then 2 else 0)
       && User(e) && Accessed(e) && Dirty(e) && !Global(e) && !WriteThrough(e) && !CacheDisable(e)
       && (Huge(e) <==> size > 0)
  }

  lemma HeapEntries(mem: Memory, mem': Memory, root: nat, own: Owners, isKernel: bool, size: nat, first: nat, end: nat)
    requires size <= 2 && HeapMapped(mem, mem', root, own, HeapFlags(isKernel), size, first, end)
    ensures forall v: nat :: first <= v < end ==> HeapEntry(mem', root, isKernel, size, v)
  {
    hide Walk, Address, Shift, Ours, Present, Writable, User, WriteThrough, CacheDisable, Accessed, Dirty, Huge, Global,
      ExecuteDisable, Key;
    forall v: nat | first <= v < end ensures HeapEntry(mem', root, isKernel, size, v) {
      assert HeapPage(mem', root, own, HeapFlags(isKernel), size, v);
    }
  }

  /** `v` is mapped to the memory at `a`. */
  predicate UsesMemory(mem: Memory, root: nat, v: nat, a: nat) {
    var w := Walk(mem, root, v, 3);
    w.Some? && Address(w.value.entry) == a
  }

  /** Two addresses have the same memory only if they lie in one page. */
  ghost predicate OwnMemory(mem: Memory, root: nat, size: nat, v: nat, w: nat)
    requires size <= 2
  {
    var x, y := Walk(mem, root, v, 3), Walk(mem, root, w, 3);
    x.Some? && y.Some? && Address(x.value.entry) == Address(y.value.entry) ==>
      AlignDown(v, Shift(size)) == AlignDown(w, Shift(size))
  }

  /** The pages from `first` up to `end` are heap pages with memory of their own; all other addresses are as before. */
  ghost predicate HeapMapped(mem: Memory, mem': Memory, root: nat, own: Owners, flags: Flags, size: nat, first: nat,
                             end: nat)
    requires size <= 2
  {
    && (forall v: nat :: Plain(v) && !(first <= v < end) ==> Walk(mem', root, v, 3) == Walk(mem, root, v, 3))
    && (forall v: nat :: first <= v < end ==> HeapPage(mem', root, own, flags, size, v))
    && (forall v: nat, w: nat :: first <= v < end && first <= w < end ==> OwnMemory(mem', root, size, v, w))
  }

  /** Taking memory from the free list changes nothing else, and the memory is ours. */
  lemma TakenKeeps(mem: Memory, mem': Memory, root: nat, own: Owners, flags: Flags, size: nat, first: nat, page: nat,
                   a: nat, rs': seq<Region>)
    requires size <= 2 && HeapMapped(mem, mem', root, own, flags, size, first, page)
    requires Taken(own.free, a, a + Shift(size), rs') && FramesOk(mem', own.tables, own.free)
    ensures HeapMapped(mem, mem', root, Owners(rs', own.tables), flags, size, first, page)
    ensures FramesOk(mem', own.tables, rs') && Ours(Owners(rs', own.tables), a, Shift(size))
    ensures forall v: nat :: first <= v < page ==> !UsesMemory(mem', root, v, a)
  {
    var own' := Owners(rs', own.tables);
    assert Grows(own, own') && Shift(size) > 0;
    hide Walk, Covers, Pack, Address, OwnMemory, Shift, Grows;
    assert Covers(own.free, a);
    forall v: nat | first <= v < page
      ensures HeapPage(mem', root, own', flags, size, v) && !UsesMemory(mem', root, v, a)
    {
      assert HeapPage(mem', root, own, flags, size, v);
      OursStays(own, own', Address(Walk(mem', root, v, 3).value.entry), Shift(size));
    }
  }

  /** One more page. */
  lemma NextPage(mem: Memory, mem1: Memory, mem2: Memory, root: nat, own1: Owners, own2: Owners, flags: Flags,
                 size: nat, first: nat, page: nat, a: nat)
    requires size <= 2 && HeapMapped(mem, mem1, root, own1, flags, size, first, page)
    requires first <= page && page % Shift(size) == 0 && PlainRange(first, page + Shift(size))
    requires forall v: nat :: first <= v < page ==> !UsesMemory(mem1, root, v, a)
    requires CanSet(a, PageFlags(flags, size)) && a % Shift(size) == 0 && Ours(own1, a, Shift(size))
             && Grows(own1, own2)
    requires Mapped(mem1, mem2, root, a, flags, size, page, page + Shift(size))
    ensures HeapMapped(mem, mem2, root, own2, flags, size, first, page + Shift(size))
  {
    PageSays(a, flags, size);
    hide Walk, Ours, Grows, Pack, Address, Shift, AlignDown, CanSet, HeapMapped;
    forall v: nat | first <= v < page + Shift(size) ensures HeapPage(mem2, root, own2, flags, size, v) {
      NextPageAt(mem, mem1, mem2, root, own1, own2, flags, size, first, page, a, v);
    }
    forall v: nat, w: nat | first <= v < page + Shift(size) && first <= w < page + Shift(size)
      ensures OwnMemory(mem2, root, size, v, w)
    {
      NextPageAt(mem, mem1, mem2, root, own1, own2, flags, size, first, page, a, v);
      NextPageAt(mem, mem1, mem2, root, own1, own2, flags, size, first, page, a, w);
      OwnStays(mem, mem1, mem2, root, own1, flags, size, first, page, a, v, w);
    }
    forall v: nat | Plain(v) && !(first <= v < page + Shift(size))
      ensures Walk(mem2, root, v, 3) == Walk(mem, root, v, 3) {
      Elsewhere(mem, mem1, mem2, root, own1, flags, size, first, page, a, v);
    }
    HeapMappedIntro(mem, mem2, root, own2, flags, size, first, page + Shift(size));
  }

  lemma HeapMappedIntro(mem: Memory, mem': Memory, root: nat, own: Owners, flags: Flags, size: nat, first: nat,
                        end: nat)
    requires size <= 2
    requires forall v: nat :: Plain(v) && !(first <= v < end) ==> Walk(mem', root, v, 3) == Walk(mem, root, v, 3)
    requires forall v: nat :: first <= v < end ==> HeapPage(mem', root, own, flags, size, v)
    requires forall v: nat, w: nat :: first <= v < end && first <= w < end ==> OwnMemory(mem', root, size, v, w)
    ensures HeapMapped(mem, mem', root, own, flags, size, first, end)
  {
    hide Walk, HeapPage, OwnMemory;
  }

  lemma Elsewhere(mem: Memory, mem1: Memory, mem2: Memory, root: nat, own: Owners, flags: Flags, size: nat, first: nat,
                  page: nat, a: nat, v: nat)
    requires size <= 2 && HeapMapped(mem, mem1, root, own, flags, size, first, page) && first <= page
    requires Mapped(mem1, mem2, root, a, flags, size, page, page + Shift(size)) && Plain(v)
             && !(first <= v < page + Shift(size))
    ensures Walk(mem2, root, v, 3) == Walk(mem, root, v, 3)
  {
    hide Walk, Shift, HeapPage, OwnMemory;
  }

  /** The addresses of the new page have the new entry, those of earlier pages what they had. */
  lemma NextPageAt(mem: Memory, mem1: Memory, mem2: Memory, root: nat, own1: Owners, own2: Owners, flags: Flags,
                   size: nat, first: nat, page: nat, a: nat, v: nat)
    requires size <= 2 && HeapMapped(mem, mem1, root, own1, flags, size, first, page)
    requires first <= page && page % Shift(size) == 0 && PlainRange(first, page + Shift(size))
             && first <= v < page + Shift(size)
    requires PageAs(Pack(a, PageFlags(flags, size)), a, flags, size) && a % Shift(size) == 0
    requires Ours(own1, a, Shift(size)) && Grows(own1, own2)
    requires Mapped(mem1, mem2, root, a, flags, size, page, page + Shift(size))
    ensures HeapPage(mem2, root, own2, flags, size, v)
    ensures Walk(mem2, root, v, 3) == if v < page then Walk(mem1, root, v, 3)
            else Some(Leaf(Pack(a, PageFlags(flags, size)), size))
  {
    hide Walk, Ours, Grows, Pack, Address, AlignDown, OwnMemory, Shift;
    assert Plain(v);
    if v < page {
      assert HeapPage(mem1, root, own1, flags, size, v);
      OursStays(own1, own2, Address(Walk(mem1, root, v, 3).value.entry), Shift(size));
    } else {
      OursStays(own1, own2, a, Shift(size));
      PageOffset(page, page, v, Shift(size));
    }
  }

  lemma OwnStays(mem: Memory, mem1: Memory, mem2: Memory, root: nat, own: Owners, flags: Flags, size: nat, first: nat,
                 page: nat, a: nat, v: nat, w: nat)
    requires size <= 2 && HeapMapped(mem, mem1, root, own, flags, size, first, page) && page % Shift(size) == 0
    requires first <= v < page + Shift(size) && first <= w < page + Shift(size)
    requires forall u: nat :: first <= u < page ==> !UsesMemory(mem1, root, u, a)
    requires Address(Pack(a, PageFlags(flags, size))) == a
    requires forall u: nat :: u == v || u == w ==>
               Walk(mem2, root, u, 3) == if u < page then Walk(mem1, root, u, 3)
                 else Some(Leaf(Pack(a, PageFlags(flags, size)), size))
    ensures OwnMemory(mem2, root, size, v, w)
  {
    hide Walk, Pack, Address, Shift, HeapPage;
    if v < page && w < page {
      assert OwnMemory(mem1, root, size, v, w);
    }
    assert v < page ==> !UsesMemory(mem1, root, v, a);
    assert w < page ==> !UsesMemory(mem1, root, w, a);
    if page <= v && page <= w {
      PageStart(page, v, Shift(size));
      PageStart(page, w, Shift(size));
    }
    hide AlignDown;
  }

  lemma PageStart(page: nat, v: nat, s: nat)
    requires s > 0 && page % s == 0 && page <= v < page + s
    ensures AlignDown(v, s) == page
  {
    DivUnique(v, s, page / s, v - page);
  }

  /** The memory of different pages does not overlap. */
  lemma PagesApart(mem: Memory, mem': Memory, root: nat, own: Owners, flags: Flags, size: nat, first: nat, end: nat,
                   v: nat, w: nat)
    requires size <= 2 && HeapMapped(mem, mem', root, own, flags, size, first, end)
    requires first <= v < end && first <= w < end && AlignDown(v, Shift(size)) != AlignDown(w, Shift(size))
    ensures var x, y := Walk(mem', root, v, 3), Walk(mem', root, w, 3);
            && x.Some? && y.Some?
            && (Address(x.value.entry) + Shift(size) <= Address(y.value.entry)
                || Address(y.value.entry) + Shift(size) <= Address(x.value.entry))
  {
    hide Walk, Pack, Address, AlignDown, Ours, Shift;
    assert HeapPage(mem', root, own, flags, size, v) && HeapPage(mem', root, own, flags, size, w);
    assert OwnMemory(mem', root, size, v, w);
    var a, b := Address(Walk(mem', root, v, 3).value.entry), Address(Walk(mem', root, w, 3).value.entry);
    assert Shift(size) > 0 by { PageSizes(size); }
    if a < b {
      MultiplesApart(a, b, Shift(size));
    } else {
      MultiplesApart(b, a, Shift(size));
    }
  }

  lemma PageSizes(size: nat)
    requires size <= 2
    ensures Shift(size) > 0
  {
  }

  /** The size of the mapped part of the heap: it falls short only if memory runs out.  The result is `None` where
      the original stops the kernel because no frame is left for a table. */
  method MapHeap(p: PageTables, va: nat, bytes: nat, isKernel: bool, size: nat) returns (r: Option<nat>)
    requires p.Valid() && size <= 2 && va % Shift(size) == 0 && PlainRange(va, va + AlignDown(bytes, Shift(size)))
    requires forall v: nat :: va <= v < va + AlignDown(bytes, Shift(size)) ==> !LargerPage(p.mem, p.root, v, size)
    modifies p, p.phys
    ensures p.Valid()
    ensures r.Some? ==> r.value <= AlignDown(bytes, Shift(size)) && r.value % Shift(size) == 0
    ensures r.Some? ==> HeapMapped(old(p.mem), p.mem, p.root, Owners(p.phys.list, p.tables), HeapFlags(isKernel), size,
                                   va, va + r.value)
    ensures r.Some? ==> forall v: nat :: va <= v < va + r.value ==> HeapEntry(p.mem, p.root, isKernel, size, v)
    ensures r.Some? && r.value < AlignDown(bytes, Shift(size)) ==>
              forall i :: 0 <= i < |p.phys.list| ==>
                AlignUp(p.phys.list[i].start, Shift(size)) + Shift(size) > p.phys.list[i].end
  {
    var flags, s, limit := HeapFlags(isKernel), Shift(size), AlignDown(bytes, Shift(size));
    var i := 0;
    assert HeapMapped(p.mem, p.mem, p.root, Owners(p.phys.list, p.tables), flags, size, va, va);
    hide Shift, AlignDown, AlignUp, HeapMapped, HeapFlags, LargerPage, PlainRange, PageTables.Valid, FreeList.Valid;
    while i < limit
      invariant p.Valid() && i <= limit && i % s == 0
      invariant HeapMapped(old(p.mem), p.mem, p.root, Owners(p.phys.list, p.tables), flags, size, va, va + i)
      decreases limit - i
    {
      StepFits(i, limit, s);
      var got := MapOne(p, old(p.mem), va, i, limit, flags, size);
      if got.Full? {
        HeapEntries(old(p.mem), p.mem, p.root, Owners(p.phys.list, p.tables), isKernel, size, va, va + i);
        return Some(i);
      } else if got.NoTable? {
        return None;
      }
      AddModulus(i, s);
      i := i + s;
    }
    HeapEntries(old(p.mem), p.mem, p.root, Owners(p.phys.list, p.tables), isKernel, size, va, va + i);
    r := Some(i);
  }

  datatype Round = Done | Full | NoTable

  lemma StepFits(i: nat, limit: nat, s: nat)
    requires s > 0 && i % s == 0 && limit % s == 0 && i < limit
    ensures i + s <= limit
  {
    MultiplesApart(i, limit, s);
  }

  /** One round of the loop: memory for a page, and its mapping. */
  method MapOne(p: PageTables, ghost mem0: Memory, va: nat, i: nat, ghost limit: nat, flags: Flags, size: nat)
      returns (r: Round)
    requires p.Valid() && size <= 2 && va % Shift(size) == 0 && i % Shift(size) == 0 && i + Shift(size) <= limit
    requires PlainRange(va, va + limit) && flags.pkey < 16 && !flags.huge
    requires forall v: nat :: va <= v < va + limit ==> !LargerPage(mem0, p.root, v, size)
    requires HeapMapped(mem0, p.mem, p.root, Owners(p.phys.list, p.tables), flags, size, va, va + i)
    modifies p, p.phys
    ensures p.Valid()
    ensures r.Done? ==> HeapMapped(mem0, p.mem, p.root, Owners(p.phys.list, p.tables), flags, size, va,
                                   va + i + Shift(size))
    ensures r.Full? ==> HeapMapped(mem0, p.mem, p.root, Owners(p.phys.list, p.tables), flags, size, va, va + i)
    ensures r.Full? ==>
              forall j :: 0 <= j < |p.phys.list| ==>
                AlignUp(p.phys.list[j].start, Shift(size)) + Shift(size) > p.phys.list[j].end
  {
    var s, page := Shift(size), va + i;
    ghost var own, mem1 := Owners(p.phys.list, p.tables), p.mem;
    var m := TakeMemory(p, size);
    if m.None? {
      return Full;
    }
    var a := m.value;
    assert CanSet(a, PageFlags(flags, size));
    hide *;
    TakenKeeps(mem0, mem1, p.root, own, flags, size, va, page, a, p.phys.list);
    ghost var own1 := Owners(p.phys.list, p.tables);
    SumMultiple(va, i, s);
    PlainPart(va, page, s, limit);
    PageFree(mem0, mem1, p.root, own1, flags, size, va, page, limit);
    var ok := MapOnePage(p, page, a, flags, size);
    if !ok {
      return NoTable;
    }
    NextPage(mem0, mem1, p.mem, p.root, own1, Owners(p.phys.list, p.tables), flags, size, va, page, a);
    r := Done;
  }

  /** Memory for one page. */
  method TakeMemory(p: PageTables, size: nat) returns (m: Option<nat>)
    requires p.Valid() && size <= 2
    modifies p.phys
    ensures p.Valid() && FramesOk(p.mem, p.tables, old(p.phys.list))
    ensures m.None? ==>
              && p.phys.list == old(p.phys.list)
              && forall j :: 0 <= j < |p.phys.list| ==>
                   AlignUp(p.phys.list[j].start, Shift(size)) + Shift(size) > p.phys.list[j].end
    ensures m.Some? ==> Taken(old(p.phys.list), m.value, m.value + Shift(size), p.phys.list)
    ensures m.Some? ==>
              m.value % Shift(size) == 0 && m.value % KIB4 == 0 && m.value < PHYS_LIMIT
              && (size > 0 ==> m.value % MIB2 == 0)
  {
    var s := Shift(size);
    PageMultiple(s, size);
    ghost var rs := p.phys.list;
    m := p.phys.AllocateAligned(s, s);
    if m.Some? {
      PageMultiple(m.value, size);
      hide Wf, Covers;
      assert Covers(rs, m.value);
    }
  }

  method MapOnePage(p: PageTables, page: nat, a: nat, flags: Flags, size: nat) returns (ok: bool)
    requires p.Valid() && size <= 2 && page % Shift(size) == 0 && PlainRange(page, page + Shift(size))
             && CanSet(a, PageFlags(flags, size))
    requires forall v: nat :: page <= v < page + Shift(size) ==> !LargerPage(p.mem, p.root, v, size)
    modifies p, p.phys
    ensures p.Valid() && Grown(old(p.tables), old(p.phys.list), p.tables, p.phys.list)
    ensures ok ==> Mapped(old(p.mem), p.mem, p.root, a, flags, size, page, page + Shift(size))
  {
    OnePage(page, size);
    assert CanMap(a, PageFlags(flags, size), size, page, page);
    hide PageTables.Valid, Mapped, Grown, LargerPage, Shift, FirstPage, LastPage, CanMap;
    var end, flush;
    ok, end, flush := p.Map(page, a, 1, flags, size);
  }

  lemma PageMultiple(a: nat, size: nat)
    requires size <= 2 && a % Shift(size) == 0
    ensures a % KIB4 == 0 && (size > 0 ==> a % MIB2 == 0)
  {
    OffsetAligned(0, a, size);
  }

  lemma OnePage(page: nat, size: nat)
    requires size <= 2 && page % Shift(size) == 0
    ensures FirstPage(page, size) == page && LastPage(page, 1, size) == page
    ensures FirstPage(page, size) + 1 * Shift(size) == page + Shift(size)
  {
    PageStart(page, page, Shift(size));
    hide AlignDown;
  }

  lemma PlainPart(va: nat, page: nat, s: nat, limit: nat)
    requires PlainRange(va, va + limit) && va <= page && page + s <= va + limit
    ensures PlainRange(page, page + s) && PlainRange(va, page + s)
  {
  }

  lemma PageFree(mem: Memory, mem': Memory, root: nat, own: Owners, flags: Flags, size: nat, va: nat, page: nat,
                 limit: nat)
    requires size <= 2 && HeapMapped(mem, mem', root, own, flags, size, va, page) && va <= page
    requires page + Shift(size) <= va + limit && PlainRange(va, va + limit)
    requires forall v: nat :: va <= v < va + limit ==> !LargerPage(mem, root, v, size)
    ensures forall v: nat :: page <= v < page + Shift(size) ==> !LargerPage(mem', root, v, size)
  {
    hide Walk, HeapPage, OwnMemory, Shift;
    forall v: nat | page <= v < page + Shift(size) ensures !LargerPage(mem', root, v, size) {
      assert Plain(v) && !LargerPage(mem, root, v, size);
    }
  }
}
