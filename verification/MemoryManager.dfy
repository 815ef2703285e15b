/**
 `allocate` and `deallocate` of `src/mm/mod.rs`, which join the free lists of physical frames and of virtual
 addresses with the page table.
 */
module MemoryManager {
  import opened Alignment
  import opened FreeList
  import opened Options
  import opened PageEntry
  import opened PageRange
  import opened PageWalk
  import opened Paging
  import opened SelfMap
  import opened Translation

  /** The physical memory and the size of a live allocation. */
  datatype Block = Block(pa: nat, size: nat)

  /** Live allocations by virtual address. */
  type Live = map<nat, Block>

  /** All state of the memory manager; `low` is the end of the kernel image, `high` the end of its heap. */
  datatype View = View(mem: Memory, root: nat, tables: Tables, phys: seq<Region>, virt: seq<Region>, low: nat,
                       high: nat)

  // ----- The invariant -----

  predicate Disjoint(a: nat, n: nat, b: nat, m: nat) {
    a + n <= b || b + m <= a
  }

  /** The frames of a block are memory outside the kernel image, not free and not used for tables. */
  ghost predicate FramesHeld(s: View, b: Block) {
    && b.pa % KIB4 == 0 && s.low <= b.pa
    && (forall a: nat :: b.pa <= a < b.pa + b.size ==> !Covers(s.phys, a))
    && (forall a: nat :: b.pa <= a < b.pa + b.size && a % KIB4 == 0 ==> a in s.mem && a < PHYS_LIMIT)
    && (forall t :: t in s.tables ==> !(b.pa <= s.tables[t] < b.pa + b.size))
  }

  /** The addresses of a block are mapped to its frames, in order. */
  ghost predicate MappedTo(mem: Memory, root: nat, va: nat, b: Block) {
    forall v: nat :: va <= v < va + b.size ==>
      var w := Walk(mem, root, v, 3);
      w.Some? && w.value.level == 0 && Address(w.value.entry) == b.pa + AlignDown(v, KIB4) - va
  }

  ghost predicate BlockOk(s: View, va: nat, b: Block) {
    && b.size > 0 && b.size % KIB4 == 0 && va % KIB4 == 0 && s.low <= va && va + b.size <= s.high
    && (forall a: nat :: va <= a < va + b.size ==> !Covers(s.virt, a))
    && FramesHeld(s, b)
    && MappedTo(s.mem, s.root, va, b)
  }

  /** Live blocks overlap neither in virtual nor in physical memory. */
  predicate Separate(live: Live) {
    forall va, vb :: va in live && vb in live && va != vb ==>
      Disjoint(va, live[va].size, vb, live[vb].size) && Disjoint(live[va].pa, live[va].size, live[vb].pa, live[vb].size)
  }

  /** What the free lists may hold. */
  ghost predicate ListsOk(s: View) {
    && s.high <= LOWER_END
    && (forall a: nat :: Covers(s.virt, a) ==> s.low <= a < s.high && !LargerPage(s.mem, s.root, a, 0))
    && (forall a: nat :: Covers(s.phys, a) ==> s.low <= a)
  }

  ghost predicate Ok(s: View, live: Live) {
    && Wf(s.mem, s.root, s.tables) && FramesOk(s.mem, s.tables, s.phys) && ListsOk(s)
    && (forall va :: va in live ==> BlockOk(s, va, live[va]))
    && Separate(live)
  }

  // ----- Allocation -----

  /** What an allocation does to the state: it takes both blocks, then maps pages up to `end`. */
  ghost predicate Allocates(s: View, pa: nat, va: nat, size: nat, flags: Flags, phys: seq<Region>, end: nat, s': View) {
    && size > 0 && size % KIB4 == 0 && pa % KIB4 == 0 && va % KIB4 == 0 && flags.pkey < 16 && !flags.huge
    && Taken(s.phys, pa, pa + size, phys) && Taken(s.virt, va, va + size, s'.virt)
    && va <= end <= va + size && Mapped(s.mem, s'.mem, s.root, pa, flags, 0, va, end)
    && Grown(s.tables, phys, s'.tables, s'.phys) && s.mem.Keys <= s'.mem.Keys
    && s'.root == s.root && s'.low == s.low && s'.high == s.high
    && Wf(s'.mem, s'.root, s'.tables) && FramesOk(s'.mem, s'.tables, s'.phys)
  }

  /** Walks outside the block are as before. */
  lemma WalkElsewhere(s: View, pa: nat, va: nat, size: nat, flags: Flags, phys: seq<Region>, end: nat, s': View, v: nat)
    requires Allocates(s, pa, va, size, flags, phys, end, s') && v < LOWER_END && !(va <= v < va + size)
    ensures Walk(s'.mem, s'.root, v, 3) == Walk(s.mem, s.root, v, 3)
  {
    hide Walk, Wf, FramesOk;
    assert Plain(v);
  }

  lemma OthersKept(s: View, pa: nat, va: nat, size: nat, flags: Flags, phys: seq<Region>, end: nat, s': View, vb: nat,
                   b: Block)
    requires Allocates(s, pa, va, size, flags, phys, end, s') && BlockOk(s, vb, b) && s.high <= LOWER_END
    ensures BlockOk(s', vb, b) && Disjoint(va, size, vb, b.size) && Disjoint(pa, size, b.pa, b.size)
  {
    hide Wf, Walk, Mapped, FramesOk, Covers;
    TakenDisjoint(s.virt, va, size, s'.virt, vb, b.size);
    TakenDisjoint(s.phys, pa, size, phys, b.pa, b.size);
    HeldKept(s, pa, va, size, flags, phys, end, s', b);
    forall v: nat | vb <= v < vb + b.size ensures Walk(s'.mem, s'.root, v, 3) == Walk(s.mem, s.root, v, 3) {
      WalkElsewhere(s, pa, va, size, flags, phys, end, s', v);
    }
  }

  lemma TakenDisjoint(rs: seq<Region>, start: nat, size: nat, rs': seq<Region>, b: nat, n: nat)
    requires Taken(rs, start, start + size, rs') && size > 0 && n > 0
    requires forall a: nat :: b <= a < b + n ==> !Covers(rs, a)
    ensures Disjoint(start, size, b, n)
  {
    hide Covers;
    var a := if start < b then b else start;
    if a < start + size {
      assert Covers(rs, a);
    }
  }

  lemma HeldKept(s: View, pa: nat, va: nat, size: nat, flags: Flags, phys: seq<Region>, end: nat, s': View, b: Block)
    requires Allocates(s, pa, va, size, flags, phys, end, s') && FramesHeld(s, b)
    ensures FramesHeld(s', b)
  {
    hide Wf, Walk, Mapped, FramesOk, Covers;
    forall t | t in s'.tables ensures !(b.pa <= s'.tables[t] < b.pa + b.size) {
      var f := s'.tables[t];
      if f in s.tables.Values {
        var u :| u in s.tables && s.tables[u] == f;
      } else {
        assert Covers(phys, f);
      }
    }
    forall a: nat | b.pa <= a < b.pa + b.size && a % KIB4 == 0 ensures a in s'.mem {
      assert a in s.mem.Keys;
    }
  }

  /** The new block. */
  lemma NewBlockOk(s: View, pa: nat, va: nat, size: nat, flags: Flags, phys: seq<Region>, s': View)
    requires Allocates(s, pa, va, size, flags, phys, va + size, s') && ListsOk(s) && FramesOk(s.mem, s.tables, s.phys)
    ensures BlockOk(s', va, Block(pa, size))
  {
    NewFramesHeld(s, pa, va, size, flags, phys, s');
    NewMapped(s, pa, va, size, flags, phys, s');
    hide Wf, Walk, Mapped, FramesOk, Covers, FramesHeld, MappedTo;
    assert Covers(s.virt, va) && Covers(s.virt, va + size - 1);
  }

  lemma NewFramesHeld(s: View, pa: nat, va: nat, size: nat, flags: Flags, phys: seq<Region>, s': View)
    requires Allocates(s, pa, va, size, flags, phys, va + size, s') && ListsOk(s) && FramesOk(s.mem, s.tables, s.phys)
    ensures FramesHeld(s', Block(pa, size))
  {
    hide Wf, Walk, Mapped, Covers;
    assert Covers(s.phys, pa);
    forall t | t in s'.tables ensures !(pa <= s'.tables[t] < pa + size) {
      var f := s'.tables[t];
      if f in s.tables.Values {
        var u :| u in s.tables && s.tables[u] == f;
      } else {
        assert Covers(phys, f);
      }
    }
    forall a: nat | pa <= a < pa + size && a % KIB4 == 0 ensures a in s'.mem && a < PHYS_LIMIT {
      assert Covers(s.phys, a);
      assert a in s.mem.Keys;
    }
    forall a: nat | pa <= a < pa + size ensures !Covers(s'.phys, a) {
      assert !Covers(phys, a);
    }
  }

  lemma NewMapped(s: View, pa: nat, va: nat, size: nat, flags: Flags, phys: seq<Region>, s': View)
    requires Allocates(s, pa, va, size, flags, phys, va + size, s') && ListsOk(s) && FramesOk(s.mem, s.tables, s.phys)
    ensures MappedTo(s'.mem, s'.root, va, Block(pa, size))
  {
    hide Wf, Walk, Mapped, Covers, Address, AlignDown;
    var last := va + size - KIB4;
    assert last >= va && last % KIB4 == 0;
    RangeFits(s, pa, va, size, phys, s'.virt, flags);
    forall v: nat | va <= v < va + size
      ensures var w := Walk(s'.mem, s'.root, v, 3);
              w.Some? && w.value.level == 0 && Address(w.value.entry) == pa + AlignDown(v, KIB4) - va
    {
      MappedEntry(s.mem, s'.mem, s.root, pa, flags, 0, va, last, v);
    }
  }

  /** Blocks from the free lists meet the demands of `map`. */
  lemma RangeFits(s: View, pa: nat, va: nat, size: nat, phys: seq<Region>, virt: seq<Region>, flags: Flags)
    requires ListsOk(s) && FramesOk(s.mem, s.tables, s.phys) && size > 0 && size % KIB4 == 0 && pa % KIB4 == 0
             && va % KIB4 == 0
    requires Taken(s.phys, pa, pa + size, phys) && Taken(s.virt, va, va + size, virt) && flags.pkey < 16 && !flags.huge
    ensures size >= KIB4 && (va + size - KIB4) % KIB4 == 0
    ensures CanMap(pa, PageFlags(flags, 0), 0, va, va + size - KIB4) && PlainRange(va, va + size)
    ensures forall v: nat :: va <= v < va + size ==> !LargerPage(s.mem, s.root, v, 0)
  {
    hide LargerPage, Covers;
    var a := pa + size - KIB4;
    assert a % KIB4 == 0;
    assert Covers(s.phys, a) && Covers(s.virt, va + size - 1);
    forall v: nat | va <= v < va + size ensures !LargerPage(s.mem, s.root, v, 0) {
      assert Covers(s.virt, v);
    }
  }

  lemma ListsKept(s: View, pa: nat, va: nat, size: nat, flags: Flags, phys: seq<Region>, end: nat, s': View)
    requires Allocates(s, pa, va, size, flags, phys, end, s') && ListsOk(s)
    ensures ListsOk(s')
  {
    hide Wf, Walk, Mapped, FramesOk, Covers;
    forall a: nat | Covers(s'.virt, a) ensures s.low <= a < s.high && !LargerPage(s'.mem, s'.root, a, 0) {
      assert Covers(s.virt, a);
      WalkElsewhere(s, pa, va, size, flags, phys, end, s', a);
      assert !LargerPage(s.mem, s.root, a, 0);
    }
    forall a: nat | Covers(s'.phys, a) ensures s.low <= a {
      assert Covers(phys, a);
    }
  }

  /** An allocation keeps all live blocks, and adds a block that overlaps none of them. */
  lemma AllocateKeeps(s: View, live: Live, pa: nat, va: nat, size: nat, flags: Flags, phys: seq<Region>, end: nat,
                      s': View)
    requires Ok(s, live) && Allocates(s, pa, va, size, flags, phys, end, s')
    ensures Ok(s', live) && va !in live
    ensures end == va + size ==> Ok(s', live[va := Block(pa, size)])
  {
    ListsKept(s, pa, va, size, flags, phys, end, s');
    if end == va + size {
      NewBlockOk(s, pa, va, size, flags, phys, s');
    }
    assert forall vb :: vb in live ==> BlockOk(s, vb, live[vb]);
    hide *;
    forall vb | vb in live
      ensures BlockOk(s', vb, live[vb]) && live[vb].size > 0
      ensures Disjoint(va, size, vb, live[vb].size) && Disjoint(pa, size, live[vb].pa, live[vb].size)
    {
      Nonempty(s, vb, live[vb]);
      ListsEnd(s, live);
      OthersKept(s, pa, va, size, flags, phys, end, s', vb, live[vb]);
    }
    AllocateIntro(s, live, pa, va, size, flags, phys, end, s');
  }

  lemma ListsEnd(s: View, live: Live)
    requires Ok(s, live)
    ensures s.high <= LOWER_END
  {
  }

  lemma AllocateIntro(s: View, live: Live, pa: nat, va: nat, size: nat, flags: Flags, phys: seq<Region>, end: nat,
                      s': View)
    requires Ok(s, live) && Allocates(s, pa, va, size, flags, phys, end, s') && ListsOk(s')
    requires forall vb :: vb in live ==>
               && BlockOk(s', vb, live[vb]) && live[vb].size > 0
               && Disjoint(va, size, vb, live[vb].size) && Disjoint(pa, size, live[vb].pa, live[vb].size)
    requires end == va + size ==> BlockOk(s', va, Block(pa, size))
    ensures Ok(s', live) && va !in live
    ensures end == va + size ==> Ok(s', live[va := Block(pa, size)])
  {
    hide Wf, FramesOk, BlockOk, Taken, Mapped, Grown, ListsOk;
  }

  lemma Nonempty(s: View, va: nat, b: Block)
    requires BlockOk(s, va, b)
    ensures b.size > 0
  {
  }

  // ----- Deallocation -----

  /** What a deallocation does to the state: it gives both blocks back; the page table stays as it is. */
  ghost predicate Deallocates(s: View, va: nat, b: Block, s': View) {
    && Given(s.phys, b.pa, b.pa + b.size, s'.phys) && Given(s.virt, va, va + b.size, s'.virt)
    && s' == s.(phys := s'.phys, virt := s'.virt)
  }

  lemma StillHeld(s: View, va: nat, b: Block, s': View, vb: nat, c: Block)
    requires Deallocates(s, va, b, s') && BlockOk(s, vb, c)
    requires Disjoint(va, b.size, vb, c.size) && Disjoint(b.pa, b.size, c.pa, c.size)
    ensures BlockOk(s', vb, c)
  {
    hide Covers, MappedTo;
  }

  lemma GivenLists(s: View, va: nat, b: Block, s': View)
    requires Deallocates(s, va, b, s') && BlockOk(s, va, b) && ListsOk(s) && FramesOk(s.mem, s.tables, s.phys)
    ensures ListsOk(s') && FramesOk(s'.mem, s'.tables, s'.phys)
  {
    hide Covers, Walk, Address, AlignDown;
  }

  /** A deallocation keeps all other live blocks. */
  lemma DeallocateKeeps(s: View, live: Live, va: nat, s': View)
    requires Ok(s, live) && va in live && Deallocates(s, va, live[va], s')
    ensures Ok(s', live - {va})
  {
    GivenLists(s, va, live[va], s');
    hide BlockOk, FramesOk, ListsOk, Wf;
    forall vb | vb in live && vb != va ensures BlockOk(s', vb, live[vb]) {
      StillHeld(s, va, live[va], s', vb, live[vb]);
    }
  }

  // ----- Runs -----

  datatype Moment = Moment(view: View, live: Live)

  /** An allocation, complete or not. */
  ghost predicate AllocateStep(m: Moment, m': Moment) {
    exists pa, va, size, flags, phys, end ::
      && Allocates(m.view, pa, va, size, flags, phys, end, m'.view)
      && m'.live == if end == va + size then m.live[va := Block(pa, size)] else m.live
  }

  /** An allocation that got physical memory but no addresses. */
  ghost predicate FramesStep(m: Moment, m': Moment) {
    m'.live == m.live && m'.view == m.view.(phys := m'.view.phys)
    && exists pa: nat, end: nat :: pa <= end && Taken(m.view.phys, pa, end, m'.view.phys)
  }

  /** The deallocation of a live block. */
  ghost predicate DeallocateStep(m: Moment, m': Moment) {
    exists va :: va in m.live && Deallocates(m.view, va, m.live[va], m'.view) && m'.live == m.live - {va}
  }

  /** What a call of `allocate` or `deallocate` does. */
  ghost predicate Next(m: Moment, m': Moment) {
    m' == m || AllocateStep(m, m') || FramesStep(m, m') || DeallocateStep(m, m')
  }

  lemma NextKeeps(m: Moment, m': Moment)
    requires Ok(m.view, m.live) && Next(m, m')
    ensures Ok(m'.view, m'.live)
  {
    hide Ok, Allocates, Deallocates, Taken;
    if DeallocateStep(m, m') {
      var va :| va in m.live && Deallocates(m.view, va, m.live[va], m'.view) && m'.live == m.live - {va};
      DeallocateKeeps(m.view, m.live, va, m'.view);
    } else if FramesStep(m, m') {
      var pa: nat, end: nat :| pa <= end && Taken(m.view.phys, pa, end, m'.view.phys);
      FramesTaken(m.view, m.live, pa, end - pa, m'.view);
    } else if AllocateStep(m, m') {
      var pa, va, size, flags, phys, end :|
        && Allocates(m.view, pa, va, size, flags, phys, end, m'.view)
        && m'.live == if end == va + size then m.live[va := Block(pa, size)] else m.live;
      AllocateKeeps(m.view, m.live, pa, va, size, flags, phys, end, m'.view);
    }
  }

  lemma FramesOnly(m: Moment, m': Moment, pa: nat, size: nat)
    requires m'.live == m.live && m'.view == m.view.(phys := m'.view.phys)
    requires Taken(m.view.phys, pa, pa + size, m'.view.phys)
    ensures FramesStep(m, m')
  {
  }

  lemma TakenCovers(rs: seq<Region>, start: nat, size: nat, rs': seq<Region>)
    requires Taken(rs, start, start + size, rs')
    ensures forall a: int :: start <= a < start + size ==> Covers(rs, a)
  {
  }

  /** At every moment of every run of calls the live blocks are mapped to memory of their own. */
  lemma {:induction false} RunKeeps(run: seq<Moment>, i: nat)
    requires i < |run| && Ok(run[0].view, run[0].live)
    requires forall k, n :: 0 <= k < |run| && n == k + 1 < |run| ==> Next(run[k], run[n])
    ensures Ok(run[i].view, run[i].live)
  {
    if i > 0 {
      RunKeeps(run, i - 1);
      hide Ok, Next;
      assert Next(run[i - 1], run[i]);
      NextKeeps(run[i - 1], run[i]);
    }
  }

  lemma NotFree(rs: seq<Region>, start: nat, size: nat)
    requires Sorted(rs) && size > 0 && forall a: nat :: start <= a < start + size ==> !Covers(rs, a)
    ensures Apart(rs, start, start + size)
  {
    forall i | 0 <= i < |rs| ensures start + size <= rs[i].start || rs[i].end <= start {
      var a := if start < rs[i].start then rs[i].start else start;
      if start <= a < start + size {
        assert !Covers(rs, a);
        assert !Inside(rs[i], a);
      }
    }
  }

  // ----- The memory manager -----

  lemma OkParts(s: View, live: Live)
    requires Ok(s, live)
    ensures ListsOk(s) && FramesOk(s.mem, s.tables, s.phys) && Wf(s.mem, s.root, s.tables)
  {
  }

  lemma WholePages(va: nat, size: nat)
    requires va % KIB4 == 0 && size > 0 && size % KIB4 == 0
    ensures size / KIB4 > 0 && FirstPage(va, 0) == va && LastPage(va, size / KIB4, 0) == va + size - KIB4
    ensures FirstPage(va, 0) + size / KIB4 * Shift(0) == va + size
  {
    LastIsFirst(va, size / KIB4, 0);
  }

  lemma AllocatesIntro(s: View, pa: nat, va: nat, size: nat, flags: Flags, phys: seq<Region>, end: nat, s': View)
    requires size > 0 && size % KIB4 == 0 && pa % KIB4 == 0 && va % KIB4 == 0 && flags.pkey < 16 && !flags.huge
    requires Taken(s.phys, pa, pa + size, phys) && Taken(s.virt, va, va + size, s'.virt)
    requires va <= end <= va + size && Mapped(s.mem, s'.mem, s.root, pa, flags, 0, va, end)
    requires Grown(s.tables, phys, s'.tables, s'.phys) && s.mem.Keys <= s'.mem.Keys
    requires s'.root == s.root && s'.low == s.low && s'.high == s.high
    requires Wf(s'.mem, s'.root, s'.tables) && FramesOk(s'.mem, s'.tables, s'.phys)
    ensures Allocates(s, pa, va, size, flags, phys, end, s')
  {
  }

  /** Taking frames from the free list disturbs nothing. */
  lemma FramesTaken(s: View, live: Live, pa: nat, size: nat, s': View)
    requires Ok(s, live) && Taken(s.phys, pa, pa + size, s'.phys) && s' == s.(phys := s'.phys)
    ensures Ok(s', live)
  {
    hide Wf, Covers, MappedTo, LargerPage;
    forall vb | vb in live ensures BlockOk(s', vb, live[vb]) {
      assert BlockOk(s, vb, live[vb]);
    }
  }

  lemma AddressesTaken(s: View, live: Live, va: nat, size: nat, s': View)
    requires Ok(s, live) && Taken(s.virt, va, va + size, s'.virt) && s' == s.(virt := s'.virt)
    ensures Ok(s', live)
  {
    hide Wf, Covers, MappedTo, LargerPage, FramesHeld, FramesOk;
    forall vb | vb in live ensures BlockOk(s', vb, live[vb]) {
      assert BlockOk(s, vb, live[vb]);
      assert FramesHeld(s', live[vb]) by { SameHeld(s, s', live[vb]); }
    }
  }

  lemma SameHeld(s: View, s': View, b: Block)
    requires FramesHeld(s, b) && s' == s.(virt := s'.virt)
    ensures FramesHeld(s', b)
  {
  }

  /** The entry from which `deallocate` recovers the physical block. */
  lemma BlockEntry(s: View, live: Live, va: nat, phys: seq<Region>, virt: seq<Region>)
    requires Ok(s, live) && va in live && s.phys == phys && s.virt == virt && Sorted(phys) && Sorted(virt)
    ensures Usable(va) && !LargerPage(s.mem, s.root, va, 0) && TableVa(va, 3) == PML4_ADDRESS
    ensures Down(s.mem, s.root, va, 3, 3).Some?
    ensures EntryAt(s.mem, s.root, va, 0).Some? && Address(EntryAt(s.mem, s.root, va, 0).value) == live[va].pa
    ensures Apart(virt, va, va + live[va].size) && Apart(phys, live[va].pa, live[va].pa + live[va].size)
    ensures live[va].size > 0 && va % KIB4 == 0 && live[va].pa % KIB4 == 0
  {
    var b := live[va];
    assert BlockOk(s, va, b);
    assert AlignDown(va, KIB4) == va;
    NotFree(virt, va, b.size);
    NotFree(phys, b.pa, b.size);
    hide Walk, Wf, Covers, Address, AlignDown, Apart;
    PlainIsUsable(va);
    RootTable(s.mem, s.root, va);
    LeafIsEntry(s.mem, s.root, s.tables, va, 0);
    assert va <= va < va + b.size;
  }

  const SAFE_MEM_REGION := 1

  /** `normal().writable().pkey(SAFE_MEM_REGION)` with or without `execute_disable` */
  function AllocationFlags(executeDisable: bool): Flags {
    Flags(false, true, false, false, false, false, false, false, false, executeDisable, SAFE_MEM_REGION)
  }

  /** `v` is mapped to its place in the block at `pa` by a 4 KiB page that can be read and written, has the key of safe
      memory and cannot be executed exactly if this was asked for. */
  predicate AllocatedPage(mem: Memory, root: nat, pa: nat, va: nat, v: nat, executeDisable: bool)
    requires va <= v
  {
    var w := Walk(mem, root, v, 3);
    && w.Some? && w.value.level == 0
    && var e := w.value.entry;
       && Address(e) == pa + AlignDown(v - va, KIB4) && Present(e) && Writable(e) && User(e) && Accessed(e) && Dirty(e)
       && Key(e) == 1 && ExecuteDisable(e) == executeDisable
       && !Huge(e) && !Global(e) && !WriteThrough(e) && !CacheDisable(e)
  }

  lemma AllocatedPages(mem: Memory, root: nat, pa: nat, va: nat, size: nat, executeDisable: bool)
    requires PagesMapped(mem, root, pa, AllocationFlags(executeDisable), 0, va, va + size)
    ensures forall v: nat :: va <= v < va + size ==> AllocatedPage(mem, root, pa, va, v, executeDisable)
  {
    hide Walk, Address, AlignDown, Present, Writable, User, WriteThrough, CacheDisable, Accessed, Dirty, Huge, Global,
      ExecuteDisable, Key;
    forall v: nat | va <= v < va + size ensures AllocatedPage(mem, root, pa, va, v, executeDisable) {
      assert MappedInOrder(mem, root, pa, AllocationFlags(executeDisable), 0, va, v);
    }
  }

  /** `map` for a block of whole 4 KiB pages. */
  method MapWholePages(pages: PageTables, va: nat, pa: nat, size: nat, flags: Flags) returns (ok: bool, end: nat)
    requires pages.Valid() && va % KIB4 == 0 && size >= KIB4 && size % KIB4 == 0
    requires CanMap(pa, PageFlags(flags, 0), 0, va, va + size - KIB4) && PlainRange(va, va + size)
    requires forall v: nat :: va <= v < va + size ==> !LargerPage(pages.mem, pages.root, v, 0)
    modifies pages, pages.phys
    ensures pages.Valid() && Grown(old(pages.tables), old(pages.phys.list), pages.tables, pages.phys.list)
    ensures old(pages.mem).Keys <= pages.mem.Keys
    ensures va <= end <= va + size && (ok <==> end == va + size)
    ensures Mapped(old(pages.mem), pages.mem, pages.root, pa, flags, 0, va, end)
    ensures PagesMapped(pages.mem, pages.root, pa, flags, 0, va, end)
  {
    WholePages(va, size);
    hide PageTables.Valid, Mapped, Grown, LargerPage, CanMap, FirstPage, LastPage;
    var flush;
    ok, end, flush := pages.Map(va, pa, size / KIB4, flags, 0);
  }

  class MemoryManager {
    const pages: PageTables
    const virt: FreeList
    const low: nat
    const high: nat
    ghost var live: Live

    ghost function Now(): View
      reads pages, pages.phys, virt
    {
      View(pages.mem, pages.root, pages.tables, pages.phys.list, virt.list, low, high)
    }

    ghost function Here(): Moment
      reads this, pages, pages.phys, virt
    {
      Moment(Now(), live)
    }

    ghost predicate Valid()
      reads this, pages, pages.phys, virt
    {
      && pages.phys != virt && pages.Valid() && virt.Valid() && PageStarts(virt.list)
      && Ok(Now(), live)
    }

    constructor (pages: PageTables, virt: FreeList, low: nat, high: nat)
      requires pages.phys != virt && pages.Valid() && virt.Valid() && PageStarts(virt.list)
      requires ListsOk(View(pages.mem, pages.root, pages.tables, pages.phys.list, virt.list, low, high))
      ensures Valid() && live == map[]
    {
      this.pages, this.virt, this.low, this.high, this.live := pages, virt, low, high, map[];
    }

    lemma Parts()
      requires Valid()
      ensures pages.phys != virt && pages.Valid() && virt.Valid() && PageStarts(virt.list) && Ok(Now(), live)
      ensures Sorted(virt.list) && Sorted(pages.phys.list) && PageStarts(pages.phys.list) && pages.phys.Valid()
    {
    }

    lemma TwoLists()
      requires Valid()
      ensures pages.phys != virt && Ok(Now(), live)
    {
    }

    lemma PagesParts()
      requires pages.Valid()
      ensures Wf(pages.mem, pages.root, pages.tables) && FramesOk(pages.mem, pages.tables, pages.phys.list)
      ensures pages.phys.Valid() && PageStarts(pages.phys.list)
    {
    }

    lemma PagesIntro()
      requires pages.phys.Valid() && PageStarts(pages.phys.list) && Ok(Now(), live)
      ensures pages.Valid()
    {
    }

    lemma Intro()
      requires pages.phys != virt && pages.Valid() && virt.Valid() && PageStarts(virt.list) && Ok(Now(), live)
      ensures Valid()
    {
    }

    /** Takes a block of physical memory. */
    method TakeFrames(size: nat) returns (p: Option<nat>)
      requires Valid() && size > 0 && size % KIB4 == 0
      modifies pages.phys
      ensures Valid() && (p.None? ==> pages.phys.list == old(pages.phys.list))
      ensures p.Some? ==> Taken(old(pages.phys.list), p.value, p.value + size, pages.phys.list) && p.value % KIB4 == 0
    {
      ghost var s := Now();
      Parts();
      p := pages.phys.Allocate(size);
      hide Ok, PageTables.Valid, Taken;
      if p.Some? {
        FramesTaken(s, live, p.value, size, Now());
      }
      PagesIntro();
      Intro();
    }

    /** Takes a block of virtual addresses. */
    method TakeAddresses(size: nat) returns (v: Option<nat>)
      requires Valid() && size > 0 && size % KIB4 == 0
      modifies virt
      ensures Valid() && (v.None? ==> virt.list == old(virt.list))
      ensures v.Some? ==> Taken(old(virt.list), v.value, v.value + size, virt.list) && v.value % KIB4 == 0
    {
      ghost var s := Now();
      Parts();
      v := virt.Allocate(size);
      hide Ok, PageTables.Valid, Taken;
      if v.Some? {
        AddressesTaken(s, live, v.value, size, Now());
      }
      Intro();
    }

    /** Maps a block that has been taken from both lists, and records it. */
    method MapBlock(ghost s: View, pa: nat, va: nat, size: nat, flags: Flags) returns (ok: bool)
      requires Valid() && Ok(s, live) && s == Now().(phys := s.phys, virt := s.virt)
      requires size > 0 && size % KIB4 == 0 && pa % KIB4 == 0 && va % KIB4 == 0 && flags.pkey < 16 && !flags.huge
      requires Taken(s.phys, pa, pa + size, pages.phys.list) && Taken(s.virt, va, va + size, virt.list)
      modifies this, pages, pages.phys
      ensures Valid() && va !in old(live)
      ensures live == if ok then old(live)[va := Block(pa, size)] else old(live)
      ensures ok ==> Mapped(old(pages.mem), pages.mem, pages.root, pa, flags, 0, va, va + size)
      ensures ok ==> PagesMapped(pages.mem, pages.root, pa, flags, 0, va, va + size)
      ensures AllocateStep(Moment(s, old(live)), Here())
    {
      hide Ok, Valid, PageTables.Valid, FreeList.Valid, Taken, Mapped, Grown, Wf, FramesOk, CanMap, PlainRange,
        LargerPage, Allocates, ListsOk, PageStarts, PageFlags, PagesMapped;
      Parts();
      OkParts(s, live);
      ghost var phys := pages.phys.list;
      RangeFits(s, pa, va, size, phys, virt.list, flags);
      var end;
      ok, end := MapWholePages(pages, va, pa, size, flags);
      PagesParts();
      AllocatesIntro(s, pa, va, size, flags, phys, end, Now());
      AllocateKeeps(s, live, pa, va, size, flags, phys, end, Now());
      if ok {
        live := live[va := Block(pa, size)];
      }
      Intro();
    }

    /** A block of whole pages of fresh virtual addresses, mapped to a fresh block of physical memory. */
    method Allocate(sz: nat, executeDisable: bool) returns (r: Option<nat>)
      requires Valid() && sz > 0
      modifies this, pages, pages.phys, virt
      ensures Valid() && Next(old(Here()), Here())
      ensures r.None? ==> live == old(live)
      ensures r.Some? ==>
                && r.value in live && live == old(live)[r.value := live[r.value]] && r.value !in old(live)
                && live[r.value].size == AlignUp(sz, KIB4)
                && (forall a :: live[r.value].pa <= a < live[r.value].pa + AlignUp(sz, KIB4) ==>
                    Covers(old(pages.phys.list), a))
                && Taken(old(virt.list), r.value, r.value + AlignUp(sz, KIB4), virt.list)
                && Mapped(old(pages.mem), pages.mem, pages.root, live[r.value].pa, AllocationFlags(executeDisable), 0,
                          r.value, r.value + AlignUp(sz, KIB4))
      ensures r.Some? ==>
                forall v: nat :: r.value <= v < r.value + AlignUp(sz, KIB4) ==>
                  AllocatedPage(pages.mem, pages.root, live[r.value].pa, r.value, v, executeDisable)
    {
      hide PageTables.Valid, Ok, Valid, Covers, Mapped, AlignUp, AllocateStep, DeallocateStep, FramesStep, Taken,
        PagesMapped, AllocatedPage, Next;
      r := AllocateBlock(sz, executeDisable);
      if r.Some? {
        AllocatedPages(pages.mem, pages.root, live[r.value].pa, r.value, AlignUp(sz, KIB4), executeDisable);
      }
    }

    method AllocateBlock(sz: nat, executeDisable: bool) returns (r: Option<nat>)
      requires Valid() && sz > 0
      modifies this, pages, pages.phys, virt
      ensures Valid() && Next(old(Here()), Here())
      ensures r.None? ==> live == old(live)
      ensures r.Some? ==>
                && r.value in live && live == old(live)[r.value := live[r.value]] && r.value !in old(live)
                && live[r.value].size == AlignUp(sz, KIB4)
                && (forall a :: live[r.value].pa <= a < live[r.value].pa + AlignUp(sz, KIB4) ==>
                    Covers(old(pages.phys.list), a))
                && Taken(old(virt.list), r.value, r.value + AlignUp(sz, KIB4), virt.list)
                && Mapped(old(pages.mem), pages.mem, pages.root, live[r.value].pa, AllocationFlags(executeDisable), 0,
                          r.value, r.value + AlignUp(sz, KIB4))
      ensures r.Some? ==> PagesMapped(pages.mem, pages.root, live[r.value].pa, AllocationFlags(executeDisable), 0,
                                      r.value, r.value + AlignUp(sz, KIB4))
    {
      var size := AlignUp(sz, KIB4);
      hide PageTables.Valid, Ok, Valid, Covers, Mapped, AlignUp, AllocateStep, DeallocateStep, FramesStep, Taken,
        PagesMapped;
      ghost var s := Now();
      TwoLists();
      hide FreeList.Valid;
      var p := TakeFrames(size);
      if p.None? {
        return None;
      }
      TakenCovers(s.phys, p.value, size, pages.phys.list);
      var v := TakeAddresses(size);
      if v.None? {
        FramesOnly(old(Here()), Here(), p.value, size);
        return None;
      }
      var ok := MapBlock(s, p.value, v.value, size, AllocationFlags(executeDisable));
      r := if ok then v else None;
    }

    /** Gives back the virtual block, and the physical block that the page table holds for it. */
    method Deallocate(va: nat, sz: nat)
      requires Valid() && va in live && live[va].size == AlignUp(sz, KIB4)
      modifies this, pages.phys, virt
      ensures Valid() && Next(old(Here()), Here()) && live == old(live) - {va}
      ensures Given(old(pages.phys.list), old(live)[va].pa, old(live)[va].pa + AlignUp(sz, KIB4), pages.phys.list)
      ensures Given(old(virt.list), va, va + AlignUp(sz, KIB4), virt.list)
    {
      var size := AlignUp(sz, KIB4);
      hide PageTables.Valid, Ok, Covers, Apart, Sorted, EntryAt, Address, Given, AlignUp, LargerPage, Usable, TableVa,
        Down, PageStarts, BlockOk;
      Parts();
      BlockEntry(Now(), live, va, pages.phys.list, virt.list);
      hide Valid, FreeList.Valid;
      var e := pages.GetEntry(PML4_ADDRESS, 3, va, 0);
      GiveBack(va, Address(e.value), size);
    }

    /** Gives a live block back to both lists. */
    method GiveBack(va: nat, pa: nat, size: nat)
      requires Valid() && va in live && live[va] == Block(pa, size) && size > 0 && va % KIB4 == 0 && pa % KIB4 == 0
      requires Apart(virt.list, va, va + size) && Apart(pages.phys.list, pa, pa + size)
      modifies this, pages.phys, virt
      ensures Valid() && live == old(live) - {va}
      ensures Given(old(pages.phys.list), pa, pa + size, pages.phys.list)
              && Given(old(virt.list), va, va + size, virt.list)
      ensures DeallocateStep(old(Here()), Here())
    {
      ghost var s := Now();
      Parts();
      hide PageTables.Valid, Ok, Covers, Apart, Sorted, Given, Deallocated, Valid, PageStarts, FreeList.Valid;
      virt.Deallocate(va, size);
      pages.phys.Deallocate(pa, size);
      DeallocateKeeps(s, live, va, Now());
      live := live - {va};
      PagesIntro();
      Intro();
    }
  }
}
