/**
 `map` and its relatives of `src/arch/x86_64/mm/paging.rs`: methods that reach every table through its
 self-mapped virtual address, and write entries in place.
 */
module Paging {
  import opened Alignment
  import opened FreeList
  import opened Options
  import opened PageEntry
  import opened PageRange
  import opened PageUpdate
  import opened PageWalk
  import opened SelfMap
  import opened TableEntries

  /** A page is already mapped as part of a larger page. */
  predicate LargerPage(mem: Memory, root: nat, va: nat, l: nat) {
    var w := Walk(mem, root, va, 3);
    w.Some? && w.value.level > l
  }

  /** The entry for `va` at level `l`, if the tables above are present and the entry is. */
  function EntryAt(mem: Memory, root: nat, va: nat, l: nat): Option<nat>
    requires l <= 3
  {
    EntryFrom(mem, root, va, 3, l)
  }

  /** As `EntryAt`, from the table of level `m` in frame `f` on. */
  function EntryFrom(mem: Memory, f: nat, va: nat, m: nat, l: nat): Option<nat>
    requires l <= m <= 3
  {
    var d := Down(mem, f, va, m, l);
    if d.Some? && d.value in mem && Present(Entry(mem, d.value, va, l)) then Some(Entry(mem, d.value, va, l)) else None
  }

  /** The flags of a page entry and of an entry for a table. */
  function PageFlags(f: Flags, l: nat): Flags {
    f.(dirty := true, huge := f.huge || l > 0)
  }

  const TABLE_FLAGS := Flags(false, true, false, false, false, false, false, false, false, false, 0)

  /** Free frames are memory, and tables are not free. */
  ghost predicate FramesOk(mem: Memory, tables: Tables, rs: seq<Region>) {
    && (forall a: nat :: Covers(rs, a) && a % KIB4 == 0 ==> a in mem && a < PHYS_LIMIT)
    && (forall t :: t in tables ==> !Covers(rs, tables[t]))
  }

  /** No frame is left for a table. */
  ghost predicate OutOfFrames(rs: seq<Region>) {
    forall i :: 0 <= i < |rs| ==> rs[i].start + KIB4 > rs[i].end
  }

  /** Frames change hands only from the free list to the tables. */
  ghost predicate Grown(tables: Tables, rs: seq<Region>, tables': Tables, rs': seq<Region>) {
    && (forall a: int :: Covers(rs', a) ==> Covers(rs, a))
    && (forall t :: t in tables' ==> tables'[t] in tables.Values || Covers(rs, tables'[t]))
  }

  lemma GrownTwice(tables: Tables, rs: seq<Region>, tables': Tables, rs': seq<Region>, tables'': Tables,
                   rs'': seq<Region>)
    requires Grown(tables, rs, tables', rs') && Grown(tables', rs', tables'', rs'')
    ensures Grown(tables, rs, tables'', rs'')
  {
    forall t | t in tables'' ensures tables''[t] in tables.Values || Covers(rs, tables''[t]) {
      if tables''[t] in tables'.Values {
        var u :| u in tables' && tables'[u] == tables''[t];
      }
    }
  }

  lemma GrownSame(tables: Tables, rs: seq<Region>)
    ensures Grown(tables, rs, tables, rs)
  {
  }

  /** Entry `e` leads to the table in frame `g`, through which pages of every kind can be reached: it is writable, for
      user mode and executable, and has the key 0. */
  predicate TableAt(e: nat, g: nat) {
    && Address(e) == g && Present(e) && Writable(e) && User(e) && Accessed(e) && !Huge(e) && !Dirty(e) && !Global(e)
    && !WriteThrough(e) && !CacheDisable(e) && !ExecuteDisable(e) && Key(e) == 0
  }

  lemma TableEntry(g: nat)
    requires g % KIB4 == 0 && g < PHYS_LIMIT
    ensures TableAt(Pack(g, TABLE_FLAGS), g) && LinksTo(Pack(g, TABLE_FLAGS), g)
  {
    PackFields(g, TABLE_FLAGS);
    hide Pack, Address, Present, Writable, User, WriteThrough, CacheDisable, Accessed, Dirty, Huge, Global,
      ExecuteDisable, Key;
  }

  /** Entry `e` maps a page of level `size` to `pa` as the caller of `map` asked; besides, the page is present,
      accessed, dirty and for user mode, and marked as large if it is. */
  predicate PageAs(e: nat, pa: nat, flags: Flags, size: nat) {
    && Address(e) == pa && Present(e) && User(e) && Accessed(e) && Dirty(e)
    && Writable(e) == flags.writable && ExecuteDisable(e) == flags.executeDisable && Key(e) == flags.pkey
    && WriteThrough(e) == flags.writeThrough && CacheDisable(e) == flags.cacheDisable && Global(e) == flags.global_
    && (Huge(e) <==> flags.huge || size > 0)
  }

  lemma PageSays(pa: nat, f: Flags, l: nat)
    requires CanSet(pa, PageFlags(f, l))
    ensures PageAs(Pack(pa, PageFlags(f, l)), pa, f, l)
  {
    PackFields(pa, PageFlags(f, l));
    hide Pack, Address, Present, Writable, User, WriteThrough, CacheDisable, Accessed, Dirty, Huge, Global,
      ExecuteDisable, Key;
  }

  /** `va` is mapped to the page at `pa` as the flags say. */
  predicate PageMapped(mem: Memory, root: nat, va: nat, pa: nat, flags: Flags, size: nat) {
    var w := Walk(mem, root, va, 3);
    w.Some? && w.value.level == size && PageAs(w.value.entry, pa, flags, size)
  }

  lemma PageEntryMaps(pa: nat, f: Flags, l: nat)
    requires CanSet(pa, PageFlags(f, l)) && l <= 2
    ensures MapsPage(Pack(pa, PageFlags(f, l)), l)
  {
    PackFields(pa, PageFlags(f, l));
  }

  lemma SelfMappedLinked(mem: Memory, root: nat, tables: Tables, va: nat, l: nat, e: nat, g: nat, content: Table)
    requires Wf(mem, root, tables) && Usable(va) && l <= 3 && Home(va, l) in tables && g !in tables.Values
    ensures SelfMapped(Linked(mem, tables[Home(va, l)], va, l, e, g, content), root)
  {
    RootHome(va);
    assert root in tables.Values;
    var mem' := Linked(mem, tables[Home(va, l)], va, l, e, g, content);
    assert mem'[root][511] == mem[root][511];
  }

  /** Below an entry that is not present there is nothing. */
  lemma NothingBelow(mem: Memory, root: nat, va: nat, m: nat, l: nat)
    requires l <= m <= 3 && Down(mem, root, va, 3, m).Some? && Down(mem, root, va, 3, m).value in mem
    requires !Present(Entry(mem, Down(mem, root, va, 3, m).value, va, m))
    ensures EntryAt(mem, root, va, l) == None
  {
    DownFurther(mem, root, va, 3, m, l);
  }

  lemma SubtableAddress(va: nat, l: nat)
    requires 0 < l <= 3
    ensures SubtableVa(TableVa(va, l), Index(va, l)) == TableVa(va, l - 1)
  {
  }

  lemma LinkedAgain(mem: Memory, f: nat, va: nat, l: nat, e: nat, g: nat, content: Table)
    requires f in mem && l <= 3
    ensures forall c: Table :: Linked(mem, f, va, l, e, g, c)[g := content] == Linked(mem, f, va, l, e, g, content)
  {
  }

  /** A frame that the free list hands out was not a table. */
  lemma TakenFrame(mem: Memory, root: nat, tables: Tables, rs: seq<Region>, g: nat, rs': seq<Region>)
    requires Wf(mem, root, tables) && FramesOk(mem, tables, rs) && Taken(rs, g, g + KIB4, rs') && g % KIB4 == 0
    ensures g in mem && g < PHYS_LIMIT && g !in tables.Values && Covers(rs, g)
  {
    assert Covers(rs, g);
  }

  lemma LinkedFrames(mem: Memory, tables: Tables, mem': Memory, tables': Tables, rs: seq<Region>, rs': seq<Region>,
                     g: nat, t: TableId)
    requires FramesOk(mem, tables, rs) && Taken(rs, g, g + KIB4, rs') && Covers(rs, g)
    requires mem.Keys <= mem'.Keys && tables' == tables[t := g]
    ensures FramesOk(mem', tables', rs') && Grown(tables, rs, tables', rs')
  {
    forall a: nat | Covers(rs', a) && a % KIB4 == 0 ensures a in mem' && a < PHYS_LIMIT {
      assert a in mem.Keys;
    }
  }

  lemma EntryLinked(mem: Memory, root: nat, tables: Tables, va: nat, l: nat, e: nat, g: nat)
    requires Wf(mem, root, tables) && 0 < l <= 3 && Home(va, l) in tables && Usable(va)
    requires LinksTo(e, g) && g !in tables.Values && Down(mem, root, va, 3, l) == Some(tables[Home(va, l)])
    ensures EntryAt(Linked(mem, tables[Home(va, l)], va, l, e, g, EMPTY), root, va, l) == Some(e)
  {
    var f := tables[Home(va, l)];
    var mem' := Linked(mem, f, va, l, e, g, EMPTY);
    assert f in tables.Values && Entry(mem', f, va, l) == e;
    DownKept(mem, root, tables, va, l, e, g, 3);
  }

  /** The way to the table that gets the link is as before. */
  lemma {:induction false} DownKept(mem: Memory, root: nat, tables: Tables, va: nat, l: nat, e: nat, g: nat, m: nat)
    requires Wf(mem, root, tables) && 0 < l <= m <= 3 && Home(va, l) in tables && Home(va, m) in tables && Usable(va)
    requires g !in tables.Values
    ensures Down(Linked(mem, tables[Home(va, l)], va, l, e, g, EMPTY), tables[Home(va, m)], va, m, l) ==
            Down(mem, tables[Home(va, m)], va, m, l)
  {
    if m > l {
      var f, h := tables[Home(va, l)], tables[Home(va, m)];
      assert h in tables.Values;
      StoredEntry(mem, f, va, l, e, h, va, m);
      assert Entry(Linked(mem, f, va, l, e, g, EMPTY), h, va, m) == Entry(Stored(mem, f, va, l, e), h, va, m);
      StepIn(mem, root, tables, va, m);
      assert Home(va, m) != Home(va, l);
      var d := Entry(mem, h, va, m);
      if Present(d) && !Huge(d) {
        DownKept(mem, root, tables, va, l, e, g, m - 1);
      }
    }
  }

  lemma LinkedResult(mem: Memory, root: nat, tables: Tables, va: nat, l: nat, e: nat, g: nat)
    requires Wf(mem, root, tables) && 0 < l <= 3 && Home(va, l) in tables && Usable(va)
    requires LinksTo(e, g) && g !in tables.Values
    requires Down(mem, root, va, 3, l) == Some(tables[Home(va, l)]) && EntryAt(mem, root, va, l) == None
    ensures var mem' := Linked(mem, tables[Home(va, l)], va, l, e, g, EMPTY);
            && Wf(mem', root, tables[Home(va, l - 1) := g]) && mem.Keys <= mem'.Keys
            && Down(mem', root, va, 3, l - 1) == Some(g) && EntryAt(mem', root, va, l) == Some(e)
            && (forall m :: 0 <= m < l ==> EntryAt(mem', root, va, m) == None)
            && (forall v :: Usable(v) ==> Walk(mem', root, v, 3) == Walk(mem, root, v, 3))
            && (forall v, m :: Usable(v) && 0 <= m < l ==> EntryAt(mem', root, v, m) == EntryAt(mem, root, v, m))
  {
    var mem' := Linked(mem, tables[Home(va, l)], va, l, e, g, EMPTY);
    LinkedWf(mem, root, tables, va, l, e, g);
    RootHome(va);
    DownLinked(mem, root, tables, va, l, e, g, EMPTY, 3);
    assert tables[Home(va, l)] in mem && !Present(Entry(mem, tables[Home(va, l)], va, l));
    assert !Present(Entry(mem', g, va, l - 1));
    EntryLinked(mem, root, tables, va, l, e, g);
    hide Wf, Down, Entry, Home, Address, Linked;
    forall v | Usable(v) ensures Walk(mem', root, v, 3) == Walk(mem, root, v, 3) {
      AddTable(mem, root, tables, va, l, e, g, v);
    }
    forall m | 0 <= m < l ensures EntryAt(mem', root, va, m) == None {
      NothingBelow(mem', root, va, l - 1, m);
    }
    forall v, m | Usable(v) && 0 <= m < l ensures EntryAt(mem', root, v, m) == EntryAt(mem, root, v, m) {
      RootHome(v);
      LinkedEntries(mem, root, tables, va, l, e, g, v, 3, m);
    }
  }

  /** Linking a new empty table changes no entry below it. */
  lemma {:induction false} LinkedEntries(mem: Memory, root: nat, tables: Tables, va: nat, l: nat, e: nat, g: nat,
                                         v: nat, m: nat, s: nat)
    requires Wf(mem, root, tables) && Usable(v) && s <= m <= 3 && s < l <= 3
    requires Home(va, l) in tables && Home(v, m) in tables && LinksTo(e, g) && g !in tables.Values
    requires !Present(Entry(mem, tables[Home(va, l)], va, l))
    ensures EntryFrom(Linked(mem, tables[Home(va, l)], va, l, e, g, EMPTY), tables[Home(v, m)], v, m, s) ==
            EntryFrom(mem, tables[Home(v, m)], v, m, s)
    decreases m
  {
    var f, h := tables[Home(va, l)], tables[Home(v, m)];
    var mem' := Linked(mem, f, va, l, e, g, EMPTY);
    assert h in tables.Values;
    StoredEntry(mem, f, va, l, e, h, v, m);
    assert mem'[h] == Stored(mem, f, va, l, e)[h];
    assert Entry(mem', h, v, m) == Entry(Stored(mem, f, va, l, e), h, v, m);
    var d := Entry(mem, h, v, m);
    if h == f && Index(v, m) == Index(va, l) {
      assert m == l && Entry(mem', h, v, m) == e;
      assert Entry(mem', g, v, l - 1) == 0;
    } else if m > s && Present(d) && !Huge(d) {
      StepIn(mem, root, tables, v, m);
      hide Number;
      hide Wf;
      LinkedEntries(mem, root, tables, va, l, e, g, v, m - 1, s);
    }
  }

  /** All entries at level `size` but those of the page of `va` are as before. */
  ghost predicate OtherEntries(mem: Memory, mem': Memory, root: nat, va: nat, size: nat)
    requires size <= 3
  {
    forall v :: Usable(v) && Number(v, size) != Number(va, size) ==>
      EntryAt(mem', root, v, size) == EntryAt(mem, root, v, size)
  }

  lemma OtherEntriesTwice(mem: Memory, mem1: Memory, mem2: Memory, root: nat, va: nat, size: nat)
    requires size <= 3 && OtherEntries(mem1, mem2, root, va, size)
    requires forall v :: Usable(v) ==> EntryAt(mem1, root, v, size) == EntryAt(mem, root, v, size)
    ensures OtherEntries(mem, mem2, root, va, size)
  {
    hide EntryAt, Usable, Number;
  }

  /** Storing the entry of a page changes no other entry of this level. */
  lemma StoredEntries(mem: Memory, root: nat, tables: Tables, va: nat, l: nat, e: nat)
    requires Wf(mem, root, tables) && Usable(va) && l <= 2 && Down(mem, root, va, 3, l).Some?
    ensures Down(mem, root, va, 3, l).value in mem
    ensures OtherEntries(mem, Stored(mem, Down(mem, root, va, 3, l).value, va, l, e), root, va, l)
  {
    RootHome(va);
    DownHome(mem, root, tables, va, 3, l);
    forall v | Usable(v) && Number(v, l) != Number(va, l)
      ensures EntryAt(Stored(mem, tables[Home(va, l)], va, l, e), root, v, l) == EntryAt(mem, root, v, l)
    {
      StoredEntryAt(mem, root, tables, va, l, e, v);
    }
  }

  lemma StoredEntryAt(mem: Memory, root: nat, tables: Tables, va: nat, l: nat, e: nat, v: nat)
    requires Wf(mem, root, tables) && Usable(v) && l <= 2 && Home(va, l) in tables && Number(v, l) != Number(va, l)
    ensures EntryAt(Stored(mem, tables[Home(va, l)], va, l, e), root, v, l) == EntryAt(mem, root, v, l)
  {
    RootHome(v);
    DownStored(mem, root, tables, va, l, e, v, 3);
    if Down(mem, root, v, 3, l).Some? {
      DownHome(mem, root, tables, v, 3, l);
      var f, g := tables[Home(va, l)], tables[Home(v, l)];
      StoredEntry(mem, f, va, l, e, g, v, l);
      NumberStep(v, l);
      NumberStep(va, l);
      assert g == f ==> Home(v, l) == Home(va, l);
      hide Wf, Down;
    }
  }

  lemma NoLargerPage(mem: Memory, root: nat, tables: Tables, va: nat, m: nat, l: nat)
    requires Wf(mem, root, tables) && Usable(va) && l < m <= 3
    requires Down(mem, root, va, 3, m).Some? && !LargerPage(mem, root, va, l)
    ensures Home(va, m) in tables && Down(mem, root, va, 3, m) == Some(tables[Home(va, m)])
    ensures var e := Entry(mem, tables[Home(va, m)], va, m);
            Present(e) ==> !Huge(e) && Down(mem, root, va, 3, m - 1) == Some(Address(e))
  {
    RootHome(va);
    DownHome(mem, root, tables, va, 3, m);
    WalkDown(mem, root, va, 3, m);
    StepIn(mem, root, tables, va, m);
    DownFurther(mem, root, va, 3, m, m - 1);
  }

  class PageTables {
    var mem: Memory
    const root: nat
    const phys: FreeList
    ghost var tables: Tables

    constructor (mem: Memory, root: nat, phys: FreeList, ghost tables: Tables)
      requires phys.Valid() && PageStarts(phys.list) && Wf(mem, root, tables) && FramesOk(mem, tables, phys.list)
      ensures Valid() && this.mem == mem && this.root == root && this.phys == phys && this.tables == tables
    {
      this.mem, this.root, this.phys, this.tables := mem, root, phys, tables;
    }

    ghost predicate Valid()
      reads this, phys
    {
      && phys.Valid() && PageStarts(phys.list)
      && Wf(mem, root, tables)
      && FramesOk(mem, tables, phys.list)
    }

    // ----- Entries through the self-map -----

    method Read(table: nat, index: nat, ghost va: nat, ghost l: nat) returns (e: nat)
      requires SelfMapped(mem, root) && l <= 3 && index < 512 && table == TableVa(va, l)
      requires Down(mem, root, va, 3, l).Some? && Down(mem, root, va, 3, l).value in mem
      ensures e == mem[Down(mem, root, va, 3, l).value][index]
    {
      TableCell(mem, root, va, l, index);
      var c := Cell(mem, root, table + 8 * index);
      e := mem[c.value.0][c.value.1];
    }

    method Write(table: nat, index: nat, e: nat, ghost va: nat, ghost l: nat)
      requires SelfMapped(mem, root) && l <= 3 && index < 512 && table == TableVa(va, l)
      requires Down(mem, root, va, 3, l).Some? && Down(mem, root, va, 3, l).value in mem
      modifies this`mem
      ensures var f := old(Down(mem, root, va, 3, l)).value;
              mem == old(mem)[f := old(mem)[f][index := e]]
    {
      TableCell(mem, root, va, l, index);
      var c := Cell(mem, root, table + 8 * index);
      mem := mem[c.value.0 := mem[c.value.0][c.value.1 := e]];
    }

    /** Clears the frame of a table that has just been linked, through the address of the table. */
    method Clear(sub: nat, l: nat, va: nat, ghost mem0: Memory, ghost e: nat, ghost g: nat)
      requires Wf(mem0, root, tables) && Usable(va) && 0 < l <= 3 && sub == TableVa(va, l - 1)
      requires Home(va, l) in tables && LinksTo(e, g) && g !in tables.Values
      requires Down(mem0, root, va, 3, l) == Some(tables[Home(va, l)])
      requires g in mem && mem == Linked(mem0, tables[Home(va, l)], va, l, e, g, mem[g])
      modifies this`mem
      ensures mem == Linked(mem0, tables[Home(va, l)], va, l, e, g, EMPTY)
    {
      ghost var f := tables[Home(va, l)];
      RootHome(va);
      for i := 0 to 512
        invariant g in mem && mem == Linked(mem0, f, va, l, e, g, mem[g])
        invariant forall j :: 0 <= j < i ==> mem[g][j] == 0
      {
        SelfMappedLinked(mem0, root, tables, va, l, e, g, mem[g]);
        DownLinked(mem0, root, tables, va, l, e, g, mem[g], 3);
        hide *;
        ghost var content := mem[g][i := 0];
        Write(sub, i, 0, va, l - 1);
        LinkedAgain(mem0, f, va, l, e, g, content);
      }
      assert mem[g] == EMPTY;
    }

    /** A new table for `va` below level `l`: it takes a frame, is linked, and then cleared. */
    method LinkTable(table: nat, l: nat, va: nat) returns (ok: bool)
      requires Valid() && 0 < l <= 3 && Usable(va) && table == TableVa(va, l)
      requires Down(mem, root, va, 3, l).Some? && EntryAt(mem, root, va, l) == None
      modifies this, phys
      ensures Valid() && Grown(old(tables), old(phys.list), tables, phys.list) && old(mem).Keys <= mem.Keys
      ensures !ok ==> OutOfFrames(phys.list)
      ensures ok ==> Down(mem, root, va, 3, l - 1).Some?
      ensures ok ==> EntryAt(mem, root, va, l).Some?
      ensures ok ==> TableAt(EntryAt(mem, root, va, l).value, Down(mem, root, va, 3, l - 1).value)
      ensures ok ==> forall m :: 0 <= m < l ==> EntryAt(mem, root, va, m) == None
      ensures forall v :: Usable(v) ==> Walk(mem, root, v, 3) == old(Walk(mem, root, v, 3))
      ensures forall v, m :: Usable(v) && 0 <= m < l ==> EntryAt(mem, root, v, m) == old(EntryAt(mem, root, v, m))
    {
      RootHome(va);
      DownHome(mem, root, tables, va, 3, l);
      ghost var f, mem0, tables0, rs := tables[Home(va, l)], mem, tables, phys.list;
      var frame := phys.Allocate(KIB4);
      if frame.None? {
        return false;
      }
      var g := frame.value;
      TakenFrame(mem0, root, tables0, rs, g, phys.list);
      TableEntry(g);
      var e := Pack(g, TABLE_FLAGS);
      assert f in mem && SelfMapped(mem, root);
      hide Wf, Home, Down, EntryAt, Pack, Address, TableVa, SubtableVa, Index, TableAt, Walk, Usable, FramesOk, Grown,
        Taken;
      Write(table, Index(va, l), e, va, l);
      assert mem == Linked(mem0, f, va, l, e, g, mem[g]);
      SubtableAddress(va, l);
      Clear(SubtableVa(table, Index(va, l)), l, va, mem0, e, g);
      tables := tables[Home(va, l - 1) := g];
      LinkedResult(mem0, root, tables0, va, l, e, g);
      LinkedFrames(mem0, tables0, mem, tables, rs, phys.list, g, Home(va, l - 1));
      ok := true;
    }

    // ----- Operations of one page -----

    /** `map_page_in_this_table` */
    method MapPageHere(table: nat, va: nat, pa: nat, flags: Flags, size: nat) returns (flush: bool)
      requires Valid() && size <= 2 && Usable(va) && table == TableVa(va, size)
      requires Down(mem, root, va, 3, size).Some? && CanSet(pa, PageFlags(flags, size))
      modifies this`mem
      ensures Valid() && old(mem).Keys <= mem.Keys && PageMapped(mem, root, va, pa, flags, size)
      ensures forall v :: Usable(v) ==>
                Walk(mem, root, v, 3) ==
                if Number(v, size) == Number(va, size) then Some(Leaf(Pack(pa, PageFlags(flags, size)), size))
                else old(Walk(mem, root, v, 3))
      ensures flush <==> old(EntryAt(mem, root, va, size)).Some?
      ensures OtherEntries(old(mem), mem, root, va, size)
    {
      RootHome(va);
      DownHome(mem, root, tables, va, 3, size);
      var index := Index(va, size);
      var e := Read(table, index, va, size);
      flush := Present(e);
      PageEntryMaps(pa, flags, size);
      PageSays(pa, flags, size);
      var page := Pack(pa, PageFlags(flags, size));
      StoredEntries(mem, root, tables, va, size, page);
      hide Pack, Down, Home, Present, Index, Number, Walk, PageAs, OtherEntries;
      forall v | Usable(v) {
        SetPage(mem, root, tables, va, size, page, v);
      }
      Write(table, index, page, va, size);
    }

    /** `map_page`: stores the entry of one page, linking missing tables on the way. */
    method MapPage(table: nat, l: nat, va: nat, pa: nat, flags: Flags, size: nat) returns (ok: bool, flush: bool)
      requires Valid() && size <= 2 && size <= l <= 3 && Usable(va) && table == TableVa(va, l)
      requires Down(mem, root, va, 3, l).Some? && !LargerPage(mem, root, va, size)
      requires CanSet(pa, PageFlags(flags, size))
      modifies this, phys
      ensures Valid() && Grown(old(tables), old(phys.list), tables, phys.list) && old(mem).Keys <= mem.Keys
      ensures !ok ==> OutOfFrames(phys.list)
      ensures ok ==> PageMapped(mem, root, va, pa, flags, size)
      ensures forall v :: Usable(v) ==>
                Walk(mem, root, v, 3) ==
                if ok && Number(v, size) == Number(va, size) then Some(Leaf(Pack(pa, PageFlags(flags, size)), size))
                else old(Walk(mem, root, v, 3))
      ensures flush <==> ok && old(EntryAt(mem, root, va, size)).Some?
      ensures OtherEntries(old(mem), mem, root, va, size)
      decreases l
    {
      var index := Index(va, l);
      if l > size {
        NoLargerPage(mem, root, tables, va, l, size);
        var e := Read(table, index, va, l);
        if !Present(e) {
          NothingBelow(mem, root, va, l, size);
          NothingBelow(mem, root, va, l, l);
          var linked := LinkTable(table, l, va);
          if !linked {
            return false, false;
          }
        } else {
          GrownSame(tables, phys.list);
        }
        assert Down(mem, root, va, 3, l - 1).Some?;
        SubtableAddress(va, l);
        ghost var t1, r1 := tables, phys.list;
        assert !LargerPage(mem, root, va, size);
        hide *;
        ghost var mem1 := mem;
        ok, flush := MapPage(SubtableVa(table, index), l - 1, va, pa, flags, size);
        OtherEntriesTwice(old(mem), mem1, mem, root, va, size);
        GrownTwice(old(tables), old(phys.list), t1, r1, tables, phys.list);
      } else {
        flush := MapPageHere(table, va, pa, flags, size);
        GrownSame(tables, phys.list);
        ok := true;
      }
    }

    /** `get_page_table_entry` */
    method GetEntry(table: nat, l: nat, va: nat, size: nat) returns (r: Option<nat>)
      requires Valid() && size <= 2 && size <= l <= 3 && Usable(va) && table == TableVa(va, l)
      requires Down(mem, root, va, 3, l).Some? && !LargerPage(mem, root, va, size)
      ensures r == EntryAt(mem, root, va, size)
      decreases l
    {
      RootHome(va);
      DownHome(mem, root, tables, va, 3, l);
      var e := Read(table, Index(va, l), va, l);
      if !Present(e) {
        NothingBelow(mem, root, va, l, size);
        return None;
      }
      if l > size {
        NoLargerPage(mem, root, tables, va, l, size);
        SubtableAddress(va, l);
        r := GetEntry(SubtableVa(table, Index(va, l)), l - 1, va, size);
      } else {
        r := Some(e);
      }
    }

    /** `set_pkey_on_page_table_entry` for one page; the original stops if the entry is not present.  An entry that
        leads to a table of smaller pages gets the key as well, which changes no translation. */
    method SetKey(table: nat, l: nat, va: nat, key: nat, size: nat) returns (ok: bool)
      requires Valid() && size <= 2 && size <= l <= 3 && Usable(va) && table == TableVa(va, l)
      requires Down(mem, root, va, 3, l).Some? && !LargerPage(mem, root, va, size)
      modifies this`mem
      ensures Valid() && (ok <==> old(EntryAt(mem, root, va, size)).Some?)
      ensures forall v :: Usable(v) ==>
                Walk(mem, root, v, 3) ==
                if ok && MapsPage(old(EntryAt(mem, root, va, size)).value, size) && Number(v, size) == Number(va, size)
                then Some(Leaf(WithKey(old(EntryAt(mem, root, va, size)).value, key), size))
                else old(Walk(mem, root, v, 3))
      ensures forall v :: Usable(v) ==> EntryAt(mem, root, v, size).Some? == old(EntryAt(mem, root, v, size)).Some?
      decreases l
    {
      RootHome(va);
      DownHome(mem, root, tables, va, 3, l);
      var index := Index(va, l);
      var e := Read(table, index, va, l);
      if !Present(e) {
        NothingBelow(mem, root, va, l, size);
        return false;
      }
      if l > size {
        NoLargerPage(mem, root, tables, va, l, size);
        SubtableAddress(va, l);
        hide *;
        ok := SetKey(SubtableVa(table, index), l - 1, va, key, size);
      } else {
        NewKey(mem, root, tables, va, size, key);
        hide Wf, Home, Walk, Down, Index, EntryAt, WithKey, Number, Usable;
        Write(table, index, WithKey(e, key), va, l);
        ok := true;
      }
    }

    /** `set_pkey_on_page_table_entry` for the page at which the PML4 appears, as boot calls it: every level leads back
        to the PML4, whose self-reference gets the key. */
    method SetSelfKey(l: nat, key: nat)
      requires Valid() && l <= 3
      modifies this`mem
      ensures Valid() && mem == old(mem)[root := old(mem)[root][511 := WithKey(old(mem)[root][511], key)]]
      ensures Walk(mem, root, PML4_ADDRESS, 3) == Some(Leaf(WithKey(old(mem)[root][511], key), 0))
      ensures forall v :: Usable(v) ==> Walk(mem, root, v, 3) == old(Walk(mem, root, v, 3))
      decreases l
    {
      RootTable(mem, root, 0);
      var e := Read(PML4_ADDRESS, 511, 0, 3);
      assert Present(e) && SubtableVa(PML4_ADDRESS, 511) == PML4_ADDRESS by { SelfSubtable(); }
      if l > 0 {
        SetSelfKey(l - 1, key);
      } else {
        SelfKey(mem, root, tables, key);
        hide Wf, Walk, Down, WithKey, Usable;
        Write(PML4_ADDRESS, 511, WithKey(e, key), 0, 3);
      }
    }

    // ----- Operations on ranges -----

    /** One round of `map_pages`. */
    method MapNext(ghost mem0: Memory, first: nat, last: nat, page: nat, pa: nat, flags: Flags, size: nat)
        returns (ok: bool, flush: bool)
      requires Valid() && size <= 2 && first % Shift(size) == 0 && page % Shift(size) == 0 && first <= page <= last
      requires PlainRange(first, last + Shift(size)) && CanMap(pa, PageFlags(flags, size), size, first, last)
      requires forall v: nat :: first <= v < last + Shift(size) ==> !LargerPage(mem0, root, v, size)
      requires Mapped(mem0, mem, root, pa, flags, size, first, page) && EntriesBehind(mem0, mem, root, size, page)
      modifies this, phys
      ensures Valid() && Grown(old(tables), old(phys.list), tables, phys.list) && old(mem).Keys <= mem.Keys
      ensures !ok ==> OutOfFrames(phys.list)
      ensures Mapped(mem0, mem, root, pa, flags, size, first, if ok then page + Shift(size) else page)
      ensures EntriesBehind(mem0, mem, root, size, page + Shift(size))
      ensures ok ==> (flush <==> EntryAt(mem0, root, page, size).Some?)
    {
      hide *;
      ghost var mem1 := mem;
      PageOfRange(pa, flags, size, first, last, page);
      assert !LargerPage(mem0, root, page, size);
      StillFree(mem0, mem, root, pa, flags, size, first, page);
      RootTable(mem, root, page);
      ValidWf();
      assert EntryAt(mem, root, page, size) == EntryAt(mem0, root, page, size) by {
        EntryBehind(mem0, mem, root, size, page, page);
      }
      ok, flush := MapPage(PML4_ADDRESS, 3, page, pa + (page - first), flags, size);
      EntriesStep(mem0, mem1, mem, root, size, page);
      if ok {
        MappedStep(mem0, mem1, mem, root, pa, flags, size, first, page);
      } else {
        MappedSame(mem0, mem1, mem, root, pa, flags, size, first, page);
      }
    }

    /** `map_pages`: the pages from `first` through `last`, to consecutive physical addresses from `pa` on.  The
        result `end` is the end of the mapped range; it falls short only when no frame is left for a table. */
    method MapPages(first: nat, last: nat, pa: nat, flags: Flags, size: nat) returns (ok: bool, end: nat, flush: bool)
      requires Valid() && size <= 2 && first % Shift(size) == 0 && last % Shift(size) == 0
      requires PlainRange(first, last + Shift(size)) && CanMap(pa, PageFlags(flags, size), size, first, last)
      requires forall v: nat :: first <= v < last + Shift(size) ==> !LargerPage(mem, root, v, size)
      modifies this, phys
      ensures Valid() && Grown(old(tables), old(phys.list), tables, phys.list) && old(mem).Keys <= mem.Keys
      ensures !ok ==> OutOfFrames(phys.list)
      ensures first <= end <= last + Shift(size) && (ok <==> end == last + Shift(size))
      ensures Mapped(old(mem), mem, root, pa, flags, size, first, end)
      ensures PagesMapped(mem, root, pa, flags, size, first, end)
      ensures flush <==> AnyEntry(old(mem), root, size, first, end)
      ensures AnyMapped(old(mem), root, first, end) ==> flush
    {
      var s := Shift(size);
      var page := first;
      flush := false;
      GrownSame(tables, phys.list);
      assert Mapped(mem, mem, root, pa, flags, size, first, first);
      assert EntriesBehind(mem, mem, root, size, first) && !AnyEntry(mem, root, size, first, first);
      hide *;
      while page <= last
        invariant first <= page <= last + s && page % s == 0
        invariant Valid() && Grown(old(tables), old(phys.list), tables, phys.list) && old(mem).Keys <= mem.Keys
        invariant Mapped(old(mem), mem, root, pa, flags, size, first, page)
        invariant EntriesBehind(old(mem), mem, root, size, page)
        invariant flush <==> AnyEntry(old(mem), root, size, first, page)
      {
        ghost var t1, r1 := tables, phys.list;
        var f;
        ok, f := MapNext(old(mem), first, last, page, pa, flags, size);
        GrownTwice(old(tables), old(phys.list), t1, r1, tables, phys.list);
        if !ok {
          MappedPages(old(mem), mem, root, pa, flags, size, first, last, page);
          FlushNeeded(old(mem), root, old(tables), size, first, last, page);
          return false, page, flush;
        }
        AnyEntryStep(old(mem), root, size, first, page);
        flush := flush || f;
        page := page + s;
        AddModulus(page - s, s);
      }
      MultiplesApart(last, page, s);
      ok, end := true, page;
      MappedPages(old(mem), mem, root, pa, flags, size, first, last, page);
      FlushNeeded(old(mem), root, old(tables), size, first, last, page);
    }

    lemma ValidWf()
      requires Valid()
      ensures Wf(mem, root, tables)
    {
    }

    /** `map`: `count` pages from the one that holds `va` on. */
    method Map(va: nat, pa: nat, count: nat, flags: Flags, size: nat) returns (ok: bool, end: nat, flush: bool)
      requires Valid() && size <= 2 && count > 0
      requires PlainRange(FirstPage(va, size), LastPage(va, count, size) + Shift(size))
      requires CanMap(pa, PageFlags(flags, size), size, FirstPage(va, size), LastPage(va, count, size))
      requires forall v: nat :: FirstPage(va, size) <= v < LastPage(va, count, size) + Shift(size) ==>
               !LargerPage(mem, root, v, size)
      modifies this, phys
      ensures Valid() && Grown(old(tables), old(phys.list), tables, phys.list) && old(mem).Keys <= mem.Keys
      ensures !ok ==> OutOfFrames(phys.list)
      ensures FirstPage(va, size) <= end <= FirstPage(va, size) + count * Shift(size)
      ensures ok <==> end == FirstPage(va, size) + count * Shift(size)
      ensures Mapped(old(mem), mem, root, pa, flags, size, FirstPage(va, size), end)
      ensures PagesMapped(mem, root, pa, flags, size, FirstPage(va, size), end)
      ensures flush <==> AnyEntry(old(mem), root, size, FirstPage(va, size), end)
      ensures AnyMapped(old(mem), root, FirstPage(va, size), end) ==> flush
    {
      LastIsFirst(va, count, size);
      ok, end, flush := MapPages(FirstPage(va, size), LastPage(va, count, size), pa, flags, size);
    }

    /** One round of `set_pkey_on_page_table_entry`. */
    method SetKeyNext(ghost mem0: Memory, ghost first: nat, ghost last: nat, page: nat, key: nat, size: nat)
        returns (ok: bool)
      requires Valid() && size <= 2 && page % Shift(size) == 0 && first <= page <= last && Plain(page)
      requires forall v: nat :: first <= v < last + Shift(size) ==> !LargerPage(mem0, root, v, size)
      requires Keyed(mem0, mem, root, key, size, first, page) && SameEntries(mem0, mem, root, size)
      modifies this`mem
      ensures Valid() && SameEntries(mem0, mem, root, size) && (ok <==> EntryAt(mem0, root, page, size).Some?)
      ensures Keyed(mem0, mem, root, key, size, first, if ok then page + Shift(size) else page)
    {
      ghost var mem1 := mem;
      hide *;
      assert !LargerPage(mem0, root, page, size);
      RootTable(mem, root, page);
      ValidWf();
      StillMapped(mem0, mem, root, tables, key, size, first, page);
      ok := SetKey(PML4_ADDRESS, 3, page, key, size);
      SameEntriesStep(mem0, mem1, mem, root, size);
      if ok {
        KeyedStep(mem0, mem1, mem, root, tables, key, size, first, last, page);
      } else {
        KeyedSame(mem0, mem1, mem, root, key, size, first, page);
      }
    }

    method SetKeyAt(ghost mem0: Memory, va: nat, ghost count: nat, i: nat, key: nat, size: nat) returns (ok: bool)
      requires Valid() && size <= 2 && i < count
      requires PlainRange(FirstPage(va, size), LastPage(va, count, size) + Shift(size))
      requires forall v: nat :: FirstPage(va, size) <= v < LastPage(va, count, size) + Shift(size) ==>
                 !LargerPage(mem0, root, v, size)
      requires Keyed(mem0, mem, root, key, size, FirstPage(va, size), PageAt(va, size, i))
               && SameEntries(mem0, mem, root, size)
      modifies this`mem
      ensures Valid() && SameEntries(mem0, mem, root, size)
              && (ok <==> EntryAt(mem0, root, PageAt(va, size, i), size).Some?)
      ensures Keyed(mem0, mem, root, key, size, FirstPage(va, size), PageAt(va, size, if ok then i + 1 else i))
    {
      hide *;
      PageInRange(va, count, size, i);
      ok := SetKeyNext(mem0, FirstPage(va, size), LastPage(va, count, size), PageAt(va, size, i), key, size);
    }

    /** `set_pkey_on_page_table_entry`: a key for `count` pages from the one that holds `va` on.  The original stops
        at the first page that has no entry; `n` pages come before it. */
    method SetKeys(va: nat, count: nat, key: nat, size: nat) returns (n: nat)
      requires Valid() && size <= 2 && count > 0
      requires PlainRange(FirstPage(va, size), LastPage(va, count, size) + Shift(size))
      requires forall v: nat :: FirstPage(va, size) <= v < LastPage(va, count, size) + Shift(size) ==>
                 !LargerPage(mem, root, v, size)
      modifies this`mem
      ensures Valid() && n <= count && Keyed(old(mem), mem, root, key, size, FirstPage(va, size), PageAt(va, size, n))
      ensures n < count ==> old(EntryAt(mem, root, PageAt(va, size, n), size)).None?
      ensures forall i :: 0 <= i < n ==> old(EntryAt(mem, root, PageAt(va, size, i), size)).Some?
    {
      ghost var mem0 := mem;
      hide *;
      PagesInRange(va, count, size);
      KeyedNothing(mem, root, key, size, FirstPage(va, size));
      n := 0;
      while n < count
        invariant Valid() && n <= count && Keyed(mem0, mem, root, key, size, FirstPage(va, size), PageAt(va, size, n))
        invariant SameEntries(mem0, mem, root, size)
        invariant forall j :: 0 <= j < n ==> EntryAt(mem0, root, PageAt(va, size, j), size).Some?
      {
        var done := SetKeyAt(mem0, va, count, n, key, size);
        if !done {
          return;
        }
        n := n + 1;
      }
    }
  }

  /** Which pages have an entry. */
  ghost predicate SameEntries(mem: Memory, mem': Memory, root: nat, size: nat)
    requires size <= 3
  {
    forall v :: Usable(v) ==> EntryAt(mem', root, v, size).Some? == EntryAt(mem, root, v, size).Some?
  }

  lemma SameEntriesStep(mem0: Memory, mem1: Memory, mem2: Memory, root: nat, size: nat)
    requires size <= 3 && SameEntries(mem0, mem1, root, size)
    requires forall v :: Usable(v) ==> EntryAt(mem2, root, v, size).Some? == EntryAt(mem1, root, v, size).Some?
    ensures SameEntries(mem0, mem2, root, size)
  {
    hide EntryAt;
  }

  /** A store at level `l` leaves the way to that level as it is. */
  lemma {:induction false} DownStored(mem: Memory, root: nat, tables: Tables, va: nat, l: nat, e: nat, v: nat, m: nat)
    requires Wf(mem, root, tables) && Usable(v) && l <= m <= 3 && Home(va, l) in tables && Home(v, m) in tables
    ensures Down(Stored(mem, tables[Home(va, l)], va, l, e), tables[Home(v, m)], v, m, l) ==
            Down(mem, tables[Home(v, m)], v, m, l)
    decreases m
  {
    if m > l {
      StoredEntry(mem, tables[Home(va, l)], va, l, e, tables[Home(v, m)], v, m);
      StepIn(mem, root, tables, v, m);
      assert Home(v, m) != Home(va, l);
      hide Wf, Home, Entry, Address, Stored;
      var d := Entry(mem, tables[Home(v, m)], v, m);
      if Present(d) && !Huge(d) {
        DownStored(mem, root, tables, va, l, e, v, m - 1);
      }
    }
  }

  /** The new key of an entry that is present. */
  lemma NewKey(mem: Memory, root: nat, tables: Tables, va: nat, l: nat, key: nat)
    requires Wf(mem, root, tables) && Usable(va) && l <= 2 && EntryAt(mem, root, va, l).Some?
    ensures var f, e := Down(mem, root, va, 3, l).value, EntryAt(mem, root, va, l).value;
            var mem' := Stored(mem, f, va, l, WithKey(e, key));
            && Wf(mem', root, tables) && mem'.Keys == mem.Keys
            && (forall v :: Usable(v) ==>
                  && Walk(mem', root, v, 3) == (if MapsPage(e, l) && Number(v, l) == Number(va, l)
                                                then Some(Leaf(WithKey(e, key), l))
                                                else Walk(mem, root, v, 3))
                  && EntryAt(mem', root, v, l).Some? == EntryAt(mem, root, v, l).Some?)
  {
    RootHome(va);
    DownHome(mem, root, tables, va, 3, l);
    var t := Home(va, l);
    var f, e := tables[t], EntryAt(mem, root, va, l).value;
    var mem' := Stored(mem, f, va, l, WithKey(e, key));
    if MapsPage(e, l) {
      KeyMaps(e, key, l);
      SetPage(mem, root, tables, va, l, WithKey(e, key), va);
    } else {
      LinkKey(mem, root, tables, t, Index(va, l), key);
    }
    forall v | Usable(v)
      ensures Walk(mem', root, v, 3) == (if MapsPage(e, l) && Number(v, l) == Number(va, l)
                                         then Some(Leaf(WithKey(e, key), l))
                                         else Walk(mem, root, v, 3))
      ensures EntryAt(mem', root, v, l).Some? == EntryAt(mem, root, v, l).Some?
    {
      NewKeyAt(mem, root, tables, va, l, key, v);
    }
  }

  lemma NewKeyAt(mem: Memory, root: nat, tables: Tables, va: nat, l: nat, key: nat, v: nat)
    requires Wf(mem, root, tables) && Usable(va) && Usable(v) && l <= 2 && EntryAt(mem, root, va, l).Some?
    ensures var f, e := Down(mem, root, va, 3, l).value, EntryAt(mem, root, va, l).value;
            var mem' := Stored(mem, f, va, l, WithKey(e, key));
            && Walk(mem', root, v, 3) == (if MapsPage(e, l) && Number(v, l) == Number(va, l)
                                          then Some(Leaf(WithKey(e, key), l))
                                          else Walk(mem, root, v, 3))
            && EntryAt(mem', root, v, l).Some? == EntryAt(mem, root, v, l).Some?
  {
    RootHome(va);
    RootHome(v);
    DownHome(mem, root, tables, va, 3, l);
    var t := Home(va, l);
    var f, e := tables[t], EntryAt(mem, root, va, l).value;
    var mem' := Stored(mem, f, va, l, WithKey(e, key));
    KeyPresent(e, key);
    DownStored(mem, root, tables, va, l, WithKey(e, key), v, 3);
    if MapsPage(e, l) {
      KeyMaps(e, key, l);
      SetPage(mem, root, tables, va, l, WithKey(e, key), v);
    } else {
      LinkKey(mem, root, tables, t, Index(va, l), key);
      AlikeWalk(mem, mem', root, tables, v, 3, l);
    }
    hide Wf, Home, WithKey, Walk, Number;
    var g := Down(mem, root, v, 3, l);
    if g.Some? && g.value in mem {
      StoredEntry(mem, f, va, l, WithKey(e, key), g.value, v, l);
    }
  }

  lemma KeyPresent(e: nat, key: nat)
    ensures Present(WithKey(e, key)) == Present(e) && Huge(WithKey(e, key)) == Huge(e)
  {
    WithKeyLow(e, key);
    LowPart(e);
    LowPart(WithKey(e, key));
    hide WithKey;
  }

  lemma SelfSubtable()
    ensures SubtableVa(PML4_ADDRESS, 511) == PML4_ADDRESS
  {
    SubtableSum(PML4_ADDRESS, 511);
  }

  lemma SelfIndex(h: nat)
    requires h <= 3
    ensures Index(PML4_ADDRESS, h) == 511
  {
  }

  /** A new key in the self-reference. */
  lemma SelfKey(mem: Memory, root: nat, tables: Tables, key: nat)
    requires Wf(mem, root, tables)
    ensures var e := WithKey(mem[root][511], key); var mem' := mem[root := mem[root][511 := e]];
            && Wf(mem', root, tables) && mem'.Keys == mem.Keys && Walk(mem', root, PML4_ADDRESS, 3) == Some(Leaf(e, 0))
            && forall v :: Usable(v) ==> Walk(mem', root, v, 3) == Walk(mem, root, v, 3)
  {
    var e := WithKey(mem[root][511], key);
    var mem' := mem[root := mem[root][511 := e]];
    LinkKey(mem, root, tables, ROOT, 511, key);
    hide WithKey;
    forall k | 0 < k <= 3 ensures Index(PML4_ADDRESS, k) == 511 {
      SelfIndex(k);
    }
    SelfSteps(mem', root, PML4_ADDRESS, 3, 0);
    SelfIndex(0);
    forall v | Usable(v) ensures Walk(mem', root, v, 3) == Walk(mem, root, v, 3) {
      RootHome(v);
      AlikeWalk(mem, mem', root, tables, v, 3, 0);
    }
  }

  lemma KeyMaps(e: nat, key: nat, l: nat)
    requires MapsPage(e, l)
    ensures MapsPage(WithKey(e, key), l)
  {
    WithKeyLow(e, key);
    LowPart(e);
    LowPart(WithKey(e, key));
  }

  /** What `set` asserts of every page of a range. */
  predicate CanMap(pa: nat, f: Flags, size: nat, first: nat, last: nat) {
    && first <= last && pa + (last - first) < PHYS_LIMIT && f.pkey < 16 && pa % KIB4 == 0
    && (f.huge ==> pa % MIB2 == 0 && (size == 0 ==> first == last))
  }

  /** The entry of the page that holds `v`. */
  function MappedLeaf(pa: nat, flags: Flags, size: nat, first: nat, v: nat): Leaf
    requires size <= 2 && first <= v
  {
    Leaf(Pack(pa + AlignDown(v - first, Shift(size)), PageFlags(flags, size)), size)
  }

  /** The flat view of an update: addresses of the range are mapped in order, all others as before. */
  ghost predicate Mapped(mem: Memory, mem': Memory, root: nat, pa: nat, flags: Flags, size: nat, first: nat, end: nat)
    requires size <= 2
  {
    forall v: nat :: Plain(v) ==>
      Walk(mem', root, v, 3) ==
      if first <= v < end then Some(MappedLeaf(pa, flags, size, first, v)) else Walk(mem, root, v, 3)
  }

  /** Every address of the range is mapped to its place in the memory from `pa` on, as the flags say. */
  ghost predicate PagesMapped(mem: Memory, root: nat, pa: nat, flags: Flags, size: nat, first: nat, end: nat)
    requires size <= 2
  {
    forall v: nat :: first <= v < end ==> MappedInOrder(mem, root, pa, flags, size, first, v)
  }

  predicate MappedInOrder(mem: Memory, root: nat, pa: nat, flags: Flags, size: nat, first: nat, v: nat)
    requires size <= 2 && first <= v
  {
    PageMapped(mem, root, v, pa + AlignDown(v - first, Shift(size)), flags, size)
  }

  /** What the flat view says of the entries of the range. */
  lemma MappedPages(mem: Memory, mem': Memory, root: nat, pa: nat, flags: Flags, size: nat, first: nat, last: nat,
                    end: nat)
    requires size <= 2 && first % Shift(size) == 0 && last % Shift(size) == 0
    requires PlainRange(first, last + Shift(size)) && CanMap(pa, PageFlags(flags, size), size, first, last)
    requires end <= last + Shift(size) && Mapped(mem, mem', root, pa, flags, size, first, end)
    ensures PagesMapped(mem', root, pa, flags, size, first, end)
  {
    hide Walk, PageAs, Pack, Shift, AlignDown, CanMap, CanSet, Usable;
    forall v: nat | first <= v < end ensures MappedInOrder(mem', root, pa, flags, size, first, v) {
      var s := Shift(size);
      var page := first + AlignDown(v - first, s);
      assert Plain(v);
      SumMultiple(first, page - first, s);
      if last < page {
        MultiplesApart(last, page, s);
      }
      PageOfRange(pa, flags, size, first, last, page);
      PageSays(pa + (page - first), flags, size);
    }
  }

  lemma MappedSame(mem0: Memory, mem1: Memory, mem2: Memory, root: nat, pa: nat, flags: Flags, size: nat, first: nat,
                   page: nat)
    requires size <= 2 && Mapped(mem0, mem1, root, pa, flags, size, first, page)
    requires forall v: nat :: Usable(v) ==> Walk(mem2, root, v, 3) == Walk(mem1, root, v, 3)
    ensures Mapped(mem0, mem2, root, pa, flags, size, first, page)
  {
    hide Walk, Usable;
    forall v: nat | Plain(v) ensures Walk(mem2, root, v, 3) == Walk(mem1, root, v, 3) {
      PlainIsUsable(v);
    }
  }

  lemma MappedStep(mem0: Memory, mem1: Memory, mem2: Memory, root: nat, pa: nat, flags: Flags, size: nat, first: nat,
                   page: nat)
    requires size <= 2 && Mapped(mem0, mem1, root, pa, flags, size, first, page)
    requires first <= page && first % Shift(size) == 0 && page % Shift(size) == 0 && Plain(page)
    requires forall v: nat :: Usable(v) ==>
               Walk(mem2, root, v, 3) ==
               if Number(v, size) == Number(page, size)
               then Some(Leaf(Pack(pa + (page - first), PageFlags(flags, size)), size))
               else Walk(mem1, root, v, 3)
    ensures Mapped(mem0, mem2, root, pa, flags, size, first, page + Shift(size))
  {
    hide *;
    forall v: nat | Plain(v)
      ensures Walk(mem2, root, v, 3) ==
              if first <= v < page + Shift(size) then Some(MappedLeaf(pa, flags, size, first, v))
                else Walk(mem0, root, v, 3)
    {
      MappedStepAt(mem0, mem1, mem2, root, pa, flags, size, first, page, v);
    }
    MappedIntro(mem0, mem2, root, pa, flags, size, first, page + Shift(size));
  }

  lemma MappedIntro(mem: Memory, mem': Memory, root: nat, pa: nat, flags: Flags, size: nat, first: nat, end: nat)
    requires size <= 2
    requires forall v: nat | Plain(v) :: Walk(mem', root, v, 3) ==
               if first <= v < end then Some(MappedLeaf(pa, flags, size, first, v)) else Walk(mem, root, v, 3)
    ensures Mapped(mem, mem', root, pa, flags, size, first, end)
  {
    hide Walk, MappedLeaf;
  }

  lemma MappedStepAt(mem0: Memory, mem1: Memory, mem2: Memory, root: nat, pa: nat, flags: Flags, size: nat, first: nat,
                     page: nat, v: nat)
    requires size <= 2 && Mapped(mem0, mem1, root, pa, flags, size, first, page)
    requires first <= page && first % Shift(size) == 0 && page % Shift(size) == 0 && Plain(page) && Plain(v)
    requires Usable(v) ==>
               Walk(mem2, root, v, 3) ==
               if Number(v, size) == Number(page, size)
               then Some(Leaf(Pack(pa + (page - first), PageFlags(flags, size)), size))
               else Walk(mem1, root, v, 3)
    ensures Walk(mem2, root, v, 3) ==
            if first <= v < page + Shift(size) then Some(MappedLeaf(pa, flags, size, first, v))
              else Walk(mem0, root, v, 3)
  {
    hide Walk, Usable, Number, Pack, Shift, AlignDown;
    assert Walk(mem1, root, v, 3) ==
           if first <= v < page then Some(MappedLeaf(pa, flags, size, first, v)) else Walk(mem0, root, v, 3);
    hide Mapped;
    PlainIsUsable(v);
    PlainIsUsable(page);
    SamePage(v, page, size);
    if page <= v < page + Shift(size) {
      PageOffset(first, page, v, Shift(size));
    }
  }

  lemma StillFree(mem0: Memory, mem: Memory, root: nat, pa: nat, flags: Flags, size: nat, first: nat, v: nat)
    requires size <= 2 && Mapped(mem0, mem, root, pa, flags, size, first, v) && Plain(v)
             && !LargerPage(mem0, root, v, size)
    ensures !LargerPage(mem, root, v, size)
  {
    hide Walk;
  }

  lemma RootTable(mem: Memory, root: nat, va: nat)
    ensures Down(mem, root, va, 3, 3) == Some(root) && TableVa(va, 3) == PML4_ADDRESS
  {
  }

  /** Some address of the range has a translation, which a processor may have cached. */
  ghost predicate AnyMapped(mem: Memory, root: nat, first: nat, end: nat) {
    exists v: nat :: first <= v < end && Walk(mem, root, v, 3).Some?
  }

  /** Some page of the range has an entry. */
  ghost predicate AnyEntry(mem: Memory, root: nat, size: nat, first: nat, end: nat)
    requires size <= 2
  {
    exists page: nat :: HasEntry(mem, root, size, page) && first <= page < end
  }

  /** A page of this size starts at `page`, and has an entry. */
  predicate HasEntry(mem: Memory, root: nat, size: nat, page: nat)
    requires size <= 2
  {
    page % Shift(size) == 0 && EntryAt(mem, root, page, size).Some?
  }

  lemma AnyEntryStep(mem: Memory, root: nat, size: nat, first: nat, page: nat)
    requires size <= 2 && first <= page && page % Shift(size) == 0
    ensures AnyEntry(mem, root, size, first, page + Shift(size)) <==>
              AnyEntry(mem, root, size, first, page) || EntryAt(mem, root, page, size).Some?
  {
    hide EntryAt, Shift;
    assert Shift(size) > 0 by { ShiftPositive(size); }
    if EntryAt(mem, root, page, size).Some? {
      assert HasEntry(mem, root, size, page);
    }
    forall q: nat | HasEntry(mem, root, size, q) && first <= q < page + Shift(size) ensures q < page || q == page {
      if page < q {
        MultiplesApart(page, q, Shift(size));
      }
    }
  }

  lemma ShiftPositive(size: nat)
    requires size <= 2
    ensures Shift(size) > 0
  {
  }

  /** From `page` on the entries of this level are as before. */
  ghost predicate EntriesBehind(mem: Memory, mem': Memory, root: nat, size: nat, page: nat)
    requires size <= 2
  {
    forall v: nat :: Plain(v) && page <= v ==> EntryAt(mem', root, v, size) == EntryAt(mem, root, v, size)
  }

  lemma EntryBehind(mem: Memory, mem': Memory, root: nat, size: nat, page: nat, v: nat)
    requires size <= 2 && EntriesBehind(mem, mem', root, size, page) && Plain(v) && page <= v
    ensures EntryAt(mem', root, v, size) == EntryAt(mem, root, v, size)
  {
    hide EntryAt;
  }

  lemma EntriesStep(mem0: Memory, mem1: Memory, mem2: Memory, root: nat, size: nat, page: nat)
    requires size <= 2 && EntriesBehind(mem0, mem1, root, size, page) && OtherEntries(mem1, mem2, root, page, size)
    requires page % Shift(size) == 0 && Plain(page)
    ensures EntriesBehind(mem0, mem2, root, size, page + Shift(size))
  {
    hide EntryAt, Usable, Number, Shift;
    forall v: nat | Plain(v) && page + Shift(size) <= v
      ensures EntryAt(mem2, root, v, size) == EntryAt(mem0, root, v, size)
    {
      PlainIsUsable(v);
      SamePage(v, page, size);
    }
  }

  /** Where an address of the range is mapped, its page has an entry. */
  lemma FlushNeeded(mem: Memory, root: nat, tables: Tables, size: nat, first: nat, last: nat, end: nat)
    requires size <= 2 && Wf(mem, root, tables) && first % Shift(size) == 0 && end <= last + Shift(size)
    requires PlainRange(first, last + Shift(size))
    requires forall v: nat :: first <= v < last + Shift(size) ==> !LargerPage(mem, root, v, size)
    ensures AnyMapped(mem, root, first, end) ==> AnyEntry(mem, root, size, first, end)
  {
    hide Walk, Usable, Number, Shift, Wf, EntryAt, AlignDown;
    if AnyMapped(mem, root, first, end) {
      var v: nat :| first <= v < end && Walk(mem, root, v, 3).Some?;
      ShiftPositive(size);
      var page := AlignDown(v, Shift(size));
      if page < first {
        MultiplesApart(page, first, Shift(size));
      }
      assert Plain(v) && Plain(page) && !LargerPage(mem, root, v, size);
      PlainIsUsable(v);
      PlainIsUsable(page);
      SamePage(v, page, size);
      PageHasEntry(mem, root, tables, v, page, size);
      assert HasEntry(mem, root, size, page);
    }
  }

  /** The pages of a range meet the demands on a single page. */
  lemma PageOfRange(pa: nat, flags: Flags, size: nat, first: nat, last: nat, page: nat)
    requires size <= 2 && CanMap(pa, PageFlags(flags, size), size, first, last)
    requires first % Shift(size) == 0 && page % Shift(size) == 0 && first <= page <= last
    requires PlainRange(first, last + Shift(size))
    ensures Plain(page) && Usable(page) && CanSet(pa + (page - first), PageFlags(flags, size))
  {
    var f := PageFlags(flags, size);
    assert Plain(page);
    PlainIsUsable(page);
    hide Usable;
    assert page - first <= last - first && f.pkey < 16;
    assert (page - first) % KIB4 == 0 && (size > 0 ==> (page - first) % MIB2 == 0) by {
      OffsetAligned(first, page, size);
    }
    SumMultiple(pa, page - first, KIB4);
    if f.huge {
      assert (page - first) % MIB2 == 0;
      SumMultiple(pa, page - first, MIB2);
    }
  }

  lemma SumMultiple(a: nat, b: nat, d: nat)
    requires d > 0 && a % d == 0 && b % d == 0
    ensures (a + b) % d == 0
  {
    var x, y := a / d, b / d;
    assert a + b == (x + y) * d;
    MultipleMod(x + y, d);
  }

  lemma OffsetAligned(first: nat, page: nat, size: nat)
    requires size <= 2 && first % Shift(size) == 0 && page % Shift(size) == 0 && first <= page
    ensures (page - first) % KIB4 == 0 && (size > 0 ==> (page - first) % MIB2 == 0)
  {
    if size == 0 {
      DifferenceMultiple(first, page, KIB4, KIB4, 1);
    } else {
      var s := Shift(size);
      var k := if size == 1 then 1 else 512;
      assert s == k * MIB2;
      DifferenceMultiple(first, page, s, MIB2, k);
      DifferenceMultiple(first, page, s, KIB4, 512 * k);
    }
  }

  lemma DifferenceMultiple(a: nat, b: nat, s: nat, d: nat, k: nat)
    requires s > 0 && d > 0 && s == k * d && a % s == 0 && b % s == 0 && a <= b
    ensures (b - a) % d == 0
  {
    var x, y := a / s, b / s;
    assert a == x * s && b == y * s;
    MultipleGap(y - x, s);
    var n := y - x;
    assert b - a == n * s;
    assert n * (k * d) == (n * k) * d;
    MultipleMod(n * k, d);
  }

  lemma PageOffset(first: nat, page: nat, v: nat, s: nat)
    requires s > 0 && first % s == 0 && page % s == 0 && first <= page <= v < page + s
    ensures AlignDown(v - first, s) == page - first
  {
    DifferenceMultiple(first, page, s, s, 1);
    var n := (page - first) / s;
    assert page - first == n * s;
    DivUnique(v - first, s, n, v - page);
  }

  /** A walk that does not end above level `l` passes a table of level `l`. */
  lemma {:induction false} WalkPasses(mem: Memory, root: nat, tables: Tables, v: nat, m: nat, l: nat)
    requires Wf(mem, root, tables) && Usable(v) && l <= m <= 3 && Home(v, m) in tables
    requires Walk(mem, tables[Home(v, m)], v, m).Some? && Walk(mem, tables[Home(v, m)], v, m).value.level <= l
    ensures Down(mem, tables[Home(v, m)], v, m, l).Some?
    decreases m
  {
    if m > l {
      StepIn(mem, root, tables, v, m);
      hide Wf, Home, Address, Entry;
      WalkPasses(mem, root, tables, v, m - 1, l);
    }
  }

  /** If any address of a page is mapped, and by no larger page, then the page has an entry. */
  lemma PageHasEntry(mem: Memory, root: nat, tables: Tables, v: nat, page: nat, l: nat)
    requires Wf(mem, root, tables) && Usable(v) && Usable(page) && l <= 2 && Number(v, l) == Number(page, l)
    requires Walk(mem, root, v, 3).Some? && !LargerPage(mem, root, v, l)
    ensures EntryAt(mem, root, page, l).Some?
  {
    RootHome(v);
    WalkPasses(mem, root, tables, v, 3, l);
    WalkDown(mem, root, v, 3, l);
    SameWay(mem, root, v, page, 3, l);
    SameAbove(v, page, l, l + 1);
  }

  // ----- Keys -----

  predicate MappedAs(mem: Memory, root: nat, va: nat, l: nat) {
    var w := Walk(mem, root, va, 3);
    w.Some? && w.value.level == l
  }

  /** The flat view: the entries of the range get the key, all others are as before. */
  ghost predicate Keyed(mem: Memory, mem': Memory, root: nat, key: nat, size: nat, first: nat, end: nat) {
    forall v: nat :: Plain(v) ==>
      Walk(mem', root, v, 3) ==
      if first <= v < end && MappedAs(mem, root, v, size) then Some(Leaf(WithKey(Walk(mem, root, v, 3).value.entry,
                                                                                 key), size))
      else Walk(mem, root, v, 3)
  }

  lemma KeyedNothing(mem: Memory, root: nat, key: nat, size: nat, first: nat)
    requires size <= 2
    ensures Keyed(mem, mem, root, key, size, first, first) && SameEntries(mem, mem, root, size)
  {
  }

  lemma KeyedSame(mem0: Memory, mem1: Memory, mem2: Memory, root: nat, key: nat, size: nat, first: nat, page: nat)
    requires Keyed(mem0, mem1, root, key, size, first, page)
    requires forall v: nat :: Usable(v) ==> Walk(mem2, root, v, 3) == Walk(mem1, root, v, 3)
    ensures Keyed(mem0, mem2, root, key, size, first, page)
  {
    hide Walk, Usable, WithKey;
    forall v: nat | Plain(v) ensures Walk(mem2, root, v, 3) == Walk(mem1, root, v, 3) {
      PlainIsUsable(v);
    }
  }

  /** The entry that the processor uses is the entry that the tree holds at its level. */
  lemma LeafIsEntry(mem: Memory, root: nat, tables: Tables, va: nat, l: nat)
    requires Wf(mem, root, tables) && Usable(va) && l <= 2
    ensures MappedAs(mem, root, va, l) <==>
              EntryAt(mem, root, va, l).Some? && MapsPage(EntryAt(mem, root, va, l).value, l)
    ensures MappedAs(mem, root, va, l) ==> EntryAt(mem, root, va, l) == Some(Walk(mem, root, va, 3).value.entry)
  {
    RootHome(va);
    if MappedAs(mem, root, va, l) {
      WalkPasses(mem, root, tables, va, 3, l);
      WalkLevel(mem, root, va, 3);
    }
    if Down(mem, root, va, 3, l).Some? {
      WalkDown(mem, root, va, 3, l);
    }
  }

  lemma PagesInRange(va: nat, count: nat, size: nat)
    requires size <= 2 && count > 0
    ensures PageAt(va, size, 0) == FirstPage(va, size)
    ensures PageAt(va, size, count) == LastPage(va, count, size) + Shift(size)
  {
    LastIsFirst(va, count, size);
    LastIsFirst(va, count + 1, size);
    assert (count + 1) * Shift(size) == count * Shift(size) + Shift(size);
  }

  lemma PageInRange(va: nat, count: nat, size: nat, i: nat)
    requires size <= 2 && i < count
    requires PlainRange(FirstPage(va, size), LastPage(va, count, size) + Shift(size))
    ensures PageAt(va, size, i + 1) == PageAt(va, size, i) + Shift(size) && PageAt(va, size, i) % Shift(size) == 0
    ensures FirstPage(va, size) <= PageAt(va, size, i) <= LastPage(va, count, size) && Plain(PageAt(va, size, i))
  {
    var s := Shift(size);
    LastIsFirst(va, count, size);
    LastIsFirst(va, i + 1, size);
    LastIsFirst(va, i + 2, size);
    assert (i + 2) * s == (i + 1) * s + s;
    MulMonotone(i + 1, count, s);
    hide Shift;
  }

  lemma StillMapped(mem0: Memory, mem: Memory, root: nat, tables: Tables, key: nat, size: nat, first: nat, page: nat)
    requires size <= 2 && Keyed(mem0, mem, root, key, size, first, page) && SameEntries(mem0, mem, root, size)
    requires Plain(page) && !LargerPage(mem0, root, page, size) && Wf(mem, root, tables)
    ensures Usable(page) && !LargerPage(mem, root, page, size)
    ensures EntryAt(mem, root, page, size).Some? == EntryAt(mem0, root, page, size).Some?
    ensures MappedAs(mem0, root, page, size) <==>
            EntryAt(mem, root, page, size).Some? && MapsPage(EntryAt(mem, root, page, size).value, size)
    ensures MappedAs(mem0, root, page, size) ==>
              EntryAt(mem, root, page, size) == Some(Walk(mem0, root, page, 3).value.entry)
  {
    PlainIsUsable(page);
    LeafIsEntry(mem, root, tables, page, size);
    hide Walk, EntryAt, Usable;
  }

  /** Addresses of one page have the entry of the page. */
  lemma SameEntry(mem: Memory, root: nat, tables: Tables, v: nat, page: nat, l: nat)
    requires Wf(mem, root, tables) && Usable(v) && Usable(page) && l <= 2 && Number(v, l) == Number(page, l)
    requires MappedAs(mem, root, page, l)
    ensures Walk(mem, root, v, 3) == Walk(mem, root, page, 3)
  {
    LeafIsEntry(mem, root, tables, v, l);
    LeafIsEntry(mem, root, tables, page, l);
    SameWay(mem, root, v, page, 3, l);
    SameAbove(v, page, l, l + 1);
    hide Walk, Down, Wf, Number, Usable;
  }

  lemma KeyedStep(mem0: Memory, mem1: Memory, mem2: Memory, root: nat, tables: Tables, key: nat, size: nat, first: nat,
                  last: nat, page: nat)
    requires size <= 2 && Keyed(mem0, mem1, root, key, size, first, page) && Wf(mem1, root, tables)
    requires first <= page <= last && page % Shift(size) == 0 && Plain(page)
    requires forall v: nat :: Usable(v) ==>
               Walk(mem2, root, v, 3) ==
               if MappedAs(mem0, root, page, size) && Number(v, size) == Number(page, size)
               then Some(Leaf(WithKey(Walk(mem0, root, page, 3).value.entry, key), size))
               else Walk(mem1, root, v, 3)
    ensures Keyed(mem0, mem2, root, key, size, first, page + Shift(size))
  {
    hide Walk, Usable, Number, WithKey, Shift, AlignDown, Wf;
    forall v: nat | Plain(v)
      ensures Walk(mem2, root, v, 3) ==
              if first <= v < page + Shift(size) && MappedAs(mem0, root, v, size)
              then Some(Leaf(WithKey(Walk(mem0, root, v, 3).value.entry, key), size))
              else Walk(mem0, root, v, 3)
    {
      PlainIsUsable(v);
      PlainIsUsable(page);
      SamePage(v, page, size);
      assert Walk(mem1, root, page, 3) == Walk(mem0, root, page, 3);
      if page <= v < page + Shift(size) {
        assert Walk(mem1, root, v, 3) == Walk(mem0, root, v, 3);
        if MappedAs(mem1, root, page, size) {
          SameEntry(mem1, root, tables, v, page, size);
        }
        if MappedAs(mem1, root, v, size) {
          SameEntry(mem1, root, tables, page, v, size);
        }
      }
    }
  }
}
