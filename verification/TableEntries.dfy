/**
 Stores that change no translation: a new key in an entry that leads to a table, and what becomes of an operation on
 a page that lies inside a larger page, whose memory the operation takes for a table.
 */
module TableEntries {
  import opened Alignment
  import opened Options
  import opened PageEntry
  import opened PageWalk
  import opened SelfMap

  /** The entries lead to the same table, or are the same. */
  predicate Alike(e: nat, e': nat, l: nat) {
    Present(e') == Present(e) && Huge(e') == Huge(e) && Address(e') == Address(e) && (l == 0 || Huge(e) ==> e' == e)
  }

  ghost predicate TablesAlike(mem: Memory, mem': Memory, tables: Tables) {
    forall t, i: nat :: t in tables && i < 512 ==>
      tables[t] in mem && tables[t] in mem' && Alike(mem[tables[t]][i], mem'[tables[t]][i], t.level)
  }

  lemma AlikeWf(mem: Memory, mem': Memory, root: nat, tables: Tables)
    requires Wf(mem, root, tables) && TablesAlike(mem, mem', tables)
    ensures Wf(mem', root, tables)
  {
    hide Present, Huge, Address;
    forall t | t in tables ensures tables[t] in mem' {
      assert Alike(mem[tables[t]][0], mem'[tables[t]][0], t.level);
    }
    assert Alike(mem[tables[ROOT]][511], mem'[tables[ROOT]][511], 3);
    forall t, i: nat | t in tables && 0 < t.level && i < 512 && !(t.level == 3 && i == 511)
      ensures Links(mem', tables, t, i)
    {
      assert Links(mem, tables, t, i) && Alike(mem[tables[t]][i], mem'[tables[t]][i], t.level);
    }
  }

  /** Alike tables translate alike, and have the same way down. */
  lemma {:induction false} AlikeWalk(mem: Memory, mem': Memory, root: nat, tables: Tables, v: nat, m: nat, l: nat)
    requires Wf(mem, root, tables) && TablesAlike(mem, mem', tables) && Usable(v) && l <= m <= 3 && Home(v, m) in tables
    ensures Walk(mem', tables[Home(v, m)], v, m) == Walk(mem, tables[Home(v, m)], v, m)
    ensures Down(mem', tables[Home(v, m)], v, m, l) == Down(mem, tables[Home(v, m)], v, m, l)
    decreases m
  {
    var f := tables[Home(v, m)];
    var e := Entry(mem, f, v, m);
    assert Alike(mem[f][Index(v, m)], mem'[f][Index(v, m)], m);
    if Present(e) && m > 0 && (!Huge(e) || m == 3) {
      StepIn(mem, root, tables, v, m);
      hide Wf, TablesAlike, Home, Index, Present, Huge, Address;
      AlikeWalk(mem, mem', root, tables, v, m - 1, if l < m then l else m - 1);
    }
  }

  // ----- Keys of entries that lead to a table -----

  lemma KeyAlike(e: nat, key: nat, l: nat)
    requires l > 0 && !Huge(e)
    ensures Alike(e, WithKey(e, key), l)
  {
    WithKeyLow(e, key);
    LowPart(e);
    LowPart(WithKey(e, key));
    hide WithKey, Address;
  }

  /** A new key in an entry that leads to a table changes no translation. */
  lemma LinkKey(mem: Memory, root: nat, tables: Tables, t: TableId, i: nat, key: nat)
    requires Wf(mem, root, tables) && t in tables && t.level > 0 && i < 512 && !Huge(mem[tables[t]][i])
    ensures var mem' := mem[tables[t] := mem[tables[t]][i := WithKey(mem[tables[t]][i], key)]];
            Wf(mem', root, tables) && TablesAlike(mem, mem', tables)
  {
    var f := tables[t];
    var e' := WithKey(mem[f][i], key);
    var mem' := mem[f := mem[f][i := e']];
    KeyAlike(mem[f][i], key, t.level);
    forall u, j: nat | u in tables && j < 512
      ensures tables[u] in mem && tables[u] in mem' && Alike(mem[tables[u]][j], mem'[tables[u]][j], u.level)
    {
      assert tables[u] == f ==> u == t;
    }
    AlikeWf(mem, mem', root, tables);
  }

  // ----- A page inside a larger page -----

  /** The way of a table address, up to the last step. */
  lemma {:induction false} ShiftedTo(mem: Memory, f: nat, va: nat, w: nat, h: nat, m: nat)
    requires h + m <= 3 && Down(mem, f, va, h + m, m).Some?
    requires forall k :: 0 <= k <= h ==> Index(w, k) == Index(va, k + m)
    ensures Walk(mem, f, w, h) == Walk(mem, Down(mem, f, va, h + m, m).value, w, 0)
    decreases h
  {
    if h > 0 {
      var e := Entry(mem, f, va, h + m);
      assert Entry(mem, f, w, h) == e;
      hide Index, Address;
      ShiftedTo(mem, Address(e), va, w, h - 1, m);
    }
  }

  /** Where `subtable` leads below an entry that is present: to the memory at the address in the entry, whether
      that is a table or a page. */
  lemma SubtableWalk(mem: Memory, root: nat, va: nat, m: nat, o: nat)
    requires SelfMapped(mem, root) && 0 < m <= 3 && o < KIB4
    requires Down(mem, root, va, 3, m).Some? && Down(mem, root, va, 3, m).value in mem
    requires Present(Entry(mem, Down(mem, root, va, 3, m).value, va, m))
    ensures Walk(mem, root, TableVa(va, m - 1) + o, 3) == Some(Leaf(Entry(mem, Down(mem, root, va, 3, m).value, va, m),
                                                                    0))
  {
    var t := TableVa(va, m - 1);
    var w := t + o;
    forall h | 0 <= h <= 3
      ensures Index(w, h) == if h + m >= 4 then 511 else Index(va, h + m)
    {
      TableVaIndex(va, m - 1, h);
      SamePageIndex(t, o, h);
    }
    hide TableVa, Index;
    SelfSteps(mem, root, w, 3, 3 - m);
    ShiftedTo(mem, root, va, w, 3 - m, m);
  }

  /** An entry of the table that is expected below a larger page is a word of that page. */
  lemma LargerPageCell(mem: Memory, root: nat, va: nat, m: nat, i: nat)
    requires SelfMapped(mem, root) && 0 < m <= 3 && i < 512
    requires Down(mem, root, va, 3, m).Some? && Down(mem, root, va, 3, m).value in mem
    requires Present(Entry(mem, Down(mem, root, va, 3, m).value, va, m))
    ensures Cell(mem, root, TableVa(va, m - 1) + 8 * i) == Some((Address(Entry(mem, Down(mem, root, va, 3, m).value,
                                                                               va, m)), i))
  {
    SubtableWalk(mem, root, va, m, 8 * i);
    TableVaIndex(va, m - 1, 0);
    hide Walk, TableVa, Down, Address, Index, Cell, Entry;
    EntryCell(mem, root, TableVa(va, m - 1), i);
  }

  /** The walk of `v` from table `f` of level `l` reads word `i` of the frame `g`. */
  predicate Reads(mem: Memory, f: nat, v: nat, l: nat, g: nat, i: nat)
    requires l <= 3
    decreases l
  {
    && f in mem
    && (|| (f == g && Index(v, l) == i)
        || (var e := Entry(mem, f, v, l);
            Present(e) && l > 0 && (l == 3 || !Huge(e)) && Reads(mem, Address(e), v, l - 1, g, i)))
  }

  /** A store to a word that the walk does not read. */
  lemma {:induction false} UnreadStore(mem: Memory, f: nat, v: nat, l: nat, g: nat, i: nat, x: nat)
    requires l <= 3 && i < 512 && g in mem && !Reads(mem, f, v, l, g, i)
    ensures Walk(mem[g := mem[g][i := x]], f, v, l) == Walk(mem, f, v, l)
    decreases l
  {
    if f in mem {
      var e := Entry(mem, f, v, l);
      assert Entry(mem[g := mem[g][i := x]], f, v, l) == e;
      hide Index, Address, Entry, Huge, Present;
      if Present(e) && l > 0 && (l == 3 || !Huge(e)) {
        UnreadStore(mem, Address(e), v, l - 1, g, i, x);
      }
    }
  }

  /** Walks of addresses outside slot 511 read tables only. */
  lemma {:induction false} OnlyTablesRead(mem: Memory, root: nat, tables: Tables, v: nat, l: nat, g: nat, i: nat)
    requires Wf(mem, root, tables) && Usable(v) && l <= 3 && Home(v, l) in tables && g !in tables.Values
    ensures !Reads(mem, tables[Home(v, l)], v, l, g, i)
    decreases l
  {
    var f := tables[Home(v, l)];
    assert f in tables.Values && f in mem;
    var e := Entry(mem, f, v, l);
    if Present(e) && l > 0 && (l == 3 || !Huge(e)) {
      StepIn(mem, root, tables, v, l);
      hide Wf, Home, Index, Present, Huge, Address, Entry;
      OnlyTablesRead(mem, root, tables, v, l - 1, g, i);
    }
  }

  /** A store to a word of the frame `g` changes the translations of addresses whose walk reads that word at most, and
      there are none unless `g` is a table. */
  lemma StoreOutsideTables(mem: Memory, root: nat, tables: Tables, g: nat, i: nat, x: nat, v: nat)
    requires Wf(mem, root, tables) && Usable(v) && i < 512 && g in mem
    ensures !Reads(mem, root, v, 3, g, i) ==> Walk(mem[g := mem[g][i := x]], root, v, 3) == Walk(mem, root, v, 3)
    ensures g !in tables.Values ==> !Reads(mem, root, v, 3, g, i)
  {
    RootHome(v);
    hide Reads, Walk;
    if g !in tables.Values {
      OnlyTablesRead(mem, root, tables, v, 3, g, i);
    }
    if !Reads(mem, root, v, 3, g, i) {
      UnreadStore(mem, root, v, 3, g, i, x);
    }
  }

  /** The store of an entry for a page that lies inside the next larger page goes to the first frame of that page.  No
      translation changes unless its walk reads the word, and none does unless that frame is a table. */
  lemma StoreInLargerPage(mem: Memory, root: nat, tables: Tables, va: nat, m: nat, i: nat, x: nat, v: nat)
    requires Wf(mem, root, tables) && Usable(va) && Usable(v) && 0 < m <= 2 && i < 512
    requires Walk(mem, root, va, 3).Some? && Walk(mem, root, va, 3).value.level == m
    requires Address(Walk(mem, root, va, 3).value.entry) in mem
    ensures var a := Address(Walk(mem, root, va, 3).value.entry);
            && Cell(mem, root, TableVa(va, m - 1) + 8 * i) == Some((a, i))
            && (!Reads(mem, root, v, 3, a, i) ==> Walk(mem[a := mem[a][i := x]], root, v, 3) == Walk(mem, root, v, 3))
            && (a !in tables.Values ==> !Reads(mem, root, v, 3, a, i))
  {
    RootHome(va);
    LeafAt(mem, root, tables, va, 3, m);
    var a := Address(Walk(mem, root, va, 3).value.entry);
    LargerPageCell(mem, root, va, m, i);
    hide Wf, Reads;
    StoreOutsideTables(mem, root, tables, a, i, x, v);
  }

  /** The walk of the address at which the page table of `va` is expected, if a page of 1 GiB maps `va`: it takes the
      entry of the page for one of 2 MiB. */
  lemma TwoBelowWalk(mem: Memory, root: nat, va: nat, o: nat)
    requires SelfMapped(mem, root) && o < KIB4
    requires Down(mem, root, va, 3, 2).Some? && Down(mem, root, va, 3, 2).value in mem
    requires var e := Entry(mem, Down(mem, root, va, 3, 2).value, va, 2); Present(e) && Huge(e)
    ensures var w, e := TableVa(va, 0) + o, Entry(mem, Down(mem, root, va, 3, 2).value, va, 2);
            Walk(mem, root, w, 3) == Some(Leaf(e, 1)) && w % MIB2 == Index(va, 1) * KIB4 + o
  {
    var t := TableVa(va, 0);
    var w := t + o;
    forall h | 0 <= h <= 3 ensures Index(w, h) == if h == 3 then 511 else Index(va, h + 1) {
      TableVaIndex(va, 0, h);
      SamePageIndex(t, o, h);
    }
    TableVaIndex(va, 0, 0);
    OffsetInPage(t, o);
    var f := Down(mem, root, va, 3, 2).value;
    hide TableVa, Index;
    assert Entry(mem, root, w, 3) == mem[root][511] && Entry(mem, root, w, 2) == Entry(mem, root, va, 3);
    assert Entry(mem, f, w, 1) == Entry(mem, f, va, 2);
    hide Address, Huge, Present, Entry;
    assert Walk(mem, root, w, 2) == Walk(mem, f, w, 1);
  }

  lemma OffsetInPage(t: nat, o: nat)
    requires t % KIB4 == 0 && o < KIB4
    ensures (t + o) % MIB2 == Index(t, 0) * KIB4 + o
  {
    var n := t / KIB4;
    DivUnique(t + o, MIB2, n / 512, n % 512 * KIB4 + o);
  }

  /** The store of an entry for a 4 KiB page inside a page of 1 GiB goes to a frame of that page, too. */
  lemma StoreTwoBelow(mem: Memory, root: nat, tables: Tables, va: nat, i: nat, x: nat, v: nat)
    requires Wf(mem, root, tables) && Usable(va) && Usable(v) && i < 512
    requires Walk(mem, root, va, 3).Some? && Walk(mem, root, va, 3).value.level == 2
    requires PageBase(Walk(mem, root, va, 3).value.entry, 1) + Index(va, 1) * KIB4 in mem
    ensures var g := PageBase(Walk(mem, root, va, 3).value.entry, 1) + Index(va, 1) * KIB4;
            && Cell(mem, root, TableVa(va, 0) + 8 * i) == Some((g, i))
            && (!Reads(mem, root, v, 3, g, i) ==> Walk(mem[g := mem[g][i := x]], root, v, 3) == Walk(mem, root, v, 3))
            && (g !in tables.Values ==> !Reads(mem, root, v, 3, g, i))
  {
    RootHome(va);
    LeafAt(mem, root, tables, va, 3, 2);
    WalkLevel(mem, root, va, 3);
    var e := Walk(mem, root, va, 3).value.entry;
    TwoBelowWalk(mem, root, va, 8 * i);
    var g := PageBase(e, 1) + Index(va, 1) * KIB4;
    CellOf(g, i, e % BIT59 / MIB2 * 512 + Index(va, 1));
    hide Wf, Reads, Walk, TableVa, Index;
    StoreOutsideTables(mem, root, tables, g, i, x, v);
  }

  /** The entry at which a walk ends is on the way down. */
  lemma {:induction false} LeafAt(mem: Memory, root: nat, tables: Tables, v: nat, l: nat, m: nat)
    requires Wf(mem, root, tables) && Usable(v) && m <= l <= 3 && Home(v, l) in tables
    requires Walk(mem, tables[Home(v, l)], v, l).Some? && Walk(mem, tables[Home(v, l)], v, l).value.level == m
    ensures var d := Down(mem, tables[Home(v, l)], v, l, m);
            && d.Some? && d.value in mem && Present(Entry(mem, d.value, v, m))
            && Entry(mem, d.value, v, m) == Walk(mem, tables[Home(v, l)], v, l).value.entry
    decreases l
  {
    StepUp(mem, root, tables, v, l);
    if l > m {
      hide Wf, Home, Address, Entry;
      LeafAt(mem, root, tables, v, l - 1, m);
    }
  }

  lemma StepUp(mem: Memory, root: nat, tables: Tables, v: nat, l: nat)
    requires Wf(mem, root, tables) && Usable(v) && l <= 3 && Home(v, l) in tables
    requires Walk(mem, tables[Home(v, l)], v, l).Some?
    ensures var f := tables[Home(v, l)]; var e := Entry(mem, f, v, l);
            && f in mem && Present(e)
            && (Walk(mem, f, v, l).value.level < l ==>
                  l > 0 && !Huge(e) && Home(v, l - 1) in tables && tables[Home(v, l - 1)] == Address(e))
  {
    if l > 0 {
      StepIn(mem, root, tables, v, l);
    }
    WalkLevel(mem, tables[Home(v, l)], v, l);
  }
}
