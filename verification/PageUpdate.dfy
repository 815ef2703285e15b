/**
 The two ways in which `map_page` changes the tree: it stores the entry of a page, or links a new empty table.
 The first changes the translation of exactly the addresses of the page, the second of none.
 */
module PageUpdate {
  import opened PageEntry
  import opened PageWalk
  import opened Options

  /** Memory after a store to the entry for `va` in table `f` of level `l`. */
  function Stored(mem: Memory, f: nat, va: nat, l: nat, e: nat): Memory
    requires f in mem && l <= 3
  {
    mem[f := mem[f][Index(va, l) := e]]
  }

  lemma StoredEntry(mem: Memory, f: nat, va: nat, l: nat, e: nat, g: nat, v: nat, m: nat)
    requires f in mem && g in mem && l <= 3 && m <= 3
    ensures g in Stored(mem, f, va, l, e)
    ensures Entry(Stored(mem, f, va, l, e), g, v, m) ==
            if g == f && Index(v, m) == Index(va, l) then e else Entry(mem, g, v, m)
  {
  }

  predicate MapsPage(e: nat, l: nat) {
    Present(e) && l <= 2 && (l == 0 || Huge(e))
  }

  // ----- Storing the entry of a page -----

  lemma {:induction false} WalkStored(mem: Memory, root: nat, tables: Tables, va: nat, l: nat, e: nat, v: nat, m: nat)
    requires Wf(mem, root, tables) && Usable(v) && m <= 3 && l <= 3
    requires Home(va, l) in tables && Home(v, m) in tables && MapsPage(e, l)
    requires m >= l && Number(v, l) == Number(va, l) ==>
               Down(mem, tables[Home(v, m)], v, m, l) == Some(tables[Home(va, l)])
    ensures Walk(Stored(mem, tables[Home(va, l)], va, l, e), tables[Home(v, m)], v, m) ==
            if m >= l && Number(v, l) == Number(va, l) then Some(Leaf(e, l))
            else Walk(mem, tables[Home(v, m)], v, m)
    decreases m
  {
    var f, g := tables[Home(va, l)], tables[Home(v, m)];
    StoredEntry(mem, f, va, l, e, g, v, m);
    NumberStep(v, m);
    NumberStep(va, l);
    var d := Entry(mem, g, v, m);
    if g == f && Index(v, m) == Index(va, l) {
      assert m == l && Number(v, l) == Number(va, l);
    } else if Present(d) && m > 0 && (!Huge(d) || m == 3) {
      StepIn(mem, root, tables, v, m);
      assert !(m == l && Number(v, l) == Number(va, l));
      hide Number;
      hide Wf;
      WalkStored(mem, root, tables, va, l, e, v, m - 1);
    }
  }

  lemma StoredWf(mem: Memory, root: nat, tables: Tables, va: nat, l: nat, e: nat)
    requires Wf(mem, root, tables) && l <= 3 && Home(va, l) in tables && MapsPage(e, l)
    ensures Wf(Stored(mem, tables[Home(va, l)], va, l, e), root, tables)
  {
    var mem' := Stored(mem, tables[Home(va, l)], va, l, e);
    assert tables[Home(va, l)] != root;
    assert Shape(mem', root, tables);
    forall t, i: nat | t in tables && 0 < t.level && i < 512 && !(t.level == 3 && i == 511)
      ensures Links(mem', tables, t, i)
    {
      assert Links(mem, tables, t, i);
    }
  }

  /** Storing the entry of a page changes the translation of the addresses of this page and of no other. */
  lemma SetPage(mem: Memory, root: nat, tables: Tables, va: nat, l: nat, e: nat, v: nat)
    requires Wf(mem, root, tables) && Usable(v) && Usable(va) && l <= 3 && MapsPage(e, l)
    requires Down(mem, root, va, 3, l).Some?
    ensures var f := Down(mem, root, va, 3, l).value;
            && f in mem && Wf(Stored(mem, f, va, l, e), root, tables)
            && Walk(Stored(mem, f, va, l, e), root, v, 3) ==
               if Number(v, l) == Number(va, l) then Some(Leaf(e, l)) else Walk(mem, root, v, 3)
  {
    RootHome(va);
    RootHome(v);
    DownHome(mem, root, tables, va, 3, l);
    if Number(v, l) == Number(va, l) {
      SameWay(mem, root, v, va, 3, l);
    }
    StoredWf(mem, root, tables, va, l, e);
    assert tables[Home(v, 3)] == root && tables[Home(va, l)] in mem;
    hide *;
    WalkStored(mem, root, tables, va, l, e, v, 3);
  }

  lemma {:induction false} SameWay(mem: Memory, f: nat, v: nat, w: nat, m: nat, l: nat)
    requires l <= m <= 3 && Number(v, l) == Number(w, l)
    ensures Down(mem, f, v, m, l) == Down(mem, f, w, m, l)
    decreases m
  {
    if l < m && f in mem {
      SameAbove(v, w, l, m + 1);
      hide Index;
      hide Number;
      SameWay(mem, Address(Entry(mem, f, v, m)), v, w, m - 1, l);
    }
  }

  // ----- Linking a new table -----

  const EMPTY: Table := seq(512, i => 0)

  /** Memory after the entry for `va` in table `f` is set to `e` and frame `g` is filled with `content`. */
  function Linked(mem: Memory, f: nat, va: nat, l: nat, e: nat, g: nat, content: Table): Memory
    requires f in mem && l <= 3
  {
    Stored(mem, f, va, l, e)[g := content]
  }

  predicate LinksTo(e: nat, g: nat) {
    Present(e) && !Huge(e) && Address(e) == g
  }

  lemma {:induction false} WalkLinked(mem: Memory, root: nat, tables: Tables, va: nat, l: nat, e: nat, g: nat, v: nat,
                                      m: nat)
    requires Wf(mem, root, tables) && Usable(v) && m <= 3 && 0 < l <= 3
    requires Home(va, l) in tables && Home(v, m) in tables && LinksTo(e, g) && g !in tables.Values
    requires !Present(Entry(mem, tables[Home(va, l)], va, l))
    ensures Walk(Linked(mem, tables[Home(va, l)], va, l, e, g, EMPTY), tables[Home(v, m)], v, m) ==
            Walk(mem, tables[Home(v, m)], v, m)
    decreases m
  {
    var f, h := tables[Home(va, l)], tables[Home(v, m)];
    var mem' := Linked(mem, f, va, l, e, g, EMPTY);
    assert h in tables.Values;
    StoredEntry(mem, f, va, l, e, h, v, m);
    assert mem'[h] == Stored(mem, f, va, l, e)[h];
    assert Entry(mem', h, v, m) == Entry(Stored(mem, f, va, l, e), h, v, m);
    var d := Entry(mem, h, v, m);
    if h == f && Index(v, m) == Index(va, l) {
      assert m == l && Entry(mem', h, v, m) == e;
      assert Entry(mem', g, v, l - 1) == 0;
      assert Walk(mem', g, v, l - 1) == None;
    } else if Present(d) && m > 0 && (!Huge(d) || m == 3) {
      StepIn(mem, root, tables, v, m);
      hide Number;
      hide Wf;
      WalkLinked(mem, root, tables, va, l, e, g, v, m - 1);
    }
  }

  lemma LinkedWf(mem: Memory, root: nat, tables: Tables, va: nat, l: nat, e: nat, g: nat)
    requires Wf(mem, root, tables) && 0 < l <= 3 && Home(va, l) in tables && Usable(va)
    requires LinksTo(e, g) && g !in tables.Values
    ensures Wf(Linked(mem, tables[Home(va, l)], va, l, e, g, EMPTY), root, tables[Home(va, l - 1) := g])
  {
    var f := tables[Home(va, l)];
    var mem' := Linked(mem, f, va, l, e, g, EMPTY);
    var tables' := tables[Home(va, l - 1) := g];
    assert forall t :: t in tables ==> tables[t] in tables.Values;
    assert Shape(mem', root, tables');
    RootHome(va);
    assert mem'[root][511] == mem[root][511];
    forall t, i: nat | t in tables' && 0 < t.level && i < 512 && !(t.level == 3 && i == 511)
      ensures Links(mem', tables', t, i)
    {
      LinkedLinks(mem, root, tables, va, l, e, g, t, i);
    }
  }

  lemma LinkedLinks(mem: Memory, root: nat, tables: Tables, va: nat, l: nat, e: nat, g: nat, t: TableId, i: nat)
    requires Wf(mem, root, tables) && 0 < l <= 3 && Home(va, l) in tables && Usable(va)
    requires LinksTo(e, g) && g !in tables.Values
    requires t in tables[Home(va, l - 1) := g] && 0 < t.level && i < 512 && !(t.level == 3 && i == 511)
    ensures var tables' := tables[Home(va, l - 1) := g];
            var mem' := Linked(mem, tables[Home(va, l)], va, l, e, g, EMPTY);
            tables'[t] in mem' && Links(mem', tables', t, i)
  {
    var f := tables[Home(va, l)];
    var mem' := Linked(mem, f, va, l, e, g, EMPTY);
    HomeChild(va, l);
    if t == Home(va, l - 1) {
      assert mem'[g][i] == 0;
    } else {
      assert Links(mem, tables, t, i);
      assert tables[t] in tables.Values;
      assert tables[t] == f ==> t == Home(va, l);
      hide Wf;
      assert Child(t, i) == Home(va, l - 1) ==> t == Home(va, l) && i == Index(va, l);
      hide Home;
    }
  }

  /** Linking a new table whose entries are all zero changes no translation. */
  lemma AddTable(mem: Memory, root: nat, tables: Tables, va: nat, l: nat, e: nat, g: nat, v: nat)
    requires Wf(mem, root, tables) && Usable(v) && Usable(va) && 0 < l <= 3
    requires Home(va, l) in tables && LinksTo(e, g) && g !in tables.Values
    requires !Present(Entry(mem, tables[Home(va, l)], va, l))
    ensures Walk(Linked(mem, tables[Home(va, l)], va, l, e, g, EMPTY), root, v, 3) == Walk(mem, root, v, 3)
  {
    RootHome(v);
    WalkLinked(mem, root, tables, va, l, e, g, v, 3);
  }

  /** Whatever the new frame holds, the way to it leads through the tables above. */
  lemma {:induction false} DownLinked(mem: Memory, root: nat, tables: Tables, va: nat, l: nat, e: nat, g: nat,
                                      content: Table, m: nat)
    requires Wf(mem, root, tables) && Usable(va) && 0 < l <= m <= 3
    requires Home(va, l) in tables && Home(va, m) in tables && LinksTo(e, g) && g !in tables.Values
    requires Down(mem, tables[Home(va, m)], va, m, l) == Some(tables[Home(va, l)])
    ensures Down(Linked(mem, tables[Home(va, l)], va, l, e, g, content), tables[Home(va, m)], va, m, l - 1) == Some(g)
    decreases m
  {
    var f, h := tables[Home(va, l)], tables[Home(va, m)];
    assert h in tables.Values;
    StoredEntry(mem, f, va, l, e, h, va, m);
    var mem' := Linked(mem, f, va, l, e, g, content);
    assert Entry(mem', h, va, m) == Entry(Stored(mem, f, va, l, e), h, va, m);
    if m > l {
      StepIn(mem, root, tables, va, m);
      hide Number;
      hide Wf;
      DownLinked(mem, root, tables, va, l, e, g, content, m - 1);
    }
  }
}
