/**
 The self-reference in slot 511 of the PML4 makes every table appear at a virtual address of its own.
 `subtable` computes these addresses by shifting; here they are shown to name the right tables.
 */
module SelfMap {
  import opened Alignment
  import opened PageEntry
  import opened PageWalk
  import opened Options

  const PML4_ADDRESS := 0xFFFF_FFFF_FFFF_F000

  /** `subtable`: `(table << 9) | (index << 12)` in 64 bits. */
  function SubtableVa(t: nat, i: nat): nat {
    BitOr(t * 512 % WORD, i * KIB4)
  }

  /** The address at which `map_page` and its relatives expect the table of level `l` on the way of `va`. */
  function TableVa(va: nat, l: nat): nat
    requires l <= 3
    decreases 3 - l
  {
    if l == 3 then PML4_ADDRESS else SubtableVa(TableVa(va, l + 1), Index(va, l + 1))
  }

  // ----- Indices of table addresses -----

  /** 512 to the power of `l` */
  function Span(l: nat): (s: nat)
    requires l <= 3
    ensures s > 0
  {
    if l == 0 then 1 else if l == 1 then 512 else if l == 2 then 0x4_0000 else 0x800_0000
  }

  lemma IndexOfPage(va: nat, l: nat)
    requires l <= 3
    ensures Index(va, l) == va / KIB4 / Span(l) % 512
  {
    DivDiv(va, KIB4, Span(l));
  }

  lemma SubtableSum(t: nat, i: nat)
    requires t % KIB4 == 0 && i < 512
    ensures SubtableVa(t, i) == t / KIB4 % 0x800_0000_0000 * MIB2 + i * KIB4
  {
    var n := t / KIB4;
    var a, b := n / 0x800_0000_0000, n % 0x800_0000_0000;
    DivUnique(t * 512, WORD, a, b * MIB2);
    Powers();
    hide Pow2;
    OrLow(b, i * KIB4, 21);
  }

  lemma SubtableIndex(t: nat, i: nat, h: nat)
    requires t % KIB4 == 0 && i < 512 && h <= 2
    ensures SubtableVa(t, i) % KIB4 == 0 && Index(SubtableVa(t, i), 0) == i
    ensures Index(SubtableVa(t, i), h + 1) == Index(t, h)
  {
    SubtableSum(t, i);
    var n := t / KIB4;
    var b := n % 0x800_0000_0000;
    var s := SubtableVa(t, i);
    DivUnique(s, KIB4, b * 512 + i, 0);
    DivUnique(b * 512 + i, 512, b, i);
    hide SubtableVa;
    IndexOfPage(s, 0);
    IndexOfPage(s, h + 1);
    IndexOfPage(t, h);
    DivDiv(b * 512 + i, 512, Span(h));
    var d := if h == 0 then 0x4_0000_0000 else if h == 1 then 0x200_0000 else 0x1_0000;
    IndexInRemainder(n, Span(h), d, 0x800_0000_0000);
  }

  /** The address of a table holds 511 in its leading indices, followed by the indices that lead to the table. */
  lemma {:induction false} TableVaIndex(va: nat, l: nat, h: nat)
    requires l <= 3 && h <= 3
    ensures TableVa(va, l) % KIB4 == 0
    ensures Index(TableVa(va, l), h) == if h + l >= 3 then 511 else Index(va, h + l + 1)
    decreases 3 - l
  {
    if l == 3 {
      assert PML4_ADDRESS % KIB4 == 0;
    } else {
      var k := if h == 0 then 0 else h - 1;
      TableVaIndex(va, l + 1, k);
      hide Index;
      hide SubtableVa;
      SubtableIndex(TableVa(va, l + 1), Index(va, l + 1), k);
    }
  }

  /** Addresses inside the page of a table have the indices of the table's address. */
  lemma SamePageIndex(t: nat, o: nat, h: nat)
    requires t % KIB4 == 0 && o < KIB4 && h <= 3
    ensures Index(t + o, h) == Index(t, h)
  {
    DivUnique(t + o, KIB4, t / KIB4, o);
    IndexOfPage(t + o, h);
    IndexOfPage(t, h);
  }

  // ----- Translation of table addresses -----

  /** The physical page that an entry of level `l` maps. */
  function PageBase(e: nat, l: nat): nat
    requires l <= 2
  {
    e % BIT59 / Shift(l) * Shift(l)
  }

  function Translate(mem: Memory, root: nat, va: nat): Option<nat> {
    var w := Walk(mem, root, va, 3);
    if w.None? then None
    else WalkLevel(mem, root, va, 3); Some(PageBase(w.value.entry, w.value.level) + va % Shift(w.value.level))
  }

  /** The frame and the index of the entry that is stored at a virtual address. */
  function Cell(mem: Memory, root: nat, va: nat): Option<(nat, nat)> {
    var p := Translate(mem, root, va);
    if p.None? then None else Some((p.value / KIB4 * KIB4, p.value % KIB4 / 8))
  }

  lemma AddressIsBase(e: nat)
    ensures PageBase(e, 0) == Address(e)
  {
    var c := BIT59 / KIB4;
    var q, r := e / BIT59, e % BIT59;
    QuotientSplit(e, KIB4, c, BIT59, q, r / KIB4, r % KIB4);
    DivUnique(q * c + r / KIB4, c, q, r / KIB4);
  }

  /** Index 511 leads from the PML4 back to it. */
  lemma {:induction false} SelfSteps(mem: Memory, root: nat, w: nat, h: nat, m: nat)
    requires SelfMapped(mem, root) && m <= h <= 3
    requires forall k :: m < k <= h ==> Index(w, k) == 511
    ensures Walk(mem, root, w, h) == Walk(mem, root, w, m)
    decreases h
  {
    if h > m {
      assert Index(w, h) == 511;
      hide Index;
      hide Address;
      SelfSteps(mem, root, w, h - 1, m);
    }
  }

  /** The remaining indices take the way of `va`, `l + 1` levels further down. */
  lemma {:induction false} ShiftedSteps(mem: Memory, f: nat, va: nat, w: nat, h: nat, l: nat)
    requires h + l + 1 <= 3 && Down(mem, f, va, h + l + 1, l).Some?
    requires forall k :: 0 <= k <= h ==> Index(w, k) == Index(va, k + l + 1)
    ensures Walk(mem, f, w, h).Some? && Walk(mem, f, w, h).value.level == 0
    ensures Address(Walk(mem, f, w, h).value.entry) == Down(mem, f, va, h + l + 1, l).value
    decreases h
  {
    var e := Entry(mem, f, va, h + l + 1);
    assert Entry(mem, f, w, h) == e;
    assert Down(mem, f, va, h + l + 1, l) == Down(mem, Address(e), va, h + l, l);
    hide Index;
    hide Address;
    if h > 0 {
      ShiftedSteps(mem, Address(e), va, w, h - 1, l);
    }
  }

  /** The address that `subtable` computes is translated to the table that the tree holds for `va`. */
  lemma TableWalk(mem: Memory, root: nat, va: nat, l: nat, o: nat)
    requires SelfMapped(mem, root) && l <= 3 && Down(mem, root, va, 3, l).Some? && o < KIB4
    ensures var w := Walk(mem, root, TableVa(va, l) + o, 3);
            w.Some? && w.value.level == 0 && Address(w.value.entry) == Down(mem, root, va, 3, l).value
  {
    var t := TableVa(va, l);
    var w := t + o;
    forall h | 0 <= h <= 3
      ensures Index(w, h) == if h + l >= 3 then 511 else Index(va, h + l + 1)
    {
      TableVaIndex(va, l, h);
      SamePageIndex(t, o, h);
    }
    hide TableVa;
    hide Index;
    if l == 3 {
      SelfSteps(mem, root, w, 3, 0);
      assert Index(w, 0) == 511;
    } else {
      SelfSteps(mem, root, w, 3, 2 - l);
      ShiftedSteps(mem, root, va, w, 2 - l, l);
    }
  }

  lemma TableCell(mem: Memory, root: nat, va: nat, l: nat, i: nat)
    requires SelfMapped(mem, root) && l <= 3 && Down(mem, root, va, 3, l).Some? && i < 512
    ensures Cell(mem, root, TableVa(va, l) + 8 * i) == Some((Down(mem, root, va, 3, l).value, i))
  {
    TableWalk(mem, root, va, l, 8 * i);
    TableVaIndex(va, l, 0);
    hide Walk, TableVa, Down, Address, Index, Cell;
    EntryCell(mem, root, TableVa(va, l), i);
  }

  /** The cell of an address in a page of 4 KiB. */
  lemma EntryCell(mem: Memory, root: nat, t: nat, i: nat)
    requires i < 512 && t % KIB4 == 0 && Walk(mem, root, t + 8 * i, 3).Some?
    requires Walk(mem, root, t + 8 * i, 3).value.level == 0
    ensures Cell(mem, root, t + 8 * i) == Some((Address(Walk(mem, root, t + 8 * i, 3).value.entry), i))
  {
    var a := t + 8 * i;
    var e := Walk(mem, root, a, 3).value.entry;
    AddressIsBase(e);
    DivUnique(a, KIB4, t / KIB4, 8 * i);
    CellOf(Address(e), i, e / KIB4 % (BIT59 / KIB4));
    hide Walk, PageBase, Address;
    assert Translate(mem, root, a) == Some(PageBase(e, 0) + 8 * i);
  }

  lemma CellOf(g: nat, i: nat, q: nat)
    requires g == q * KIB4 && i < 512
    ensures (g + 8 * i) / KIB4 * KIB4 == g && (g + 8 * i) % KIB4 / 8 == i
  {
    DivUnique(g + 8 * i, KIB4, q, 8 * i);
  }
}
