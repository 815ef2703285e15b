/**
 The four-level page table as a radix tree in physical memory, and the address translation that the processor
 performs on it (section 4.5 of the Intel SDM, volume 3A).  Tables are named by their level (0 for PT through
 3 for PML4) and by the number of the virtual region that they cover.
 */
module PageWalk {
  import opened Alignment
  import opened Options
  import opened PageEntry

  // ----- Virtual addresses -----

  /** Translation looks at the lower 48 bits of an address. */
  const SPACE := 0x1_0000_0000_0000

  /** The size of the region that one entry of a table of level `l` covers. */
  function Shift(l: nat): (s: nat)
    requires l <= 4
    ensures s > 0
  {
    if l == 0 then 0x1000
    else if l == 1 then 0x20_0000
    else if l == 2 then 0x4000_0000
    else if l == 3 then 0x80_0000_0000
    else 0x1_0000_0000_0000
  }

  function Number(va: nat, l: nat): nat
    requires l <= 4
  {
    va % SPACE / Shift(l)
  }

  /** `table_index` */
  function Index(va: nat, l: nat): (i: nat)
    requires l <= 3
    ensures i < 512
  {
    va / Shift(l) % 512
  }

  lemma DivDiv(a: nat, s: nat, k: nat)
    requires s > 0 && k > 0
    ensures s * k > 0 && a / (s * k) == a / s / k
  {
    MulPositive(s, k);
    var q, r := a / s / k, a / s % k;
    assert a == (q * k + r) * s + a % s;
    assert (q * k + r) * s == q * (s * k) + r * s;
    assert r * s + a % s < s * k by {
      assert (r + 1) * s <= k * s by { MulMonotone(r + 1, k, s); }
    }
    DivUnique(a, s * k, q, r * s + a % s);
  }

  lemma MulMonotone(x: nat, y: nat, s: nat)
    requires x <= y
    ensures x * s <= y * s
  {
  }

  lemma QuotientSplit(va: nat, s: nat, c: nat, m: nat, q: nat, a: nat, b: nat)
    requires b < s && m == s * c && va == q * m + (a * s + b)
    ensures va / s == q * c + a
  {
    Regroup(q, s, c, a);
    DivUnique(va, s, q * c + a, b);
  }

  lemma Regroup(q: nat, s: nat, c: nat, a: nat)
    ensures q * (s * c) + a * s == (q * c + a) * s
  {
  }

  /** Remainders by a multiple of `512 * s` do not reach the nine bits above `s`. */
  lemma IndexInRemainder(va: nat, s: nat, d: nat, m: nat)
    requires s > 0 && m > 0 && m == s * (d * 512)
    ensures va / s % 512 == va % m / s % 512
  {
    var q, r := va / m, va % m;
    QuotientOf(va, m);
    QuotientOf(r, s);
    QuotientSplit(va, s, d * 512, m, q, r / s, r % s);
    NineBits(q, d, r / s);
  }

  lemma NineBits(q: nat, d: nat, x: nat)
    ensures (q * (d * 512) + x) % 512 == x % 512
  {
    Reassociate(q, d);
    DivUnique(q * (d * 512) + x, 512, q * d + x / 512, x % 512);
  }

  lemma QuotientOf(a: nat, d: nat)
    requires d > 0
    ensures a == a / d * d + a % d && a % d < d
  {
  }

  lemma Reassociate(q: nat, d: nat)
    ensures q * (d * 512) == (q * d) * 512
  {
  }

  lemma NumberStep(va: nat, l: nat)
    requires l <= 3
    ensures Number(va, l) == Number(va, l + 1) * 512 + Index(va, l)
  {
    DivDiv(va % SPACE, Shift(l), 512);
    var d := if l == 0 then 0x800_0000 else if l == 1 then 0x4_0000 else if l == 2 then 512 else 1;
    IndexInRemainder(va, Shift(l), d, SPACE);
  }

  lemma NumberTop(va: nat)
    ensures Number(va, 4) == 0
  {
  }

  /** Addresses of one region of level `l` take the same way through all tables above. */
  lemma {:induction false} SameAbove(v: nat, w: nat, l: nat, m: nat)
    requires l <= m <= 4 && Number(v, l) == Number(w, l)
    ensures Number(v, m) == Number(w, m)
    ensures l < m ==> Index(v, m - 1) == Index(w, m - 1)
    decreases m - l
  {
    if l < m {
      NumberStep(v, l);
      NumberStep(w, l);
      hide *;
      SameAbove(v, w, l + 1, m);
    }
  }

  // ----- Tables in memory -----

  type Table = s: seq<nat> | |s| == 512 witness seq(512, i => 0)
  type Memory = map<nat, Table>

  datatype TableId = TableId(level: nat, number: nat)
  type Tables = map<TableId, nat>

  const ROOT := TableId(3, 0)

  function Entry(mem: Memory, f: nat, va: nat, l: nat): nat
    requires f in mem && l <= 3
  {
    mem[f][Index(va, l)]
  }

  datatype Leaf = Leaf(entry: nat, level: nat)

  /** The processor's walk from table `f` of level `l`: the entry that maps `va`, and its level. */
  function Walk(mem: Memory, f: nat, va: nat, l: nat): Option<Leaf>
    requires l <= 3
    decreases l
  {
    if f !in mem then None else
    var e := Entry(mem, f, va, l);
    if !Present(e) then None
    else if l == 0 || (l < 3 && Huge(e)) then Some(Leaf(e, l))
    else Walk(mem, Address(e), va, l - 1)
  }

  /** The table of level `target` on the way of `va`. */
  function Down(mem: Memory, f: nat, va: nat, l: nat, target: nat): Option<nat>
    requires target <= l <= 3
    decreases l
  {
    if l == target then Some(f)
    else if f !in mem then None else
    var e := Entry(mem, f, va, l);
    if Present(e) && !Huge(e) then Down(mem, Address(e), va, l - 1, target) else None
  }

  /** Slot 511 of the PML4 refers to the PML4 itself. */
  predicate SelfMapped(mem: Memory, root: nat) {
    root in mem && Present(mem[root][511]) && !Huge(mem[root][511]) && Address(mem[root][511]) == root
  }

  function Child(t: TableId, i: nat): TableId
    requires t.level > 0
  {
    TableId(t.level - 1, t.number * 512 + i)
  }

  /** A present entry that does not map a page leads to the table of its region. */
  ghost predicate Links(mem: Memory, tables: Tables, t: TableId, i: nat)
    requires t in tables && tables[t] in mem && i < 512 && 0 < t.level
  {
    var e := mem[tables[t]][i];
    Present(e) && (!Huge(e) || t.level == 3) ==>
      !Huge(e) && Child(t, i) in tables && tables[Child(t, i)] == Address(e)
  }

  ghost predicate Shape(mem: Memory, root: nat, tables: Tables) {
    && ROOT in tables && tables[ROOT] == root
    && (forall t :: t in tables ==> t.level <= 3 && tables[t] in mem)
    && (forall t, u :: t in tables && u in tables && tables[t] == tables[u] ==> t == u)
  }

  /** `tables` lists the tables of the tree, each with a frame of its own. */
  ghost predicate Wf(mem: Memory, root: nat, tables: Tables) {
    && Shape(mem, root, tables)
    && SelfMapped(mem, root)
    && (forall t, i: nat :: t in tables && 0 < t.level && i < 512 && !(t.level == 3 && i == 511) ==>
          Links(mem, tables, t, i))
  }

  /** Slot 511 is not for pages. */
  predicate Usable(va: nat) {
    Index(va, 3) != 511
  }

  function Home(va: nat, l: nat): TableId
    requires l <= 3
  {
    TableId(l, Number(va, l + 1))
  }

  lemma HomeChild(va: nat, l: nat)
    requires 0 < l <= 3
    ensures Child(Home(va, l), Index(va, l)) == Home(va, l - 1)
  {
    NumberStep(va, l);
  }

  lemma RootHome(va: nat)
    ensures Home(va, 3) == ROOT
  {
    NumberTop(va);
  }

  /** One step of a walk inside a well-formed tree. */
  lemma StepIn(mem: Memory, root: nat, tables: Tables, va: nat, l: nat)
    requires Wf(mem, root, tables) && Usable(va) && 0 < l <= 3 && Home(va, l) in tables
    ensures var e := Entry(mem, tables[Home(va, l)], va, l);
            Present(e) && (!Huge(e) || l == 3) ==>
              !Huge(e) && Home(va, l - 1) in tables && tables[Home(va, l - 1)] == Address(e)
  {
    HomeChild(va, l);
    assert Links(mem, tables, Home(va, l), Index(va, l));
  }

  lemma {:induction false} DownHome(mem: Memory, root: nat, tables: Tables, va: nat, l: nat, target: nat)
    requires Wf(mem, root, tables) && Usable(va) && target <= l <= 3 && Home(va, l) in tables
    requires Down(mem, tables[Home(va, l)], va, l, target).Some?
    ensures Home(va, target) in tables
    ensures Down(mem, tables[Home(va, l)], va, l, target) == Some(tables[Home(va, target)])
    decreases l
  {
    if l > target {
      StepIn(mem, root, tables, va, l);
      hide Wf;
      hide Home;
      DownHome(mem, root, tables, va, l - 1, target);
    }
  }

  lemma {:induction false} DownFurther(mem: Memory, f: nat, va: nat, l: nat, m: nat, target: nat)
    requires target <= m <= l <= 3 && Down(mem, f, va, l, m).Some?
    ensures Down(mem, f, va, l, target) == Down(mem, Down(mem, f, va, l, m).value, va, m, target)
    decreases l
  {
    if l > m {
      hide Entry;
      DownFurther(mem, Address(Entry(mem, f, va, l)), va, l - 1, m, target);
    }
  }

  lemma {:induction false} WalkDown(mem: Memory, f: nat, va: nat, l: nat, m: nat)
    requires m <= l <= 3 && Down(mem, f, va, l, m).Some?
    ensures Walk(mem, f, va, l) == Walk(mem, Down(mem, f, va, l, m).value, va, m)
    decreases l
  {
    if l > m {
      hide Entry;
      WalkDown(mem, Address(Entry(mem, f, va, l)), va, l - 1, m);
    }
  }

  lemma {:induction false} WalkLevel(mem: Memory, f: nat, va: nat, l: nat)
    requires l <= 3 && Walk(mem, f, va, l).Some?
    ensures var leaf := Walk(mem, f, va, l).value;
            leaf.level <= l && leaf.level <= 2 && Present(leaf.entry) && (leaf.level == 0 || Huge(leaf.entry))
    decreases l
  {
    var e := Entry(mem, f, va, l);
    hide Entry;
    hide Present;
    hide Huge;
    if Present(e) && !(l == 0 || (l < 3 && Huge(e))) {
      WalkLevel(mem, Address(e), va, l - 1);
    }
  }
}
