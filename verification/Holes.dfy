/**
 The sorted list of holes of `src/mm/hole.rs` as a sequence: its canonical form, the free bytes it stands
 for, splitting a hole, and what freeing a block does to it.
 */
module Holes {
  import opened Alignment
  import opened Options

  /** Minimal size of a hole, which is the size of its header in memory. */
  const MIN_SIZE := 64

  /** Alignment of a hole's header. */
  const HEADER_ALIGN := 8

  datatype Hole = Hole(addr: nat, size: nat)

  datatype Layout = Layout(size: nat, align: nat)

  function End(h: Hole): nat {
    h.addr + h.size
  }

  predicate Inside(h: Hole, a: int) {
    h.addr <= a < End(h)
  }

  /** Address `a` is free. */
  predicate Covers(hs: seq<Hole>, a: int) {
    exists i :: 0 <= i < |hs| && Inside(hs[i], a)
  }

  /** Sorted by address, no two holes overlap or touch, none is too small, none is at address 0. */
  predicate Canonical(hs: seq<Hole>) {
    && (forall i :: 0 <= i < |hs| ==> hs[i].addr > 0 && hs[i].size >= MIN_SIZE)
    && (forall i, j :: 0 <= i < j < |hs| ==> End(hs[i]) < hs[j].addr)
  }

  predicate HeadersAligned(hs: seq<Hole>) {
    forall i :: 0 <= i < |hs| ==> hs[i].addr % HEADER_ALIGN == 0
  }

  /** No byte of the block is free. */
  predicate Apart(hs: seq<Hole>, addr: nat, size: nat) {
    forall i :: 0 <= i < |hs| ==> addr + size <= hs[i].addr || End(hs[i]) <= addr
  }

  /** `hs'` has exactly the free bytes of `hs` and the block. */
  ghost predicate Freed(hs: seq<Hole>, addr: nat, size: nat, hs': seq<Hole>) {
    forall a: int :: Covers(hs', a) <==> Covers(hs, a) || addr <= a < addr + size
  }

  /** `hs'` has exactly the free bytes of `hs` outside the block, which was free. */
  ghost predicate Taken(hs: seq<Hole>, addr: nat, size: nat, hs': seq<Hole>) {
    && (forall a: int :: addr <= a < addr + size ==> Covers(hs, a))
    && (forall a: int :: Covers(hs', a) <==> Covers(hs, a) && !(addr <= a < addr + size))
  }

  // ----- The free bytes determine the list -----

  lemma FirstCovered(hs: seq<Hole>)
    requires Canonical(hs) && hs != []
    ensures Covers(hs, hs[0].addr) && !Covers(hs, End(hs[0]))
  {
    assert Inside(hs[0], hs[0].addr);
    forall i | 0 <= i < |hs| ensures !Inside(hs[i], End(hs[0])) {
      assert i > 0 ==> End(hs[0]) < hs[i].addr;
    }
  }

  lemma FirstHoles(hs: seq<Hole>, hs': seq<Hole>)
    requires Canonical(hs) && Canonical(hs') && hs != [] && hs' != []
    requires forall a: int :: Covers(hs, a) ==> Covers(hs', a)
    ensures hs'[0].addr <= hs[0].addr
    ensures hs[0].addr == hs'[0].addr ==> hs[0].size <= hs'[0].size
  {
    FirstCovered(hs);
    FirstCovered(hs');
    assert Covers(hs', hs[0].addr);
    var e := End(hs'[0]);
    assert Inside(hs[0], e) ==> Covers(hs, e);
  }

  lemma CoversTail(hs: seq<Hole>, a: int)
    requires Canonical(hs) && hs != []
    ensures Covers(hs[1..], a) <==> Covers(hs, a) && !Inside(hs[0], a)
  {
    if Covers(hs[1..], a) {
      var i :| 0 <= i < |hs[1..]| && Inside(hs[1..][i], a);
      assert Inside(hs[i + 1], a) && End(hs[0]) < hs[i + 1].addr;
    }
    if Covers(hs, a) && !Inside(hs[0], a) {
      var i :| 0 <= i < |hs| && Inside(hs[i], a);
      assert Inside(hs[1..][i - 1], a);
    }
  }

  lemma NonemptyCovers(hs: seq<Hole>)
    requires Canonical(hs)
    ensures (forall a: int :: !Covers(hs, a)) ==> hs == []
  {
    if hs != [] {
      FirstCovered(hs);
    }
  }

  /** A canonical hole list is determined by its free bytes. */
  lemma {:induction false} CanonicalUnique(hs: seq<Hole>, hs': seq<Hole>)
    requires Canonical(hs) && Canonical(hs')
    requires forall a: int :: Covers(hs, a) <==> Covers(hs', a)
    ensures hs == hs'
    decreases |hs|
  {
    if hs == [] {
      NonemptyCovers(hs');
    } else if hs' == [] {
      NonemptyCovers(hs);
    } else {
      FirstHoles(hs, hs');
      FirstHoles(hs', hs);
      forall a: int ensures Covers(hs[1..], a) <==> Covers(hs'[1..], a) {
        CoversTail(hs, a);
        CoversTail(hs', a);
      }
      CanonicalUnique(hs[1..], hs'[1..]);
      hide Covers;
      hide Canonical;
      assert hs == [hs[0]] + hs[1..] && hs' == [hs'[0]] + hs'[1..];
    }
  }

  // ----- Splitting a hole -----

  datatype Allocation = Allocation(info: Hole, front: Option<Hole>, back: Option<Hole>)

  function SplitHole(hole: Hole, layout: Layout): Option<Allocation>
    requires layout.align > 0
  {
    var aligned := if hole.addr == AlignUp(hole.addr, layout.align) then hole.addr
                   else AlignUp(hole.addr + MIN_SIZE, layout.align);
    var front := if aligned == hole.addr then None else Some(Hole(hole.addr, aligned - hole.addr));
    if aligned + layout.size > End(hole) then None
    else
      var rest := hole.size - (aligned - hole.addr);
      if rest == layout.size then Some(Allocation(Hole(aligned, layout.size), front, None))
      else if rest - layout.size < MIN_SIZE then None
      else Some(Allocation(Hole(aligned, layout.size), front, Some(Hole(aligned + layout.size, rest - layout.size))))
  }

  /** `p` is aligned and leaves no front padding or padding that can be a hole. */
  predicate Admissible(hole: Hole, layout: Layout, p: nat)
    requires layout.align > 0
  {
    p % layout.align == 0 && (p == hole.addr || hole.addr + MIN_SIZE <= p)
  }

  /** The hole is split at the least admissible address, exactly if the block fits there and leaves no rest
      or a rest that can be a hole; the parts then make up the hole. */
  lemma SplitIsLeastAdmissible(hole: Hole, layout: Layout, p: nat)
    requires layout.align > 0 && Admissible(hole, layout, p)
    requires forall p' :: Admissible(hole, layout, p') ==> p <= p'
    ensures SplitHole(hole, layout).Some? <==>
              p + layout.size == End(hole) || p + layout.size + MIN_SIZE <= End(hole)
    ensures SplitHole(hole, layout).Some? ==>
              var Allocation(info, front, back) := SplitHole(hole, layout).value;
              && info == Hole(p, layout.size)
              && (front == if p == hole.addr then None else Some(Hole(hole.addr, p - hole.addr)))
              && (back == if p + layout.size == End(hole) then None
                  else Some(Hole(p + layout.size, End(hole) - p - layout.size)))
  {
    AlignUpFixed(hole.addr, layout.align);
    if hole.addr % layout.align == 0 {
      assert Admissible(hole, layout, hole.addr);
    } else {
      var q := AlignUp(hole.addr + MIN_SIZE, layout.align);
      assert Admissible(hole, layout, q);
      AlignUpLeast(hole.addr + MIN_SIZE, layout.align, p);
    }
  }

  /** A block of `size` bytes goes to `p` in this hole: `p` is the first multiple of the alignment that is the start of
      the hole or leaves room for a hole of 64 bytes before it, and behind the block nothing is left or at least
      64 bytes. */
  ghost predicate Place(hole: Hole, size: nat, align: nat, p: nat)
    requires align > 0
  {
    && p % align == 0 && (p == hole.addr || hole.addr + 64 <= p)
    && (forall q: nat :: q % align == 0 && (q == hole.addr || hole.addr + 64 <= q) ==> p <= q)
    && (p + size == hole.addr + hole.size || p + size + 64 <= hole.addr + hole.size)
  }

  lemma LeastAdmissible(hole: Hole, layout: Layout) returns (least: nat)
    requires layout.align > 0
    ensures Admissible(hole, layout, least) && forall q: nat :: Admissible(hole, layout, q) ==> least <= q
  {
    if hole.addr % layout.align == 0 {
      least := hole.addr;
    } else {
      least := AlignUp(hole.addr + MIN_SIZE, layout.align);
      forall q: nat | Admissible(hole, layout, q) ensures least <= q {
        AlignUpLeast(hole.addr + MIN_SIZE, layout.align, q);
      }
    }
  }

  lemma PlaceIsLeast(hole: Hole, layout: Layout, p: nat, least: nat)
    requires layout.align > 0 && Admissible(hole, layout, least)
    requires forall q: nat :: Admissible(hole, layout, q) ==> least <= q
    ensures Place(hole, layout.size, layout.align, p) <==>
              p == least && (p + layout.size == End(hole) || p + layout.size + MIN_SIZE <= End(hole))
  {
    if Place(hole, layout.size, layout.align, p) {
      assert Admissible(hole, layout, p);
    }
    if p == least {
      forall q: nat | q % layout.align == 0 && (q == hole.addr || hole.addr + 64 <= q) ensures p <= q {
        assert Admissible(hole, layout, q);
      }
    }
  }

  /** `split_hole` finds the place of the block, if there is one. */
  lemma SplitFindsPlace(hole: Hole, layout: Layout, p: nat)
    requires layout.align > 0
    ensures Place(hole, layout.size, layout.align, p) <==>
              SplitHole(hole, layout).Some? && SplitHole(hole, layout).value.info.addr == p
  {
    hide SplitHole, Place, Admissible;
    var least := LeastAdmissible(hole, layout);
    SplitIsLeastAdmissible(hole, layout, least);
    PlaceIsLeast(hole, layout, p, least);
  }

  /** What the callers of `split_hole` rely on. */
  lemma SplitParts(hole: Hole, layout: Layout)
    requires layout.align > 0 && SplitHole(hole, layout).Some?
    ensures var Allocation(info, front, back) := SplitHole(hole, layout).value;
            && info.size == layout.size && info.addr % layout.align == 0
            && hole.addr <= info.addr && End(info) <= End(hole)
            && (if front.None? then info.addr == hole.addr
                else front.value.addr == hole.addr && End(front.value) == info.addr && front.value.size >= MIN_SIZE)
            && (if back.None? then End(info) == End(hole)
                else back.value.addr == End(info) && End(back.value) == End(hole) && back.value.size >= MIN_SIZE)
  {
    AlignUpFixed(hole.addr, layout.align);
  }

  lemma SplitAddressAligned(hole: Hole, layout: Layout)
    requires IsPow2(layout.align) && hole.addr % HEADER_ALIGN == 0 && SplitHole(hole, layout).Some?
    ensures SplitHole(hole, layout).value.info.addr % HEADER_ALIGN == 0
  {
    var n :| 0 <= n <= layout.align && layout.align == Pow2(n);
    assert Pow2(3) == 8 by {
      assert Pow2(1) == 2 && Pow2(2) == 4;
    }
    if n >= 3 {
      Pow2Divides(3, n);
      SplitParts(hole, layout);
      hide SplitHole;
      MultipleOfMultiple(SplitHole(hole, layout).value.info.addr, layout.align, HEADER_ALIGN);
    } else {
      Pow2Divides(n, 3);
      MultipleOfMultiple(hole.addr, HEADER_ALIGN, layout.align);
      AlignUpFixed(hole.addr, layout.align);
      hide AlignUp;
    }
  }

  /** With a power-of-two alignment and a size that is a multiple of 8, all parts stay 8-aligned. */
  lemma SplitAligned(hole: Hole, layout: Layout)
    requires IsPow2(layout.align) && layout.size % HEADER_ALIGN == 0 && hole.addr % HEADER_ALIGN == 0
    requires SplitHole(hole, layout).Some?
    ensures var Allocation(info, front, back) := SplitHole(hole, layout).value;
            info.addr % HEADER_ALIGN == 0 && (back.Some? ==> back.value.addr % HEADER_ALIGN == 0)
  {
    hide SplitHole;
    SplitAddressAligned(hole, layout);
    SplitParts(hole, layout);
    SumAligned(SplitHole(hole, layout).value.info.addr, layout.size);
  }

  lemma SumAligned(a: nat, b: nat)
    requires a % HEADER_ALIGN == 0 && b % HEADER_ALIGN == 0
    ensures (a + b) % HEADER_ALIGN == 0
  {
    assert a + b == (a / HEADER_ALIGN + b / HEADER_ALIGN) * HEADER_ALIGN;
    MultipleMod(a / HEADER_ALIGN + b / HEADER_ALIGN, HEADER_ALIGN);
  }

  // ----- Freeing a block -----

  lemma CoversReplaced(hs: seq<Hole>, i: nat, j: nat, h: Hole, a: int)
    requires i <= j <= |hs|
    ensures Covers(hs[..i] + [h] + hs[j..], a) <==> Inside(h, a) || Covers(hs[..i], a) || Covers(hs[j..], a)
    ensures Covers(hs, a) <==> Covers(hs[..i], a) || Covers(hs[i..j], a) || Covers(hs[j..], a)
  {
    var r := hs[..i] + [h] + hs[j..];
    assert Inside(h, a) ==> Inside(r[i], a);
    if Covers(hs[..i], a) {
      var k :| 0 <= k < i && Inside(hs[..i][k], a);
      assert Inside(r[k], a) && Inside(hs[k], a);
    }
    if Covers(hs[j..], a) {
      var k :| 0 <= k < |hs[j..]| && Inside(hs[j..][k], a);
      assert Inside(r[i + 1 + k], a) && Inside(hs[j + k], a);
    }
    if Covers(hs[i..j], a) {
      var k :| 0 <= k < j - i && Inside(hs[i..j][k], a);
      assert Inside(hs[i + k], a);
    }
    if Covers(r, a) {
      var k :| 0 <= k < |r| && Inside(r[k], a);
      assert if k < i then Inside(hs[..i][k], a) else if k == i then Inside(h, a) else Inside(hs[j..][k - i - 1], a);
    }
    if Covers(hs, a) {
      var k :| 0 <= k < |hs| && Inside(hs[k], a);
      assert if k < i then Inside(hs[..i][k], a) else if k < j then Inside(hs[i..j][k - i], a)
             else Inside(hs[j..][k - j], a);
    }
  }

  /** Putting the hole `h` in the place of holes `i..j` frees exactly the block, if `h` is the block and
      those holes glued together and nothing else touches it. */
  lemma ReplaceFrees(hs: seq<Hole>, i: nat, j: nat, h: Hole, addr: nat, size: nat)
    requires Canonical(hs) && i <= j <= |hs| && h.size >= MIN_SIZE && h.addr > 0
    requires forall k :: 0 <= k < i ==> End(hs[k]) < h.addr
    requires forall k :: j <= k < |hs| ==> End(h) < hs[k].addr
    requires forall a: int :: Inside(h, a) <==> Covers(hs[i..j], a) || addr <= a < addr + size
    ensures Canonical(hs[..i] + [h] + hs[j..]) && Freed(hs, addr, size, hs[..i] + [h] + hs[j..])
  {
    forall a: int ensures Covers(hs[..i] + [h] + hs[j..], a) <==> Covers(hs, a) || addr <= a < addr + size {
      CoversReplaced(hs, i, j, h, a);
    }
  }
}
