/**
 The linked hole list in memory (`src/mm/hole.rs`): every hole stores its size and the address of the next
 hole in its own first bytes.  `mem` is memory seen at the granularity of such headers.
 */
module HoleMemory {
  import opened Alignment
  import opened Holes
  import opened Options

  datatype Header = Header(size: nat, next: Option<nat>)

  /** The link that leads to the `i`-th hole. */
  function Link(hs: seq<Hole>, i: nat): Option<nat>
    requires i <= |hs|
  {
    if i < |hs| then Some(hs[i].addr) else None
  }

  predicate Linked(mem: map<nat, Header>, hs: seq<Hole>, i: nat)
    requires i < |hs|
  {
    hs[i].addr in mem && mem[hs[i].addr] == Header(hs[i].size, Link(hs, i + 1))
  }

  /** Memory holds exactly the list `hs`, starting at the link `first`. */
  predicate Chain(mem: map<nat, Header>, first: Option<nat>, hs: seq<Hole>) {
    first == Link(hs, 0) && forall i :: 0 <= i < |hs| ==> Linked(mem, hs, i)
  }

  class HoleList {
    var first: Option<nat>   // `next` of the dummy hole
    var mem: map<nat, Header>
    ghost var holes: seq<Hole>

    ghost predicate Valid()
      reads this
    {
      Chain(mem, first, holes) && Canonical(holes)
    }

    /** `HoleList::empty` */
    constructor Empty()
      ensures Valid() && holes == []
    {
      mem := map[];
      first := None;
      holes := [];
    }

    /** `HoleList::new`: one hole. */
    constructor (addr: nat, size: nat)
      requires addr > 0 && size >= MIN_SIZE
      ensures Valid() && holes == [Hole(addr, size)]
    {
      mem := map[addr := Header(size, None)];
      first := Some(addr);
      holes := [Hole(addr, size)];
    }

    /** Sets the `next` link of the hole at `cursor`, or of the dummy hole. */
    method SetNext(cursor: Option<nat>, next: Option<nat>)
      requires cursor.Some? ==> cursor.value in mem
      modifies this`first, this`mem
      ensures cursor.None? ==> first == next && mem == old(mem)
      ensures cursor.Some? ==>
                && first == old(first)
                && mem == old(mem)[cursor.value := old(mem)[cursor.value].(next := next)]
    {
      if cursor.Some? {
        mem := mem[cursor.value := mem[cursor.value].(next := next)];
      } else {
        first := next;
      }
    }

    /** The end of the hole at `cursor` (0 for the dummy hole) and the hole behind it. */
    method Look(cursor: Option<nat>, ghost n: nat) returns (end: nat, next: Option<Hole>)
      requires Valid() && Cursor(holes, n, cursor)
      ensures end == if n == 0 then 0 else End(holes[n - 1])
      ensures next == if n < |holes| then Some(holes[n]) else None
    {
      assert n > 0 ==> Linked(mem, holes, n - 1);
      end := if cursor.Some? then cursor.value + mem[cursor.value].size else 0;
      var link := if cursor.Some? then mem[cursor.value].next else first;
      if link.Some? {
        assert Linked(mem, holes, n);
        next := Some(Hole(link.value, mem[link.value].size));
      } else {
        next := None;
      }
    }

    /** Takes the hole behind the cursor out of the list. */
    method Unlink(cursor: Option<nat>, ghost n: nat)
      requires Valid() && Cursor(holes, n, cursor) && n < |holes|
      modifies this
      ensures Valid() && holes == old(holes)[..n] + old(holes)[n + 1..]
    {
      ghost var mem0, first0 := mem, first;
      assert n > 0 ==> Linked(mem, holes, n - 1);
      assert Linked(mem, holes, n);
      var next := if cursor.Some? then mem[cursor.value].next else first;
      SetNext(cursor, mem[next.value].next);
      UnlinkChain(mem0, first0, holes, n, mem, first);
      holes := holes[..n] + holes[n + 1..];
    }

    /** Enlarges the hole at the cursor by `extra` bytes. */
    method Enlarge(cursor: Option<nat>, ghost n: nat, extra: nat)
      requires Valid() && Cursor(holes, n, cursor) && n > 0
      modifies this
      ensures Chain(mem, first, holes)
      ensures var h := old(holes)[n - 1];
              holes == old(holes)[..n - 1] + [Hole(h.addr, h.size + extra)] + old(holes)[n..]
    {
      assert Linked(mem, holes, n - 1);
      GrowChain(mem, first, holes, n, n, mem[cursor.value].size + extra);
      mem := mem[cursor.value := mem[cursor.value].(size := mem[cursor.value].size + extra)];
      holes := holes[..n - 1] + [Hole(holes[n - 1].addr, holes[n - 1].size + extra)] + holes[n..];
    }

    /** Writes a header into the block and links it behind the cursor. */
    method LinkNew(cursor: Option<nat>, ghost n: nat, addr: nat, size: nat)
      requires Valid() && Cursor(holes, n, cursor)
      requires forall i :: 0 <= i < |holes| ==> holes[i].addr != addr
      modifies this
      ensures Chain(mem, first, holes) && holes == old(holes)[..n] + [Hole(addr, size)] + old(holes)[n..]
    {
      ghost var mem0, first0 := mem, first;
      assert n > 0 ==> Linked(mem, holes, n - 1);
      var next := if cursor.Some? then mem[cursor.value].next else first;
      mem := mem[addr := Header(size, next)];
      SetNext(cursor, Some(addr));
      LinkChain(mem0, first0, holes, n, addr, size, mem, first);
      holes := holes[..n] + [Hole(addr, size)] + holes[n..];
    }

    /**
     `deallocate`: `ok` is false where the source's assertions stop the kernel.  That happens exactly for a
     block that is too small or whose address is inside a hole, before anything is changed.  A block with
     no free byte is added to the free bytes, and the list stays canonical.
     */
    method Deallocate(addr: nat, blockSize: nat) returns (ok: bool)
      requires Valid() && addr > 0
      modifies this
      ensures ok <==> blockSize >= MIN_SIZE && !Covers(old(holes), addr)
      ensures !ok ==> mem == old(mem) && first == old(first) && holes == old(holes)
      ensures ok && Apart(old(holes), addr, blockSize) ==> Valid() && Freed(old(holes), addr, blockSize, holes)
      ensures HeadersAligned(old(holes)) && addr % HEADER_ALIGN == 0 ==> HeadersAligned(holes)
    {
      hide SameBytes;
      hide Freed;
      hide Apart;
      hide Covers;
      hide HeadersAligned;
      hide Canonical;
      hide Chain;
      var size := blockSize;
      var cursor: Option<nat> := None;
      ghost var n := 0;
      ghost var merged := false;
      SameBytesSelf(holes, size, addr);
      while true
        invariant Valid() && Cursor(holes, n, cursor) && (n > 0 ==> holes[n - 1].addr <= addr)
        invariant !merged ==> mem == old(mem) && first == old(first) && holes == old(holes) && size == blockSize
        invariant merged ==> blockSize >= MIN_SIZE && size >= MIN_SIZE && !Covers(old(holes), addr)
        invariant merged && n > 0 ==> End(holes[n - 1]) < addr
        invariant merged && n < |holes| ==> addr < holes[n].addr
        invariant Apart(old(holes), addr, blockSize) ==>
                    Apart(holes, addr, size) && SameBytes(old(holes), blockSize, holes, size, addr)
        invariant HeadersAligned(old(holes)) ==> HeadersAligned(holes)
        decreases |holes| - n
      {
        var holeEnd, next := Look(cursor, n);
        if size < MIN_SIZE || holeEnd > addr {
          if n > 0 {
            CoversInside(holes, n - 1, addr);
          }
          return false;
        }
        if next.Some? && holeEnd == addr && addr + size == next.value.addr {
          // The block fills the gap between this hole and the next one.
          NotCovered(holes, n, addr);
          GrowFrees(old(holes), blockSize, holes, n, n + 1, addr, size);
          ghost var hs := holes;
          Unlink(cursor, n);
          Enlarge(cursor, n, size + next.value.size);
          GrowBoth(hs, n, size, holes);
          return true;
        } else if holeEnd == addr {
          // The block is right behind this hole.
          NotCovered(holes, n, addr);
          GrowFrees(old(holes), blockSize, holes, n, n, addr, size);
          Enlarge(cursor, n, size);
          return true;
        } else if next.Some? && addr + size == next.value.addr {
          // The block is right before the next hole: take that hole out and free both together.
          NotCovered(holes, n, addr);
          MergeNext(old(holes), blockSize, holes, n, addr, size);
          Unlink(cursor, n);
          size := size + next.value.size;
          merged := true;
        } else if next.Some? && next.value.addr <= addr {
          // The block is behind the next hole.
          cursor := Some(next.value.addr);
          n := n + 1;
        } else {
          // The block is between this hole and the next one.
          NotCovered(holes, n, addr);
          LinkFrees(old(holes), blockSize, holes, n, addr, size);
          LinkNew(cursor, n, addr, size);
          return true;
        }
      }
    }

    /**
     `allocate_first_fit`: the block comes from the hole with the lowest address that `split_hole` accepts,
     exactly its bytes stop being free, and the list stays canonical.  Without such a hole nothing changes.
     */
    method AllocateFirstFit(layout: Layout) returns (r: Option<nat>)
      requires Valid() && layout.size >= MIN_SIZE && layout.align > 0
      modifies this
      ensures Valid()
      ensures r.None? <==> forall i :: 0 <= i < |old(holes)| ==> SplitHole(old(holes)[i], layout).None?
      ensures r.None? ==> mem == old(mem) && first == old(first) && holes == old(holes)
      ensures r.Some? ==> FirstFit(old(holes), layout, r.value) && Taken(old(holes), r.value, layout.size, holes)
      ensures r.Some? ==> HeadersAligned(old(holes)) && IsPow2(layout.align) && layout.size % HEADER_ALIGN == 0
                          ==> HeadersAligned(holes) && r.value % HEADER_ALIGN == 0
    {
      hide Canonical;
      hide Chain;
      hide Covers;
      hide Freed;
      hide Taken;
      hide Apart;
      hide HeadersAligned;
      hide SplitHole;
      var cursor: Option<nat> := None;
      ghost var n := 0;
      while true
        invariant Valid() && Cursor(holes, n, cursor) && holes == old(holes) && mem == old(mem) && first == old(first)
        invariant forall i :: 0 <= i < n ==> SplitHole(holes[i], layout).None?
        decreases |holes| - n
      {
        var _, next := Look(cursor, n);
        if next.None? {
          return None;
        }
        var allocation := SplitHole(next.value, layout);
        if allocation.None? {
          cursor := Some(next.value.addr);
          n := n + 1;
          continue;
        }
        SplitParts(next.value, layout);
        var Allocation(info, front, back) := allocation.value;
        ghost var hs0 := holes;
        Unlink(cursor, n);
        ghost var hs1 := holes;
        UnlinkTakes(hs0, n, front, back);
        if front.Some? {
          var ok := Deallocate(front.value.addr, front.value.size);
          assert ok;
        }
        ghost var hs2 := holes;
        BackApart(hs0, hs1, hs2, n, info, front, back);
        if back.Some? {
          var ok := Deallocate(back.value.addr, back.value.size);
          assert ok;
        }
        SplitTakes(hs0, hs1, hs2, holes, n, info, front, back);
        AllocationAligned(hs0, hs1, n, layout);
        return Some(info.addr);
      }
    }
  }

  /** `p` is where the first hole that can be split is split. */
  ghost predicate FirstFit(hs: seq<Hole>, layout: Layout, p: nat)
    requires layout.align > 0
  {
    exists i :: 0 <= i < |hs| && SplitHole(hs[i], layout).Some? && p == SplitHole(hs[i], layout).value.info.addr
             && forall j :: 0 <= j < i ==> SplitHole(hs[j], layout).None?
  }

  lemma GrowBoth(hs: seq<Hole>, n: nat, size: nat, r: seq<Hole>)
    requires 0 < n < |hs|
    requires var u := hs[..n] + hs[n + 1..];
             r == u[..n - 1] + [Hole(u[n - 1].addr, u[n - 1].size + (size + hs[n].size))] + u[n..]
    ensures r == hs[..n - 1] + [Hole(hs[n - 1].addr, hs[n - 1].size + size + hs[n].size)] + hs[n + 1..]
  {
  }

  /** The cursor that stands on hole `n - 1`, or on the dummy hole. */
  predicate Cursor(hs: seq<Hole>, n: nat, cursor: Option<nat>) {
    n <= |hs| && cursor == (if n == 0 then None else Some(hs[n - 1].addr))
  }

  /** Unlinking the hole behind the cursor. */
  lemma UnlinkChain(mem: map<nat, Header>, first: Option<nat>, hs: seq<Hole>, n: nat,
                    mem': map<nat, Header>, first': Option<nat>)
    requires Chain(mem, first, hs) && Canonical(hs) && n < |hs|
    requires if n == 0 then first' == Link(hs, 1) && mem' == mem
             else
               && first' == first && hs[n - 1].addr in mem
               && mem' == mem[hs[n - 1].addr := Header(hs[n - 1].size, Link(hs, n + 1))]
    ensures Chain(mem', first', hs[..n] + hs[n + 1..]) && Canonical(hs[..n] + hs[n + 1..])
  {
    var r := hs[..n] + hs[n + 1..];
    forall i | 0 <= i < |r| ensures Linked(mem', r, i) {
      assert Linked(mem, hs, if i < n then i else i + 1);
    }
  }

  /** Changing the size and the successor of hole `n - 1`, which swallows the holes up to `j`. */
  lemma GrowChain(mem: map<nat, Header>, first: Option<nat>, hs: seq<Hole>, n: nat, j: nat, size: nat)
    requires Chain(mem, first, hs) && Canonical(hs) && 0 < n <= j <= |hs|
    ensures Chain(mem[hs[n - 1].addr := Header(size, Link(hs, j))], first,
                  hs[..n - 1] + [Hole(hs[n - 1].addr, size)] + hs[j..])
  {
    var mem' := mem[hs[n - 1].addr := Header(size, Link(hs, j))];
    var r := hs[..n - 1] + [Hole(hs[n - 1].addr, size)] + hs[j..];
    forall i | 0 <= i < |r| ensures Linked(mem', r, i) {
      if i < n - 1 {
        assert Linked(mem, hs, i);
      } else if i >= n {
        assert Linked(mem, hs, i - n + j);
      }
    }
  }

  /** Writing a new header at `addr` and linking it behind the cursor. */
  lemma LinkChain(mem: map<nat, Header>, first: Option<nat>, hs: seq<Hole>, n: nat, addr: nat, size: nat,
                  mem': map<nat, Header>, first': Option<nat>)
    requires Chain(mem, first, hs) && Canonical(hs) && n <= |hs|
    requires forall i :: 0 <= i < |hs| ==> hs[i].addr != addr
    requires var m := mem[addr := Header(size, Link(hs, n))];
             if n == 0 then first' == Some(addr) && mem' == m
             else
               && first' == first && hs[n - 1].addr in mem
               && mem' == m[hs[n - 1].addr := Header(hs[n - 1].size, Some(addr))]
    ensures Chain(mem', first', hs[..n] + [Hole(addr, size)] + hs[n..])
  {
    var r := hs[..n] + [Hole(addr, size)] + hs[n..];
    forall i | 0 <= i < |r| ensures Linked(mem', r, i) {
      if i < n {
        assert Linked(mem, hs, i);
      } else if i > n {
        assert Linked(mem, hs, i - 1);
      }
    }
  }

  // ----- What the branches of `deallocate` do to the free bytes -----

  /** Block and holes together have stayed the same. */
  ghost predicate SameBytes(before: seq<Hole>, sizeBefore: nat, hs: seq<Hole>, size: nat, addr: nat) {
    forall a: int :: Covers(hs, a) || addr <= a < addr + size <==> Covers(before, a) || addr <= a < addr + sizeBefore
  }

  lemma SameBytesSelf(hs: seq<Hole>, size: nat, addr: nat)
    ensures SameBytes(hs, size, hs, size, addr)
  {
  }

  lemma CoversInside(hs: seq<Hole>, i: nat, a: int)
    requires i < |hs|
    ensures Inside(hs[i], a) ==> Covers(hs, a)
  {
  }

  lemma NotCovered(hs: seq<Hole>, n: nat, addr: nat)
    requires Canonical(hs) && n <= |hs|
    requires n > 0 ==> End(hs[n - 1]) <= addr
    requires n < |hs| ==> addr < hs[n].addr || (n > 0 && End(hs[n - 1]) == addr)
    ensures !Covers(hs, addr)
    ensures forall i :: 0 <= i < |hs| ==> hs[i].addr != addr
    ensures forall i :: 0 <= i < n ==> End(hs[i]) <= addr
    ensures forall i :: n <= i < |hs| ==> addr < hs[i].addr
  {
    forall i | 0 <= i < n ensures End(hs[i]) <= addr {
      assert i < n - 1 ==> End(hs[i]) < hs[n - 1].addr;
    }
    forall i | n <= i < |hs| ensures addr < hs[i].addr {
      assert n < i ==> End(hs[n]) < hs[i].addr;
      assert n > 0 ==> End(hs[n - 1]) < hs[n].addr;
    }
  }

  lemma FreedTogether(before: seq<Hole>, sizeBefore: nat, hs: seq<Hole>, addr: nat, size: nat, r: seq<Hole>)
    requires SameBytes(before, sizeBefore, hs, size, addr) && Freed(hs, addr, size, r)
    ensures Freed(before, addr, sizeBefore, r)
  {
  }

  /** Hole `n - 1` takes in the block and, if `j > n`, hole `n`. */
  lemma GrowFrees(before: seq<Hole>, sizeBefore: nat, hs: seq<Hole>, n: nat, j: nat, addr: nat, size: nat)
    requires Canonical(hs) && 0 < n <= j <= |hs| && j <= n + 1 && End(hs[n - 1]) == addr
    requires j == n + 1 ==> addr + size == hs[n].addr
    requires j == n && n < |hs| ==> addr + size != hs[n].addr
    ensures var h := Hole(hs[n - 1].addr, hs[n - 1].size + size + if j > n then hs[n].size else 0);
            var r := hs[..n - 1] + [h] + hs[j..];
            && (Apart(hs, addr, size) && SameBytes(before, sizeBefore, hs, size, addr) ==>
                  Canonical(r) && Freed(before, addr, sizeBefore, r))
            && (HeadersAligned(hs) ==> HeadersAligned(r))
  {
    var h := Hole(hs[n - 1].addr, hs[n - 1].size + size + if j > n then hs[n].size else 0);
    if Apart(hs, addr, size) && SameBytes(before, sizeBefore, hs, size, addr) {
      forall k | j <= k < |hs| ensures End(h) < hs[k].addr {
        assert j == n + 1 ==> End(hs[n]) < hs[k].addr;
        assert j == n && k > n ==> End(hs[n]) < hs[k].addr;
      }
      forall a: int ensures Inside(h, a) <==> Covers(hs[n - 1..j], a) || addr <= a < addr + size {
        assert hs[n - 1..j] == if j > n then [hs[n - 1], hs[n]] else [hs[n - 1]];
        if Inside(h, a) {
          assert Inside(hs[n - 1], a) ==> Inside(hs[n - 1..j][0], a);
          assert j > n && Inside(hs[n], a) ==> Inside(hs[n - 1..j][1], a);
        }
      }
      ReplaceFrees(hs, n - 1, j, h, addr, size);
      FreedTogether(before, sizeBefore, hs, addr, size, hs[..n - 1] + [h] + hs[j..]);
    }
  }

  lemma LinkFrees(before: seq<Hole>, sizeBefore: nat, hs: seq<Hole>, n: nat, addr: nat, size: nat)
    requires Canonical(hs) && n <= |hs| && size >= MIN_SIZE && addr > 0
    requires n > 0 ==> End(hs[n - 1]) < addr
    requires n < |hs| ==> addr < hs[n].addr && addr + size != hs[n].addr
    ensures var r := hs[..n] + [Hole(addr, size)] + hs[n..];
            && (Apart(hs, addr, size) && SameBytes(before, sizeBefore, hs, size, addr) ==>
                  Canonical(r) && Freed(before, addr, sizeBefore, r))
            && (HeadersAligned(hs) && addr % HEADER_ALIGN == 0 ==> HeadersAligned(r))
  {
    if Apart(hs, addr, size) && SameBytes(before, sizeBefore, hs, size, addr) {
      var h := Hole(addr, size);
      forall k | 0 <= k < n ensures End(hs[k]) < h.addr {
        assert k < n - 1 ==> End(hs[k]) < hs[n - 1].addr;
      }
      forall k | n <= k < |hs| ensures End(h) < hs[k].addr {
        assert k > n ==> End(hs[n]) < hs[k].addr;
      }
      assert hs[n..n] == [];
      ReplaceFrees(hs, n, n, h, addr, size);
      FreedTogether(before, sizeBefore, hs, addr, size, hs[..n] + [h] + hs[n..]);
    }
  }

  /** Taking out the hole right behind the block and enlarging the block by it. */
  lemma MergeNext(before: seq<Hole>, sizeBefore: nat, hs: seq<Hole>, n: nat, addr: nat, size: nat)
    requires Canonical(hs) && n < |hs| && addr + size == hs[n].addr
    ensures var r := hs[..n] + hs[n + 1..];
            && (Apart(hs, addr, size) && SameBytes(before, sizeBefore, hs, size, addr) ==>
                  Apart(r, addr, size + hs[n].size) && SameBytes(before, sizeBefore, r, size + hs[n].size, addr))
            && (HeadersAligned(hs) ==> HeadersAligned(r))
            && (n < |r| ==> addr < r[n].addr)
  {
    var r := hs[..n] + hs[n + 1..];
    assert n < |r| ==> r[n] == hs[n + 1] && End(hs[n]) < hs[n + 1].addr;
    if Apart(hs, addr, size) && SameBytes(before, sizeBefore, hs, size, addr) {
      forall i | 0 <= i < |r| ensures addr + size + hs[n].size <= r[i].addr || End(r[i]) <= addr {
        if i < n {
          assert r[i] == hs[i] && End(hs[i]) < hs[n].addr;
        } else {
          assert r[i] == hs[i + 1] && End(hs[n]) < hs[i + 1].addr;
        }
      }
      forall a: int ensures Covers(hs, a) <==> Covers(r, a) || Inside(hs[n], a) {
        CoversReplaced(hs, n, n + 1, hs[n], a);
        assert hs[..n] + [hs[n]] + hs[n + 1..] == hs;
        CoversConcat(hs[..n], hs[n + 1..], a);
      }
    }
  }

  lemma CoversConcat(hs: seq<Hole>, hs': seq<Hole>, a: int)
    ensures Covers(hs + hs', a) <==> Covers(hs, a) || Covers(hs', a)
  {
    var r := hs + hs';
    if Covers(hs, a) {
      var i :| 0 <= i < |hs| && Inside(hs[i], a);
      assert Inside(r[i], a);
    }
    if Covers(hs', a) {
      var i :| 0 <= i < |hs'| && Inside(hs'[i], a);
      assert Inside(r[|hs| + i], a);
    }
    if Covers(r, a) {
      var i :| 0 <= i < |r| && Inside(r[i], a);
      assert if i < |hs| then Inside(hs[i], a) else Inside(hs'[i - |hs|], a);
    }
  }

  // ----- What the parts of `allocate_first_fit` do to the free bytes -----

  lemma ApartFromBytes(hs: seq<Hole>, addr: nat, size: nat)
    requires Canonical(hs) && size > 0 && forall a: int :: addr <= a < addr + size ==> !Covers(hs, a)
    ensures Apart(hs, addr, size) && !Covers(hs, addr)
  {
    forall i | 0 <= i < |hs| ensures addr + size <= hs[i].addr || End(hs[i]) <= addr {
      var a := if addr < hs[i].addr then hs[i].addr else addr;
      assert Inside(hs[i], a) ==> Covers(hs, a);
    }
  }

  /** Without hole `n`, exactly its bytes are not free any more. */
  lemma UnlinkCovers(hs: seq<Hole>, n: nat, a: int)
    requires Canonical(hs) && n < |hs|
    ensures Covers(hs[..n] + hs[n + 1..], a) <==> Covers(hs, a) && !Inside(hs[n], a)
  {
    CoversReplaced(hs, n, n + 1, hs[n], a);
    assert hs[..n] + [hs[n]] + hs[n + 1..] == hs;
    CoversConcat(hs[..n], hs[n + 1..], a);
    if Inside(hs[n], a) {
      forall i | 0 <= i < n ensures !Inside(hs[..n][i], a) {
        assert End(hs[i]) < hs[n].addr;
      }
      var tail := hs[n + 1..];
      forall i | 0 <= i < |tail| ensures !Inside(tail[i], a) {
        assert End(hs[n]) < hs[n + 1 + i].addr;
      }
    }
  }

  lemma UnlinkTakes(hs: seq<Hole>, n: nat, front: Option<Hole>, back: Option<Hole>)
    requires Canonical(hs) && n < |hs| && Canonical(hs[..n] + hs[n + 1..])
    requires front.Some? ==>
               front.value.addr == hs[n].addr && End(front.value) <= End(hs[n]) && front.value.size >= MIN_SIZE
    ensures forall a: int :: Covers(hs[..n] + hs[n + 1..], a) <==> Covers(hs, a) && !Inside(hs[n], a)
    ensures front.Some? ==> front.value.addr > 0 && Apart(hs[..n] + hs[n + 1..], front.value.addr, front.value.size)
                            && !Covers(hs[..n] + hs[n + 1..], front.value.addr)
    ensures back.Some? && back.value.addr >= hs[n].addr ==> back.value.addr > 0
  {
    forall a: int ensures Covers(hs[..n] + hs[n + 1..], a) <==> Covers(hs, a) && !Inside(hs[n], a) {
      UnlinkCovers(hs, n, a);
    }
    if front.Some? {
      ApartFromBytes(hs[..n] + hs[n + 1..], front.value.addr, front.value.size);
    }
  }

  lemma BackApart(hs0: seq<Hole>, hs1: seq<Hole>, hs2: seq<Hole>, n: nat, info: Hole, front: Option<Hole>,
                  back: Option<Hole>)
    requires n < |hs0| && Canonical(hs2)
    requires forall a: int :: Covers(hs1, a) <==> Covers(hs0, a) && !Inside(hs0[n], a)
    requires if front.Some? then Freed(hs1, front.value.addr, front.value.size, hs2)
             && End(front.value) == info.addr else hs2 == hs1
    requires back.Some? ==>
               back.value.addr == End(info) && End(back.value) == End(hs0[n])
               && back.value.size >= MIN_SIZE && hs0[n].addr <= info.addr
    ensures back.Some? ==> Apart(hs2, back.value.addr, back.value.size) && !Covers(hs2, back.value.addr)
  {
    if back.Some? {
      ApartFromBytes(hs2, back.value.addr, back.value.size);
    }
  }

  lemma SplitTakes(hs0: seq<Hole>, hs1: seq<Hole>, hs2: seq<Hole>, hs3: seq<Hole>, n: nat,
                   info: Hole, front: Option<Hole>, back: Option<Hole>)
    requires n < |hs0| && hs0[n].addr <= info.addr && End(info) <= End(hs0[n])
    requires forall a: int :: Covers(hs1, a) <==> Covers(hs0, a) && !Inside(hs0[n], a)
    requires if front.Some? then Freed(hs1, front.value.addr, front.value.size, hs2)
             && front.value.addr == hs0[n].addr && End(front.value) == info.addr
             else hs2 == hs1 && info.addr == hs0[n].addr
    requires if back.Some? then Freed(hs2, back.value.addr, back.value.size, hs3) && back.value.addr == End(info)
             && End(back.value) == End(hs0[n])
             else hs3 == hs2 && End(info) == End(hs0[n])
    ensures Taken(hs0, info.addr, info.size, hs3)
  {
    forall a: int | Inside(hs0[n], a) ensures Covers(hs0, a) {
      CoversInside(hs0, n, a);
    }
  }

  lemma AllocationAligned(hs: seq<Hole>, hs1: seq<Hole>, n: nat, layout: Layout)
    requires n < |hs| && hs1 == hs[..n] + hs[n + 1..] && layout.align > 0 && SplitHole(hs[n], layout).Some?
    ensures HeadersAligned(hs) ==> HeadersAligned(hs1) && hs[n].addr % HEADER_ALIGN == 0
    ensures HeadersAligned(hs) && IsPow2(layout.align) && layout.size % HEADER_ALIGN == 0 ==>
              var Allocation(info, front, back) := SplitHole(hs[n], layout).value;
              info.addr % HEADER_ALIGN == 0 && (back.Some? ==> back.value.addr % HEADER_ALIGN == 0)
  {
    if HeadersAligned(hs) && IsPow2(layout.align) && layout.size % HEADER_ALIGN == 0 {
      SplitAligned(hs[n], layout);
    }
  }
}
