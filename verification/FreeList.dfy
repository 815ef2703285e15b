/**
 The free list of address ranges of `src/mm/freelist.rs`, used for physical page frames and for virtual
 addresses.
 */
module FreeList {
  import opened Alignment
  import opened Options

  datatype Region = Region(start: nat, end: nat)

  predicate Inside(r: Region, a: int) {
    r.start <= a < r.end
  }

  /** Address `a` is free. */
  predicate Covers(rs: seq<Region>, a: int) {
    exists i :: 0 <= i < |rs| && Inside(rs[i], a)
  }

  /** Regions are nonempty, sorted and disjoint; neighbours may touch. */
  predicate Sorted(rs: seq<Region>) {
    && (forall i :: 0 <= i < |rs| ==> rs[i].start < rs[i].end)
    && (forall i, j :: 0 <= i < j < |rs| ==> rs[i].end <= rs[j].start)
  }

  /** No two regions touch. */
  predicate Coalesced(rs: seq<Region>) {
    forall i, j :: 0 <= i < j < |rs| ==> rs[i].end < rs[j].start
  }

  /** `rs'` has exactly the free addresses of `rs` outside `[start, end)`, which were free. */
  ghost predicate Taken(rs: seq<Region>, start: nat, end: nat, rs': seq<Region>) {
    && (forall a: int :: start <= a < end ==> Covers(rs, a))
    && (forall a: int :: Covers(rs', a) <==> Covers(rs, a) && !(start <= a < end))
  }

  /** `rs'` has exactly the free addresses of `rs` and those in `[start, end)`. */
  ghost predicate Given(rs: seq<Region>, start: nat, end: nat, rs': seq<Region>) {
    forall a: int :: Covers(rs', a) <==> Covers(rs, a) || start <= a < end
  }

  /** No address of the block is free. */
  predicate Apart(rs: seq<Region>, start: nat, end: nat) {
    forall i :: 0 <= i < |rs| ==> end <= rs[i].start || rs[i].end <= start
  }

  // ----- Replacing one region -----

  lemma CoversReplaced(rs: seq<Region>, i: nat, j: nat, mid: seq<Region>, a: int)
    requires i <= j <= |rs|
    ensures Covers(rs[..i] + mid + rs[j..], a) <==> Covers(rs[..i], a) || Covers(mid, a) || Covers(rs[j..], a)
  {
    CoversConcat(rs[..i] + mid, rs[j..], a);
    CoversConcat(rs[..i], mid, a);
  }

  lemma CoversConcat(rs: seq<Region>, rs': seq<Region>, a: int)
    ensures Covers(rs + rs', a) <==> Covers(rs, a) || Covers(rs', a)
  {
    var r := rs + rs';
    if Covers(rs, a) {
      var i :| 0 <= i < |rs| && Inside(rs[i], a);
      assert Inside(r[i], a);
    }
    if Covers(rs', a) {
      var i :| 0 <= i < |rs'| && Inside(rs'[i], a);
      assert Inside(r[|rs| + i], a);
    }
    if Covers(r, a) {
      var i :| 0 <= i < |r| && Inside(r[i], a);
      assert if i < |rs| then Inside(rs[i], a) else Inside(rs'[i - |rs|], a);
    }
  }

  /** Replacing region `k` by regions inside it takes away exactly the rest of it. */
  lemma ReplaceTakes(rs: seq<Region>, k: nat, mid: seq<Region>, start: nat, end: nat)
    requires Sorted(rs) && k < |rs| && Sorted(mid) && rs[k].start <= start <= end <= rs[k].end
    requires forall i :: 0 <= i < |mid| ==> rs[k].start <= mid[i].start && mid[i].end <= rs[k].end
    requires forall a: int :: Covers(mid, a) <==> Inside(rs[k], a) && !(start <= a < end)
    ensures Sorted(rs[..k] + mid + rs[k + 1..]) && Taken(rs, start, end, rs[..k] + mid + rs[k + 1..])
  {
    var r := rs[..k] + mid + rs[k + 1..];
    forall a: int
      ensures start <= a < end ==> Covers(rs, a)
      ensures Covers(r, a) <==> Covers(rs, a) && !(start <= a < end)
    {
      assert Inside(rs[k], a) ==> Covers(rs, a);
      CoversReplaced(rs, k, k + 1, mid, a);
      CoversReplaced(rs, k, k + 1, [rs[k]], a);
      assert rs[..k] + [rs[k]] + rs[k + 1..] == rs;
      OneRegion(rs[k], a);
      OnlyRegion(rs, k, a);
    }
  }

  lemma OneRegion(r: Region, a: int)
    ensures Covers([r], a) <==> Inside(r, a)
  {
    assert Inside(r, a) ==> Inside([r][0], a);
  }

  lemma OnlyRegion(rs: seq<Region>, k: nat, a: int)
    requires Sorted(rs) && k < |rs|
    ensures Inside(rs[k], a) ==> !Covers(rs[..k], a) && !Covers(rs[k + 1..], a)
  {
    if Inside(rs[k], a) {
      var tail := rs[k + 1..];
      forall i | 0 <= i < k ensures !Inside(rs[..k][i], a) {
        assert rs[i].end <= rs[k].start;
      }
      forall i | 0 <= i < |tail| ensures !Inside(tail[i], a) {
        assert rs[k].end <= rs[k + 1 + i].start;
      }
    }
  }

  // ----- Allocation -----

  /** What `allocate_address_for_node` makes of region `k`, if the block lies inside it. */
  function Carve(r: Region, start: nat, end: nat): seq<Region> {
    if r.start == start && r.end == end then []
    else if r.start < start && r.end == end then [Region(r.start, start)]
    else if r.start == start && r.end > end then [Region(end, r.end)]
    else [Region(r.start, start), Region(end, r.end)]
  }

  lemma CarveTakes(rs: seq<Region>, k: nat, start: nat, end: nat)
    requires Sorted(rs) && k < |rs| && rs[k].start <= start <= end <= rs[k].end
    ensures var r := rs[..k] + Carve(rs[k], start, end) + rs[k + 1..];
            Sorted(r) && Taken(rs, start, end, r)
  {
    var mid := Carve(rs[k], start, end);
    forall a: int ensures Covers(mid, a) <==> Inside(rs[k], a) && !(start <= a < end) {
      if |mid| == 1 {
        OneRegion(mid[0], a);
      } else if |mid| == 2 {
        assert mid == [mid[0]] + [mid[1]];
        CoversConcat([mid[0]], [mid[1]], a);
        OneRegion(mid[0], a);
        OneRegion(mid[1], a);
      }
    }
    ReplaceTakes(rs, k, mid, start, end);
  }

  // ----- Deallocation -----

  /** The position at which `deallocate` stops: the first region that touches or lies behind the block. */
  function Stop(rs: seq<Region>, start: nat, end: nat): (k: nat)
    ensures k <= |rs|
    ensures k < |rs| ==> rs[k].start == end || rs[k].end == start || end < rs[k].start
    ensures forall i :: 0 <= i < k ==> rs[i].start != end && rs[i].end != start && !(end < rs[i].start)
  {
    if rs == [] then 0
    else if rs[0].start == end || rs[0].end == start || end < rs[0].start then 0
    else 1 + Stop(rs[1..], start, end)
  }

  /** The list after `deallocate`.  The check for reuniting with the next region reads the current node
      twice, so it never succeeds and a region is only ever extended on one side. */
  function Deallocated(rs: seq<Region>, start: nat, end: nat): seq<Region> {
    var k := Stop(rs, start, end);
    if k == |rs| then rs + [Region(start, end)]
    else if rs[k].start == end then rs[k := Region(start, rs[k].end)]
    else if rs[k].end == start then rs[k := Region(rs[k].start, end)]
    else rs[..k] + [Region(start, end)] + rs[k..]
  }

  /** Before the stop all regions end before the block, from there on they start at or behind its end. */
  lemma StopSplits(rs: seq<Region>, start: nat, end: nat)
    requires Sorted(rs) && start < end && Apart(rs, start, end)
    ensures var k := Stop(rs, start, end);
            && (forall i :: 0 <= i < k ==> rs[i].end < start)
            && (forall i :: k < i < |rs| ==> end <= rs[i].start)
            && (k < |rs| ==> rs[k].end == start || end <= rs[k].start)
            && (k < |rs| && rs[k].start != end && rs[k].end != start ==> forall i :: k <= i < |rs| ==>
                end < rs[i].start)
  {
    var k := Stop(rs, start, end);
    forall i | k < i < |rs| ensures end <= rs[i].start {
      assert rs[k].end <= rs[i].start;
    }
  }

  lemma InsertSorted(rs: seq<Region>, k: nat, start: nat, end: nat)
    requires Sorted(rs) && start < end && k <= |rs|
    requires forall i :: 0 <= i < k ==> rs[i].end <= start
    requires forall i :: k <= i < |rs| ==> end <= rs[i].start
    ensures Sorted(rs[..k] + [Region(start, end)] + rs[k..])
  {
    var r := rs[..k] + [Region(start, end)] + rs[k..];
    assert forall i :: 0 <= i < |r| ==> r[i] == if i < k then rs[i] else if i == k then Region(start, end)
           else rs[i - 1];
  }

  /** A region of its own, between regions that end before the block and regions that start behind it. */
  lemma InsertGives(rs: seq<Region>, k: nat, start: nat, end: nat)
    requires Sorted(rs) && start < end && k <= |rs|
    requires forall i :: 0 <= i < k ==> rs[i].end <= start
    requires forall i :: k <= i < |rs| ==> end <= rs[i].start
    ensures var r := rs[..k] + [Region(start, end)] + rs[k..]; Sorted(r) && Given(rs, start, end, r)
  {
    InsertSorted(rs, k, start, end);
    hide Covers;
    hide Sorted;
    var r := rs[..k] + [Region(start, end)] + rs[k..];
    assert rs == rs[..k] + rs[k..];
    forall a: int ensures Covers(r, a) <==> Covers(rs, a) || start <= a < end {
      CoversReplaced(rs, k, k, [Region(start, end)], a);
      CoversConcat(rs[..k], rs[k..], a);
      OneRegion(Region(start, end), a);
    }
  }

  /** Region `k` is extended over the block that touches it. */
  lemma ExtendGives(rs: seq<Region>, k: nat, x: Region, start: nat, end: nat)
    requires Sorted(rs) && start < end && k < |rs|
    requires (rs[k].start == end && x == Region(start, rs[k].end))
             || (rs[k].end == start && x == Region(rs[k].start, end))
    requires forall i :: 0 <= i < k ==> rs[i].end <= x.start
    requires forall i :: k < i < |rs| ==> x.end <= rs[i].start
    ensures Sorted(rs[k := x]) && Given(rs, start, end, rs[k := x])
  {
    hide Covers;
    var r := rs[k := x];
    assert r == rs[..k] + [x] + rs[k + 1..];
    assert rs == rs[..k] + [rs[k]] + rs[k + 1..];
    forall a: int ensures Covers(r, a) <==> Covers(rs, a) || start <= a < end {
      CoversReplaced(rs, k, k + 1, [x], a);
      CoversReplaced(rs, k, k + 1, [rs[k]], a);
      OneRegion(x, a);
      OneRegion(rs[k], a);
    }
  }

  /** `deallocate` returns exactly the freed block to the free addresses and keeps the list sorted. */
  lemma DeallocatedGives(rs: seq<Region>, start: nat, end: nat)
    requires Sorted(rs) && start < end && Apart(rs, start, end)
    ensures Sorted(Deallocated(rs, start, end)) && Given(rs, start, end, Deallocated(rs, start, end))
  {
    StopSplits(rs, start, end);
    var k := Stop(rs, start, end);
    if k < |rs| && rs[k].start == end {
      forall i | k < i < |rs| ensures rs[k].end <= rs[i].start {}
      ExtendGives(rs, k, Region(start, rs[k].end), start, end);
    } else if k < |rs| && rs[k].end == start {
      ExtendGives(rs, k, Region(rs[k].start, end), start, end);
    } else {
      InsertGives(rs, k, start, end);
      assert k == |rs| ==> rs[..k] + [Region(start, end)] + rs[k..] == rs + [Region(start, end)];
    }
  }

  /** Both neighbours of the block are free: a region ends where it starts and a region starts where it ends. */
  predicate FillsGap(rs: seq<Region>, start: nat, end: nat) {
    exists i, j :: 0 <= i < |rs| && 0 <= j < |rs| && rs[i].end == start && rs[j].start == end
  }

  /** A list without touching regions stays so exactly if the freed block does not fill the gap between two of them. */
  lemma CoalescedUnlessGapFilled(rs: seq<Region>, start: nat, end: nat)
    requires Sorted(rs) && start < end && Apart(rs, start, end) && Coalesced(rs)
    ensures Coalesced(Deallocated(rs, start, end)) <==> !FillsGap(rs, start, end)
  {
    StopSplits(rs, start, end);
    var k := Stop(rs, start, end);
    hide Stop;
    if FillsGap(rs, start, end) {
      var i, j :| 0 <= i < |rs| && 0 <= j < |rs| && rs[i].end == start && rs[j].start == end;
      GapTouches(rs, start, end, i, j);
    } else if k < |rs| && rs[k].start == end {
      var r := rs[k := Region(start, rs[k].end)];
      forall i, j | 0 <= i < j < |r| ensures r[i].end < r[j].start {}
    } else if k < |rs| && rs[k].end == start {
      var r := rs[k := Region(rs[k].start, end)];
      forall i, j | 0 <= i < j < |r| ensures r[i].end < r[j].start {
        assert i == k ==> rs[j].start != end;
      }
    } else {
      InsertCoalesced(rs, k, start, end);
      assert k == |rs| ==> rs[..k] + [Region(start, end)] + rs[k..] == rs + [Region(start, end)];
    }
  }

  lemma GapTouches(rs: seq<Region>, start: nat, end: nat, i: nat, j: nat)
    requires Sorted(rs) && start < end && Apart(rs, start, end)
    requires i < |rs| && j < |rs| && rs[i].end == start && rs[j].start == end
    ensures !Coalesced(Deallocated(rs, start, end))
  {
    StopSplits(rs, start, end);
    assert rs[i].start < rs[i].end && rs[j].start < rs[j].end;
    assert Stop(rs, start, end) == i < j;
    hide Sorted;
    hide Apart;
    hide Stop;
    var r := Deallocated(rs, start, end);
    assert r[i].end == r[j].start;
  }

  lemma InsertCoalesced(rs: seq<Region>, k: nat, start: nat, end: nat)
    requires Coalesced(rs) && k <= |rs|
    requires forall i :: 0 <= i < k ==> rs[i].end < start
    requires forall i :: k <= i < |rs| ==> end < rs[i].start
    ensures Coalesced(rs[..k] + [Region(start, end)] + rs[k..])
  {
  }

  /** Freeing the middle block between two free ones leaves two regions that touch, and an allocation that
      needs both of them fails. */
  lemma GapExample()
    ensures var rs := [Region(0, 4096), Region(8192, 12288)];
            && Coalesced(rs) && Sorted(rs) && Apart(rs, 4096, 8192)
            && Deallocated(rs, 4096, 8192) == [Region(0, 8192), Region(8192, 12288)]
            && !Coalesced(Deallocated(rs, 4096, 8192))
            && (forall i :: 0 <= i < 2 ==> var r := Deallocated(rs, 4096, 8192)[i]; r.end - r.start < 12288)
  {
    var rs := [Region(0, 4096), Region(8192, 12288)];
    assert Stop(rs, 4096, 8192) == 0;
    var r := Deallocated(rs, 4096, 8192);
    assert r == [Region(0, 8192), Region(8192, 12288)];
    assert r[0].end == r[1].start;
  }

  // ----- The free list object -----

  const PAGE := 4096

  /** All regions start on a page boundary. */
  predicate PageStarts(rs: seq<Region>) {
    forall i :: 0 <= i < |rs| ==> rs[i].start % PAGE == 0
  }

  /** The block starts where the first region that holds `size` bytes starts. */
  predicate FirstFit(rs: seq<Region>, size: nat, p: nat) {
    exists k :: 0 <= k < |rs| && p == rs[k].start && p + size <= rs[k].end
             && forall i :: 0 <= i < k ==> rs[i].start + size > rs[i].end
  }

  /** The block starts at the first aligned address of the first region that holds it from there. */
  predicate FirstAlignedFit(rs: seq<Region>, size: nat, alignment: nat, p: nat)
    requires alignment > 0
  {
    exists k :: 0 <= k < |rs| && p == AlignUp(rs[k].start, alignment) && p + size <= rs[k].end
             && forall i :: 0 <= i < k ==> AlignUp(rs[i].start, alignment) + size > rs[i].end
  }

  lemma PageSum(a: nat, b: nat)
    requires a % PAGE == 0 && b % PAGE == 0
    ensures (a + b) % PAGE == 0
  {
    assert a + b == (a / PAGE + b / PAGE) * PAGE;
    MultipleMod(a / PAGE + b / PAGE, PAGE);
  }

  class FreeList {
    var list: seq<Region>

    ghost predicate Valid()
      reads this
    {
      Sorted(list)
    }

    constructor (regions: seq<Region>)
      requires Sorted(regions)
      ensures Valid() && list == regions
    {
      list := regions;
    }

    /** First fit.  Exactly the returned block stops being free; it fails only if no single region is large enough. */
    method Allocate(size: nat) returns (r: Option<nat>)
      requires Valid()
      modifies this
      ensures Valid()
      ensures r.None? <==> forall i :: 0 <= i < |old(list)| ==> old(list)[i].start + size > old(list)[i].end
      ensures r.None? ==> list == old(list)
      ensures r.Some? ==> FirstFit(old(list), size, r.value) && Taken(old(list), r.value, r.value + size, list)
      ensures r.Some? && PageStarts(old(list)) && size % PAGE == 0 ==> PageStarts(list) && r.value % PAGE == 0
    {
      hide Taken;
      hide Sorted;
      for i := 0 to |list|
        invariant list == old(list)
        invariant forall j :: 0 <= j < i ==> list[j].start + size > list[j].end
      {
        NonemptyRegion(list, i);
        var start, regionSize := list[i].start, list[i].end - list[i].start;
        if regionSize > size {
          ShrinkTakes(list, i, size);
          list := list[i := list[i].(start := start + size)];
          return Some(start);
        } else if regionSize == size {
          RemoveTakes(list, i);
          list := list[..i] + list[i + 1..];
          return Some(start);
        }
      }
      return None;
    }

    /** `allocate_address_for_node`: takes the block out of region `k`, if it lies inside. */
    method AllocateAddress(k: nat, address: nat, end: nat) returns (ok: bool)
      requires Valid() && k < |list| && address <= end
      modifies this
      ensures Valid()
      ensures ok <==> old(list)[k].start <= address && end <= old(list)[k].end
      ensures ok ==> list == old(list)[..k] + Carve(old(list)[k], address, end) + old(list)[k + 1..]
      ensures ok ==> Taken(old(list), address, end, list)
      ensures !ok ==> list == old(list)
    {
      var region := list[k];
      if region.start <= address && end <= region.end {
        CarveTakes(list, k, address, end);
      }
      if region.start == address && region.end == end {
        list := list[..k] + list[k + 1..];
        return true;
      } else if region.start < address && region.end == end {
        list := list[k := region.(end := address)];
        return true;
      } else if region.start == address && region.end > end {
        list := list[k := region.(start := end)];
        return true;
      } else if region.start < address && region.end > end {
        list := list[k := region.(end := address)];
        list := list[..k + 1] + [Region(end, region.end)] + list[k + 1..];
        return true;
      }
      return false;
    }

    method AllocateAligned(size: nat, alignment: nat) returns (r: Option<nat>)
      requires Valid() && alignment > 0
      modifies this
      ensures Valid()
      ensures r.None? <==> forall i :: 0 <= i < |old(list)| ==>
              AlignUp(old(list)[i].start, alignment) + size > old(list)[i].end
      ensures r.None? ==> list == old(list)
      ensures r.Some? ==> FirstAlignedFit(old(list), size, alignment, r.value) && r.value % alignment == 0
      ensures r.Some? ==> Taken(old(list), r.value, r.value + size, list)
      ensures r.Some? && PageStarts(old(list)) && size % PAGE == 0 && r.value % PAGE == 0 ==> PageStarts(list)
    {
      for i := 0 to |list|
        invariant list == old(list)
        invariant forall j :: 0 <= j < i ==> AlignUp(list[j].start, alignment) + size > list[j].end
      {
        var address := AlignUp(list[i].start, alignment);
        var ok := AllocateAddress(i, address, address + size);
        if ok {
          if size % PAGE == 0 && address % PAGE == 0 {
            PageSum(address, size);
          }
          return Some(address);
        }
      }
      return None;
    }

    method Reserve(address: nat, size: nat) returns (ok: bool)
      requires Valid()
      modifies this
      ensures Valid()
      ensures ok <==> exists k ::
                0 <= k < |old(list)| && old(list)[k].start <= address && address + size <= old(list)[k].end
      ensures ok ==> Taken(old(list), address, address + size, list)
      ensures !ok ==> list == old(list)
    {
      for i := 0 to |list|
        invariant list == old(list)
        invariant forall j :: 0 <= j < i ==> !(list[j].start <= address && address + size <= list[j].end)
      {
        ok := AllocateAddress(i, address, address + size);
        if ok {
          return;
        }
      }
      return false;
    }

    /** Returns a block.  For a nonempty block without free addresses exactly that block becomes free again. */
    method Deallocate(address: nat, size: nat)
      requires Valid() && size > 0
      modifies this
      ensures list == Deallocated(old(list), address, address + size)
      ensures Apart(old(list), address, address + size) ==> Valid() && Given(old(list), address, address + size, list)
      ensures PageStarts(old(list)) && address % PAGE == 0 ==> PageStarts(list)
    {
      var end := address + size;
      ghost var k := Stop(list, address, end);
      if Apart(list, address, end) {
        DeallocatedGives(list, address, end);
      }
      var i := 0;
      while i < |list|
        invariant 0 <= i <= k && list == old(list)
      {
        if list[i].start == end {
          list := list[i := list[i].(start := address)];
          return;
        } else if list[i].end == address {
          // Whether there is a next node or not, the values compared are those of this node.
          assert list[i].start != end;
          list := list[i := list[i].(end := end)];
          return;
        } else if end < list[i].start {
          list := list[..i] + [Region(address, end)] + list[i..];
          return;
        }
        i := i + 1;
      }
      list := list + [Region(address, end)];
    }
  }

  lemma NonemptyRegion(rs: seq<Region>, k: nat)
    requires Sorted(rs) && k < |rs|
    ensures rs[k].start < rs[k].end
  {
  }

  /** Taking the first `size` bytes of a larger region. */
  lemma ShrinkTakes(rs: seq<Region>, k: nat, size: nat)
    requires Sorted(rs) && k < |rs| && rs[k].start + size < rs[k].end
    ensures var r := rs[k := Region(rs[k].start + size, rs[k].end)];
            && Sorted(r) && Taken(rs, rs[k].start, rs[k].start + size, r)
            && (PageStarts(rs) && size % PAGE == 0 ==> PageStarts(r))
  {
    var r := rs[k := Region(rs[k].start + size, rs[k].end)];
    if PageStarts(rs) && size % PAGE == 0 {
      PageSum(rs[k].start, size);
    }
    if size == 0 {
      assert r == rs;
    } else {
      CarveTakes(rs, k, rs[k].start, rs[k].start + size);
      assert r == rs[..k] + [Region(rs[k].start + size, rs[k].end)] + rs[k + 1..];
    }
  }

  /** Taking a whole region. */
  lemma RemoveTakes(rs: seq<Region>, k: nat)
    requires Sorted(rs) && k < |rs|
    ensures var r := rs[..k] + rs[k + 1..];
            && Sorted(r) && Taken(rs, rs[k].start, rs[k].end, r) && (PageStarts(rs) ==> PageStarts(r))
  {
    CarveTakes(rs, k, rs[k].start, rs[k].end);
    assert rs[..k] + [] + rs[k + 1..] == rs[..k] + rs[k + 1..];
  }
}
