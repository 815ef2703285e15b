/**
 The kernel heap of `src/mm/allocator.rs`: a bootstrap area before `init`, a hole list afterwards.
 */
module Heap {
  import opened Alignment
  import opened Holes
  import opened HoleMemory
  import opened Options

  const BOOTSTRAP_HEAP_SIZE := 4096

  /** `n` is the least size of a block for `size` bytes: at least 64, the size of a header, and a multiple of 8. */
  ghost predicate LeastSize(size: nat, n: nat) {
    && n >= 64 && n >= size && n % 8 == 0
    && forall m: nat :: m >= 64 && m >= size && m % 8 == 0 ==> n <= m
  }

  /** The size that is really allocated and freed for a layout. */
  function Rounded(size: nat): (r: nat)
    ensures LeastSize(size, r)
    ensures r >= MIN_SIZE && r >= size && r % HEADER_ALIGN == 0
  {
    RoundedLeast(size);
    AlignUp(if size < MIN_SIZE then MIN_SIZE else size, HEADER_ALIGN)
  }

  lemma RoundedLeast(size: nat)
    ensures LeastSize(size, AlignUp(if size < MIN_SIZE then MIN_SIZE else size, HEADER_ALIGN))
  {
    var s := if size < MIN_SIZE then MIN_SIZE else size;
    forall m: nat | m >= 64 && m >= size && m % 8 == 0 ensures AlignUp(s, HEADER_ALIGN) <= m {
      AlignUpLeast(s, HEADER_ALIGN, m);
    }
    hide AlignUp;
  }

  /** No hole has a place for the block. */
  ghost predicate NoPlace(hs: seq<Hole>, size: nat, align: nat)
    requires align > 0
  {
    forall i, p: nat :: 0 <= i < |hs| ==> !Place(hs[i], size, align, p)
  }

  /** `p` is the place of the block in the first hole that has one. */
  ghost predicate FirstPlace(hs: seq<Hole>, size: nat, align: nat, p: nat)
    requires align > 0
  {
    exists i :: 0 <= i < |hs| && Place(hs[i], size, align, p) && NoPlace(hs[..i], size, align)
  }

  lemma NoSplitNoPlace(hs: seq<Hole>, layout: Layout)
    requires layout.align > 0 && forall i :: 0 <= i < |hs| ==> SplitHole(hs[i], layout).None?
    ensures NoPlace(hs, layout.size, layout.align)
  {
    forall i, p: nat | 0 <= i < |hs| ensures !Place(hs[i], layout.size, layout.align, p) {
      SplitFindsPlace(hs[i], layout, p);
    }
  }

  lemma FirstFitIsFirstPlace(hs: seq<Hole>, layout: Layout, p: nat)
    requires layout.align > 0 && FirstFit(hs, layout, p)
    ensures FirstPlace(hs, layout.size, layout.align, p)
  {
    var i :| 0 <= i < |hs| && SplitHole(hs[i], layout).Some? && p == SplitHole(hs[i], layout).value.info.addr
             && forall j :: 0 <= j < i ==> SplitHole(hs[j], layout).None?;
    SplitFindsPlace(hs[i], layout, p);
    NoSplitNoPlace(hs[..i], layout);
  }

  lemma PlaceFound(hs: seq<Hole>, layout: Layout, p: nat)
    requires layout.align > 0 && FirstPlace(hs, layout.size, layout.align, p)
    ensures !NoPlace(hs, layout.size, layout.align)
  {
  }

  lemma OnlyRounded(size: nat)
    ensures forall n :: LeastSize(size, n) <==> n == Rounded(size)
  {
    forall n | LeastSize(size, n) ensures n == Rounded(size) {
      LeastSizeUnique(size, n, Rounded(size));
    }
  }

  lemma LeastSizeUnique(size: nat, m: nat, n: nat)
    requires LeastSize(size, m) && LeastSize(size, n)
    ensures m == n
  {
  }

  // ----- The state of an initialised heap -----

  /** `live` maps the address of every block that was allocated and not yet freed to its size. */
  datatype State = State(bottom: nat, size: nat, holes: seq<Hole>, live: map<nat, nat>)

  predicate InBlock(live: map<nat, nat>, p: nat, a: int) {
    p in live && p <= a < p + live[p]
  }

  ghost predicate InUse(live: map<nat, nat>, a: int) {
    exists p :: InBlock(live, p, a)
  }

  /** Holes and live blocks partition the heap, and the hole list is canonical. */
  ghost predicate Inv(s: State) {
    && s.bottom > 0 && Canonical(s.holes)
    && (forall p :: p in s.live ==> s.live[p] >= MIN_SIZE)
    && (forall p, q, a: int :: InBlock(s.live, p, a) && InBlock(s.live, q, a) ==> p == q)
    && (forall a: int :: s.bottom <= a < s.bottom + s.size <==> Covers(s.holes, a) || InUse(s.live, a))
    && (forall a: int :: !(Covers(s.holes, a) && InUse(s.live, a)))
  }

  /** The heap, its holes and its blocks are aligned for the headers of holes. */
  predicate Aligned(s: State) {
    && s.bottom % HEADER_ALIGN == 0 && s.size % HEADER_ALIGN == 0 && HeadersAligned(s.holes)
    && forall p :: p in s.live ==> p % HEADER_ALIGN == 0
  }

  datatype Op = Alloc(layout: Layout, p: nat) | Free(p: nat) | Extend(bytes: nat)

  /** Only an extension can bring the heap out of alignment. */
  predicate Whole(op: Op) {
    op.Extend? ==> op.bytes % HEADER_ALIGN == 0
  }

  /** One successful call.  The new hole list is any canonical one with the right free bytes; there is only one. */
  ghost predicate Step(s: State, op: Op, s': State) {
    && Canonical(s'.holes) && s'.bottom == s.bottom && (Aligned(s) && Whole(op) ==> Aligned(s'))
    && match op
       case Alloc(layout, p) =>
         && s'.size == s.size && s'.live == s.live[p := Rounded(layout.size)]
         && Taken(s.holes, p, Rounded(layout.size), s'.holes)
       case Free(p) =>
         && p in s.live && s'.size == s.size && s'.live == s.live - {p}
         && Freed(s.holes, p, s.live[p], s'.holes)
       case Extend(bytes) =>
         && bytes >= MIN_SIZE && s'.size == s.size + bytes && s'.live == s.live
         && Freed(s.holes, s.bottom + s.size, bytes, s'.holes)
  }

  lemma InitInv(bottom: nat, size: nat)
    requires bottom > 0 && size >= MIN_SIZE
    ensures Inv(State(bottom, size, [Hole(bottom, size)], map[]))
  {
    var hs := [Hole(bottom, size)];
    forall a: int ensures bottom <= a < bottom + size <==> Covers(hs, a) {
      assert bottom <= a < bottom + size ==> Inside(hs[0], a);
    }
  }

  lemma AllocInUse(live: map<nat, nat>, p: nat, size: nat, a: int)
    requires p !in live
    ensures InUse(live[p := size], a) <==> InUse(live, a) || p <= a < p + size
  {
    if InUse(live, a) {
      var q :| InBlock(live, q, a);
      assert InBlock(live[p := size], q, a);
    }
    if p <= a < p + size {
      assert InBlock(live[p := size], p, a);
    }
    if InUse(live[p := size], a) {
      var q :| InBlock(live[p := size], q, a);
      assert q != p ==> InBlock(live, q, a);
    }
  }

  /** A block that is free cannot be live. */
  lemma FreeIsNotLive(s: State, p: nat)
    requires Inv(s) && Covers(s.holes, p)
    ensures p !in s.live
  {
    assert p in s.live ==> InBlock(s.live, p, p) && InUse(s.live, p);
  }

  lemma AllocKeeps(s: State, layout: Layout, p: nat, s': State)
    requires Inv(s) && Step(s, Alloc(layout, p), s')
    ensures p !in s.live && Inv(s')
  {
    FreeIsNotLive(s, p);
    var size := Rounded(layout.size);
    forall a: int
      ensures s'.bottom <= a < s'.bottom + s'.size <==> Covers(s'.holes, a) || InUse(s'.live, a)
      ensures !(Covers(s'.holes, a) && InUse(s'.live, a))
    {
      AllocInUse(s.live, p, size, a);
      assert s.bottom <= a < s.bottom + s.size <==> Covers(s.holes, a) || InUse(s.live, a);
      assert Covers(s'.holes, a) <==> Covers(s.holes, a) && !(p <= a < p + size);
    }
    forall q, r, a: int | InBlock(s'.live, q, a) && InBlock(s'.live, r, a) ensures q == r {
      assert q != p ==> InBlock(s.live, q, a) && InUse(s.live, a);
      assert r != p ==> InBlock(s.live, r, a) && InUse(s.live, a);
    }
  }

  lemma FreeKeeps(s: State, p: nat, s': State)
    requires Inv(s) && Step(s, Free(p), s')
    ensures Inv(s')
  {
    var size := s.live[p];
    assert s.live == s'.live[p := size];
    forall q, r, a: int | InBlock(s'.live, q, a) && InBlock(s'.live, r, a) ensures q == r {
      assert InBlock(s.live, q, a) && InBlock(s.live, r, a);
    }
    forall a: int
      ensures s'.bottom <= a < s'.bottom + s'.size <==> Covers(s'.holes, a) || InUse(s'.live, a)
      ensures !(Covers(s'.holes, a) && InUse(s'.live, a))
    {
      AllocInUse(s'.live, p, size, a);
      if p <= a < p + size {
        FreedIsUnused(s, p, a);
      }
      assert s.bottom <= a < s.bottom + s.size <==> Covers(s.holes, a) || InUse(s.live, a);
      assert Covers(s'.holes, a) <==> Covers(s.holes, a) || p <= a < p + size;
    }
  }

  lemma FreedIsUnused(s: State, p: nat, a: int)
    requires Inv(s) && p in s.live && p <= a < p + s.live[p]
    ensures !InUse(s.live - {p}, a)
  {
    assert InBlock(s.live, p, a);
    forall q ensures !InBlock(s.live - {p}, q, a) {
      assert InBlock(s.live - {p}, q, a) ==> InBlock(s.live, q, a);
    }
  }

  lemma ExtendKeeps(s: State, bytes: nat, s': State)
    requires Inv(s) && Step(s, Extend(bytes), s')
    ensures Inv(s')
  {
  }

  lemma StepKeeps(s: State, op: Op, s': State)
    requires Inv(s) && Step(s, op, s')
    ensures Inv(s')
  {
    match op
    case Alloc(layout, p) => AllocKeeps(s, layout, p, s');
    case Free(p) => FreeKeeps(s, p, s');
    case Extend(bytes) => ExtendKeeps(s, bytes, s');
  }

  // ----- Runs -----

  ghost predicate IsRun(states: seq<State>, ops: seq<Op>) {
    && |states| == |ops| + 1
    && (forall i :: 0 <= i < |ops| ==> Step(states[i], ops[i], states[i + 1]))
  }

  lemma {:induction false} RunKeeps(states: seq<State>, ops: seq<Op>, n: nat)
    requires IsRun(states, ops) && Inv(states[0]) && n <= |ops|
    ensures Inv(states[n])
    ensures Aligned(states[0]) && (forall i :: 0 <= i < n ==> Whole(ops[i])) ==> Aligned(states[n])
  {
    if n > 0 {
      RunKeeps(states, ops, n - 1);
      StepKeeps(states[n - 1], ops[n - 1], states[n]);
    }
  }

  /** In every reachable state the hole list is canonical and determined by the bytes in use. */
  lemma HoleListDetermined(states: seq<State>, ops: seq<Op>, m: nat, n: nat)
    requires IsRun(states, ops) && Inv(states[0]) && m <= |ops| && n <= |ops|
    requires states[m].live == states[n].live && states[m].size == states[n].size
             && states[m].bottom == states[n].bottom
    ensures Canonical(states[n].holes) && states[m].holes == states[n].holes
  {
    RunKeeps(states, ops, m);
    RunKeeps(states, ops, n);
    var s, s' := states[m], states[n];
    forall a: int ensures Covers(s.holes, a) <==> Covers(s'.holes, a) {
      assert s.bottom <= a < s.bottom + s.size <==> Covers(s.holes, a) || InUse(s.live, a);
      assert s'.bottom <= a < s'.bottom + s'.size <==> Covers(s'.holes, a) || InUse(s'.live, a);
    }
    CanonicalUnique(s.holes, s'.holes);
  }

  /** Once all blocks are freed, in whatever order, the heap is a single hole again. */
  lemma AllFreedIsOneHole(states: seq<State>, ops: seq<Op>)
    requires IsRun(states, ops) && Inv(states[0])
    ensures var s := states[|ops|];
            s.live == map[] && s.size >= MIN_SIZE ==> s.holes == [Hole(s.bottom, s.size)]
  {
    RunKeeps(states, ops, |ops|);
    var s := states[|ops|];
    if s.live == map[] && s.size >= MIN_SIZE {
      var whole := [Hole(s.bottom, s.size)];
      forall a: int ensures Covers(s.holes, a) <==> Covers(whole, a) {
        assert s.bottom <= a < s.bottom + s.size ==> Inside(whole[0], a);
      }
      CanonicalUnique(s.holes, whole);
    }
  }

  /** Freeing a live block never trips the assertion of `deallocate`. */
  lemma LiveBlocksCanBeFreed(s: State, p: nat)
    requires Inv(s) && p in s.live
    ensures p > 0 && !Covers(s.holes, p) && Apart(s.holes, p, s.live[p])
  {
    assert InBlock(s.live, p, p);
    assert InUse(s.live, p);
    forall a: int | p <= a < p + s.live[p] ensures !Covers(s.holes, a) {
      assert InBlock(s.live, p, a);
    }
    ApartFromBytes(s.holes, p, s.live[p]);
  }

  /** The memory behind the heap can be freed into it. */
  lemma TopCanBeFreed(s: State, bytes: nat)
    requires Inv(s)
    ensures !Covers(s.holes, s.bottom + s.size) && Apart(s.holes, s.bottom + s.size, bytes)
    ensures s.bottom + s.size > 0
  {
    forall i | 0 <= i < |s.holes| ensures End(s.holes[i]) <= s.bottom + s.size {
      assert Inside(s.holes[i], End(s.holes[i]) - 1) && Covers(s.holes, End(s.holes[i]) - 1);
    }
  }

  // ----- The heap object -----

  datatype AllocResult = Ok(address: nat) | Err | Panic

  class Heap {
    const kernelEnd: nat     // `kernel_end_address()`; the bootstrap area lies below it
    const bootstrap: nat     // address of `first_block`
    var index: nat
    var bottom: nat
    var size: nat
    var holes: HoleList
    ghost var live: map<nat, nat>

    ghost function View(): State
      reads this, holes
    {
      State(bottom, size, holes.holes, live)
    }

    ghost predicate Valid()
      reads this, holes
    {
      && bootstrap + BOOTSTRAP_HEAP_SIZE <= kernelEnd && index % MIN_SIZE == 0
      && (bottom != 0 ==> bottom >= kernelEnd && holes.Valid() && Inv(View()))
    }

    /** `Heap::empty` */
    constructor (bootstrap: nat, kernelEnd: nat)
      requires bootstrap + BOOTSTRAP_HEAP_SIZE <= kernelEnd
      ensures Valid() && bottom == 0 && size == 0 && index == 0 && live == map[]
      ensures this.bootstrap == bootstrap && this.kernelEnd == kernelEnd
    {
      this.kernelEnd := kernelEnd;
      this.bootstrap := bootstrap;
      index := 0;
      bottom := 0;
      size := 0;
      holes := new HoleList.Empty();
      live := map[];
    }

    /** `init`: the memory from `heapBottom` on becomes one hole. */
    method Init(heapBottom: nat, heapSize: nat)
      requires Valid() && bottom == 0
      requires kernelEnd <= heapBottom && heapBottom > 0 && heapSize >= MIN_SIZE
      modifies this
      ensures Valid() && fresh(holes) && index == old(index)
      ensures View() == State(heapBottom, heapSize, [Hole(heapBottom, heapSize)], map[])
      ensures Aligned(View()) <==> heapBottom % HEADER_ALIGN == 0 && heapSize % HEADER_ALIGN == 0
    {
      bottom := heapBottom;
      size := heapSize;
      holes := new HoleList(heapBottom, heapSize);
      live := map[];
      InitInv(heapBottom, heapSize);
    }

    /** `alloc_bootstrap`: a bump allocator.  Blocks are 64-aligned within the area, lie inside it and above
        all earlier ones; the alignment of the layout is not looked at.  Once an allocation has failed, the
        next one indexes past the end of the area. */
    method AllocBootstrap(layout: Layout) returns (r: AllocResult)
      requires Valid()
      modifies this`index
      ensures Valid()
      ensures r.Panic? <==> old(index) >= 4096
      ensures r.Panic? ==> index == old(index)
      ensures !r.Panic? ==> index % 64 == 0 && old(index) + layout.size <= index < old(index) + layout.size + 64
      ensures !r.Panic? ==> (r.Err? <==> index >= 4096)
      ensures r.Ok? ==> r.address == bootstrap + old(index) && old(index) % 64 == 0
    {
      if index >= BOOTSTRAP_HEAP_SIZE {
        return Panic;
      }
      var offset := index;
      var bytes := AlignUp(layout.size, MIN_SIZE);
      index := AlignUp(index + bytes, MIN_SIZE);
      BumpIsExact(offset, layout.size);
      if index >= BOOTSTRAP_HEAP_SIZE {
        r := Err;
      } else {
        r := Ok(bootstrap + offset);
      }
    }

    method AllocateFirstFit(layout: Layout) returns (r: AllocResult)
      requires Valid() && IsPow2(layout.align)
      modifies this, holes
      ensures Valid() && bottom == old(bottom) && holes == old(holes)
      ensures bottom != 0 ==> !r.Panic? && index == old(index)
      ensures bottom != 0 && r.Err? ==> View() == old(View()) && holes.mem == old(holes.mem)
      ensures bottom != 0 && r.Ok? ==> Step(old(View()), Alloc(layout, r.address), View())
      ensures bottom != 0 ==> forall n :: LeastSize(layout.size, n) ==>
                (r.Err? <==> NoPlace(old(holes.holes), n, layout.align))
      ensures bottom != 0 && r.Ok? ==> forall n :: LeastSize(layout.size, n) ==>
                && FirstPlace(old(holes.holes), n, layout.align, r.address)
                && Taken(old(holes.holes), r.address, n, holes.holes) && live == old(live)[r.address := n]
      ensures bottom == 0 && r.Ok? ==> r.address == bootstrap + old(index)
      ensures bottom == 0 ==> (r.Panic? <==> old(index) >= 4096)
      ensures bottom == 0 && !r.Panic? ==> (r.Err? <==> index >= 4096)
    {
      if bottom == 0 {
        r := AllocBootstrap(layout);
      } else {
        OnlyRounded(layout.size);
        hide LeastSize, Place, NoPlace, FirstPlace, SplitHole, FirstFit, Inv, Taken, Aligned, Canonical;
        ghost var hs, rounded := holes.holes, Layout(Rounded(layout.size), layout.align);
        var block := AllocateHole(layout);
        if block.Some? {
          FirstFitIsFirstPlace(hs, rounded, block.value);
          PlaceFound(hs, rounded, block.value);
          r := Ok(block.value);
        } else {
          NoSplitNoPlace(hs, rounded);
          r := Err;
        }
      }
    }

    /** The rounded layout goes to the hole list. */
    method AllocateHole(layout: Layout) returns (r: Option<nat>)
      requires Valid() && bottom != 0 && IsPow2(layout.align)
      modifies this, holes
      ensures Valid() && bottom == old(bottom) && holes == old(holes) && index == old(index)
      ensures r.None? ==> View() == old(View()) && holes.mem == old(holes.mem)
      ensures r.None? ==> forall i :: 0 <= i < |old(holes.holes)| ==>
                SplitHole(old(holes.holes)[i], Layout(Rounded(layout.size), layout.align)).None?
      ensures r.Some? ==>
                && Step(old(View()), Alloc(layout, r.value), View())
                && FirstFit(old(holes.holes), Layout(Rounded(layout.size), layout.align), r.value)
    {
      var rounded := Layout(Rounded(layout.size), layout.align);
      hide LeastSize;
      r := holes.AllocateFirstFit(rounded);
      if r.Some? {
        live := live[r.value := rounded.size];
        AllocKeeps(old(View()), layout, r.value, View());
      }
    }

    /** Frees a live block of the hole list; blocks of the bootstrap area are left alone. */
    method Deallocate(address: nat, layout: Layout) returns (ok: bool)
      requires Valid() && bottom != 0
      requires address >= kernelEnd ==> address in live && live[address] == Rounded(layout.size)
      modifies this, holes
      ensures ok && Valid() && index == old(index) && holes == old(holes)
      ensures address < kernelEnd ==> View() == old(View())
      ensures address >= kernelEnd ==> Step(old(View()), Free(address), View())
    {
      if address >= kernelEnd {
        LiveBlocksCanBeFreed(View(), address);
        ok := holes.Deallocate(address, Rounded(layout.size));
        live := live - {address};
        FreeKeeps(old(View()), address, View());
      } else {
        ok := true;
      }
    }

    /** Makes the memory behind the heap part of it.  The heap stays aligned exactly if the size is a multiple of 8. */
    method ExtendBy(bytes: nat) returns (ok: bool)
      requires Valid() && bottom != 0
      modifies this, holes
      ensures Valid() && index == old(index) && holes == old(holes)
      ensures ok <==> bytes >= MIN_SIZE
      ensures ok ==> Step(old(View()), Extend(bytes), View())
      ensures ok && old(Aligned(View())) ==> (Aligned(View()) <==> bytes % HEADER_ALIGN == 0)
      ensures !ok ==> View() == old(View())
    {
      TopCanBeFreed(View(), bytes);
      hide Inv;
      hide Freed;
      hide Covers;
      hide Apart;
      hide Canonical;
      hide HeadersAligned;
      ok := holes.Deallocate(bottom + size, bytes);
      if ok {
        size := size + bytes;
        ExtendKeeps(old(View()), bytes, View());
      }
    }
  }

  lemma BumpIsExact(index: nat, size: nat)
    requires index % MIN_SIZE == 0
    ensures AlignUp(index + AlignUp(size, MIN_SIZE), MIN_SIZE) == index + AlignUp(size, MIN_SIZE)
  {
    var bytes := AlignUp(size, MIN_SIZE);
    var x, y := index / MIN_SIZE, bytes / MIN_SIZE;
    hide AlignUp;
    DivUnique(index + bytes, MIN_SIZE, x + y, 0);
    AlignUpFixed(index + bytes, MIN_SIZE);
  }
}
