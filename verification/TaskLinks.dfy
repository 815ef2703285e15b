/**
 The two links of a task, shared by every queue that is built from them: the ready queues of all cores and the
 wait queues of all semaphores and mutexes (`src/scheduler/task.rs`).

 `TaskQueue` treats one priority queue with tasks on the heap.  Here all queues of the kernel are treated
 together, and tasks are known by their ids.
 */
module TaskLinks {
  import opened Registry
  import opened Options
  import opened Priorities
  import TaskQueue

  type Tid = nat

  /** Whose priority queue it is. */
  datatype Owner = ReadyOf(core: nat) | WaitOf(obj: nat)

  /** One level of a priority queue. */
  datatype LinkId = LinkId(owner: Owner, prio: nat)

  /** The value of an optional field. */
  function Look<K, T>(m: map<K, T>, key: K): Option<T> {
    if key in m then Some(m[key]) else None
  }

  function Put<K, T>(m: map<K, T>, key: K, value: Option<T>): map<K, T> {
    if value.Some? then m[key := value.value] else m - {key}
  }

  function At(s: seq<Tid>, i: int): Option<Tid> {
    if 0 <= i < |s| then Some(s[i]) else None
  }

  /** The links of the tasks of `s` lead through `s` in both directions. */
  predicate Threads(next: map<Tid, Tid>, prev: map<Tid, Tid>, s: seq<Tid>) {
    forall i :: 0 <= i < |s| ==> Look(next, s[i]) == At(s, i + 1) && Look(prev, s[i]) == At(s, i - 1)
  }

  /** Links that changed for other tasks do not matter. */
  lemma ThreadsKept(next: map<Tid, Tid>, prev: map<Tid, Tid>, next': map<Tid, Tid>, prev': map<Tid, Tid>, s: seq<Tid>)
    requires Threads(next, prev, s)
    requires forall t :: t in s ==> Look(next', t) == Look(next, t) && Look(prev', t) == Look(prev, t)
    ensures Threads(next', prev', s)
  {
  }

  /** `push` links `t` behind the last task. */
  lemma ThreadsPushed(next: map<Tid, Tid>, prev: map<Tid, Tid>, s: seq<Tid>, t: Tid)
    requires Threads(next, prev, s) && NoDup(s) && t !in s
    ensures Threads(Put(if s == [] then next else next[s[|s| - 1] := t], t, None), Put(prev, t, At(s, |s| - 1)),
                    s + [t])
  {
    var n := Put(if s == [] then next else next[s[|s| - 1] := t], t, None);
    var p, r := Put(prev, t, At(s, |s| - 1)), s + [t];
    forall i | 0 <= i < |r| ensures Look(n, r[i]) == At(r, i + 1) && Look(p, r[i]) == At(r, i - 1) {
      if i < |s| {
        assert Look(next, s[i]) == At(s, i + 1) && Look(prev, s[i]) == At(s, i - 1);
      }
    }
  }

  /** `pop_from_queue` takes the links of the first task away, and the link back to it. */
  lemma ThreadsPopped(next: map<Tid, Tid>, prev: map<Tid, Tid>, s: seq<Tid>)
    requires Threads(next, prev, s) && NoDup(s) && s != []
    ensures Look(next, s[0]) == At(s, 1)
    ensures Threads(Put(next, s[0], None), Put(if |s| > 1 then Put(prev, s[1], None) else prev, s[0], None), s[1..])
  {
    var n, r := Put(next, s[0], None), s[1..];
    var p := Put(if |s| > 1 then Put(prev, s[1], None) else prev, s[0], None);
    forall i | 0 <= i < |r| ensures Look(n, r[i]) == At(r, i + 1) && Look(p, r[i]) == At(r, i - 1) {
      assert r[i] == s[i + 1] && Look(next, s[i + 1]) == At(s, i + 2) && Look(prev, s[i + 1]) == At(s, i);
    }
    assert Look(next, s[0]) == At(s, 0 + 1);
  }

  /** The links of tasks in other queues are not touched. */
  lemma OtherThreads(lists: map<LinkId, seq<Tid>>, q: LinkId, p: LinkId, t: Tid,
                     next: map<Tid, Tid>, prev: map<Tid, Tid>, next': map<Tid, Tid>, prev': map<Tid, Tid>)
    requires Linear(lists) && p != q && t !in Get(lists, p) && Threads(next, prev, Get(lists, p))
    requires forall x :: x != t && x !in Get(lists, q) ==>
               Look(next', x) == Look(next, x) && Look(prev', x) == Look(prev, x)
    ensures Threads(next', prev', Get(lists, p))
  {
    var s := Get(lists, p);
    forall x | x in s ensures Look(next', x) == Look(next, x) && Look(prev', x) == Look(prev, x) {
      assert x !in Get(lists, q);
    }
    ThreadsKept(next, prev, next', prev', s);
  }

  type Lists = map<LinkId, seq<Tid>>

  /** The links of all tasks, and the ends of all queues. */
  datatype Store = Store(next: map<Tid, Tid>, prev: map<Tid, Tid>, heads: map<LinkId, Tid>, tails: map<LinkId, Tid>)

  /** Queue `q` is chained through the links of its tasks. */
  predicate Chain(lists: Lists, st: Store, q: LinkId) {
    && Look(st.heads, q) == At(Get(lists, q), 0) && Look(st.tails, q) == At(Get(lists, q), |Get(lists, q)| - 1)
    && Threads(st.next, st.prev, Get(lists, q))
  }

  ghost predicate Chains(lists: Lists, st: Store) {
    forall q :: Chain(lists, st, q)
  }

  /** What `push` leaves behind. */
  function Pushed(st: Store, q: LinkId, t: Tid): Store {
    var tail := Look(st.tails, q);
    Store(Put(if tail.None? then st.next else st.next[tail.value := t], t, None), Put(st.prev, t, tail),
          if tail.None? then st.heads[q := t] else st.heads, st.tails[q := t])
  }

  lemma PushedSelf(lists: Lists, st: Store, q: LinkId, t: Tid)
    requires Chain(lists, st, q) && NoDup(Get(lists, q)) && t !in Get(lists, q)
    ensures Chain(Append(lists, q, t), Pushed(st, q, t), q)
  {
    ThreadsPushed(st.next, st.prev, Get(lists, q), t);
    hide Threads;
  }

  lemma PushedOther(lists: Lists, st: Store, q: LinkId, t: Tid, p: LinkId)
    requires Linear(lists) && Chain(lists, st, q) && Chain(lists, st, p) && p != q && !Held(lists, t)
    ensures Chain(Append(lists, q, t), Pushed(st, q, t), p)
  {
    assert t !in Get(lists, p);
    var st' := Pushed(st, q, t);
    OtherThreads(lists, q, p, t, st.next, st.prev, st'.next, st'.prev);
    hide Threads;
  }

  /** `push` keeps every queue chained if no queue holds the task. */
  lemma PushChains(lists: Lists, st: Store, q: LinkId, t: Tid)
    requires Linear(lists) && Chains(lists, st) && !Held(lists, t)
    ensures Chains(Append(lists, q, t), Pushed(st, q, t))
  {
    var lists', st' := Append(lists, q, t), Pushed(st, q, t);
    hide Chain, Pushed, Append;
    forall p ensures Chain(lists', st', p) {
      assert Chain(lists, st, q) && Chain(lists, st, p) && NoDup(Get(lists, q));
      if p == q {
        PushedSelf(lists, st, q, t);
      } else {
        PushedOther(lists, st, q, t, p);
      }
    }
  }

  /** What `pop_from_queue` leaves behind. */
  function Popped(st: Store, q: LinkId): Store
    requires q in st.heads
  {
    var t := st.heads[q];
    var second := Look(st.next, t);
    Store(Put(st.next, t, None), Put(if second.Some? then Put(st.prev, second.value, None) else st.prev, t, None),
          Put(st.heads, q, second), if second.None? then Put(st.tails, q, None) else st.tails)
  }

  lemma PoppedSelf(lists: Lists, st: Store, q: LinkId)
    requires Chain(lists, st, q) && NoDup(Get(lists, q)) && Get(lists, q) != []
    ensures q in st.heads && st.heads[q] == Get(lists, q)[0] && Look(st.next, st.heads[q]) == At(Get(lists, q), 1)
    ensures Chain(Delete(lists, q, 0), Popped(st, q), q)
  {
    var s := Get(lists, q);
    ThreadsPopped(st.next, st.prev, s);
    assert RemoveAt(s, 0) == s[1..];
    hide Threads;
  }

  lemma PoppedOther(lists: Lists, st: Store, q: LinkId, p: LinkId)
    requires Linear(lists) && Chain(lists, st, q) && Chain(lists, st, p) && p != q && Get(lists, q) != []
    ensures q in st.heads && Chain(Delete(lists, q, 0), Popped(st, q), p)
  {
    var t := st.heads[q];
    assert t in Get(lists, q) && t !in Get(lists, p);
    PoppedSelf(lists, st, q);
    var st' := Popped(st, q);
    OtherThreads(lists, q, p, t, st.next, st.prev, st'.next, st'.prev);
    hide Threads;
  }

  /** `pop_from_queue` keeps every queue chained. */
  lemma PopChains(lists: Lists, st: Store, q: LinkId)
    requires Linear(lists) && Chains(lists, st) && Get(lists, q) != []
    ensures q in st.heads && st.heads[q] == Get(lists, q)[0] && Look(st.next, st.heads[q]) == At(Get(lists, q), 1)
    ensures Chains(Delete(lists, q, 0), Popped(st, q))
  {
    assert Chain(lists, st, q) && NoDup(Get(lists, q));
    PoppedSelf(lists, st, q);
    var lists', st' := Delete(lists, q, 0), Popped(st, q);
    hide Chain, Popped, Delete;
    forall p ensures Chain(lists', st', p) {
      assert Chain(lists, st, p);
      if p != q {
        PoppedOther(lists, st, q, p);
      }
    }
  }

  function NoBits(n: nat): (bits: seq<bool>)
    ensures |bits| == n && forall i :: 0 <= i < n ==> !bits[i]
  {
    if n == 0 then [] else NoBits(n - 1) + [false]
  }

  /** `prio_bitmap` of one priority queue. */
  function Bitmap(bitmaps: map<Owner, seq<bool>>, owner: Owner): seq<bool> {
    if owner in bitmaps then bitmaps[owner] else NoBits(64)
  }

  /** The bits tell which levels are not empty. */
  predicate BitsOk(lists: Lists, bitmaps: map<Owner, seq<bool>>, owner: Owner) {
    && |Bitmap(bitmaps, owner)| == 64
    && forall i :: 0 <= i < 64 ==> (Bitmap(bitmaps, owner)[i] <==> Get(lists, LinkId(owner, i)) != [])
  }

  ghost predicate AllBits(lists: Lists, bitmaps: map<Owner, seq<bool>>) {
    forall owner :: BitsOk(lists, bitmaps, owner)
  }

  lemma SetBit(lists: Lists, bitmaps: map<Owner, seq<bool>>, q: LinkId, s: seq<Tid>)
    requires AllBits(lists, bitmaps) && q.prio < NO_PRIORITIES
    ensures |Bitmap(bitmaps, q.owner)| == 64
    ensures AllBits(lists[q := s], bitmaps[q.owner := Bitmap(bitmaps, q.owner)[q.prio := s != []]])
  {
    assert BitsOk(lists, bitmaps, q.owner);
    var lists', bitmaps' := lists[q := s], bitmaps[q.owner := Bitmap(bitmaps, q.owner)[q.prio := s != []]];
    forall owner ensures BitsOk(lists', bitmaps', owner) {
      assert BitsOk(lists, bitmaps, owner);
      forall i | 0 <= i < 64 ensures Bitmap(bitmaps', owner)[i] <==> Get(lists', LinkId(owner, i)) != [] {
        assert Bitmap(bitmaps, owner)[i] <==> Get(lists, LinkId(owner, i)) != [];
      }
    }
  }

  lemma KeepBit(lists: Lists, bitmaps: map<Owner, seq<bool>>, q: LinkId, s: seq<Tid>)
    requires AllBits(lists, bitmaps) && Get(lists, q) != [] && s != []
    ensures AllBits(lists[q := s], bitmaps)
  {
    var lists' := lists[q := s];
    forall owner ensures BitsOk(lists', bitmaps, owner) {
      assert BitsOk(lists, bitmaps, owner);
    }
  }

  /** Levels that do not exist stay empty. */
  ghost predicate Bounded(lists: Lists) {
    forall q :: Get(lists, q) != [] ==> q.prio < NO_PRIORITIES
  }

  class Links {
    var next: map<Tid, Tid>
    var prev: map<Tid, Tid>
    var heads: map<LinkId, Tid>
    var tails: map<LinkId, Tid>
    var bitmaps: map<Owner, seq<bool>>
    ghost var lists: Lists

    function Now(): Store
      reads this
    {
      Store(next, prev, heads, tails)
    }

    /** Every queue is chained through the links of its tasks, and no task is in two of them. */
    ghost predicate Valid()
      reads this
    {
      Linear(lists) && Bounded(lists) && Chains(lists, Now()) && AllBits(lists, bitmaps)
    }

    constructor ()
      ensures Valid() && lists == map[]
    {
      next, prev, heads, tails, bitmaps, lists := map[], map[], map[], map[], map[], map[];
    }

    /** `push`: the task goes to the end of its queue, and all other queues stay as they are. */
    method Push(q: LinkId, t: Tid)
      requires Valid() && q.prio < NO_PRIORITIES && !Held(lists, t)
      modifies this
      ensures Valid() && lists == Append(old(lists), q, t)
    {
      PushChains(lists, Now(), q, t);
      SetBit(lists, bitmaps, q, Get(lists, q) + [t]);
      AppendKeeps(lists, q, t);
      hide Linear, Chains, AllBits, Held;
      bitmaps := bitmaps[q.owner := Bitmap(bitmaps, q.owner)[q.prio := true]];
      var tail := Look(tails, q);
      if tail.None? {
        heads := heads[q := t];
      } else {
        next := next[tail.value := t];
      }
      next, prev := Put(next, t, None), Put(prev, t, tail);
      tails := tails[q := t];
      lists := Append(lists, q, t);
    }

    /** `pop_from_queue`: the oldest task leaves its queue. */
    method PopFromQueue(q: LinkId) returns (t: Tid)
      requires Valid() && Get(lists, q) != []
      modifies this
      ensures Valid() && t == Get(old(lists), q)[0] && lists == Delete(old(lists), q, 0)
    {
      PopChains(lists, Now(), q);
      assert q.prio < NO_PRIORITIES && BitsOk(lists, bitmaps, q.owner);
      if |Get(lists, q)| > 1 {
        KeepBit(lists, bitmaps, q, RemoveAt(Get(lists, q), 0));
      } else {
        SetBit(lists, bitmaps, q, []);
        assert RemoveAt(Get(lists, q), 0) == [];
      }
      DeleteKeeps(lists, q, 0);
      DeleteBounded(lists, q);
      hide Linear, Chains, AllBits, Held, Bounded;
      t := heads[q];
      var newHead := Look(next, t);
      if newHead.Some? {
        prev := Put(prev, newHead.value, None);
      }
      next, prev := Put(next, t, None), Put(prev, t, None);
      heads := Put(heads, q, newHead);
      if newHead.None? {
        tails := Put(tails, q, None);
        bitmaps := bitmaps[q.owner := Bitmap(bitmaps, q.owner)[q.prio := false]];
      }
      lists := Delete(lists, q, 0);
    }

    /** `pop_with_prio`; `pop` with priority 0. */
    method PopWithPrio(owner: Owner, prio: nat) returns (t: Option<Tid>)
      requires Valid()
      modifies this
      ensures Valid()
      ensures t.None? ==> lists == old(lists) && forall p :: p >= prio ==> Get(lists, LinkId(owner, p)) == []
      ensures t.Some? ==> exists p :: Takes(old(lists), LinkId(owner, p), prio, t.value, lists)
    {
      assert BitsOk(lists, bitmaps, owner);
      var m := TaskQueue.Msb(Bitmap(bitmaps, owner));
      forall p: nat | p >= 64 || !Bitmap(bitmaps, owner)[p] ensures Get(lists, LinkId(owner, p)) == [] {
      }
      if m.Some? && m.value >= prio {
        var x := PopFromQueue(LinkId(owner, m.value));
        t := Some(x);
        assert Takes(old(lists), LinkId(owner, m.value), prio, x, lists);
      } else {
        t := None;
      }
    }
  }

  lemma DeleteBounded(lists: Lists, q: LinkId)
    requires Bounded(lists) && Get(lists, q) != []
    ensures Bounded(Delete(lists, q, 0))
  {
    var lists' := Delete(lists, q, 0);
    forall p | Get(lists', p) != [] ensures p.prio < NO_PRIORITIES {
      assert Get(lists, p) != [];
    }
  }

  /** `t` was the oldest task of the highest level, which is at least `prio`. */
  ghost predicate Takes(lists: Lists, q: LinkId, prio: nat, t: Tid, lists': Lists) {
    && prio <= q.prio < NO_PRIORITIES && Get(lists, q) != [] && t == Get(lists, q)[0] && lists' == Delete(lists, q, 0)
    && forall j :: q.prio < j ==> Get(lists, LinkId(q.owner, j)) == []
  }
}
