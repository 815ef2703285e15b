/**
 Tasks that never run again.  A set of tasks is lost if each of them waits for another member: in `join`, for a mutex
 that a member has locked or holds up, or, when it has exited, for the cleanup that a member was about to make when it
 was interrupted.  No step of any kind brings a member back, and whoever waits for one of them is never woken.
 */
module KernelGone {
  import opened Registry
  import opened Kernel
  import opened KernelSafety
  import opened Options
  import opened Priorities

  /** Mutex `o` is locked by a member of `s`, or a member holds its spinlock. */
  ghost predicate HeldUp(k: State, s: set<Tid>, o: nat) {
    && o in k.objects && k.objects[o].Mutex?
    && ((k.objects[o].owner.Some? && k.objects[o].owner.value in s)
        || exists t :: t in s && t in k.tasks && k.tasks[t].queueing == Some(o))
  }

  /** Nobody but members of `s` can get task `t` out of the lists it is in. */
  ghost predicate LostTask(k: State, s: set<Tid>, t: Tid) {
    && t in k.tasks
    && (forall q :: t in Get(k.queues, q) ==> LostIn(k, s, t, q))
    && (forall w :: t in Get(k.waits, w) ==> HeldUp(k, s, w.obj))
    && (forall x :: x in k.tasks && Cleans(k.tasks[x]) == Some(t) ==> x in s)
  }

  predicate LostIn(k: State, s: set<Tid>, t: Tid, q: QueueId)
    requires t in k.tasks
  {
    (q.JoinQ? && q.tid in s) || (q.BlockedQ? && k.tasks[t].deadline == None)
  }

  /** Core `c` cleans up no member of `s`, and if its current task is one, it is about to switch to another task. */
  predicate LostCore(k: State, s: set<Tid>, c: nat)
    requires c < |k.cores|
  {
    && k.cores[c].idle !in s && (k.cores[c].phase.Cleaning? ==> k.cores[c].phase.id !in s)
    && (k.cores[c].current in s ==>
          && k.cores[c].current in k.tasks && Current(k, c).status == Blocked
          && (k.cores[c].phase.Deciding? ==> k.cores[c].phase.seen == Blocked)
          && (k.cores[c].phase == Executing ==> Current(k, c).queueing == None))
  }

  ghost predicate Lost(k: State, s: set<Tid>) {
    (forall t :: t in s ==> LostTask(k, s, t)) && (forall c :: 0 <= c < |k.cores| ==> LostCore(k, s, c))
  }

  ghost predicate Gone(k: State, t: Tid) {
    exists s :: t in s && Lost(k, s)
  }

  // ----- What a step leaves of a lost set -----

  ghost predicate KeepsTasks(k: State, k': State, s: set<Tid>) {
    && (forall t :: t in s ==> t in k.tasks && t in k'.tasks && SameLoss(k.tasks[t], k'.tasks[t]))
    && (forall x, t :: x in k'.tasks && t in s && Cleans(k'.tasks[x]) == Some(t) ==> x in s)
  }

  predicate SameLoss(x: Task, x': Task) {
    x'.status == x.status && x'.deadline == x.deadline && x'.queueing == x.queueing
  }

  /** Members enter no list, and their joiners leave none. */
  ghost predicate KeepsQueues(m: map<QueueId, seq<Tid>>, m': map<QueueId, seq<Tid>>, s: set<Tid>) {
    && (forall q, t :: t in s && t in Get(m', q) ==> t in Get(m, q))
    && (forall t, j :: t in s && j in Get(m, JoinQ(t)) ==> j in Get(m', JoinQ(t)))
  }

  ghost predicate KeepsWaits(k: State, k': State, s: set<Tid>) {
    && (forall w, t :: t in s && t in Get(k'.waits, w) ==> t in Get(k.waits, w))
    && (forall o :: HeldUp(k, s, o) ==> HeldUp(k', s, o))
  }

  ghost predicate KeepsCores(k': State, s: set<Tid>) {
    forall c :: 0 <= c < |k'.cores| ==> LostCore(k', s, c)
  }

  ghost predicate Keeps(k: State, k': State, s: set<Tid>) {
    KeepsTasks(k, k', s) && KeepsQueues(k.queues, k'.queues, s) && KeepsWaits(k, k', s) && KeepsCores(k', s)
  }

  lemma KeepsLost(k: State, k': State, s: set<Tid>)
    requires Lost(k, s) && Keeps(k, k', s)
    ensures Lost(k', s)
  {
    forall t | t in s ensures LostTask(k', s, t) {
      assert LostTask(k, s, t);
      forall q | t in Get(k'.queues, q) ensures LostIn(k', s, t, q) {
        assert LostIn(k, s, t, q);
      }
    }
  }

  lemma KeepsTrans(k: State, k1: State, k2: State, s: set<Tid>)
    requires Keeps(k, k1, s) && Keeps(k1, k2, s)
    ensures Keeps(k, k2, s)
  {
  }

  lemma KeepsSelf(k: State, s: set<Tid>)
    requires Lost(k, s)
    ensures Keeps(k, k, s)
  {
    forall t | t in s ensures t in k.tasks && forall x :: x in k.tasks && Cleans(k.tasks[x]) == Some(t) ==> x in s {
      assert LostTask(k, s, t);
    }
  }

  // ----- Lists -----

  lemma PutKeeps(m: map<QueueId, seq<Tid>>, m': map<QueueId, seq<Tid>>, s: set<Tid>, q: QueueId, l: seq<Tid>)
    requires KeepsQueues(m, m', s) && (forall t :: t in s && t in l ==> t in Get(m, q))
    requires q.JoinQ? && q.tid in s ==> forall j :: j in Get(m, q) ==> j in l
    ensures KeepsQueues(m, m'[q := l], s)
  {
  }

  lemma AddKeeps(m: map<QueueId, seq<Tid>>, m': map<QueueId, seq<Tid>>, s: set<Tid>, q: QueueId, at: nat, x: Tid)
    requires KeepsQueues(m, m', s) && at <= |Get(m', q)| && x !in s
    ensures KeepsQueues(m, Append(m', q, x), s) && KeepsQueues(m, Insert(m', q, at, x), s)
  {
    var l := Get(m', q);
    assert l == l[..at] + l[at..];
    PutKeeps(m, m', s, q, l + [x]);
    PutKeeps(m, m', s, q, InsertAt(l, at, x));
  }

  lemma DropKeeps(m: map<QueueId, seq<Tid>>, m': map<QueueId, seq<Tid>>, s: set<Tid>, q: QueueId, at: nat)
    requires KeepsQueues(m, m', s) && at < |Get(m', q)| && (q.JoinQ? ==> q.tid !in s)
    ensures KeepsQueues(m, Delete(m', q, at), s)
  {
    PutKeeps(m, m', s, q, RemoveAt(Get(m', q), at));
  }

  lemma SelfQueues(m: map<QueueId, seq<Tid>>, s: set<Tid>)
    ensures KeepsQueues(m, m, s)
  {
  }

  /** A list that only members of the queues of members can be in. */
  lemma NotLost(k: State, s: set<Tid>, q: QueueId, t: Tid)
    requires Lost(k, s) && t in Get(k.queues, q)
    requires !(q.JoinQ? && q.tid in s) && (q.BlockedQ? ==> t in k.tasks && k.tasks[t].deadline.Some?)
    ensures t !in s
  {
    assert t in s ==> LostTask(k, s, t) && LostIn(k, s, t, q);
  }

  /** A current task that is not blocked, or goes on with its code, is not lost. */
  lemma CurrentNotLost(k: State, s: set<Tid>, c: nat)
    requires Lost(k, s) && HasCore(k, c)
    requires Current(k, c).status != Blocked || (k.cores[c].phase == Executing && Current(k, c).queueing.Some?)
    ensures k.cores[c].current !in s
  {
    assert LostCore(k, s, c);
  }

  // ----- Small changes -----

  lemma Both(k: State, k1: State, k2: State, s: set<Tid>)
    requires Lost(k, s) && Keeps(k, k1, s) && Keeps(k1, k2, s)
    ensures Keeps(k, k2, s) && Lost(k2, s)
  {
    KeepsTrans(k, k1, k2, s);
    KeepsLost(k, k2, s);
  }

  lemma HeldUpStays(k: State, k': State, s: set<Tid>, o: nat)
    requires HeldUp(k, s, o) && o in k'.objects && k'.objects[o].Mutex? && k'.objects[o].owner == k.objects[o].owner
    requires forall t :: t in s && t in k.tasks ==> t in k'.tasks && k'.tasks[t].queueing == k.tasks[t].queueing
    ensures HeldUp(k', s, o)
  {
    if !(k.objects[o].owner.Some? && k.objects[o].owner.value in s) {
      var t :| t in s && t in k.tasks && k.tasks[t].queueing == Some(o);
      assert t in k'.tasks && k'.tasks[t].queueing == Some(o);
    }
  }

  /** A change of one task. */
  lemma TaskStays(k: State, s: set<Tid>, t: Tid, x: Task)
    requires Lost(k, s) && t in k.tasks && (t in s ==> SameLoss(k.tasks[t], x))
    requires Cleans(x) == Cleans(k.tasks[t]) || Cleans(x) == None || Cleans(x).value !in s
    ensures var k' := k.(tasks := k.tasks[t := x]); Keeps(k, k', s) && Lost(k', s)
  {
    var k' := k.(tasks := k.tasks[t := x]);
    KeepsSelf(k, s);
    forall o | HeldUp(k, s, o) ensures HeldUp(k', s, o) {
      HeldUpStays(k, k', s, o);
    }
    forall c | 0 <= c < |k'.cores| ensures LostCore(k', s, c) {
      assert LostCore(k, s, c);
    }
    hide KeepsWaits, KeepsQueues, KeepsCores, HeldUp;
    KeepsLost(k, k', s);
  }

  /** A change of the lists. */
  lemma QueuesStay(k: State, s: set<Tid>, m: map<QueueId, seq<Tid>>)
    requires Lost(k, s) && KeepsQueues(k.queues, m, s)
    ensures var k' := k.(queues := m); Keeps(k, k', s) && Lost(k', s)
  {
    var k' := k.(queues := m);
    KeepsSelf(k, s);
    forall o | HeldUp(k, s, o) ensures HeldUp(k', s, o) {
      HeldUpStays(k, k', s, o);
    }
    forall c | 0 <= c < |k'.cores| ensures LostCore(k', s, c) {
      assert LostCore(k, s, c);
    }
    KeepsLost(k, k', s);
  }

  /** A change of one core. */
  lemma CoreStays(k: State, s: set<Tid>, c: nat, x: Core)
    requires Lost(k, s) && c < |k.cores| && LostCore(k.(cores := k.cores[c := x]), s, c)
    ensures var k' := k.(cores := k.cores[c := x]); Keeps(k, k', s) && Lost(k', s)
  {
    var k' := k.(cores := k.cores[c := x]);
    KeepsSelf(k, s);
    forall o | HeldUp(k, s, o) ensures HeldUp(k', s, o) {
      HeldUpStays(k, k', s, o);
    }
    forall d | 0 <= d < |k'.cores| ensures LostCore(k', s, d) {
      assert LostCore(k, s, d);
    }
    KeepsLost(k, k', s);
  }

  /** A change of one object, which keeps its owner if a member holds it up. */
  lemma ObjectStays(k: State, s: set<Tid>, o: nat, x: Object)
    requires Lost(k, s) && o in k.objects && (HeldUp(k, s, o) ==> x.Mutex? && x.owner == k.objects[o].owner)
    ensures var k' := k.(objects := k.objects[o := x]); Keeps(k, k', s) && Lost(k', s)
  {
    var k' := k.(objects := k.objects[o := x]);
    KeepsSelf(k, s);
    forall p | HeldUp(k, s, p) ensures HeldUp(k', s, p) {
      HeldUpStays(k, k', s, p);
    }
    forall c | 0 <= c < |k'.cores| ensures LostCore(k', s, c) {
      assert LostCore(k, s, c);
    }
    KeepsLost(k, k', s);
  }

  /** A change of the wait queues. */
  lemma WaitsStay(k: State, s: set<Tid>, waits: map<WaitId, seq<Tid>>)
    requires Lost(k, s) && forall w, t :: t in s && t in Get(waits, w) ==> t in Get(k.waits, w)
    ensures var k' := k.(waits := waits); Keeps(k, k', s) && Lost(k', s)
  {
    var k' := k.(waits := waits);
    KeepsSelf(k, s);
    forall o | HeldUp(k, s, o) ensures HeldUp(k', s, o) {
      HeldUpStays(k, k', s, o);
    }
    forall c | 0 <= c < |k'.cores| ensures LostCore(k', s, c) {
      assert LostCore(k, s, c);
    }
    KeepsLost(k, k', s);
  }

  // ----- Waking and blocking -----

  lemma WakeLost(k: State, s: set<Tid>, c: nat, q: QueueId, at: nat)
    requires Lost(k, s) && !q.JoinQ? && at < |Get(k.queues, q)| && Get(k.queues, q)[at] in k.tasks
    requires Get(k.queues, q)[at] !in s
    ensures Keeps(k, WakeFrom(k, c, q, at), s)
  {
    var t := Get(k.queues, q)[at];
    var m := Delete(k.queues, q, at);
    SelfQueues(k.queues, s);
    DropKeeps(k.queues, k.queues, s, q, at);
    AddKeeps(k.queues, m, s, PushQ(c), 0, t);
    hide Lost, Keeps, KeepsQueues, Append, Delete;
    var k1 := k.(queues := Append(m, PushQ(c), t));
    QueuesStay(k, s, k1.queues);
    TaskStays(k1, s, t, k1.tasks[t].(status := Ready));
    Both(k, k1, WakeFrom(k, c, q, at), s);
  }

  /** The object is held up by nobody. */
  lemma WakeWaiterLost(k: State, s: set<Tid>, c: nat, o: nat)
    requires Lost(k, s) && o in k.objects && !HeldUp(k, s, o)
    ensures Keeps(k, WakeWaiter(k, c, o), s)
  {
    var top := TopWait(k.waits, o, NO_PRIORITIES);
    hide TopWait;
    if top < 0 {
      KeepsSelf(k, s);
    } else {
      var w := WaitQ(o, top);
      var t := Get(k.waits, w)[0];
      var popped := k.(waits := Delete(k.waits, w, 0));
      assert t !in s by {
        assert t in Get(k.waits, w) && (t in s ==> LostTask(k, s, t));
      }
      assert forall v, x :: x in Get(popped.waits, v) ==> x in Get(k.waits, v);
      hide Lost, Keeps, HeldUp, Delete;
      WaitsStay(k, s, popped.waits);
      if t in k.tasks {
        var q := BlockedQ(k.tasks[t].core);
        var at := IndexOf(Get(k.queues, q), t);
        if at < |Get(k.queues, q)| {
          var k2 := WakeFrom(popped, c, q, at);
          WokenLost(k, s, c, o, t, popped, k2);
        }
      }
    }
  }

  lemma WokenLost(k: State, s: set<Tid>, c: nat, o: nat, t: Tid, popped: State, k2: State)
    requires Lost(k, s) && Keeps(k, popped, s) && Lost(popped, s) && t in popped.tasks && o in popped.objects && t !in s
    requires var q := BlockedQ(popped.tasks[t].core);
             var at := IndexOf(Get(popped.queues, q), t);
             at < |Get(popped.queues, q)| && k2 == WakeFrom(popped, c, q, at)
    ensures t in k2.tasks && o in k2.objects
    ensures Keeps(k, k2.(tasks := k2.tasks[t := k2.tasks[t].(retrying := Some(o))],
                         objects := k2.objects[o := k2.objects[o].(woken := k2.objects[o].woken + {t})]), s)
  {
    var q := BlockedQ(popped.tasks[t].core);
    WakeLost(popped, s, c, q, IndexOf(Get(popped.queues, q), t));
    assert t in k2.tasks && k2.objects == popped.objects;
    hide Lost, Keeps, WakeFrom;
    Both(k, popped, k2, s);
    var k3 := k2.(tasks := k2.tasks[t := k2.tasks[t].(retrying := Some(o))]);
    TaskStays(k2, s, t, k3.tasks[t]);
    Both(k, k2, k3, s);
    var x := k3.objects[o].(woken := k3.objects[o].woken + {t});
    ObjectStays(k3, s, o, x);
    Both(k, k3, k3.(objects := k3.objects[o := x]), s);
  }

  lemma BlockLost(k: State, s: set<Tid>, c: nat, q: QueueId, until: Option<nat>)
    requires Lost(k, s) && HasCore(k, c) && k.cores[c].current !in s
    ensures Keeps(k, BlockCurrent(k, c, q, until), s)
  {
    var t := k.cores[c].current;
    var at := DeadlinePosition(k.tasks, Get(k.queues, q), until);
    SelfQueues(k.queues, s);
    AddKeeps(k.queues, k.queues, s, q, at, t);
    hide Lost, Keeps, KeepsQueues, Insert, DeadlinePosition;
    var k1 := k.(queues := Insert(k.queues, q, at, t));
    QueuesStay(k, s, k1.queues);
    TaskStays(k1, s, t, k1.tasks[t].(status := Blocked, deadline := until, retrying := None));
    Both(k, k1, BlockCurrent(k, c, q, until), s);
  }

  lemma StopLost(k: State, s: set<Tid>, c: nat)
    requires Lost(k, s) && HasCore(k, c)
    ensures Keeps(k, StopRetrying(k, c), s) && HasCore(StopRetrying(k, c), c) && StopRetrying(k, c).cores == k.cores
  {
    var t := k.cores[c].current;
    KeepsSelf(k, s);
    if k.tasks[t].retrying.Some? && k.tasks[t].retrying.value in k.objects {
      var o := k.tasks[t].retrying.value;
      hide Lost, Keeps;
      var k1 := k.(tasks := k.tasks[t := k.tasks[t].(retrying := None)]);
      TaskStays(k, s, t, k1.tasks[t]);
      var x := k1.objects[o].(woken := k1.objects[o].woken - {t});
      ObjectStays(k1, s, o, x);
      Both(k, k1, k1.(objects := k1.objects[o := x]), s);
    }
  }

  lemma BlockedLost(k: State, s: set<Tid>, c: nat, until: Option<nat>)
    requires Lost(k, s) && HasCore(k, c) && k.cores[c].current !in s
    ensures Keeps(k, BlockInAcquire(k, c, until), s)
  {
    hide Lost, Keeps, StopRetrying, BlockCurrent;
    StopLost(k, s, c);
    var k1 := StopRetrying(k, c);
    KeepsLost(k, k1, s);
    BlockLost(k1, s, c, BlockedQ(c), until);
    Both(k, k1, BlockCurrent(k1, c, BlockedQ(c), until), s);
  }

  lemma AppendWaits(k: State, s: set<Tid>, w: WaitId, t: Tid)
    requires t !in s
    ensures forall v, x :: x in s && x in Get(Append(k.waits, w, t), v) ==> x in Get(k.waits, v)
  {
  }

  lemma AcquireLost(k: State, s: set<Tid>, c: nat, o: nat, until: Option<nat>)
    requires Lost(k, s) && HasCore(k, c) && k.cores[c].current !in s && o in k.objects && k.objects[o].Semaphore?
    ensures Keeps(k, AcquireStep(k, c, o, until), s)
  {
    hide Lost, Keeps, StopRetrying, BlockInAcquire;
    if k.objects[o].count > 0 {
      StopLost(k, s, c);
      var k1 := StopRetrying(k, c);
      KeepsLost(k, k1, s);
      if o in k1.objects && k1.objects[o].Semaphore? {
        var x := k1.objects[o].(count := k1.objects[o].count - 1, acquired := k1.objects[o].acquired + 1);
        ObjectStays(k1, s, o, x);
        Both(k, k1, k1.(objects := k1.objects[o := x]), s);
      }
    } else {
      BlockedLost(k, s, c, until);
      var k1 := BlockInAcquire(k, c, until);
      KeepsLost(k, k1, s);
      AppendWaits(k1, s, WaitQ(o, Current(k, c).prio), k.cores[c].current);
      WaitsStay(k1, s, Append(k1.waits, WaitQ(o, Current(k, c).prio), k.cores[c].current));
      Both(k, k1, WaitFor(k, c, o, until), s);
    }
  }

  lemma NobodyHoldsUp(k: State, s: set<Tid>, o: nat)
    requires o in k.objects && !Busy(k, o)
    ensures HeldUp(k, s, o) ==> k.objects[o].Mutex? && k.objects[o].owner.Some? && k.objects[o].owner.value in s
  {
  }

  lemma LockLost(k: State, s: set<Tid>, c: nat, o: nat)
    requires Lost(k, s) && HasCore(k, c) && k.cores[c].current !in s && o in k.objects && k.objects[o].Mutex?
    requires !Busy(k, o)
    ensures Keeps(k, LockStep(k, c, o), s)
  {
    hide Lost, Keeps, StopRetrying, BlockInAcquire, Busy;
    var t, m := k.cores[c].current, k.objects[o];
    if m.owner == Some(t) || m.owner.None? {
      StopLost(k, s, c);
      StopBusy(k, c, o);
      var k1 := StopRetrying(k, c);
      KeepsLost(k, k1, s);
      if o in k1.objects && k1.objects[o].Mutex? {
        var m1 := k1.objects[o];
        var x := m1.(owner := Some(t), depth := if m.owner.None? then 1 else m1.depth + 1,
                     nesting := m1.nesting[t := Nesting(m1, t) + 1]);
        NobodyHoldsUp(k1, s, o);
        ObjectStays(k1, s, o, x);
        Both(k, k1, k1.(objects := k1.objects[o := x]), s);
      }
    } else {
      BlockedLost(k, s, c, None);
      var k1 := BlockInAcquire(k, c, None);
      KeepsLost(k, k1, s);
      TaskStays(k1, s, t, k1.tasks[t].(queueing := Some(o)));
      Both(k, k1, LockStep(k, c, o), s);
    }
  }

  lemma StopBusy(k: State, c: nat, o: nat)
    requires HasCore(k, c) && o in k.objects && k.objects[o].Mutex?
    ensures var k1 := StopRetrying(k, c);
            && o in k1.objects && k1.objects[o].Mutex? && k1.objects[o].owner == k.objects[o].owner
            && (Busy(k1, o) ==> Busy(k, o))
  {
    var k1 := StopRetrying(k, c);
    if Busy(k1, o) {
      var t :| t in k1.tasks && k1.tasks[t].queueing == Some(o);
      assert t in k.tasks && k.tasks[t].queueing == Some(o);
    }
  }

  lemma EnqueueLost(k: State, s: set<Tid>, c: nat)
    requires Lost(k, s) && HasCore(k, c) && k.cores[c].current !in s && Current(k, c).queueing.Some?
    ensures Keeps(k, EnqueueStep(k, c), s)
  {
    var t := k.cores[c].current;
    var w := WaitQ(k.tasks[t].queueing.value, k.tasks[t].prio);
    hide Lost, Keeps, Append;
    AppendWaits(k, s, w, t);
    var k1 := k.(waits := Append(k.waits, w, t));
    WaitsStay(k, s, k1.waits);
    TaskStays(k1, s, t, k1.tasks[t].(queueing := None));
    Both(k, k1, EnqueueStep(k, c), s);
  }

  lemma ReleaseLost(k: State, s: set<Tid>, c: nat, o: nat)
    requires Lost(k, s) && o in k.objects && k.objects[o].Semaphore?
    ensures Keeps(k, ReleaseStep(k, c, o), s)
  {
    hide Lost, Keeps, WakeWaiter;
    var x := k.objects[o].(count := k.objects[o].count + 1, released := k.objects[o].released + 1);
    var k1 := k.(objects := k.objects[o := x]);
    ObjectStays(k, s, o, x);
    WakeWaiterLost(k1, s, c, o);
    Both(k, k1, WakeWaiter(k1, c, o), s);
  }

  lemma UnlockLost(k: State, s: set<Tid>, c: nat, o: nat)
    requires Lost(k, s) && HasCore(k, c) && o in k.objects && k.objects[o].Mutex? && k.objects[o].depth > 0
    requires k.objects[o].owner == Some(k.cores[c].current) && k.cores[c].current !in s && !Busy(k, o)
    ensures Keeps(k, UnlockStep(k, c, o), s)
  {
    var t, m := k.cores[c].current, k.objects[o];
    var n := if Nesting(m, t) > 0 then Nesting(m, t) - 1 else 0;
    var m1 := m.(depth := m.depth - 1, nesting := m.nesting[t := n]);
    NobodyHoldsUp(k, s, o);
    if m1.depth == 0 {
      var k1 := k.(objects := k.objects[o := m1.(owner := None)]);
      assert !HeldUp(k1, s, o) by {
        assert forall u :: u in k.tasks ==> k.tasks[u].queueing != Some(o);
      }
      hide Lost, Keeps, WakeWaiter, HeldUp, Busy;
      ObjectStays(k, s, o, m1.(owner := None));
      WakeWaiterLost(k1, s, c, o);
      Both(k, k1, WakeWaiter(k1, c, o), s);
    } else {
      hide Lost, Keeps, HeldUp, Busy;
      ObjectStays(k, s, o, m1);
    }
  }

  // ----- The scheduler -----

  lemma AsideLost(k: State, s: set<Tid>, c: nat, seen: Status)
    requires Lost(k, s) && HasCore(k, c) && (k.cores[c].current in s ==> seen == Blocked)
    ensures Keeps(k, PutAside(k, c, seen), s)
  {
    var t := k.cores[c].current;
    if seen == Running || seen == Finished {
      var q := if seen == Running then ReadyQ(c, k.tasks[t].prio) else FinishedQ(c);
      var x := if seen == Running then k.tasks[t].(status := Ready) else k.tasks[t].(status := Invalid, inside := None);
      SelfQueues(k.queues, s);
      AddKeeps(k.queues, k.queues, s, q, 0, t);
      hide Lost, Keeps, KeepsQueues, Append;
      var k1 := k.(queues := Append(k.queues, q, t));
      QueuesStay(k, s, k1.queues);
      TaskStays(k1, s, t, x);
      Both(k, k1, PutAside(k, c, seen), s);
    } else {
      KeepsSelf(k, s);
    }
  }

  lemma ResumeLost(k: State, s: set<Tid>, c: nat, t: Tid)
    requires Lost(k, s) && c < |k.cores| && t in k.tasks && t !in s
    ensures Keeps(k, Resume(k, c, t), s)
  {
    var k1 := k.(tasks := k.tasks[t := k.tasks[t].(inside := None)]);
    var x := k.cores[c].(current := t, loud := k.tasks[t].inside.Some?, phase := ResumedPhase(k.tasks[t]));
    assert LostCore(k, s, c);
    forall id | id in s ensures Cleans(k.tasks[t]) != Some(id) {
      assert LostTask(k, s, id);
    }
    hide Lost, Keeps;
    TaskStays(k, s, t, k1.tasks[t]);
    CoreStays(k1, s, c, x);
    Both(k, k1, Resume(k, c, t), s);
  }

  lemma SwitchLost(k: State, s: set<Tid>, c: nat, t: Tid)
    requires Lost(k, s) && c < |k.cores| && t in k.tasks && t !in s
    ensures Keeps(k, SwitchTo(k, c, t), s)
  {
    hide Lost, Keeps, Resume;
    if k.tasks[t].status == Idle {
      ResumeLost(k, s, c, t);
    } else {
      var k1 := SetStatus(k, t, Running);
      TaskStays(k, s, t, k.tasks[t].(status := Running));
      ResumeLost(k1, s, c, t);
      Both(k, k1, Resume(k1, c, t), s);
    }
  }

  /** What follows once the new task `t` is chosen. */
  lemma GoLost(k: State, s: set<Tid>, c: nat, seen: Status, t: Tid)
    requires Lost(k, s) && HasCore(k, c) && (k.cores[c].current in s ==> seen == Blocked) && t !in s
    ensures var a := PutAside(k, c, seen); Keeps(k, if t in a.tasks then SwitchTo(a, c, t) else a, s)
  {
    hide Lost, Keeps, PutAside, SwitchTo;
    AsideLost(k, s, c, seen);
    var a := PutAside(k, c, seen);
    KeepsLost(k, a, s);
    if t in a.tasks {
      SwitchLost(a, s, c, t);
      Both(k, a, SwitchTo(a, c, t), s);
    }
  }

  lemma DecideLost(k: State, s: set<Tid>, c: nat, seen: Status, expired: bool)
    requires Lost(k, s) && HasCore(k, c) && (k.cores[c].current in s ==> seen == Blocked)
    ensures Keeps(k, DecideStep(k, c, seen, expired), s)
  {
    assert LostCore(k, s, c);
    hide Lost, Keeps, PutAside, SwitchTo, Resume, Choose;
    match Choose(k, c, seen, expired)
    case Stay => ResumeLost(k, s, c, k.cores[c].current);
    case GoIdle => GoLost(k, s, c, seen, k.cores[c].idle);
    case Dispatch(level) =>
      var q := ReadyQ(c, level);
      NotLost(k, s, q, Get(k.queues, q)[0]);
      SelfQueues(k.queues, s);
      DropKeeps(k.queues, k.queues, s, q, 0);
      hide KeepsQueues, Delete;
      var k1 := k.(queues := Delete(k.queues, q, 0));
      QueuesStay(k, s, k1.queues);
      GoLost(k1, s, c, seen, Get(k.queues, q)[0]);
      Both(k, k1, DispatchStep(k, c, seen, level), s);
  }

  lemma CleanupLost(k: State, s: set<Tid>, c: nat)
    requires Lost(k, s) && HasCore(k, c) && k.cores[c].phase == Entering
    ensures Keeps(k, CleanupStep(k, c), s)
  {
    var q := FinishedQ(c);
    assert LostCore(k, s, c);
    if Get(k.queues, q) == [] {
      CoreStays(k, s, c, k.cores[c].(phase := Reading));
    } else {
      NotLost(k, s, q, Get(k.queues, q)[0]);
      SelfQueues(k.queues, s);
      DropKeeps(k.queues, k.queues, s, q, 0);
      hide Lost, Keeps, KeepsQueues, Delete;
      var k1 := k.(queues := Delete(k.queues, q, 0));
      QueuesStay(k, s, k1.queues);
      CoreStays(k1, s, c, k.cores[c].(phase := Cleaning(Get(k.queues, q)[0])));
      Both(k, k1, CleanupStep(k, c), s);
    }
  }

  lemma RemoveLost(k: State, s: set<Tid>, id: Tid)
    requires Lost(k, s) && id !in s
    ensures var k' := k.(tasks := k.tasks - {id}, registered := k.registered - {id}); Keeps(k, k', s) && Lost(k', s)
  {
    var k' := k.(tasks := k.tasks - {id}, registered := k.registered - {id});
    KeepsSelf(k, s);
    forall o | HeldUp(k, s, o) ensures HeldUp(k', s, o) {
      HeldUpStays(k, k', s, o);
    }
    forall c | 0 <= c < |k'.cores| ensures LostCore(k', s, c) {
      assert LostCore(k, s, c);
    }
    hide KeepsWaits, KeepsQueues, HeldUp;
    KeepsLost(k, k', s);
  }

  lemma ForgetLost(k: State, s: set<Tid>, c: nat)
    requires Lost(k, s) && HasCore(k, c) && k.cores[c].phase.Cleaning?
    ensures Keeps(k, ForgetStep(k, c, k.cores[c].phase.id), s)
  {
    var id := k.cores[c].phase.id;
    assert LostCore(k, s, c);
    if id in k.registered {
      var l := Get(k.queues, JoinQ(id));
      forall t | t in l ensures t !in s {
        NotLost(k, s, JoinQ(id), t);
      }
      SelfQueues(k.queues, s);
      PutKeeps(k.queues, k.queues, s, JoinQ(id), []);
      PutKeeps(k.queues, k.queues[JoinQ(id) := []], s, DrainQ(c), l);
      var m := Transfer(k.queues, JoinQ(id), DrainQ(c));
      RemoveLost(k, s, id);
      hide Lost, Keeps, KeepsQueues, Transfer;
      var k1 := k.(tasks := k.tasks - {id}, registered := k.registered - {id});
      QueuesStay(k1, s, m);
      var k2 := k1.(queues := m);
      Both(k, k1, k2, s);
      CoreStays(k2, s, c, k.cores[c].(phase := Draining));
      Both(k, k2, ForgetStep(k, c, id), s);
    } else {
      CoreStays(k, s, c, k.cores[c].(phase := Reading));
    }
  }

  lemma DrainLost(k: State, s: set<Tid>, c: nat)
    requires Lost(k, s) && HasCore(k, c) && k.cores[c].phase == Draining
    ensures Keeps(k, DrainStep(k, c), s)
  {
    var list := Get(k.queues, DrainQ(c));
    assert LostCore(k, s, c);
    KeepsSelf(k, s);
    if list == [] {
      CoreStays(k, s, c, k.cores[c].(phase := Reading));
    } else if list[0] in k.tasks {
      NotLost(k, s, DrainQ(c), list[0]);
      hide Lost, Keeps, WakeFrom;
      WakeLost(k, s, c, DrainQ(c), 0);
    }
  }

  lemma ExpireLost(k: State, s: set<Tid>, c: nat)
    requires Lost(k, s) && HasCore(k, c) && k.cores[c].phase.Ticking?
    ensures Keeps(k, ExpireStep(k, c, k.cores[c].phase.now), s)
  {
    assert LostCore(k, s, c);
    if Due(k, c) {
      NotLost(k, s, BlockedQ(c), Get(k.queues, BlockedQ(c))[0]);
      hide Lost, Keeps, WakeFrom;
      WakeLost(k, s, c, BlockedQ(c), 0);
    } else {
      CoreStays(k, s, c, k.cores[c].(phase := Entering, loud := false));
    }
  }

  lemma PushLost(k: State, s: set<Tid>, c: nat)
    requires Lost(k, s) && Get(k.queues, PushQ(c)) != [] && Get(k.queues, PushQ(c))[0] in k.tasks
    ensures Keeps(k, PushStep(k, c), s)
  {
    var t := Get(k.queues, PushQ(c))[0];
    NotLost(k, s, PushQ(c), t);
    SelfQueues(k.queues, s);
    DropKeeps(k.queues, k.queues, s, PushQ(c), 0);
    AddKeeps(k.queues, Delete(k.queues, PushQ(c), 0), s, ReadyQ(k.tasks[t].core, k.tasks[t].prio), 0, t);
    hide Lost, Keeps, KeepsQueues;
    QueuesStay(k, s, PushStep(k, c).queues);
  }

  // ----- New tasks -----

  lemma CreateLost(k: State, s: set<Tid>, target: nat, prio: nat, tid: Tid)
    requires Lost(k, s) && tid !in k.tasks
    ensures tid !in s && Keeps(k, CreateTask(k, target, prio, tid), s)
  {
    assert tid !in s by {
      assert tid in s ==> LostTask(k, s, tid);
    }
    var k1 := k.(tasks := k.tasks[tid := NewTask(Ready, prio, target)]);
    NewLost(k, s, tid, NewTask(Ready, prio, target));
    SelfQueues(k.queues, s);
    AddKeeps(k.queues, k.queues, s, ReadyQ(target, prio), 0, tid);
    hide Lost, Keeps, KeepsQueues, Append;
    QueuesStay(k1, s, Append(k.queues, ReadyQ(target, prio), tid));
    Both(k, k1, CreateTask(k, target, prio, tid), s);
  }

  lemma NewLost(k: State, s: set<Tid>, tid: Tid, x: Task)
    requires Lost(k, s) && tid !in k.tasks && tid !in s && x.inside == None
    ensures var k' := k.(tasks := k.tasks[tid := x]); Keeps(k, k', s) && Lost(k', s)
  {
    var k' := k.(tasks := k.tasks[tid := x]);
    KeepsSelf(k, s);
    forall o | HeldUp(k, s, o) ensures HeldUp(k', s, o) {
      HeldUpStays(k, k', s, o);
    }
    forall c | 0 <= c < |k'.cores| ensures LostCore(k', s, c) {
      assert LostCore(k, s, c);
    }
    hide KeepsWaits, KeepsQueues, HeldUp;
    KeepsLost(k, k', s);
  }

  lemma TasksLost(k: State, k': State, s: set<Tid>)
    requires Lost(k, s) && k' == k.(registered := k'.registered)
    ensures Keeps(k, k', s)
  {
    KeepsSelf(k, s);
    forall o | HeldUp(k, s, o) ensures HeldUp(k', s, o) {
      HeldUpStays(k, k', s, o);
    }
    forall c | 0 <= c < |k'.cores| ensures LostCore(k', s, c) {
      assert LostCore(k, s, c);
    }
  }

  lemma SpawnLost(k: State, s: set<Tid>, c: nat, target: nat, prio: nat, tid: Tid, quiet: bool)
    requires Lost(k, s) && MayCreate(k, c, target, prio, tid)
    ensures Keeps(k, SpawnStep(k, c, target, prio, tid, quiet), s)
  {
    hide Lost, Keeps, CreateTask;
    CreateLost(k, s, target, prio, tid);
    var t, k1 := k.cores[c].current, CreateTask(k, target, prio, tid);
    assert k1.tasks == k.tasks[tid := NewTask(Ready, prio, target)] by { CreatedTasks(k, target, prio, tid); }
    KeepsLost(k, k1, s);
    TaskStays(k1, s, t, k1.tasks[t].(spawning := Some(Pending(tid, quiet))));
    Both(k, k1, SpawnStep(k, c, target, prio, tid, quiet), s);
  }

  lemma CreatedTasks(k: State, target: nat, prio: nat, tid: Tid)
    ensures CreateTask(k, target, prio, tid).tasks == k.tasks[tid := NewTask(Ready, prio, target)]
  {
  }

  lemma CloneLost(k: State, s: set<Tid>, c: nat, target: nat, tid: Tid)
    requires Lost(k, s) && Enabled(k, Clone(c, target, tid))
    ensures Keeps(k, Step(k, Clone(c, target, tid)), s)
  {
    hide Lost, Keeps, CreateTask;
    CreateLost(k, s, target, Current(k, c).prio, tid);
    var k1 := CreateTask(k, target, Current(k, c).prio, tid);
    KeepsLost(k, k1, s);
    TasksLost(k1, k1.(registered := k1.registered + {tid}), s);
    Both(k, k1, k1.(registered := k1.registered + {tid}), s);
  }

  lemma RegisterLost(k: State, s: set<Tid>, c: nat)
    requires Lost(k, s) && HasCore(k, c) && Current(k, c).spawning.Some?
    ensures Keeps(k, RegisterStep(k, c), s)
  {
    hide Lost, Keeps;
    var t := k.cores[c].current;
    var k1 := k.(tasks := k.tasks[t := k.tasks[t].(spawning := None)]);
    TaskStays(k, s, t, k1.tasks[t]);
    TasksLost(k1, RegisterStep(k, c), s);
    Both(k, k1, RegisterStep(k, c), s);
  }

  /** An interrupt in the scheduler. */
  lemma NestLost(k: State, s: set<Tid>, c: nat, now: nat)
    requires Lost(k, s) && HasCore(k, c)
    ensures Keeps(k, NestStep(k, c, now), s)
  {
    assert LostCore(k, s, c);
    hide Lost, Keeps;
    var t := k.cores[c].current;
    var k1 := k.(tasks := k.tasks[t := k.tasks[t].(inside := Some(k.cores[c].phase))]);
    TaskStays(k, s, t, k1.tasks[t]);
    CoreStays(k1, s, c, k.cores[c].(phase := Ticking(now), loud := false));
    Both(k, k1, NestStep(k, c, now), s);
  }

  // ----- Every step, every run -----

  lemma StepKeepsLost(k: State, s: set<Tid>, a: Action)
    requires Lost(k, s) && Enabled(k, a)
    ensures Keeps(k, Step(k, a), s)
  {
    if a.core < |k.cores| {
      assert LostCore(k, s, a.core);
    }
    hide BlockCurrent, DecideStep, CleanupStep, ForgetStep, DrainStep, ExpireStep, PushStep, CreateTask, NestStep;
    hide SpawnStep, RegisterStep, AcquireStep, ReleaseStep, LockStep, EnqueueStep, UnlockStep, Lost, Keeps, Busy;
    match a
    case Spawn(c, target, prio, tid, quiet) => SpawnLost(k, s, c, target, prio, tid, quiet);
    case Register(c) => RegisterLost(k, s, c);
    case Clone(c, target, tid) => CloneLost(k, s, c, target, tid);
    case Exit(c) => TaskStays(k, s, k.cores[c].current, Current(k, c).(status := Finished));
    case Yield(c) => CoreStays(k, s, c, k.cores[c].(phase := Entering, loud := false));
    case Call(c) => CoreStays(k, s, c, k.cores[c].(phase := Entering, loud := true));
    case Cleanup(c) => CleanupLost(k, s, c);
    case Forget(c) => ForgetLost(k, s, c);
    case Drain(c) => DrainLost(k, s, c);
    case Push(c) => PushLost(k, s, c);
    case Read(c) => CoreStays(k, s, c, k.cores[c].(phase := Deciding(Current(k, c).status)));
    case Decide(c, expired) => DecideLost(k, s, c, k.cores[c].phase.seen, expired);
    case Join(c, tid) =>
      KeepsSelf(k, s);
      BlockLost(k, s, c, JoinQ(tid), None);
    case Sleep(c, until) => BlockLost(k, s, c, BlockedQ(c), Some(until));
    case Tick(c, now) => CoreStays(k, s, c, k.cores[c].(phase := Ticking(now)));
    case Nest(c, now) => NestLost(k, s, c, now);
    case NestLate(c, now) => NestLost(k, s, c, now);
    case Expire(c) => ExpireLost(k, s, c);
    case Acquire(c, o, until) => AcquireLost(k, s, c, o, until);
    case TryAcquire(c, o) =>
      KeepsSelf(k, s);
      AcquireLost(k, s, c, o, None);
    case Release(c, o) => ReleaseLost(k, s, c, o);
    case Lock(c, o) => LockLost(k, s, c, o);
    case Enqueue(c) => EnqueueLost(k, s, c);
    case Unlock(c, o) => UnlockLost(k, s, c, o);
  }

  /** What remains of a lost set: it is lost, whoever waits in `join` for a member still does, and members that hold a
      spinlock keep it. */
  ghost predicate StillLost(k: State, k': State, s: set<Tid>) {
    && Lost(k', s)
    && (forall t, j :: t in s && j in Get(k.queues, JoinQ(t)) ==> j in Get(k'.queues, JoinQ(t)))
    && (forall t :: t in s && t in k.tasks ==> t in k'.tasks && k'.tasks[t].queueing == k.tasks[t].queueing)
  }

  lemma StepLost(k: State, s: set<Tid>, a: Action)
    requires Lost(k, s) && Enabled(k, a)
    ensures StillLost(k, Step(k, a), s)
  {
    hide Lost, Step, Enabled;
    StepKeepsLost(k, s, a);
    KeepsLost(k, Step(k, a), s);
  }

  /** Whatever happens next, no member of a lost set runs again, and whoever joins one is never woken. */
  lemma {:induction false} LostForEver(k: State, s: set<Tid>, actions: seq<Action>)
    requires Lost(k, s) && Run(k, actions).Some?
    ensures StillLost(k, Run(k, actions).value, s)
    decreases |actions|
  {
    hide Lost, Step, Enabled;
    if actions != [] {
      StepLost(k, s, actions[0]);
      LostForEver(Step(k, actions[0]), s, actions[1..]);
    }
  }
}
