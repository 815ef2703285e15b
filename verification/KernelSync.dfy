/**
 Semaphores and recursive mutexes inside the running kernel: no wakeup is lost, counts are conserved, and
 a mutex has at most one owner.
 */
module KernelSync {
  import opened Registry
  import opened Kernel
  import opened KernelSafety
  import opened KernelTheorems
  import opened Options
  import opened Priorities

  ghost predicate Waiting(k: State, o: nat) {
    exists p :: Get(k.waits, WaitQ(o, p)) != []
  }

  /** The promise of one object.  For a semaphore: while a task waits, `count` is at most the number of
      tasks that have been woken and have yet to try again; `count` is what was put in minus what was taken
      out.  For a mutex: it is owned exactly while its count is positive, the count is the nesting depth of
      the owner and nobody else has locked it; while a task waits, it is owned or a woken task has yet to try. */
  ghost predicate ObjectOk(k: State, o: nat)
    requires o in k.objects
  {
    match k.objects[o]
    case Semaphore(count, woken, initial, released, acquired) =>
      && (Waiting(k, o) ==> count <= |woken|)
      && count == initial + released - acquired
    case Mutex(owner, depth, woken, nesting) =>
      && (owner.Some? <==> depth > 0)
      && (forall t: Tid :: Nesting(k.objects[o], t) == if owner == Some(t) then depth else 0)
      && (Waiting(k, o) ==> owner.Some? || woken != {})
  }

  /** While a task is about to enter the wait queue of a mutex, the mutex stays locked. */
  predicate Owned(k: State, t: Tid)
    requires t in k.tasks
  {
    var o := k.tasks[t].queueing;
    o.Some? ==> o.value in k.objects && k.objects[o.value].Mutex? && k.objects[o.value].owner.Some?
  }

  ghost predicate SyncInv(k: State) {
    (forall o :: o in k.objects ==> ObjectOk(k, o)) && (forall t :: t in k.tasks ==> Owned(k, t))
  }

  /** Nobody is about to enter another wait queue than before. */
  predicate SameQueueing(k: State, k': State) {
    forall t :: t in k'.tasks && k'.tasks[t].queueing.Some? ==>
      t in k.tasks && k.tasks[t].queueing == k'.tasks[t].queueing && k.tasks[t].core == k'.tasks[t].core
  }

  lemma InitialSync(k: State)
    requires Initial(k)
    ensures SyncInv(k)
  {
  }

  lemma SameObjects(k: State, k': State)
    requires SyncInv(k) && k'.objects == k.objects && k'.waits == k.waits && SameQueueing(k, k')
    ensures SyncInv(k')
  {
    forall t | t in k'.tasks ensures Owned(k', t) {
      assert t in k.tasks ==> Owned(k, t);
    }
    forall o | o in k'.objects ensures ObjectOk(k', o) {
      assert ObjectOk(k, o);
      assert Waiting(k', o) <==> Waiting(k, o);
    }
  }

  /** Only object `o` and its wait queue change. */
  ghost predicate OnlyObject(k: State, k': State, o: nat) {
    && o in k.objects && k'.objects.Keys == k.objects.Keys
    && (forall x :: x in k.objects && x != o ==> k'.objects[x] == k.objects[x])
    && (forall x, p :: x != o ==> Get(k'.waits, WaitQ(x, p)) == Get(k.waits, WaitQ(x, p)))
  }

  lemma ObjectStep(k: State, k': State, o: nat)
    requires SyncInv(k) && OnlyObject(k, k', o) && ObjectOk(k', o)
    requires SameQueueing(k, k') && (k'.objects[o].Semaphore? || k'.objects[o].owner.Some? || !Busy(k, o))
    requires k'.objects[o].Mutex? == k.objects[o].Mutex?
    ensures SyncInv(k')
  {
    forall t | t in k'.tasks ensures Owned(k', t) {
      assert t in k.tasks ==> Owned(k, t);
    }
    forall x | x in k'.objects ensures ObjectOk(k', x) {
      if x != o {
        assert ObjectOk(k, x);
        assert Waiting(k', x) <==> Waiting(k, x);
      }
    }
  }

  // ----- What the building blocks do to the objects -----

  /** Trying again: the woken set of the object loses the current task, if it was in there. */
  lemma StopRetryingObjects(k: State, c: nat, o: nat)
    requires Inv(k) && MayTry(k, c, o)
    ensures var k1 := StopRetrying(k, c);
            && k1.waits == k.waits && k1.objects.Keys == k.objects.Keys
            && (forall x :: x in k.objects && x != o ==> k1.objects[x] == k.objects[x])
            && k1.objects[o] == k.objects[o].(woken := k.objects[o].woken - {k.cores[c].current})
            && SameQueueing(k, k1)
  {
    var t := k.cores[c].current;
    assert RetryOk(k, t);
    assert t in k.objects[o].woken ==> k.tasks[t].retrying == Some(o);
  }

  lemma BlockedObjects(k: State, c: nat, o: nat, until: Option<nat>)
    requires Inv(k) && MayTry(k, c, o)
    ensures var k1 := BlockInAcquire(k, c, until);
            && k1.waits == k.waits && k1.objects.Keys == k.objects.Keys
            && (forall x :: x in k.objects && x != o ==> k1.objects[x] == k.objects[x])
            && k1.objects[o] == k.objects[o].(woken := k.objects[o].woken - {k.cores[c].current})
            && SameQueueing(k, k1) && k.cores[c].current in k1.tasks
  {
    StopRetryingObjects(k, c, o);
    hide Inv;
  }

  lemma WaitForObjects(k: State, c: nat, o: nat, until: Option<nat>)
    requires Inv(k) && MayTry(k, c, o)
    ensures var k1 := WaitFor(k, c, o, until);
            OnlyObject(k, k1, o) && SameQueueing(k, k1)
            && k1.objects[o] == k.objects[o].(woken := k.objects[o].woken - {k.cores[c].current})
  {
    BlockedObjects(k, c, o, until);
    hide Inv, BlockInAcquire;
  }

  /** A wakeup: if somebody waits, one task leaves the wait queue and joins the woken set. */
  lemma WakeWaiterObjects(k: State, c: nat, o: nat)
    requires Inv(k) && o in k.objects
    ensures var k1 := WakeWaiter(k, c, o);
            && OnlyObject(k, k1, o) && SameQueueing(k, k1)
            && if Waiting(k, o) then
                 exists t :: t !in k.objects[o].woken && k1.objects[o] ==
                   k.objects[o].(woken := k.objects[o].woken + {t})
               else k1 == k
  {
    var top := TopWait(k.waits, o, NO_PRIORITIES);
    if Waiting(k, o) {
      var p :| Get(k.waits, WaitQ(o, p)) != [];
      var u := Get(k.waits, WaitQ(o, p))[0];
      assert WaiterFits(k, WaitQ(o, p), u) && TaskOk(k, u);
      assert top >= 0;
      var t := Get(k.waits, WaitQ(o, top))[0];
      assert WaiterFits(k, WaitQ(o, top), t) && Fits(k, BlockedQ(k.tasks[t].core), t) && RetryOk(k, t);
      assert t !in k.objects[o].woken;
    } else {
      assert forall p :: Get(k.waits, WaitQ(o, p)) == [];
    }
  }

  // ----- The steps that touch objects -----

  lemma AcquireSync(k: State, c: nat, o: nat, until: Option<nat>)
    requires Inv(k) && SyncInv(k) && MayTry(k, c, o) && k.objects[o].Semaphore?
    ensures SyncInv(AcquireStep(k, c, o, until))
  {
    hide Inv;
    var k' := AcquireStep(k, c, o, until);
    var t := k.cores[c].current;
    assert ObjectOk(k, o);
    if k.objects[o].count > 0 {
      StopRetryingObjects(k, c, o);
      hide StopRetrying;
      assert |k.objects[o].woken - {t}| >= |k.objects[o].woken| - 1;
      assert Waiting(k', o) <==> Waiting(k, o);
    } else {
      WaitForObjects(k, c, o, until);
      hide WaitFor;
    }
    ObjectStep(k, k', o);
  }

  lemma ReleaseSync(k: State, c: nat, o: nat)
    requires Inv(k) && SyncInv(k) && o in k.objects && k.objects[o].Semaphore?
    ensures SyncInv(ReleaseStep(k, c, o))
  {
    var s := k.objects[o];
    var s1 := s.(count := s.count + 1, released := s.released + 1);
    var k1 := k.(objects := k.objects[o := s1]);
    assert ObjectOk(k, o);
    assert Waiting(k1, o) <==> Waiting(k, o);
    ObjectKeeps(k, o, s1);
    hide Inv;
    WakeWaiterObjects(k1, c, o);
    hide WakeWaiter;
    ObjectStep(k, ReleaseStep(k, c, o), o);
  }

  lemma LockSync(k: State, c: nat, o: nat)
    requires Inv(k) && SyncInv(k) && MayTry(k, c, o) && k.objects[o].Mutex?
    ensures SyncInv(LockStep(k, c, o))
  {
    hide Inv;
    var k' := LockStep(k, c, o);
    var t, m := k.cores[c].current, k.objects[o];
    assert ObjectOk(k, o);
    if m.owner == Some(t) || m.owner.None? {
      StopRetryingObjects(k, c, o);
      hide StopRetrying;
      ObjectStep(k, k', o);
    } else {
      BlockedObjects(k, c, o, None);
      var k1 := BlockInAcquire(k, c, None);
      hide BlockInAcquire;
      assert forall x: Tid :: Nesting(k1.objects[o], x) == Nesting(m, x);
      assert Waiting(k1, o) <==> Waiting(k, o);
      ObjectStep(k, k1, o);
      BeginQueueing(k1, o, t);
    }
  }

  lemma BeginQueueing(k: State, o: nat, t: Tid)
    requires SyncInv(k) && t in k.tasks && o in k.objects && k.objects[o].Mutex? && k.objects[o].owner.Some?
    ensures SyncInv(k.(tasks := k.tasks[t := k.tasks[t].(queueing := Some(o))]))
  {
    var k' := k.(tasks := k.tasks[t := k.tasks[t].(queueing := Some(o))]);
    forall x | x in k'.objects ensures ObjectOk(k', x) {
      assert ObjectOk(k, x);
      assert Waiting(k', x) <==> Waiting(k, x);
    }
    forall x | x in k'.tasks ensures Owned(k', x) {
      assert Owned(k, x);
    }
  }

  lemma EnqueueSync(k: State, c: nat)
    requires SyncInv(k) && HasCore(k, c) && Current(k, c).queueing.Some?
    ensures SyncInv(EnqueueStep(k, c))
  {
    var o := Current(k, c).queueing.value;
    assert Owned(k, k.cores[c].current) && ObjectOk(k, o);
    ObjectStep(k, EnqueueStep(k, c), o);
  }

  lemma UnlockSync(k: State, c: nat, o: nat)
    requires Inv(k) && SyncInv(k) && Enabled(k, Unlock(c, o))
    ensures SyncInv(UnlockStep(k, c, o))
  {
    var t, m := k.cores[c].current, k.objects[o];
    assert ObjectOk(k, o);
    var m1 := m.(depth := m.depth - 1, nesting := m.nesting[t := Nesting(m, t) - 1]);
    forall x: Tid ensures Nesting(m1, x) == if x == t then m.depth - 1 else 0 {
      assert Nesting(m, x) == if x == t then m.depth else 0;
    }
    if m1.depth == 0 {
      var k1 := k.(objects := k.objects[o := m1.(owner := None)]);
      ObjectKeeps(k, o, m1.(owner := None));
      hide Inv;
      WakeWaiterObjects(k1, c, o);
      hide WakeWaiter;
      assert forall x: Tid :: Nesting(UnlockStep(k, c, o).objects[o], x) == Nesting(m1, x);
      assert Waiting(k1, o) <==> Waiting(k, o);
      assert UnlockStep(k, c, o) == WakeWaiter(k1, c, o);
      if !Waiting(k1, o) {
        assert UnlockStep(k, c, o) == k1;
      }
    }
    ObjectStep(k, UnlockStep(k, c, o), o);
  }

  /** A step that leaves objects and wait queues alone. */
  predicate SameSync(k: State, k': State) {
    k'.objects == k.objects && k'.waits == k.waits && SameQueueing(k, k')
  }

  lemma OtherStepsKeepObjects(k: State, a: Action)
    requires Enabled(k, a) && !a.Acquire? && !a.TryAcquire? && !a.Release? && !a.Lock? && !a.Enqueue? && !a.Unlock?
    ensures SameSync(k, Step(k, a))
  {
    hide DecideStep, CleanupStep, ForgetStep, DrainStep, PushStep, ExpireStep, BlockCurrent, SpawnStep, CreateTask,
      NestStep;
    match a
    case Decide(c, expired) => DecideKeepsObjects(k, c, k.cores[c].phase.seen, expired);
    case Spawn(c, target, prio, tid, quiet) => CreateKeepsObjects(k, c, target, prio, tid, quiet);
    case Clone(c, target, tid) => CreateKeepsObjects(k, c, target, Current(k, c).prio, tid, false);
    case Cleanup(c) => CleanupKeepsObjects(k, c, 0);
    case Forget(c) => CleanupKeepsObjects(k, c, k.cores[c].phase.id);
    case Drain(c) => WakeupKeepsObjects(k, c, 0);
    case Expire(c) => WakeupKeepsObjects(k, c, k.cores[c].phase.now);
    case Push(c) => PushKeepsObjects(k, c);
    case Join(c, tid) => BlockKeepsObjects(k, c, JoinQ(tid), None, 0);
    case Sleep(c, until) => BlockKeepsObjects(k, c, BlockedQ(c), Some(until), 0);
    case Nest(c, now) => BlockKeepsObjects(k, c, BlockedQ(c), None, now);
    case NestLate(c, now) => BlockKeepsObjects(k, c, BlockedQ(c), None, now);
    case _ =>
  }

  lemma CreateKeepsObjects(k: State, c: nat, target: nat, prio: nat, tid: Tid, quiet: bool)
    requires HasCore(k, c) && tid !in k.tasks
    ensures SameSync(k, CreateTask(k, target, prio, tid)) && SameSync(k, SpawnStep(k, c, target, prio, tid, quiet))
  {
  }

  lemma CleanupKeepsObjects(k: State, c: nat, id: Tid)
    requires HasCore(k, c)
    ensures SameSync(k, CleanupStep(k, c)) && SameSync(k, ForgetStep(k, c, id))
  {
  }

  lemma WakeupKeepsObjects(k: State, c: nat, now: nat)
    requires HasCore(k, c)
    ensures SameSync(k, DrainStep(k, c)) && SameSync(k, ExpireStep(k, c, now))
  {
  }

  lemma PushKeepsObjects(k: State, c: nat)
    requires Get(k.queues, PushQ(c)) != [] && Get(k.queues, PushQ(c))[0] in k.tasks
    ensures SameSync(k, PushStep(k, c))
  {
  }

  lemma BlockKeepsObjects(k: State, c: nat, q: QueueId, until: Option<nat>, now: nat)
    requires HasCore(k, c)
    ensures SameSync(k, BlockCurrent(k, c, q, until)) && SameSync(k, NestStep(k, c, now))
  {
  }

  lemma SyncTrans(k: State, k1: State, k2: State)
    requires SameSync(k, k1) && SameSync(k1, k2)
    ensures SameSync(k, k2)
  {
  }

  lemma DecideKeepsObjects(k: State, c: nat, seen: Status, expired: bool)
    requires HasCore(k, c)
    ensures SameSync(k, DecideStep(k, c, seen, expired))
  {
    hide Choose, PutAside, SwitchTo, Resume, SameSync;
    match Choose(k, c, seen, expired)
    case Stay => SwitchKeepsQueueing(k, c, k.cores[c].current);
    case Dispatch(level) =>
      DispatchKeepsObjects(k.(queues := Delete(k.queues, ReadyQ(c, level), 0)), k, c, seen,
                           Get(k.queues, ReadyQ(c, level))[0]);
    case GoIdle => DispatchKeepsObjects(k, k, c, seen, k.cores[c].idle);
  }

  lemma DispatchKeepsObjects(k1: State, k: State, c: nat, seen: Status, t: Tid)
    requires HasCore(k, c) && k1 == k.(queues := k1.queues)
    ensures var a := PutAside(k1, c, seen); SameSync(k, if t in a.tasks then SwitchTo(a, c, t) else a)
  {
    AsideKeepsQueueing(k1, c, seen);
    assert SameSync(k, k1);
    hide PutAside, SwitchTo, SameSync;
    var a := PutAside(k1, c, seen);
    SyncTrans(k, k1, a);
    if t in a.tasks {
      SwitchKeepsQueueing(a, c, t);
      SyncTrans(k, a, SwitchTo(a, c, t));
    }
  }

  lemma AsideKeepsQueueing(k: State, c: nat, seen: Status)
    requires HasCore(k, c)
    ensures SameSync(k, PutAside(k, c, seen))
  {
  }

  lemma SwitchKeepsQueueing(k: State, c: nat, t: Tid)
    requires c < |k.cores| && t in k.tasks
    ensures SameSync(k, SwitchTo(k, c, t)) && SameSync(k, Resume(k, c, t))
  {
  }

  lemma StepSync(k: State, a: Action)
    requires Inv(k) && SyncInv(k) && Enabled(k, a)
    ensures SyncInv(Step(k, a))
  {
    hide Inv;
    hide SyncInv;
    match a
    case Acquire(c, o, until) => AcquireSync(k, c, o, until);
    case TryAcquire(c, o) => AcquireSync(k, c, o, None);
    case Release(c, o) => ReleaseSync(k, c, o);
    case Lock(c, o) => LockSync(k, c, o);
    case Enqueue(c) => EnqueueSync(k, c);
    case Unlock(c, o) => UnlockSync(k, c, o);
    case _ =>
      OtherStepsKeepObjects(k, a);
      SameObjects(k, Step(k, a));
  }

  lemma {:induction false} RunSync(k: State, actions: seq<Action>)
    requires Inv(k) && SyncInv(k) && TameRun(k, actions) && Run(k, actions).Some?
    ensures SyncInv(Run(k, actions).value)
    decreases |actions|
  {
    if actions != [] {
      StepKeeps(k, actions[0]);
      StepSync(k, actions[0]);
      hide Inv;
      hide Step;
      RunSync(Step(k, actions[0]), actions[1..]);
    }
  }

  lemma ReachableSync(k: State)
    requires Reachable(k)
    ensures SyncInv(k)
  {
    var start, actions :| Initial(start) && Run(start, actions) == Some(k) && TameRun(start, actions);
    InitialInv(start);
    InitialSync(start);
    RunSync(start, actions);
  }

  // ----- What users of the primitives can rely on -----

  /** A task that has been woken inside `acquire` and will try again as soon as it gets the processor. */
  predicate WillRetry(k: State, t: Tid, o: nat) {
    t in k.tasks && k.tasks[t].retrying == Some(o) && (k.tasks[t].status == Ready || k.tasks[t].status == Running)
  }

  lemma WokenWillRetry(k: State, o: nat, t: Tid)
    requires Inv(k) && o in k.objects && t in k.objects[o].woken
    ensures WillRetry(k, t, o)
  {
    assert RetryOk(k, t);
  }

  /** No lost wakeup: a positive count and a waiting task imply that some task is on its way to try again. */
  lemma SemaphoreNeverLosesWakeup(k: State, o: nat)
    requires Reachable(k) && o in k.objects && k.objects[o].Semaphore?
    ensures k.objects[o].count == k.objects[o].initial + k.objects[o].released - k.objects[o].acquired
    ensures Waiting(k, o) ==> k.objects[o].count <= |k.objects[o].woken|
    ensures forall t :: t in k.objects[o].woken ==> WillRetry(k, t, o)
    ensures Waiting(k, o) && k.objects[o].count > 0 ==> exists t :: WillRetry(k, t, o)
  {
    ReachableInv(k);
    ReachableSync(k);
    hide Inv;
    hide Reachable;
    assert ObjectOk(k, o);
    forall t | t in k.objects[o].woken ensures WillRetry(k, t, o) {
      WokenWillRetry(k, o, t);
    }
    if Waiting(k, o) && k.objects[o].count > 0 {
      assert k.objects[o].woken != {};
      var t :| t in k.objects[o].woken;
      assert WillRetry(k, t, o);
    }
  }

  /** Mutual exclusion, nesting, and no lost wakeup of the recursive mutex, if only owners unlock it. */
  lemma MutexIsExclusive(k: State, o: nat)
    requires Reachable(k) && o in k.objects && k.objects[o].Mutex?
    ensures k.objects[o].owner.Some? <==> k.objects[o].depth > 0
    ensures forall t: Tid, u: Tid :: Nesting(k.objects[o], t) > 0 && Nesting(k.objects[o], u) > 0 ==> t == u
    ensures forall t: Tid :: Nesting(k.objects[o], t) > 0 ==>
              k.objects[o].owner == Some(t) && Nesting(k.objects[o], t) == k.objects[o].depth
    ensures Waiting(k, o) ==> k.objects[o].owner.Some? || exists t :: WillRetry(k, t, o)
  {
    ReachableInv(k);
    ReachableSync(k);
    hide Inv;
    hide Reachable;
    assert ObjectOk(k, o);
    if Waiting(k, o) && k.objects[o].owner.None? {
      var t :| t in k.objects[o].woken;
      WokenWillRetry(k, o, t);
    }
  }
}
