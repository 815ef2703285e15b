/**
 The order in which semaphores and mutexes serve their waiters: by priority, and first come first served within one.
 */
module KernelWaiters {
  import opened Registry
  import opened Kernel
  import opened KernelSafety
  import opened KernelSync
  import opened Options
  import opened Priorities

  // ----- What one step does to a wait queue -----

  /** The step wakes a waiter of object `o`, if there is one: a release of a semaphore, or the unlock of a mutex that
      makes it free. */
  predicate Serves(k: State, a: Action, o: nat) {
    o in k.objects
    && match a
       case Release(c, x) => x == o
       case Unlock(c, x) => x == o && k.objects[o].Mutex? && k.objects[o].depth == 1
       case _ => false
  }

  /** The task of the step enters queue `w`: it finds no token in the semaphore, or ends the first half of a lock. */
  predicate Enters(k: State, a: Action, w: WaitId) {
    HasCore(k, a.core) && w.prio == Current(k, a.core).prio
    && match a
       case Acquire(c, o, until) => w.obj == o && o in k.objects && k.objects[o].Semaphore? && k.objects[o].count <= 0
       case Enqueue(c) => Current(k, c).queueing == Some(w.obj)
       case _ => false
  }

  /** `w` is the highest nonempty level of its object. */
  predicate TopLevel(k: State, w: WaitId) {
    && w.prio < NO_PRIORITIES && Get(k.waits, w) != []
    && forall p :: w.prio < p < NO_PRIORITIES ==> Get(k.waits, WaitQ(w.obj, p)) == []
  }

  /** Every wait queue after a step: its first task has gone if the object was served and the queue was the highest
      nonempty level, and the task that begins to wait is at the end. */
  lemma WaitStep(k: State, a: Action, w: WaitId)
    requires Enabled(k, a)
    ensures Get(Step(k, a).waits, w)
            == (if Serves(k, a, w.obj) && TopLevel(k, w) then Get(k.waits, w)[1..] else Get(k.waits, w))
               + (if Enters(k, a, w) then [k.cores[a.core].current] else [])
  {
    hide TopLevel;
    if a.Release? || a.Unlock? {
      ServedQueue(k, a, w);
      hide Step;
    } else if a.Acquire? || a.TryAcquire? || a.Lock? || a.Enqueue? {
      EnteredQueue(k, a, w);
      hide Step;
    } else {
      hide Step, Enabled;
      OtherStepsKeepObjects(k, a);
    }
  }

  lemma ServedQueue(k: State, a: Action, w: WaitId)
    requires Enabled(k, a) && (a.Release? || a.Unlock?)
    ensures Get(Step(k, a).waits, w)
            == if Serves(k, a, w.obj) && TopLevel(k, w) then Get(k.waits, w)[1..] else Get(k.waits, w)
  {
    hide ReleaseStep, UnlockStep, TopLevel;
    match a
    case Release(c, o) => ReleaseQueue(k, c, o, w);
    case Unlock(c, o) => UnlockQueue(k, c, o, w);
  }

  lemma EnteredQueue(k: State, a: Action, w: WaitId)
    requires Enabled(k, a) && (a.Acquire? || a.TryAcquire? || a.Lock? || a.Enqueue?)
    ensures Get(Step(k, a).waits, w)
            == Get(k.waits, w) + if Enters(k, a, w) then [k.cores[a.core].current] else []
  {
    hide AcquireStep, LockStep;
    match a
    case Acquire(c, o, until) => AcquireQueue(k, c, o, until, w);
    case TryAcquire(c, o) => AcquireQueue(k, c, o, None, w);
    case Lock(c, o) => LockQueue(k, c, o);
    case Enqueue(c) =>
  }

  lemma AcquireQueue(k: State, c: nat, o: nat, until: Option<nat>, w: WaitId)
    requires HasCore(k, c) && o in k.objects && k.objects[o].Semaphore?
    ensures Get(AcquireStep(k, c, o, until).waits, w)
            == Get(k.waits, w) + if Enters(k, Acquire(c, o, until), w) then [k.cores[c].current] else []
  {
    hide BlockInAcquire;
    assert StopRetrying(k, c).waits == k.waits;
  }

  lemma LockQueue(k: State, c: nat, o: nat)
    requires HasCore(k, c) && o in k.objects && k.objects[o].Mutex?
    ensures LockStep(k, c, o).waits == k.waits
  {
    hide BlockInAcquire;
    assert StopRetrying(k, c).waits == k.waits;
  }

  lemma WakeQueue(k: State, c: nat, o: nat, w: WaitId)
    requires o in k.objects
    ensures Get(WakeWaiter(k, c, o).waits, w)
            == if w.obj == o && TopLevel(k, w) then Get(k.waits, w)[1..] else Get(k.waits, w)
  {
    var top := TopWait(k.waits, o, NO_PRIORITIES);
    if top >= 0 {
      assert TopLevel(k, w) && w.obj == o ==> w.prio == top;
      assert TopLevel(k, WaitQ(o, top));
      assert RemoveAt(Get(k.waits, WaitQ(o, top)), 0) == Get(k.waits, WaitQ(o, top))[1..];
    }
  }

  lemma ReleaseQueue(k: State, c: nat, o: nat, w: WaitId)
    requires o in k.objects && k.objects[o].Semaphore?
    ensures Get(ReleaseStep(k, c, o).waits, w)
            == if w.obj == o && TopLevel(k, w) then Get(k.waits, w)[1..] else Get(k.waits, w)
  {
    var s := k.objects[o];
    WakeQueue(k.(objects := k.objects[o := s.(count := s.count + 1, released := s.released + 1)]), c, o, w);
    hide WakeWaiter;
  }

  lemma UnlockQueue(k: State, c: nat, o: nat, w: WaitId)
    requires HasCore(k, c) && o in k.objects && k.objects[o].Mutex? && k.objects[o].depth > 0
    ensures Get(UnlockStep(k, c, o).waits, w)
            == if w.obj == o && k.objects[o].depth == 1 && TopLevel(k, w) then Get(k.waits, w)[1..] else Get(k.waits, w)
  {
    var m := k.objects[o];
    var n := if Nesting(m, k.cores[c].current) > 0 then Nesting(m, k.cores[c].current) - 1 else 0;
    var m1 := m.(depth := m.depth - 1, nesting := m.nesting[k.cores[c].current := n]);
    WakeQueue(k.(objects := k.objects[o := m1.(owner := None)]), c, o, w);
    hide WakeWaiter;
  }

  // ----- Who is woken -----

  /** `t` is the `at`-th task of the highest nonempty level `p` of the wait queue of object `o`. */
  predicate InLine(k: State, o: nat, p: nat, t: Tid, at: nat) {
    TopLevel(k, WaitQ(o, p)) && at < |Get(k.waits, WaitQ(o, p))| && Get(k.waits, WaitQ(o, p))[at] == t
  }

  /** Core `c` is waking `t`, which is ready and will try again to get `o`. */
  predicate Wakes(k: State, c: nat, t: Tid, o: nat) {
    t in k.tasks && k.tasks[t].status == Ready && k.tasks[t].retrying == Some(o) && Get(k.queues, PushQ(c)) == [t]
  }

  /** One step: serving the object brings the task one place forward or wakes it, any other step leaves it in place. */
  lemma StepServes(k: State, a: Action, o: nat, p: nat, t: Tid, at: nat)
    requires Inv(k) && Enabled(k, a) && InLine(k, o, p, t, at)
    ensures var q := Get(Step(k, a).waits, WaitQ(o, p));
            if Serves(k, a, o) then
              if at == 0 then Wakes(Step(k, a), a.core, t, o)
              else at - 1 < |q| && q[at - 1] == t
            else at < |q| && q[at] == t
  {
    WaitStep(k, a, WaitQ(o, p));
    if Serves(k, a, o) && at == 0 {
      FirstIsWoken(k, a, o, p, t);
    }
    hide Inv, Step;
  }

  lemma FirstIsWoken(k: State, a: Action, o: nat, p: nat, t: Tid)
    requires Inv(k) && Enabled(k, a) && InLine(k, o, p, t, 0) && Serves(k, a, o)
    ensures Wakes(Step(k, a), a.core, t, o)
  {
    var c := a.core;
    var w := WaitQ(o, p);
    assert t in Get(k.waits, w);
    assert WaiterFits(k, w, t);
    assert TopWait(k.waits, o, NO_PRIORITIES) == p;
    if a.Release? {
      var s := k.objects[o];
      HeadIsWoken(k.(objects := k.objects[o := s.(count := s.count + 1, released := s.released + 1)]), c, o, p, t);
      hide Inv, WakeWaiter;
    } else {
      var m, u := k.objects[o], k.cores[c].current;
      var n := if Nesting(m, u) > 0 then Nesting(m, u) - 1 else 0;
      var m1 := m.(depth := m.depth - 1, nesting := m.nesting[u := n]);
      HeadIsWoken(k.(objects := k.objects[o := m1.(owner := None)]), c, o, p, t);
      hide Inv, WakeWaiter;
    }
  }

  lemma HeadIsWoken(k: State, c: nat, o: nat, p: nat, t: Tid)
    requires o in k.objects && TopWait(k.waits, o, NO_PRIORITIES) == p && Get(k.waits, WaitQ(o, p))[0] == t
    requires t in k.tasks && t in Get(k.queues, BlockedQ(k.tasks[t].core)) && Get(k.queues, PushQ(c)) == []
    ensures Wakes(WakeWaiter(k, c, o), c, t, o)
  {
  }

  /** How many steps of the run serve object `o`. */
  ghost function ServiceCount(k: State, actions: seq<Action>, o: nat): nat
    decreases |actions|
  {
    if actions == [] || !Enabled(k, actions[0]) then 0
    else (if Serves(k, actions[0], o) then 1 else 0) + ServiceCount(Step(k, actions[0]), actions[1..], o)
  }

  /** Throughout the run nobody of a higher priority than `p` waits for object `o`. */
  ghost predicate NobodyAbove(k: State, actions: seq<Action>, o: nat, p: nat)
    decreases |actions|
  {
    && (forall q :: p < q < NO_PRIORITIES ==> Get(k.waits, WaitQ(o, q)) == [])
    && (actions != [] && Enabled(k, actions[0]) ==> NobodyAbove(Step(k, actions[0]), actions[1..], o, p))
  }

  /** At some point of the run `t` has been woken for object `o`. */
  ghost predicate EventuallyWoken(k: State, actions: seq<Action>, t: Tid, o: nat)
    decreases |actions|
  {
    || (exists c :: Wakes(k, c, t, o))
    || (actions != [] && Enabled(k, actions[0]) && EventuallyWoken(Step(k, actions[0]), actions[1..], t, o))
  }

  /** With `at` tasks ahead of it a waiter is woken by the release after the next `at` of them at the latest, if nobody
      of a higher priority begins to wait meanwhile. */
  lemma {:induction false} BoundedService(k: State, actions: seq<Action>, o: nat, p: nat, t: Tid, at: nat)
    requires Inv(k) && Run(k, actions).Some? && TameRun(k, actions)
    requires InLine(k, o, p, t, at) && NobodyAbove(k, actions, o, p) && ServiceCount(k, actions, o) > at
    ensures EventuallyWoken(k, actions, t, o)
    decreases |actions|
  {
    var a := actions[0];
    var k' := Step(k, a);
    StepKeeps(k, a);
    StepServes(k, a, o, p, t, at);
    hide Inv, Step, Enabled;
    if Serves(k, a, o) && at == 0 {
      assert EventuallyWoken(k', actions[1..], t, o);
    } else {
      BoundedService(k', actions[1..], o, p, t, if Serves(k, a, o) then at - 1 else at);
    }
  }
}
