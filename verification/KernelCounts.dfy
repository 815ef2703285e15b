/**
 Semaphores and mutexes against the calls that were made.  What an object holds after a run is computed here from the
 actions of the run alone: a semaphore is a counter that is never taken below zero, and a mutex is held by the task that
 has locked it more often than unlocked it.
 */
module KernelCounts {
  import opened Kernel
  import opened KernelSafety
  import opened KernelSync
  import opened Options

  // ----- What one step does to an object -----

  /** The task that makes the step is still running after it: it was not made to wait. */
  predicate GoesThrough(k: State, a: Action)
    requires Enabled(k, a)
  {
    HasCore(k, a.core) && k.cores[a.core].current in Step(k, a).tasks
    && Step(k, a).tasks[k.cores[a.core].current].status == Running
  }

  lemma AcquireThrough(k: State, c: nat, o: nat, until: Option<nat>)
    requires Inv(k) && MayTry(k, c, o) && k.objects[o].Semaphore?
    ensures var k', t := AcquireStep(k, c, o, until), k.cores[c].current;
            && o in k'.objects && k'.objects[o].Semaphore? && t in k'.tasks
            && k'.tasks[t].retrying == None && t !in k'.objects[o].woken
            && (k'.tasks[t].status == Running <==> k.objects[o].count > 0)
            && k'.objects[o].count == k.objects[o].count - (if k.objects[o].count > 0 then 1 else 0)
            && k'.objects[o].acquired == k.objects[o].acquired + (if k.objects[o].count > 0 then 1 else 0)
            && k'.objects[o].initial == k.objects[o].initial && k'.objects[o].released == k.objects[o].released
            && forall x :: x in k.objects && x != o ==>
                 x in k'.objects && k'.objects[x] == k.objects[x]
  {
    if k.objects[o].count > 0 {
      StopRetryingObjects(k, c, o);
      StopRetryingKeeps(k, c);
    } else {
      BlockInAcquireKeeps(k, c, o, until);
      BlockedObjects(k, c, o, until);
      hide Inv, BlockInAcquire;
    }
  }

  lemma LockThrough(k: State, c: nat, o: nat)
    requires Inv(k) && MayTry(k, c, o) && k.objects[o].Mutex?
    ensures var k', t, m := LockStep(k, c, o), k.cores[c].current, k.objects[o];
            && o in k'.objects && k'.objects[o].Mutex? && t in k'.tasks
            && k'.tasks[t].retrying == None && t !in k'.objects[o].woken
            && (k'.tasks[t].status == Running <==> m.owner == None || m.owner == Some(t))
            && (k'.tasks[t].status == Running ==>
                  k'.objects[o].owner == Some(t) && k'.objects[o].depth == (if m.owner == None then 0 else m.depth) + 1)
            && (k'.tasks[t].status != Running ==> k'.objects[o].owner == m.owner && k'.objects[o].depth == m.depth)
            && forall x :: x in k.objects && x != o ==>
                 x in k'.objects && k'.objects[x] == k.objects[x]
  {
    var t, m := k.cores[c].current, k.objects[o];
    if m.owner == Some(t) || m.owner.None? {
      StopRetryingObjects(k, c, o);
      StopRetryingKeeps(k, c);
    } else {
      BlockInAcquireKeeps(k, c, o, None);
      BlockedObjects(k, c, o, None);
      hide Inv, BlockInAcquire;
    }
  }

  lemma ReleaseThrough(k: State, c: nat, o: nat)
    requires Inv(k) && o in k.objects && k.objects[o].Semaphore?
    ensures var k' := ReleaseStep(k, c, o);
            && o in k'.objects && k'.objects[o].Semaphore? && k'.objects[o].count == k.objects[o].count + 1
            && k'.objects[o].released == k.objects[o].released + 1
            && k'.objects[o].initial == k.objects[o].initial && k'.objects[o].acquired == k.objects[o].acquired
            && forall x :: x in k.objects && x != o ==> x in k'.objects && k'.objects[x] == k.objects[x]
  {
    var s := k.objects[o];
    var s1 := s.(count := s.count + 1, released := s.released + 1);
    ObjectKeeps(k, o, s1);
    hide Inv;
    WakeWaiterObjects(k.(objects := k.objects[o := s1]), c, o);
    hide WakeWaiter;
  }

  lemma UnlockThrough(k: State, c: nat, o: nat)
    requires Inv(k) && Enabled(k, Unlock(c, o))
    ensures var k', m := UnlockStep(k, c, o), k.objects[o];
            && o in k'.objects && k'.objects[o].Mutex? && k'.objects[o].depth == m.depth - 1
            && k'.objects[o].owner == (if m.depth == 1 then None else m.owner)
            && forall x :: x in k.objects && x != o ==> x in k'.objects && k'.objects[x] == k.objects[x]
  {
    var t, m := k.cores[c].current, k.objects[o];
    var n := if Nesting(m, t) > 0 then Nesting(m, t) - 1 else 0;
    var m1 := m.(depth := m.depth - 1, nesting := m.nesting[t := n]);
    if m1.depth == 0 {
      ObjectKeeps(k, o, m1.(owner := None));
      hide Inv;
      WakeWaiterObjects(k.(objects := k.objects[o := m1.(owner := None)]), c, o);
      hide WakeWaiter;
    }
  }

  /** The step is a call on object `o`. */
  predicate CallOn(a: Action, o: nat) {
    (a.Acquire? || a.TryAcquire? || a.Release? || a.Lock? || a.Unlock?) && a.obj == o
  }

  lemma OthersUntouched(k: State, a: Action, o: nat)
    requires Inv(k) && Enabled(k, a) && o in k.objects && !CallOn(a, o)
    ensures o in Step(k, a).objects && Step(k, a).objects[o] == k.objects[o]
  {
    hide Inv, AcquireStep, ReleaseStep, LockStep, UnlockStep, DecideStep, CleanupStep, ForgetStep, DrainStep, PushStep,
      ExpireStep, BlockCurrent, SpawnStep, CreateTask, NestStep;
    match a
    case Acquire(c, x, until) => AcquireThrough(k, c, x, until);
    case TryAcquire(c, x) => AcquireThrough(k, c, x, None);
    case Release(c, x) => ReleaseThrough(k, c, x);
    case Lock(c, x) => LockThrough(k, c, x);
    case Unlock(c, x) => UnlockThrough(k, c, x);
    case Enqueue(c) =>
    case _ => OtherStepsKeepObjects(k, a);
  }

  // ----- Semaphores -----

  /** The step takes something from semaphore `o`: a call of `acquire` or `try_acquire` that finds a positive count. */
  predicate TakesToken(k: State, a: Action, o: nat) {
    (a.Acquire? || a.TryAcquire?) && a.obj == o && o in k.objects && k.objects[o].Semaphore? && k.objects[o].count > 0
  }

  /** A counter that is never taken below zero. */
  function AfterCall(n: int, a: Action, o: nat): int {
    if !CallOn(a, o) then n
    else if a.Release? then n + 1
    else if (a.Acquire? || a.TryAcquire?) && n > 0 then n - 1
    else n
  }

  lemma CountStep(k: State, a: Action, o: nat)
    requires Inv(k) && Enabled(k, a) && o in k.objects && k.objects[o].Semaphore?
    ensures var k' := Step(k, a);
            && o in k'.objects && k'.objects[o].Semaphore?
            && k'.objects[o].count == k.objects[o].count + (if a.Release? && a.obj == o then 1 else 0)
                                      - (if TakesToken(k, a, o) then 1 else 0)
            && k'.objects[o].released == k.objects[o].released + (if a.Release? && a.obj == o then 1 else 0)
            && k'.objects[o].acquired == k.objects[o].acquired + (if TakesToken(k, a, o) then 1 else 0)
            && k'.objects[o].initial == k.objects[o].initial
            && k'.objects[o].count == AfterCall(k.objects[o].count, a, o)
  {
    hide Inv, AcquireStep, ReleaseStep;
    if CallOn(a, o) {
      match a
      case Acquire(c, x, until) => AcquireThrough(k, c, x, until);
      case TryAcquire(c, x) => AcquireThrough(k, c, x, None);
      case Release(c, x) => ReleaseThrough(k, c, x);
      case _ =>
    } else {
      OthersUntouched(k, a, o);
    }
  }

  /** How many of the actions release semaphore `o`. */
  function Releases(actions: seq<Action>, o: nat): nat {
    if actions == [] then 0
    else (if actions[0].Release? && actions[0].obj == o then 1 else 0) + Releases(actions[1..], o)
  }

  /** How many steps of the run take something from semaphore `o`. */
  function Takings(k: State, actions: seq<Action>, o: nat): nat
    decreases |actions|
  {
    if actions == [] || !Enabled(k, actions[0]) then 0
    else (if TakesToken(k, actions[0], o) then 1 else 0) + Takings(Step(k, actions[0]), actions[1..], o)
  }

  /** What is left of `n` after the calls on semaphore `o`, of which no one takes it below zero. */
  function Tokens(n: int, actions: seq<Action>, o: nat): int
    decreases |actions|
  {
    if actions == [] then n else Tokens(AfterCall(n, actions[0], o), actions[1..], o)
  }

  /** Over every run the count is what it was plus the releases minus the takings; it depends on nothing but the
      sequence of calls on the semaphore. */
  lemma {:induction false} CountOverRun(k: State, actions: seq<Action>, o: nat)
    requires Inv(k) && Run(k, actions).Some? && TameRun(k, actions) && o in k.objects && k.objects[o].Semaphore?
    ensures var k' := Run(k, actions).value;
            && o in k'.objects && k'.objects[o].Semaphore?
            && k'.objects[o].count == k.objects[o].count + Releases(actions, o) - Takings(k, actions, o)
            && k'.objects[o].count == Tokens(k.objects[o].count, actions, o)
            && k'.objects[o].released == k.objects[o].released + Releases(actions, o)
            && k'.objects[o].acquired == k.objects[o].acquired + Takings(k, actions, o)
            && k'.objects[o].initial == k.objects[o].initial
    decreases |actions|
  {
    if actions != [] {
      StepKeeps(k, actions[0]);
      CountStep(k, actions[0], o);
      hide Inv, Step, Enabled, Tame, TakesToken, AfterCall;
      CountOverRun(Step(k, actions[0]), actions[1..], o);
    }
  }

  /** A semaphore over every run from boot. */
  lemma SemaphoreCounts(start: State, actions: seq<Action>, o: nat)
    requires Initial(start) && Run(start, actions).Some? && TameRun(start, actions)
    requires o in start.objects && start.objects[o].Semaphore?
    ensures var k := Run(start, actions).value;
            && o in k.objects && k.objects[o].Semaphore?
            && k.objects[o].count == start.objects[o].count + Releases(actions, o) - Takings(start, actions, o)
            && k.objects[o].count == Tokens(start.objects[o].count, actions, o)
            && k.objects[o].initial == start.objects[o].count
            && k.objects[o].released == Releases(actions, o) && k.objects[o].acquired == Takings(start, actions, o)
  {
    InitialInv(start);
    CountOverRun(start, actions, o);
  }

  /** Who calls `acquire` goes on exactly if the calls so far have left something, and otherwise blocks. */
  lemma AcquireGoesOn(start: State, actions: seq<Action>, c: nat, o: nat, until: Option<nat>)
    requires Initial(start) && Run(start, actions).Some? && TameRun(start, actions)
    requires o in start.objects && start.objects[o].Semaphore?
    requires Enabled(Run(start, actions).value, Acquire(c, o, until))
    ensures var k := Run(start, actions).value;
            var k', t := Step(k, Acquire(c, o, until)), k.cores[c].current;
            && t in k'.tasks && k'.tasks[t].retrying == None
            && k'.tasks[t].status == if Tokens(start.objects[o].count, actions, o) > 0 then Running else Blocked
  {
    SemaphoreCounts(start, actions, o);
    var k := Run(start, actions).value;
    InitialInv(start);
    RunKeeps(start, actions);
    AcquireThrough(k, c, o, until);
    if k.objects[o].count <= 0 {
      WaitBlocks(k, c, o, until);
    }
  }

  lemma WaitBlocks(k: State, c: nat, o: nat, until: Option<nat>)
    requires HasCore(k, c)
    ensures var k1, t := WaitFor(k, c, o, until), k.cores[c].current;
            t in k1.tasks && k1.tasks[t].status == Blocked && k1.tasks[t].deadline == until
  {
  }

  // ----- Mutexes -----

  /** The step is a call of `acquire` by `t` that gets mutex `o`: the task is still running after it. */
  predicate Locks(k: State, a: Action, o: nat, t: Tid)
    requires Enabled(k, a)
  {
    a.Lock? && a.obj == o && k.cores[a.core].current == t && GoesThrough(k, a)
  }

  predicate Unlocks(k: State, a: Action, o: nat, t: Tid)
    requires Enabled(k, a)
  {
    a.Unlock? && a.obj == o && k.cores[a.core].current == t
  }

  /** How many steps of the run are locks of `o` by `t` that succeed. */
  function Lockings(k: State, actions: seq<Action>, o: nat, t: Tid): nat
    decreases |actions|
  {
    if actions == [] || !Enabled(k, actions[0]) then 0
    else (if Locks(k, actions[0], o, t) then 1 else 0) + Lockings(Step(k, actions[0]), actions[1..], o, t)
  }

  function Unlockings(k: State, actions: seq<Action>, o: nat, t: Tid): nat
    decreases |actions|
  {
    if actions == [] || !Enabled(k, actions[0]) then 0
    else (if Unlocks(k, actions[0], o, t) then 1 else 0) + Unlockings(Step(k, actions[0]), actions[1..], o, t)
  }

  /** How often `t` has locked the mutex, as far as the mutex knows. */
  function Holds(m: Object, t: Tid): nat
    requires m.Mutex?
  {
    if m.owner == Some(t) then m.depth else 0
  }

  lemma HoldsStep(k: State, a: Action, o: nat, t: Tid)
    requires Inv(k) && Enabled(k, a) && o in k.objects && k.objects[o].Mutex?
    ensures var k' := Step(k, a);
            && o in k'.objects && k'.objects[o].Mutex?
            && Holds(k'.objects[o], t) == Holds(k.objects[o], t) + (if Locks(k, a, o, t) then 1 else 0)
                                          - (if Unlocks(k, a, o, t) then 1 else 0)
  {
    hide Inv, LockStep, UnlockStep;
    if CallOn(a, o) {
      match a
      case Lock(c, x) => LockThrough(k, c, x);
      case Unlock(c, x) => UnlockThrough(k, c, x);
      case _ =>
    } else {
      OthersUntouched(k, a, o);
    }
  }

  /** Over every run what a task holds of a mutex is what it held plus its locks minus its unlocks. */
  lemma {:induction false} HoldsOverRun(k: State, actions: seq<Action>, o: nat, t: Tid)
    requires Inv(k) && Run(k, actions).Some? && TameRun(k, actions) && o in k.objects && k.objects[o].Mutex?
    ensures var k' := Run(k, actions).value;
            && o in k'.objects && k'.objects[o].Mutex?
            && Holds(k'.objects[o], t)
               == Holds(k.objects[o], t) + Lockings(k, actions, o, t) - Unlockings(k, actions, o, t)
    decreases |actions|
  {
    if actions != [] {
      StepKeeps(k, actions[0]);
      HoldsStep(k, actions[0], o, t);
      hide Inv, Step, Enabled, Tame, Locks, Unlocks;
      HoldsOverRun(Step(k, actions[0]), actions[1..], o, t);
    }
  }

  /** A mutex over every run from boot: the task that has locked it more often than unlocked it is the owner, by as many
      as the mutex counts, and every other task has unlocked it as often as it has locked it. */
  lemma MutexCounts(start: State, actions: seq<Action>, o: nat, t: Tid)
    requires Initial(start) && Run(start, actions).Some? && TameRun(start, actions)
    requires o in start.objects && start.objects[o].Mutex?
    ensures var k := Run(start, actions).value;
            && o in k.objects && k.objects[o].Mutex?
            && Lockings(start, actions, o, t) - Unlockings(start, actions, o, t)
               == (if k.objects[o].owner == Some(t) then k.objects[o].depth else 0)
               == Holds(k.objects[o], t)
  {
    InitialInv(start);
    HoldsOverRun(start, actions, o, t);
  }

  /** The owner is the one task that has locked the mutex more often than unlocked it. */
  lemma MutexOwner(start: State, actions: seq<Action>, o: nat, t: Tid)
    requires Initial(start) && Run(start, actions).Some? && TameRun(start, actions)
    requires o in start.objects && start.objects[o].Mutex?
    ensures var k := Run(start, actions).value;
            && o in k.objects && k.objects[o].Mutex?
            && (k.objects[o].owner == Some(t) <==>
                  Lockings(start, actions, o, t) > Unlockings(start, actions, o, t))
            && Nesting(k.objects[o], t) == Lockings(start, actions, o, t) - Unlockings(start, actions, o, t)
  {
    hide *;
    MutexFacts(start, actions, o);
    MutexCounts(start, actions, o, t);
  }

  lemma LocksExactly(k: State, c: nat, o: nat)
    requires Inv(k) && Enabled(k, Lock(c, o))
    ensures c < |k.cores|
    ensures Locks(k, Lock(c, o), o, k.cores[c].current) <==>
              k.objects[o].owner == None || k.objects[o].owner == Some(k.cores[c].current)
  {
    LockThrough(k, c, o);
    hide Inv, LockStep;
  }

  /** Who calls `acquire` gets the mutex exactly if no other task has locked it more often than unlocked it. */
  lemma LockSucceeds(start: State, actions: seq<Action>, c: nat, o: nat)
    requires Initial(start) && Run(start, actions).Some? && TameRun(start, actions)
    requires o in start.objects && start.objects[o].Mutex? && Enabled(Run(start, actions).value, Lock(c, o))
    ensures var k := Run(start, actions).value;
            Locks(k, Lock(c, o), o, k.cores[c].current) <==>
              forall t :: t != k.cores[c].current ==>
                Lockings(start, actions, o, t) == Unlockings(start, actions, o, t)
  {
    hide *;
    var k := Run(start, actions).value;
    MutexFacts(start, actions, o);
    LocksExactly(k, c, o);
    OtherHolders(k.objects[o], k.cores[c].current);
    if Locks(k, Lock(c, o), o, k.cores[c].current) {
      forall t | t != k.cores[c].current
        ensures Lockings(start, actions, o, t) == Unlockings(start, actions, o, t)
      {
        MutexCounts(start, actions, o, t);
        assert Holds(k.objects[o], t) == 0;
      }
    } else {
      var x :| x != k.cores[c].current && Holds(k.objects[o], x) != 0;
      MutexCounts(start, actions, o, x);
    }
  }

  lemma MutexFacts(start: State, actions: seq<Action>, o: nat)
    requires Initial(start) && Run(start, actions).Some? && TameRun(start, actions)
    requires o in start.objects && start.objects[o].Mutex?
    ensures var k := Run(start, actions).value;
            && Inv(k) && o in k.objects && k.objects[o].Mutex?
            && (k.objects[o].owner.Some? <==> k.objects[o].depth > 0)
            && forall t: Tid :: Nesting(k.objects[o], t) == Holds(k.objects[o], t)
  {
    InitialInv(start);
    InitialSync(start);
    hide Inv, Initial;
    RunKeeps(start, actions);
    RunSync(start, actions);
    MutexCounts(start, actions, o, 0);
    assert ObjectOk(Run(start, actions).value, o);
  }

  lemma OtherHolders(m: Object, t: Tid)
    requires m.Mutex? && (m.owner.Some? <==> m.depth > 0)
    ensures m.owner == None || m.owner == Some(t) <==> forall x :: x != t ==> Holds(m, x) == 0
  {
    if m.owner.Some? {
      assert Holds(m, m.owner.value) > 0;
    }
  }
}
