/**
 Two conditions that callers can check, under which every run is tame: no semaphore wait has a timeout, and the
 scheduler is never called with interrupts on.
 */
module KernelQuiet {
  import opened Registry
  import opened Kernel
  import opened KernelSafety
  import opened KernelJoin
  import opened KernelCycles
  import opened Options

  /** Neither a timed wait nor an interrupt in the middle of a cleanup or before a decision. */
  predicate Mannerly(a: Action) {
    !a.NestLate? && (a.Acquire? ==> a.until == None)
  }

  /** Neither a timed wait nor a call of the scheduler with interrupts on. */
  predicate Quiet(a: Action) {
    !a.Call? && (a.Acquire? ==> a.until == None)
  }

  // ----- Without timed waits -----

  /** Nobody in a wait queue has a deadline. */
  ghost predicate NoTimedWaits(k: State) {
    forall w, t :: t in Get(k.waits, w) && t in k.tasks ==> k.tasks[t].deadline == None
  }

  /** Waiters are those of before, with the deadlines of before, or have none. */
  ghost predicate Inherits(k: State, k': State) {
    forall w, t :: t in Get(k'.waits, w) && t in k'.tasks ==>
      || k'.tasks[t].deadline == None
      || (t in Get(k.waits, w) && t in k.tasks && k'.tasks[t].deadline == k.tasks[t].deadline)
  }

  lemma StillUntimed(k: State, k': State)
    requires NoTimedWaits(k) && Inherits(k, k')
    ensures NoTimedWaits(k')
  {
  }

  lemma BlockInherits(k: State, c: nat, q: QueueId, until: Option<nat>)
    requires Inv(k) && Working(k, c)
    ensures Inherits(k, BlockCurrent(k, c, q, until))
  {
    OfState(k);
    hide Inv;
    NotQueued(k, k.cores[c].current);
  }

  lemma BlockedInherits(k: State, c: nat, k': State)
    requires HasCore(k, c) && k' == BlockInAcquire(k, c, None)
    ensures Inherits(k, k') && k.cores[c].current in k'.tasks && k'.tasks[k.cores[c].current].deadline == None
  {
  }

  lemma AcquireInherits(k: State, c: nat, o: nat)
    requires HasCore(k, c) && o in k.objects && k.objects[o].Semaphore?
    ensures Inherits(k, AcquireStep(k, c, o, None))
  {
    BlockedInherits(k, c, BlockInAcquire(k, c, None));
    hide BlockInAcquire;
  }

  lemma LockInherits(k: State, c: nat, o: nat)
    requires HasCore(k, c) && o in k.objects && k.objects[o].Mutex?
    ensures Inherits(k, LockStep(k, c, o))
  {
    BlockedInherits(k, c, BlockInAcquire(k, c, None));
    hide BlockInAcquire;
  }

  lemma EnqueueInherits(k: State, c: nat)
    requires Inv(k) && HasCore(k, c) && Current(k, c).queueing.Some?
    ensures Inherits(k, EnqueueStep(k, c))
  {
    OfTask(k, k.cores[c].current);
    hide Inv;
  }

  lemma WakeInherits(k: State, c: nat, o: nat)
    requires o in k.objects
    ensures Inherits(k, WakeWaiter(k, c, o))
  {
  }

  lemma ReleaseInherits(k: State, c: nat, o: nat)
    requires o in k.objects && k.objects[o].Semaphore?
    ensures Inherits(k, ReleaseStep(k, c, o))
  {
    hide WakeWaiter;
    var x := k.objects[o].(count := k.objects[o].count + 1, released := k.objects[o].released + 1);
    WakeInherits(k.(objects := k.objects[o := x]), c, o);
  }

  lemma UnlockInherits(k: State, c: nat, o: nat)
    requires HasCore(k, c) && o in k.objects && k.objects[o].Mutex? && k.objects[o].depth > 0
    ensures Inherits(k, UnlockStep(k, c, o))
  {
    hide WakeWaiter;
    var t, m := k.cores[c].current, k.objects[o];
    var n := if Nesting(m, t) > 0 then Nesting(m, t) - 1 else 0;
    var m1 := m.(depth := m.depth - 1, nesting := m.nesting[t := n], owner := None);
    WakeInherits(k.(objects := k.objects[o := m1]), c, o);
  }

  lemma ExpireInherits(k: State, c: nat, now: nat)
    requires HasCore(k, c)
    ensures Inherits(k, ExpireStep(k, c, now))
  {
  }

  lemma AsideInherits(k: State, k': State)
    requires Inv(k) && SameStay(k, k')
    ensures Inherits(k, k')
  {
    forall w, t | t in Get(k'.waits, w) ensures t in k.tasks {
      assert WaiterFits(k, w, t);
    }
  }

  lemma StepUntimed(k: State, a: Action)
    requires Inv(k) && NoTimedWaits(k) && Enabled(k, a) && Mannerly(a)
    ensures Tame(k, a) && NoTimedWaits(Step(k, a))
  {
    hide Inv, Inherits;
    if Aside(a) {
      OthersStay(k, a);
      hide Step;
      AsideInherits(k, Step(k, a));
    } else {
      hide BlockCurrent, AcquireStep, ReleaseStep, LockStep, EnqueueStep, UnlockStep, ExpireStep;
      assert Inherits(k, k) by { SelfInherits(k); }
      match a
      case Join(c, tid) => BlockInherits(k, c, JoinQ(tid), None);
      case Sleep(c, until) => BlockInherits(k, c, BlockedQ(c), Some(until));
      case Expire(c) => ExpireInherits(k, c, k.cores[c].phase.now);
      case Acquire(c, o, until) => AcquireInherits(k, c, o);
      case TryAcquire(c, o) => AcquireInherits(k, c, o);
      case Release(c, o) => ReleaseInherits(k, c, o);
      case Lock(c, o) => LockInherits(k, c, o);
      case Enqueue(c) => EnqueueInherits(k, c);
      case Unlock(c, o) => UnlockInherits(k, c, o);
    }
    StillUntimed(k, Step(k, a));
  }

  lemma SelfInherits(k: State)
    ensures Inherits(k, k)
  {
  }

  // ----- Without loud calls of the scheduler -----

  /** No call of the scheduler can be interrupted, and none was. */
  predicate Calm(k: State) {
    && (forall c :: 0 <= c < |k.cores| && k.cores[c].loud ==>
          k.cores[c].phase == Executing || k.cores[c].phase.Ticking?)
    && (forall t :: t in k.tasks ==> k.tasks[t].inside == None)
  }

  lemma NothingLate(k: State, c: nat, now: nat)
    requires Calm(k)
    ensures !Enabled(k, Nest(c, now)) && !Enabled(k, NestLate(c, now))
  {
  }

  lemma AsideCalm(k: State, c: nat, seen: Status)
    requires Calm(k) && HasCore(k, c)
    ensures Calm(PutAside(k, c, seen))
  {
  }

  lemma SwitchCalm(k: State, c: nat, t: Tid)
    requires Calm(k) && c < |k.cores| && t in k.tasks
    ensures Calm(SwitchTo(k, c, t)) && Calm(Resume(k, c, t))
  {
  }

  lemma DecideCalm(k: State, c: nat, seen: Status, expired: bool)
    requires Calm(k) && HasCore(k, c)
    ensures Calm(DecideStep(k, c, seen, expired))
  {
    hide Choose, PutAside, SwitchTo, Resume;
    match Choose(k, c, seen, expired)
    case Stay => SwitchCalm(k, c, k.cores[c].current);
    case GoIdle =>
      AsideCalm(k, c, seen);
      if k.cores[c].idle in PutAside(k, c, seen).tasks {
        SwitchCalm(PutAside(k, c, seen), c, k.cores[c].idle);
      }
    case Dispatch(level) =>
      var q := ReadyQ(c, level);
      var k1 := k.(queues := Delete(k.queues, q, 0));
      assert Calm(k1);
      AsideCalm(k1, c, seen);
      hide Calm;
      if Get(k.queues, q)[0] in PutAside(k1, c, seen).tasks {
        SwitchCalm(PutAside(k1, c, seen), c, Get(k.queues, q)[0]);
      }
  }

  lemma WakeupsCalm(k: State, c: nat, now: nat)
    requires Calm(k) && HasCore(k, c)
    ensures k.cores[c].phase == Draining ==> Calm(DrainStep(k, c))
    ensures k.cores[c].phase.Ticking? ==> Calm(ExpireStep(k, c, now))
  {
  }

  lemma CleanupCalm(k: State, c: nat, id: Tid)
    requires Calm(k) && HasCore(k, c)
    ensures k.cores[c].phase == Entering ==> Calm(CleanupStep(k, c))
    ensures k.cores[c].phase.Cleaning? ==> Calm(ForgetStep(k, c, id))
  {
  }

  lemma CreateCalm(k: State, c: nat, target: nat, prio: nat, tid: Tid, quiet: bool)
    requires Calm(k) && HasCore(k, c) && tid !in k.tasks
    ensures Calm(CreateTask(k, target, prio, tid)) && Calm(SpawnStep(k, c, target, prio, tid, quiet))
  {
  }

  lemma BlockCalm(k: State, c: nat, q: QueueId, until: Option<nat>)
    requires Calm(k) && HasCore(k, c)
    ensures Calm(BlockCurrent(k, c, q, until))
  {
  }

  lemma PushCalm(k: State, c: nat)
    requires Calm(k) && Get(k.queues, PushQ(c)) != [] && Get(k.queues, PushQ(c))[0] in k.tasks
    ensures Calm(PushStep(k, c))
  {
  }

  /** A change that touches no core and no interrupted call. */
  predicate SameInside(k: State, k': State) {
    && k'.cores == k.cores
    && forall t :: t in k'.tasks ==> k'.tasks[t].inside == if t in k.tasks then k.tasks[t].inside else None
  }

  lemma ObjectsInside(k: State, c: nat, o: nat, until: Option<nat>)
    requires HasCore(k, c) && o in k.objects
    ensures SameInside(k, BlockInAcquire(k, c, until)) && SameInside(k, StopRetrying(k, c))
    ensures SameInside(k, WakeWaiter(k, c, o))
  {
  }

  lemma OtherInside(k: State, a: Action)
    requires Enabled(k, a)
    requires a.Acquire? || a.TryAcquire? || a.Release? || a.Lock? || a.Enqueue? || a.Unlock?
    ensures SameInside(k, Step(k, a))
  {
    hide BlockInAcquire, StopRetrying, WakeWaiter, ReleaseStep, UnlockStep;
    match a
    case Acquire(c, o, until) => ObjectsInside(k, c, o, until);
    case TryAcquire(c, o) => ObjectsInside(k, c, o, None);
    case Release(c, o) => ReleaseInside(k, c, o);
    case Lock(c, o) => ObjectsInside(k, c, o, None);
    case Enqueue(c) =>
    case Unlock(c, o) => UnlockInside(k, c, o);
  }

  lemma ReleaseInside(k: State, c: nat, o: nat)
    requires HasCore(k, c) && o in k.objects && k.objects[o].Semaphore?
    ensures SameInside(k, ReleaseStep(k, c, o))
  {
    hide WakeWaiter;
    var x := k.objects[o].(count := k.objects[o].count + 1, released := k.objects[o].released + 1);
    ObjectsInside(k.(objects := k.objects[o := x]), c, o, None);
  }

  lemma UnlockInside(k: State, c: nat, o: nat)
    requires HasCore(k, c) && o in k.objects && k.objects[o].Mutex? && k.objects[o].depth > 0
    ensures SameInside(k, UnlockStep(k, c, o))
  {
    hide WakeWaiter;
    var t, m := k.cores[c].current, k.objects[o];
    var n := if Nesting(m, t) > 0 then Nesting(m, t) - 1 else 0;
    var m1 := m.(depth := m.depth - 1, nesting := m.nesting[t := n], owner := None);
    ObjectsInside(k.(objects := k.objects[o := m1]), c, o, None);
  }

  lemma StepCalm(k: State, a: Action)
    requires Calm(k) && Enabled(k, a) && !a.Call?
    ensures Calm(Step(k, a)) && !a.NestLate?
  {
    if a.Nest? || a.NestLate? {
      NothingLate(k, a.core, a.now);
    } else if a.Acquire? || a.TryAcquire? || a.Release? || a.Lock? || a.Enqueue? || a.Unlock? {
      OtherInside(k, a);
      hide Step;
    } else {
      hide DecideStep, CleanupStep, ForgetStep, DrainStep, ExpireStep, CreateTask, SpawnStep, BlockCurrent, PushStep;
      match a
      case Spawn(c, target, prio, tid, quiet) => CreateCalm(k, c, target, prio, tid, quiet);
      case Clone(c, target, tid) => CreateCalm(k, c, target, Current(k, c).prio, tid, false);
      case Join(c, tid) => BlockCalm(k, c, JoinQ(tid), None);
      case Sleep(c, until) => BlockCalm(k, c, BlockedQ(c), Some(until));
      case Push(c) => PushCalm(k, c);
      case Decide(c, expired) => DecideCalm(k, c, k.cores[c].phase.seen, expired);
      case Cleanup(c) => CleanupCalm(k, c, 0);
      case Forget(c) => CleanupCalm(k, c, k.cores[c].phase.id);
      case Drain(c) => WakeupsCalm(k, c, 0);
      case Expire(c) => WakeupsCalm(k, c, k.cores[c].phase.now);
      case _ =>
    }
  }

  // ----- Runs -----

  lemma {:induction false} MannerlyRun(k: State, actions: seq<Action>)
    requires Inv(k) && NoTimedWaits(k) && Run(k, actions).Some? && forall a :: a in actions ==> Mannerly(a)
    ensures TameRun(k, actions)
    decreases |actions|
  {
    hide Inv, NoTimedWaits, Step, Enabled, Tame;
    if actions != [] {
      assert Mannerly(actions[0]);
      StepUntimed(k, actions[0]);
      StepKeeps(k, actions[0]);
      MannerlyRun(Step(k, actions[0]), actions[1..]);
    }
  }

  lemma {:induction false} QuietRun(k: State, actions: seq<Action>)
    requires Calm(k) && Run(k, actions).Some? && forall a :: a in actions ==> Quiet(a)
    ensures forall a :: a in actions ==> Mannerly(a)
    decreases |actions|
  {
    hide Calm, Step, Enabled;
    if actions != [] {
      assert Quiet(actions[0]);
      StepCalm(k, actions[0]);
      QuietRun(Step(k, actions[0]), actions[1..]);
      assert actions == [actions[0]] + actions[1..];
    }
  }

  lemma {:induction false} KindIfQuiet(k: State, actions: seq<Action>)
    requires forall a :: a in actions ==> Mannerly(a) && QuietSpawn(a)
    ensures KindRun(k, actions)
    decreases |actions|
  {
    if actions != [] && Enabled(k, actions[0]) {
      assert Mannerly(actions[0]) && QuietSpawn(actions[0]);
      KindIfQuiet(Step(k, actions[0]), actions[1..]);
    }
  }

  /** Without timed waits and calls of the scheduler with interrupts on, every run from boot is tame, and no joiner is
      lost if all spawns are quiet. */
  lemma QuietRunsAreTame(start: State, actions: seq<Action>)
    requires Initial(start) && Run(start, actions).Some? && forall a :: a in actions ==> Quiet(a)
    ensures TameRun(start, actions) && ((forall a :: a in actions ==> QuietSpawn(a)) ==> KindRun(start, actions))
  {
    InitialInv(start);
    assert NoTimedWaits(start);
    InitialCalm(start);
    hide Inv, Initial, NoTimedWaits, Calm, Run, TameRun, KindRun;
    QuietRun(start, actions);
    MannerlyRun(start, actions);
    if forall a :: a in actions ==> QuietSpawn(a) {
      KindIfQuiet(start, actions);
    }
  }

  lemma InitialCalm(k: State)
    requires Initial(k)
    ensures Calm(k)
  {
  }
}
