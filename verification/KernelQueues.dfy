/** Which lists of tasks a step can change. */
module KernelQueues {
  import opened Registry
  import opened Kernel
  import opened Options

  /** Steps of this kind can change list `q`. */
  predicate Touches(a: Action, q: QueueId) {
    match q
    case ReadyQ(c, prio) => a.Spawn? || a.Clone? || a.Decide? || a.Push?
    case PushQ(c) => a.Push? || a.Drain? || a.Expire? || a.Release? || a.Unlock?
    case BlockedQ(c) => a.Sleep? || a.Acquire? || a.Lock? || a.Expire? || a.Release? || a.Unlock?
    case JoinQ(id) => a.Join? || a.Forget?
    case DrainQ(c) => a.Forget? || a.Drain?
    case FinishedQ(c) => a.Cleanup? || a.Decide?
  }

  predicate SameList(k: State, k': State, q: QueueId) {
    Get(k'.queues, q) == Get(k.queues, q)
  }

  /** All other steps leave the list as it is. */
  lemma Untouched(k: State, a: Action, q: QueueId)
    requires Enabled(k, a) && !Touches(a, q)
    ensures SameList(k, Step(k, a), q)
  {
    hide DecideStep, CleanupStep, ForgetStep, DrainStep, PushStep, ExpireStep, BlockCurrent, AcquireStep, ReleaseStep,
      LockStep, UnlockStep, SpawnStep, CreateTask, RegisterStep, NestStep, EnqueueStep, SameList;
    match a
    case Decide(c, expired) => DecideUntouched(k, c, k.cores[c].phase.seen, expired, q);
    case Cleanup(c) => CleanupUntouched(k, c, q);
    case Forget(c) => ForgetUntouched(k, c, k.cores[c].phase.id, q);
    case Drain(c) => DrainUntouched(k, c, q);
    case Expire(c) => ExpireUntouched(k, c, k.cores[c].phase.now, q);
    case Push(c) => PushUntouched(k, c, q);
    case Join(c, tid) => BlockUntouched(k, c, JoinQ(tid), None, q);
    case Sleep(c, until) => BlockUntouched(k, c, BlockedQ(c), Some(until), q);
    case Acquire(c, o, until) => AcquireUntouched(k, c, o, until, q);
    case TryAcquire(c, o) => AcquireUntouched(k, c, o, None, q);
    case Release(c, o) => ReleaseUntouched(k, c, o, q);
    case Lock(c, o) => LockUntouched(k, c, o, q);
    case Unlock(c, o) => UnlockUntouched(k, c, o, q);
    case _ => OthersUntouched(k, a, q);
  }

  lemma OthersUntouched(k: State, a: Action, q: QueueId)
    requires Enabled(k, a) && !Touches(a, q)
    requires a.Spawn? || a.Register? || a.Clone? || a.Exit? || a.Yield? || a.Call? || a.Read? || a.Tick? || a.Nest?
             || a.NestLate? || a.Enqueue?
    ensures SameList(k, Step(k, a), q)
  {
    hide DecideStep, CleanupStep, ForgetStep, DrainStep, PushStep, ExpireStep, BlockCurrent, AcquireStep, ReleaseStep,
      LockStep, UnlockStep;
  }

  lemma DecideUntouched(k: State, c: nat, seen: Status, expired: bool, q: QueueId)
    requires HasCore(k, c) && !q.ReadyQ? && !q.FinishedQ?
    ensures SameList(k, DecideStep(k, c, seen, expired), q)
  {
    hide Choose, SwitchTo, Resume, PutAside;
    match Choose(k, c, seen, expired)
    case Stay =>
    case GoIdle => AsideUntouched(k, c, seen, q);
    case Dispatch(level) => AsideUntouched(k.(queues := Delete(k.queues, ReadyQ(c, level), 0)), c, seen, q);
  }

  lemma AsideUntouched(k: State, c: nat, seen: Status, q: QueueId)
    requires HasCore(k, c) && !q.ReadyQ? && !q.FinishedQ?
    ensures SameList(k, PutAside(k, c, seen), q)
  {
  }

  lemma CleanupUntouched(k: State, c: nat, q: QueueId)
    requires HasCore(k, c) && !q.FinishedQ?
    ensures SameList(k, CleanupStep(k, c), q)
  {
  }

  lemma ForgetUntouched(k: State, c: nat, id: Tid, q: QueueId)
    requires HasCore(k, c) && !q.JoinQ? && !q.DrainQ?
    ensures SameList(k, ForgetStep(k, c, id), q)
  {
  }

  lemma DrainUntouched(k: State, c: nat, q: QueueId)
    requires HasCore(k, c) && !q.DrainQ? && !q.PushQ?
    ensures SameList(k, DrainStep(k, c), q)
  {
  }

  lemma ExpireUntouched(k: State, c: nat, now: nat, q: QueueId)
    requires HasCore(k, c) && !q.BlockedQ? && !q.PushQ?
    ensures SameList(k, ExpireStep(k, c, now), q)
  {
  }

  lemma PushUntouched(k: State, c: nat, q: QueueId)
    requires Get(k.queues, PushQ(c)) != [] && Get(k.queues, PushQ(c))[0] in k.tasks && !q.PushQ? && !q.ReadyQ?
    ensures SameList(k, PushStep(k, c), q)
  {
  }

  lemma BlockUntouched(k: State, c: nat, to: QueueId, until: Option<nat>, q: QueueId)
    requires HasCore(k, c) && ((to.JoinQ? && !q.JoinQ?) || (to.BlockedQ? && !q.BlockedQ?))
    ensures SameList(k, BlockCurrent(k, c, to, until), q) && SameList(k, k, q)
  {
  }

  lemma StopUntouched(k: State, c: nat)
    requires HasCore(k, c)
    ensures StopRetrying(k, c).queues == k.queues
  {
  }

  lemma BlockInUntouched(k: State, c: nat, until: Option<nat>, q: QueueId)
    requires HasCore(k, c) && !q.BlockedQ?
    ensures SameList(k, BlockInAcquire(k, c, until), q)
  {
    StopUntouched(k, c);
  }

  lemma AcquireUntouched(k: State, c: nat, o: nat, until: Option<nat>, q: QueueId)
    requires HasCore(k, c) && o in k.objects && k.objects[o].Semaphore?
    ensures k.objects[o].count > 0 || !q.BlockedQ? ==> SameList(k, AcquireStep(k, c, o, until), q)
    ensures SameList(k, k, q)
  {
    StopUntouched(k, c);
    if !q.BlockedQ? {
      BlockInUntouched(k, c, until, q);
    }
    hide BlockInAcquire, StopRetrying;
  }

  lemma LockUntouched(k: State, c: nat, o: nat, q: QueueId)
    requires HasCore(k, c) && o in k.objects && k.objects[o].Mutex? && !q.BlockedQ?
    ensures SameList(k, LockStep(k, c, o), q)
  {
    StopUntouched(k, c);
    BlockInUntouched(k, c, None, q);
    hide BlockInAcquire, StopRetrying;
  }

  lemma WakeUntouched(k: State, c: nat, o: nat, q: QueueId)
    requires o in k.objects && !q.BlockedQ? && !q.PushQ?
    ensures SameList(k, WakeWaiter(k, c, o), q)
  {
  }

  lemma ReleaseUntouched(k: State, c: nat, o: nat, q: QueueId)
    requires o in k.objects && k.objects[o].Semaphore? && !q.BlockedQ? && !q.PushQ?
    ensures SameList(k, ReleaseStep(k, c, o), q)
  {
    var s := k.objects[o];
    WakeUntouched(k.(objects := k.objects[o := s.(count := s.count + 1, released := s.released + 1)]), c, o, q);
    hide WakeWaiter;
  }

  lemma UnlockUntouched(k: State, c: nat, o: nat, q: QueueId)
    requires HasCore(k, c) && o in k.objects && k.objects[o].Mutex? && k.objects[o].depth > 0
    requires !q.BlockedQ? && !q.PushQ?
    ensures SameList(k, UnlockStep(k, c, o), q)
  {
    var m := k.objects[o];
    var n := if Nesting(m, k.cores[c].current) > 0 then Nesting(m, k.cores[c].current) - 1 else 0;
    var m1 := m.(depth := m.depth - 1, nesting := m.nesting[k.cores[c].current := n]);
    WakeUntouched(k.(objects := k.objects[o := m1.(owner := None)]), c, o, q);
    hide WakeWaiter;
  }
}
