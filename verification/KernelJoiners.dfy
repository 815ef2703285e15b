/**
 What `join` waits for: nobody returns from it before the other task has called `exit` and has been cleaned up, and the
 cleanup wakes all joiners in the order in which they came.
 */
module KernelJoiners {
  import opened Registry
  import opened Kernel
  import opened KernelQueues
  import opened KernelSafety
  import opened Options

  // ----- The lists of joiners -----

  /** The step is the cleanup of task `id`. */
  predicate Forgets(k: State, a: Action, id: Tid) {
    a.Forget? && a.core < |k.cores| && k.cores[a.core].phase == Cleaning(id) && id in k.registered
  }

  /** The step makes its task wait for `id`. */
  predicate Joins(k: State, a: Action, id: Tid) {
    a.Join? && a.tid == id && id in k.registered
  }

  /** Every list of joiners after a step: who joins is at the end, and a cleanup empties it. */
  lemma JoinListStep(k: State, a: Action, id: Tid)
    requires Enabled(k, a)
    ensures Get(Step(k, a).queues, JoinQ(id))
            == if Forgets(k, a, id) then []
               else Get(k.queues, JoinQ(id)) + if Joins(k, a, id) then [k.cores[a.core].current] else []
  {
    if a.Forget? {
      ForgetJoiners(k, a.core, k.cores[a.core].phase.id, id);
      hide ForgetStep;
    } else if a.Join? {
      JoinJoiners(k, a.core, a.tid, id);
      hide BlockCurrent;
    } else {
      hide Enabled, Step;
      Untouched(k, a, JoinQ(id));
    }
  }

  lemma ForgetJoiners(k: State, c: nat, tid: Tid, id: Tid)
    requires HasCore(k, c)
    ensures Get(ForgetStep(k, c, tid).queues, JoinQ(id))
            == if tid == id && id in k.registered then [] else Get(k.queues, JoinQ(id))
  {
  }

  lemma {:induction false} LastPosition(tasks: map<Tid, Task>, list: seq<Tid>)
    ensures DeadlinePosition(tasks, list, None) == |list|
    decreases |list|
  {
    if list != [] {
      LastPosition(tasks, list[1..]);
    }
  }

  lemma JoinJoiners(k: State, c: nat, tid: Tid, id: Tid)
    requires HasCore(k, c)
    ensures Get(BlockCurrent(k, c, JoinQ(tid), None).queues, JoinQ(id))
            == Get(k.queues, JoinQ(id)) + if tid == id then [k.cores[c].current] else []
  {
    LastPosition(k.tasks, Get(k.queues, JoinQ(tid)));
  }

  /** A cleanup that finds joiners hands them over in their order, and each turn of the drain wakes the first. */
  lemma JoinersAreDrained(k: State, c: nat)
    requires Inv(k)
    ensures Enabled(k, Forget(c)) && k.cores[c].phase.id in k.registered ==>
              && Get(Step(k, Forget(c)).queues, DrainQ(c)) == Get(k.queues, JoinQ(k.cores[c].phase.id))
              && c < |Step(k, Forget(c)).cores| && Step(k, Forget(c)).cores[c].phase == Draining
    ensures Enabled(k, Drain(c)) ==>
              var list, k' := Get(k.queues, DrainQ(c)), Step(k, Drain(c));
              if list == [] then c < |k'.cores| && k'.cores[c].phase == Reading
              else && Get(k'.queues, DrainQ(c)) == list[1..] && Get(k'.queues, PushQ(c)) == [list[0]]
                   && list[0] in k'.tasks && k'.tasks[list[0]].status == Ready
  {
    var list := Get(k.queues, DrainQ(c));
    if list != [] {
      OfQueue(k, DrainQ(c), list[0]);
      assert RemoveAt(list, 0) == list[1..];
    }
    hide Inv;
  }

  // ----- The lists of finished tasks -----

  /** The decision of core `c` retires its task. */
  predicate Retires(k: State, a: Action, c: nat) {
    && a.Decide? && a.core == c && c < |k.cores| && k.cores[c].phase == Deciding(Finished)
  }

  /** Every list of finished tasks after a step: a task that is retired is at the end, and a cleanup takes the first. */
  lemma FinishedListStep(k: State, a: Action, c: nat)
    requires Inv(k) && Enabled(k, a)
    ensures var list, list' := Get(k.queues, FinishedQ(c)), Get(Step(k, a).queues, FinishedQ(c));
            if a == Cleanup(c) && list != [] then
              && list' == list[1..] && c < |Step(k, a).cores| && Step(k, a).cores[c].phase == Cleaning(list[0])
            else list' == list + if Retires(k, a, c) then [k.cores[c].current] else []
  {
    if a.Cleanup? {
      CleanupFinished(k, a.core, c);
      hide Inv, CleanupStep;
    } else if a.Decide? {
      DecideFinished(k, a.core, a.expired, c);
      hide Inv, DecideStep;
    } else {
      hide Inv, Enabled, Step;
      Untouched(k, a, FinishedQ(c));
    }
  }

  lemma CleanupFinished(k: State, d: nat, c: nat)
    requires HasCore(k, d)
    ensures var list, k' := Get(k.queues, FinishedQ(c)), CleanupStep(k, d);
            if d == c && list != [] then
              Get(k'.queues, FinishedQ(c)) == list[1..] && k'.cores[c].phase == Cleaning(list[0])
            else SameList(k, k', FinishedQ(c))
  {
    var list := Get(k.queues, FinishedQ(c));
    if list != [] {
      assert RemoveAt(list, 0) == list[1..];
    }
  }

  lemma DecideFinished(k: State, d: nat, expired: bool, c: nat)
    requires Inv(k) && HasCore(k, d) && k.cores[d].phase.Deciding?
    ensures Get(DecideStep(k, d, k.cores[d].phase.seen, expired).queues, FinishedQ(c))
            == Get(k.queues, FinishedQ(c))
               + if d == c && k.cores[d].phase.seen == Finished then [k.cores[c].current] else []
  {
    hide Inv, SwitchTo, Resume;
    var seen := k.cores[d].phase.seen;
    var choice := Choose(k, d, seen, expired);
    assert choice.Stay? ==> seen != Finished;
    hide Choose;
    match choice
    case Stay =>
    case GoIdle => AsideFinished(k, d, seen, c);
    case Dispatch(level) => AsideFinished(k.(queues := Delete(k.queues, ReadyQ(d, level), 0)), d, seen, c);
  }

  lemma AsideFinished(k: State, d: nat, seen: Status, c: nat)
    requires HasCore(k, d)
    ensures Get(PutAside(k, d, seen).queues, FinishedQ(c))
            == Get(k.queues, FinishedQ(c)) + if d == c && seen == Finished then [k.cores[d].current] else []
  {
  }

  // ----- Nobody returns too early -----

  /** The task has not called `exit`. */
  predicate Alive(k: State, t: Tid) {
    t in k.tasks && k.tasks[t].status != Finished && k.tasks[t].status != Invalid
  }

  /** The step is a call of `exit` by `t`. */
  predicate Exits(k: State, a: Action, t: Tid) {
    a.Exit? && a.core < |k.cores| && k.cores[a.core].current == t
  }

  predicate SameLife(k: State, k': State, t: Tid) {
    Alive(k, t) ==> Alive(k', t)
  }

  /** Nobody is finished or cleaned up who has not called `exit`. */
  lemma AliveStep(k: State, a: Action, t: Tid)
    requires Inv(k) && Enabled(k, a) && !Exits(k, a, t)
    ensures SameLife(k, Step(k, a), t)
  {
    hide DecideStep, ForgetStep, DrainStep, PushStep, ExpireStep, BlockCurrent, AcquireStep, ReleaseStep, LockStep,
      UnlockStep, SameLife, Inv, SpawnStep, CreateTask, RegisterStep, CleanupStep, NestStep, EnqueueStep;
    match a
    case Decide(c, expired) => DecideLife(k, c, expired, t);
    case Forget(c) => ForgetLife(k, c, t);
    case Drain(c) => WakeupLife(k, c, 0, t);
    case Expire(c) => WakeupLife(k, c, k.cores[c].phase.now, t);
    case Push(c) => PushLife(k, c, t);
    case Join(c, tid) => BlockLife(k, c, JoinQ(tid), None, t);
    case Sleep(c, until) => BlockLife(k, c, BlockedQ(c), Some(until), t);
    case Acquire(c, o, until) => AcquireLife(k, c, o, until, t);
    case TryAcquire(c, o) => AcquireLife(k, c, o, None, t);
    case Release(c, o) => ReleaseLife(k, c, o, t);
    case Lock(c, o) => LockLife(k, c, o, t);
    case Unlock(c, o) => UnlockLife(k, c, o, t);
    case _ => OtherLife(k, a, t);
  }

  lemma OtherLife(k: State, a: Action, t: Tid)
    requires Enabled(k, a) && !Exits(k, a, t)
    requires a.Spawn? || a.Register? || a.Clone? || a.Exit? || a.Yield? || a.Call? || a.Cleanup? || a.Read? || a.Tick?
             || a.Nest? || a.NestLate? || a.Enqueue?
    ensures SameLife(k, Step(k, a), t)
  {
    hide DecideStep, ForgetStep, DrainStep, PushStep, ExpireStep, BlockCurrent, AcquireStep, ReleaseStep, LockStep,
      UnlockStep;
  }

  lemma ForgetLife(k: State, c: nat, t: Tid)
    requires Inv(k) && HasCore(k, c) && k.cores[c].phase.Cleaning?
    ensures SameLife(k, ForgetStep(k, c, k.cores[c].phase.id), t)
  {
    OfCore(k, c);
    hide Inv;
  }

  lemma WakeupLife(k: State, c: nat, now: nat, t: Tid)
    requires HasCore(k, c)
    ensures SameLife(k, DrainStep(k, c), t) && SameLife(k, ExpireStep(k, c, now), t)
  {
  }

  lemma PushLife(k: State, c: nat, t: Tid)
    requires Get(k.queues, PushQ(c)) != [] && Get(k.queues, PushQ(c))[0] in k.tasks
    ensures SameLife(k, PushStep(k, c), t)
  {
  }

  lemma BlockLife(k: State, c: nat, q: QueueId, until: Option<nat>, t: Tid)
    requires HasCore(k, c)
    ensures SameLife(k, BlockCurrent(k, c, q, until), t) && SameLife(k, k, t)
  {
  }

  lemma BlockInLife(k: State, c: nat, until: Option<nat>, t: Tid)
    requires HasCore(k, c)
    ensures SameLife(k, BlockInAcquire(k, c, until), t) && SameLife(k, StopRetrying(k, c), t)
  {
  }

  lemma AcquireLife(k: State, c: nat, o: nat, until: Option<nat>, t: Tid)
    requires HasCore(k, c) && o in k.objects && k.objects[o].Semaphore?
    ensures SameLife(k, AcquireStep(k, c, o, until), t) && SameLife(k, k, t)
  {
    BlockInLife(k, c, until, t);
    hide BlockInAcquire, StopRetrying;
  }

  lemma LockLife(k: State, c: nat, o: nat, t: Tid)
    requires HasCore(k, c) && o in k.objects && k.objects[o].Mutex?
    ensures SameLife(k, LockStep(k, c, o), t)
  {
    BlockInLife(k, c, None, t);
    assert k.cores[c].current in BlockInAcquire(k, c, None).tasks;
    hide BlockInAcquire, StopRetrying;
  }

  lemma WakeWaiterLife(k: State, c: nat, o: nat, t: Tid)
    requires o in k.objects
    ensures SameLife(k, WakeWaiter(k, c, o), t)
  {
  }

  lemma ReleaseLife(k: State, c: nat, o: nat, t: Tid)
    requires o in k.objects && k.objects[o].Semaphore?
    ensures SameLife(k, ReleaseStep(k, c, o), t)
  {
    var s := k.objects[o];
    WakeWaiterLife(k.(objects := k.objects[o := s.(count := s.count + 1, released := s.released + 1)]), c, o, t);
    hide WakeWaiter;
  }

  lemma UnlockLife(k: State, c: nat, o: nat, t: Tid)
    requires HasCore(k, c) && o in k.objects && k.objects[o].Mutex? && k.objects[o].depth > 0
    ensures SameLife(k, UnlockStep(k, c, o), t)
  {
    var m := k.objects[o];
    var n := if Nesting(m, k.cores[c].current) > 0 then Nesting(m, k.cores[c].current) - 1 else 0;
    var m1 := m.(depth := m.depth - 1, nesting := m.nesting[k.cores[c].current := n]);
    WakeWaiterLife(k.(objects := k.objects[o := m1.(owner := None)]), c, o, t);
    hide WakeWaiter;
  }

  lemma DecideLife(k: State, c: nat, expired: bool, t: Tid)
    requires Inv(k) && HasCore(k, c) && k.cores[c].phase.Deciding?
    ensures SameLife(k, DecideStep(k, c, k.cores[c].phase.seen, expired), t)
  {
    OfCore(k, c);
    hide Inv, Choose, SwitchTo, Resume, PutAside;
    var seen := k.cores[c].phase.seen;
    match Choose(k, c, seen, expired)
    case Stay => SwitchLife(k, c, k.cores[c].current, t);
    case GoIdle => AsideLife(k, k, c, k.cores[c].idle, t);
    case Dispatch(level) =>
      AsideLife(k, k.(queues := Delete(k.queues, ReadyQ(c, level), 0)), c, Get(k.queues, ReadyQ(c, level))[0], t);
  }

  lemma SwitchLife(k: State, c: nat, x: Tid, t: Tid)
    requires c < |k.cores| && x in k.tasks
    ensures SameLife(k, SwitchTo(k, c, x), t) && SameLife(k, Resume(k, c, x), t)
  {
  }

  lemma AsideLife(k: State, k1: State, c: nat, x: Tid, t: Tid)
    requires HasCore(k, c) && k.cores[c].phase.Deciding? && PhaseOk(k, c) && k1 == k.(queues := k1.queues)
    ensures var a := PutAside(k1, c, k.cores[c].phase.seen);
            SameLife(k, if x in a.tasks then SwitchTo(a, c, x) else a, t)
  {
    var a := PutAside(k1, c, k.cores[c].phase.seen);
    assert SameLife(k, a, t);
    hide PutAside;
    if x in a.tasks {
      SwitchLife(a, c, x, t);
      hide SwitchTo;
    }
  }

  /** Some step of the run is a call of `exit` by `t`. */
  ghost predicate EventuallyExits(k: State, actions: seq<Action>, t: Tid)
    decreases |actions|
  {
    actions != [] && Enabled(k, actions[0])
    && (Exits(k, actions[0], t) || EventuallyExits(Step(k, actions[0]), actions[1..], t))
  }

  /** Who waits for a living task waits at least until that task calls `exit`. */
  lemma {:induction false} JoinWaitsForExit(k: State, actions: seq<Action>, t: Tid, id: Tid)
    requires Inv(k) && Run(k, actions).Some? && TameRun(k, actions)
    requires t in Get(k.queues, JoinQ(id)) && Alive(k, id) && !EventuallyExits(k, actions, id)
    ensures var k' := Run(k, actions).value;
            && t in Get(k'.queues, JoinQ(id)) && t in k'.tasks && k'.tasks[t].status == Blocked && Alive(k', id)
    decreases |actions|
  {
    OfQueue(k, JoinQ(id), t);
    if actions != [] {
      var a := actions[0];
      StepKeeps(k, a);
      AliveStep(k, a, id);
      JoinListStep(k, a, id);
      if Forgets(k, a, id) {
        OfCore(k, a.core);
      }
      hide Inv, Step, Enabled, Tame;
      JoinWaitsForExit(Step(k, a), actions[1..], t, id);
    }
  }
}
