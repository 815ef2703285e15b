/**
 Runs of the step system.  A step depends on the queues only through their contents, so a run can be followed on
 states that are written down in a simpler way.
 */
module KernelRuns {
  import opened Registry
  import opened Kernel
  import opened Options
  import opened Priorities

  // ----- States with the same contents -----

  ghost predicate SameLists<Q(!new)>(m: map<Q, seq<Tid>>, l: map<Q, seq<Tid>>) {
    forall q :: Get(m, q) == Get(l, q)
  }

  lemma SameUpdate<Q(!new)>(m: map<Q, seq<Tid>>, l: map<Q, seq<Tid>>, q: Q, s: seq<Tid>)
    requires SameLists(m, l)
    ensures SameLists(m[q := s], l[q := s]) && Get(m, q) == Get(l, q)
  {
    var m', l' := m[q := s], l[q := s];
    forall p ensures Get(m', p) == Get(l', p) {
      assert Get(m, p) == Get(l, p);
    }
  }

  /** The states differ at most in how their queues are written down. */
  ghost predicate Same(k: State, v: State) {
    && k.tasks == v.tasks && k.registered == v.registered && k.cores == v.cores && k.objects == v.objects
    && SameLists(k.queues, v.queues) && SameLists(k.waits, v.waits)
  }

  lemma TopReadySame(m: map<QueueId, seq<Tid>>, l: map<QueueId, seq<Tid>>, c: nat, n: nat)
    requires SameLists(m, l)
    ensures TopReady(m, c, n) == TopReady(l, c, n)
  {
  }

  lemma TopWaitSame(m: map<WaitId, seq<Tid>>, l: map<WaitId, seq<Tid>>, o: nat, n: nat)
    requires SameLists(m, l)
    ensures TopWait(m, o, n) == TopWait(l, o, n)
  {
  }

  lemma MoveSame(k: State, v: State, from: QueueId, at: nat, to: QueueId, t: Tid)
    requires Same(k, v) && at < |Get(v.queues, from)|
    ensures at < |Get(k.queues, from)|
    ensures SameLists(Append(Delete(k.queues, from, at), to, t), Append(Delete(v.queues, from, at), to, t))
  {
    SameUpdate(k.queues, v.queues, from, RemoveAt(Get(v.queues, from), at));
    var m, l := Delete(k.queues, from, at), Delete(v.queues, from, at);
    SameUpdate(m, l, to, Get(l, to) + [t]);
  }

  lemma AppendSame<Q(!new)>(m: map<Q, seq<Tid>>, l: map<Q, seq<Tid>>, q: Q, t: Tid)
    requires SameLists(m, l)
    ensures SameLists(Append(m, q, t), Append(l, q, t))
  {
    SameUpdate(m, l, q, Get(l, q) + [t]);
  }

  lemma DeleteSame<Q(!new)>(m: map<Q, seq<Tid>>, l: map<Q, seq<Tid>>, q: Q, at: nat)
    requires SameLists(m, l) && at < |Get(l, q)|
    ensures Get(m, q) == Get(l, q) && SameLists(Delete(m, q, at), Delete(l, q, at))
  {
    SameUpdate(m, l, q, RemoveAt(Get(l, q), at));
  }

  lemma BlockSame(k: State, v: State, c: nat, q: QueueId, until: Option<nat>)
    requires Same(k, v) && HasCore(v, c)
    ensures Same(BlockCurrent(k, c, q, until), BlockCurrent(v, c, q, until))
  {
    var at := DeadlinePosition(v.tasks, Get(v.queues, q), until);
    SameUpdate(k.queues, v.queues, q, InsertAt(Get(v.queues, q), at, v.cores[c].current));
    hide SameLists;
  }

  lemma WakeSame(k: State, v: State, c: nat, q: QueueId, at: nat)
    requires Same(k, v) && at < |Get(v.queues, q)| && Get(v.queues, q)[at] in v.tasks
    ensures at < |Get(k.queues, q)| && Get(k.queues, q)[at] in k.tasks
    ensures Same(WakeFrom(k, c, q, at), WakeFrom(v, c, q, at))
  {
    MoveSame(k, v, q, at, PushQ(c), Get(v.queues, q)[at]);
    assert Get(k.queues, q) == Get(v.queues, q);
    hide SameLists;
  }

  lemma WakeWaiterSame(k: State, v: State, c: nat, o: nat)
    requires Same(k, v) && o in v.objects
    ensures Same(WakeWaiter(k, c, o), WakeWaiter(v, c, o))
  {
    TopWaitSame(k.waits, v.waits, o, NO_PRIORITIES);
    var top := TopWait(v.waits, o, NO_PRIORITIES);
    if top >= 0 {
      DeleteSame(k.waits, v.waits, WaitQ(o, top), 0);
      var t := Get(v.waits, WaitQ(o, top))[0];
      var k1 := k.(waits := Delete(k.waits, WaitQ(o, top), 0));
      var v1 := v.(waits := Delete(v.waits, WaitQ(o, top), 0));
      if t in v.tasks {
        var q := BlockedQ(v.tasks[t].core);
        assert Get(k.queues, q) == Get(v.queues, q);
        var at := IndexOf(Get(v.queues, q), t);
        if at < |Get(v.queues, q)| {
          WakeSame(k1, v1, c, q, at);
        }
      }
    }
  }

  lemma AsideSame(k: State, v: State, c: nat, seen: Status)
    requires Same(k, v) && HasCore(v, c)
    ensures Same(PutAside(k, c, seen), PutAside(v, c, seen))
  {
    var t := v.cores[c].current;
    AppendSame(k.queues, v.queues, ReadyQ(c, v.tasks[t].prio), t);
    AppendSame(k.queues, v.queues, FinishedQ(c), t);
    hide SameLists;
  }

  lemma ChooseSame(k: State, v: State, c: nat, seen: Status, expired: bool)
    requires Same(k, v) && HasCore(v, c)
    ensures Choose(k, c, seen, expired) == Choose(v, c, seen, expired)
  {
    TopReadySame(k.queues, v.queues, c, NO_PRIORITIES);
    hide TopReady;
  }

  lemma DispatchSame(k: State, v: State, c: nat, seen: Status, level: nat)
    requires Same(k, v) && HasCore(v, c) && Get(v.queues, ReadyQ(c, level)) != []
    ensures Get(k.queues, ReadyQ(c, level)) != []
    ensures Same(DispatchStep(k, c, seen, level), DispatchStep(v, c, seen, level))
  {
    var q := ReadyQ(c, level);
    DeleteSame(k.queues, v.queues, q, 0);
    AsideSame(k.(queues := Delete(k.queues, q, 0)), v.(queues := Delete(v.queues, q, 0)), c, seen);
    hide SameLists, PutAside;
  }

  lemma SwitchSame(k: State, v: State, c: nat, t: Tid)
    requires Same(k, v) && c < |v.cores| && t in v.tasks
    ensures Same(Resume(k, c, t), Resume(v, c, t)) && Same(SwitchTo(k, c, t), SwitchTo(v, c, t))
  {
    hide SameLists;
  }

  lemma IdleSame(k: State, v: State, c: nat, seen: Status)
    requires Same(k, v) && HasCore(v, c)
    ensures Same(IdleStep(k, c, seen), IdleStep(v, c, seen))
  {
    AsideSame(k, v, c, seen);
    hide SameLists, PutAside, SwitchTo;
    var aside := PutAside(v, c, seen);
    if v.cores[c].idle in aside.tasks {
      SwitchSame(PutAside(k, c, seen), aside, c, v.cores[c].idle);
    }
  }

  lemma DecideSame(k: State, v: State, c: nat, seen: Status, expired: bool)
    requires Same(k, v) && HasCore(v, c)
    ensures Same(DecideStep(k, c, seen, expired), DecideStep(v, c, seen, expired))
  {
    ChooseSame(k, v, c, seen, expired);
    hide SameLists, IdleStep, DispatchStep, Choose, Resume;
    match Choose(v, c, seen, expired)
    case Stay => SwitchSame(k, v, c, v.cores[c].current);
    case Dispatch(level) => DispatchSame(k, v, c, seen, level);
    case GoIdle => IdleSame(k, v, c, seen);
  }

  lemma CleanupSame(k: State, v: State, c: nat)
    requires Same(k, v) && HasCore(v, c)
    ensures Same(CleanupStep(k, c), CleanupStep(v, c))
  {
    assert Get(k.queues, FinishedQ(c)) == Get(v.queues, FinishedQ(c));
    if Get(v.queues, FinishedQ(c)) != [] {
      DeleteSame(k.queues, v.queues, FinishedQ(c), 0);
    }
    hide SameLists;
  }

  lemma ForgetSame(k: State, v: State, c: nat, id: Tid)
    requires Same(k, v) && HasCore(v, c)
    ensures Same(ForgetStep(k, c, id), ForgetStep(v, c, id))
  {
    SameUpdate(k.queues, v.queues, JoinQ(id), []);
    SameUpdate(k.queues[JoinQ(id) := []], v.queues[JoinQ(id) := []], DrainQ(c), Get(v.queues, JoinQ(id)));
    hide SameLists;
  }

  lemma StopSame(k: State, v: State, c: nat)
    requires Same(k, v) && HasCore(v, c)
    ensures Same(StopRetrying(k, c), StopRetrying(v, c)) && HasCore(StopRetrying(v, c), c)
  {
    hide SameLists;
  }

  lemma BlockedSame(k: State, v: State, c: nat, until: Option<nat>)
    requires Same(k, v) && HasCore(v, c)
    ensures Same(BlockInAcquire(k, c, until), BlockInAcquire(v, c, until))
  {
    StopSame(k, v, c);
    BlockSame(StopRetrying(k, c), StopRetrying(v, c), c, BlockedQ(c), until);
    hide SameLists, BlockCurrent;
  }

  lemma WaitSame(k: State, v: State, c: nat, o: nat, until: Option<nat>)
    requires Same(k, v) && HasCore(v, c)
    ensures Same(WaitFor(k, c, o, until), WaitFor(v, c, o, until))
  {
    BlockedSame(k, v, c, until);
    AppendSame(k.waits, v.waits, WaitQ(o, Current(v, c).prio), v.cores[c].current);
    hide SameLists, BlockInAcquire;
  }

  lemma EnabledSame(k: State, v: State, a: Action)
    requires Same(k, v)
    ensures Enabled(k, a) == Enabled(v, a)
  {
  }

  lemma CreateSame(k: State, v: State, target: nat, prio: nat, tid: Tid)
    requires Same(k, v)
    ensures Same(CreateTask(k, target, prio, tid), CreateTask(v, target, prio, tid))
  {
    AppendSame(k.queues, v.queues, ReadyQ(target, prio), tid);
  }

  lemma DrainSame(k: State, v: State, c: nat)
    requires Same(k, v) && HasCore(v, c)
    ensures Same(DrainStep(k, c), DrainStep(v, c))
  {
    var list := Get(v.queues, DrainQ(c));
    assert Get(k.queues, DrainQ(c)) == list;
    if list != [] && list[0] in v.tasks {
      WakeSame(k, v, c, DrainQ(c), 0);
    }
    hide WakeFrom, SameLists;
  }

  lemma ExpireSame(k: State, v: State, c: nat, now: nat)
    requires Same(k, v) && HasCore(v, c)
    ensures Same(ExpireStep(k, c, now), ExpireStep(v, c, now))
  {
    var list := Get(v.queues, BlockedQ(c));
    assert Get(k.queues, BlockedQ(c)) == list;
    if list != [] && list[0] in v.tasks {
      WakeSame(k, v, c, BlockedQ(c), 0);
    }
    hide WakeFrom, SameLists;
  }

  lemma PushSame(k: State, v: State, c: nat)
    requires Same(k, v) && Get(v.queues, PushQ(c)) != [] && Get(v.queues, PushQ(c))[0] in v.tasks
    ensures Get(k.queues, PushQ(c)) == Get(v.queues, PushQ(c)) && Same(PushStep(k, c), PushStep(v, c))
  {
    var t := Get(v.queues, PushQ(c))[0];
    assert Get(k.queues, PushQ(c)) == Get(v.queues, PushQ(c));
    MoveSame(k, v, PushQ(c), 0, ReadyQ(v.tasks[t].core, v.tasks[t].prio), t);
    hide SameLists;
  }

  lemma ObjectsSame(k: State, v: State, objects: map<nat, Object>)
    requires Same(k, v)
    ensures k.objects == v.objects && Same(k.(objects := objects), v.(objects := objects))
  {
    hide SameLists;
  }

  lemma ReleaseForm(k: State, c: nat, o: nat, s: Object)
    requires o in k.objects && k.objects[o].Semaphore?
    requires s == k.objects[o].(count := k.objects[o].count + 1, released := k.objects[o].released + 1)
    ensures ReleaseStep(k, c, o) == WakeWaiter(k.(objects := k.objects[o := s]), c, o)
  {
    hide WakeWaiter;
  }

  lemma ReleaseSame(k: State, v: State, c: nat, o: nat)
    requires Same(k, v) && o in v.objects && v.objects[o].Semaphore?
    ensures Same(ReleaseStep(k, c, o), ReleaseStep(v, c, o))
  {
    hide *;
    var s := v.objects[o].(count := v.objects[o].count + 1, released := v.objects[o].released + 1);
    var objects := v.objects[o := s];
    ObjectsSame(k, v, objects);
    ReleaseForm(k, c, o, s);
    ReleaseForm(v, c, o, s);
    WakeWaiterSame(k.(objects := objects), v.(objects := objects), c, o);
  }

  lemma UnlockSame(k: State, v: State, c: nat, o: nat)
    requires Same(k, v) && HasCore(v, c) && o in v.objects && v.objects[o].Mutex? && v.objects[o].depth > 0
    ensures Same(UnlockStep(k, c, o), UnlockStep(v, c, o))
  {
    var t, m := v.cores[c].current, v.objects[o];
    var n := if Nesting(m, t) > 0 then Nesting(m, t) - 1 else 0;
    var m1 := m.(depth := m.depth - 1, nesting := m.nesting[t := n], owner := None);
    hide SameLists, WakeWaiter;
    WakeWaiterSame(k.(objects := k.objects[o := m1]), v.(objects := v.objects[o := m1]), c, o);
  }

  lemma AcquireSame(k: State, v: State, c: nat, o: nat, until: Option<nat>)
    requires Same(k, v) && HasCore(v, c) && o in v.objects && v.objects[o].Semaphore?
    ensures Same(AcquireStep(k, c, o, until), AcquireStep(v, c, o, until))
  {
    hide SameLists, WaitFor, StopRetrying;
    StopSame(k, v, c);
    WaitSame(k, v, c, o, until);
  }

  lemma LockSame(k: State, v: State, c: nat, o: nat)
    requires Same(k, v) && HasCore(v, c) && o in v.objects && v.objects[o].Mutex?
    ensures Same(LockStep(k, c, o), LockStep(v, c, o))
  {
    hide SameLists, BlockInAcquire, StopRetrying;
    StopSame(k, v, c);
    BlockedSame(k, v, c, None);
  }

  lemma EnqueueSame(k: State, v: State, c: nat)
    requires Same(k, v) && HasCore(v, c) && Current(v, c).queueing.Some?
    ensures Same(EnqueueStep(k, c), EnqueueStep(v, c))
  {
    var t := v.cores[c].current;
    AppendSame(k.waits, v.waits, WaitQ(v.tasks[t].queueing.value, v.tasks[t].prio), t);
    hide SameLists;
  }

  lemma ObjectSame(k: State, v: State, a: Action)
    requires Same(k, v) && Enabled(k, a) && Enabled(v, a)
    requires a.Join? || a.Sleep? || a.Acquire? || a.TryAcquire? || a.Release? || a.Lock? || a.Enqueue? || a.Unlock?
    ensures Same(Step(k, a), Step(v, a))
  {
    hide SameLists, BlockCurrent, AcquireStep, ReleaseStep, LockStep, EnqueueStep, UnlockStep;
    match a
    case Join(c, tid) => BlockSame(k, v, c, JoinQ(tid), None);
    case Sleep(c, until) => BlockSame(k, v, c, BlockedQ(c), Some(until));
    case Acquire(c, o, until) => AcquireSame(k, v, c, o, until);
    case TryAcquire(c, o) => AcquireSame(k, v, c, o, None);
    case Release(c, o) => ReleaseSame(k, v, c, o);
    case Lock(c, o) => LockSame(k, v, c, o);
    case Enqueue(c) => EnqueueSame(k, v, c);
    case Unlock(c, o) => UnlockSame(k, v, c, o);
  }

  /** A step sees the contents of the queues and nothing else of them. */
  lemma StepSame(k: State, v: State, a: Action)
    requires Same(k, v) && Enabled(v, a)
    ensures Enabled(k, a) && Same(Step(k, a), Step(v, a))
  {
    EnabledSame(k, v, a);
    if a.Join? || a.Sleep? || a.Acquire? || a.TryAcquire? || a.Release? || a.Lock? || a.Enqueue? || a.Unlock? {
      hide *;
      ObjectSame(k, v, a);
    } else {
      hide SameLists, CreateTask, CleanupStep, ForgetStep, DrainStep, PushStep, DecideStep, ExpireStep;
      match a
      case Spawn(c, target, prio, tid, quiet) => CreateSame(k, v, target, prio, tid);
      case Clone(c, target, tid) => CreateSame(k, v, target, Current(v, c).prio, tid);
      case Cleanup(c) => CleanupSame(k, v, c);
      case Forget(c) => ForgetSame(k, v, c, v.cores[c].phase.id);
      case Drain(c) => DrainSame(k, v, c);
      case Push(c) => PushSame(k, v, c);
      case Decide(c, expired) => DecideSame(k, v, c, v.cores[c].phase.seen, expired);
      case Expire(c) => ExpireSame(k, v, c, v.cores[c].phase.now);
      case Register(c) =>
      case Exit(c) =>
      case Yield(c) =>
      case Call(c) =>
      case Read(c) =>
      case Tick(c, now) =>
      case Nest(c, now) =>
      case NestLate(c, now) =>
    }
  }

  // ----- Reachable states -----

  /** A run from `start` with steps that are all `ok` ends in `v`, up to how the queues are written down. */
  ghost predicate Reaches(start: State, ok: Action -> bool, v: State) {
    exists run, k :: Run(start, run) == Some(k) && All(run, ok) && Same(k, v)
  }

  predicate All(run: seq<Action>, ok: Action -> bool) {
    forall i :: 0 <= i < |run| ==> ok(run[i])
  }

  /** `ok` rules out some spawns, timed waits or late interrupts at most. */
  ghost predicate Mild(ok: Action -> bool) {
    forall a: Action :: a.Spawn? || a.Acquire? || a.NestLate? || ok(a)
  }

  lemma {:induction false} RunMore(start: State, run: seq<Action>, k: State, a: Action)
    requires Run(start, run) == Some(k) && Enabled(k, a)
    ensures Run(start, run + [a]) == Some(Step(k, a))
    decreases |run|
  {
    hide Step, Enabled;
    if run == [] {
      assert run + [a] == [a] && [a][1..] == [];
      assert Run(Step(start, a), [a][1..]) == Some(Step(start, a));
    } else {
      assert (run + [a])[1..] == run[1..] + [a];
      RunMore(Step(start, run[0]), run[1..], k, a);
    }
  }

  lemma SameTransitive(k: State, v: State, v': State)
    requires Same(k, v) && Same(v, v')
    ensures Same(k, v')
  {
    forall q ensures Get(k.queues, q) == Get(v'.queues, q) {
      assert Get(k.queues, q) == Get(v.queues, q);
    }
    forall w ensures Get(k.waits, w) == Get(v'.waits, w) {
      assert Get(k.waits, w) == Get(v.waits, w);
    }
  }

  lemma Restated(start: State, ok: Action -> bool, v: State, v': State)
    requires Reaches(start, ok, v) && Same(v, v')
    ensures Reaches(start, ok, v')
  {
    hide Same, Run;
    var run, k :| Run(start, run) == Some(k) && All(run, ok) && Same(k, v);
    SameTransitive(k, v, v');
  }

  lemma Then(start: State, ok: Action -> bool, v: State, a: Action)
    requires Reaches(start, ok, v) && Enabled(v, a) && ok(a)
    ensures Reaches(start, ok, Step(v, a))
  {
    hide Same, Run, Step, Enabled;
    var run, k :| Run(start, run) == Some(k) && All(run, ok) && Same(k, v);
    StepSame(k, v, a);
    RunMore(start, run, k, a);
    assert Run(start, run + [a]) == Some(Step(k, a)) && All(run + [a], ok) && Same(Step(k, a), Step(v, a));
  }

  lemma Start(v: State, ok: Action -> bool)
    ensures Reaches(v, ok, v)
  {
    assert Run(v, []) == Some(v) && All([], ok) && Same(v, v);
  }

  // ----- Steps of a task -----

  lemma Spawned(start: State, ok: Action -> bool, v: State, a: Action, v': State)
    requires Reaches(start, ok, v) && a.Spawn? && ok(a) && MayCreate(v, a.core, a.target, a.prio, a.tid)
    requires Same(SpawnStep(v, a.core, a.target, a.prio, a.tid, a.quiet), v')
    ensures Reaches(start, ok, v')
  {
    hide Reaches, Same;
    Then(start, ok, v, a);
    Restated(start, ok, Step(v, a), v');
  }

  lemma Registered(start: State, ok: Action -> bool, v: State, c: nat, v': State)
    requires Mild(ok) && Reaches(start, ok, v) && Free(v, c) && Current(v, c).spawning.Some?
    requires Same(RegisterStep(v, c), v')
    ensures Reaches(start, ok, v')
  {
    hide Reaches, Same;
    Then(start, ok, v, Register(c));
    Restated(start, ok, Step(v, Register(c)), v');
  }

  lemma Joined(start: State, ok: Action -> bool, v: State, c: nat, tid: Tid, v': State)
    requires Mild(ok) && Reaches(start, ok, v) && Working(v, c) && tid in v.registered && tid != v.cores[c].current
    requires Same(BlockCurrent(v, c, JoinQ(tid), None), v')
    ensures Reaches(start, ok, v')
  {
    hide Reaches, Same;
    Then(start, ok, v, Join(c, tid));
    Restated(start, ok, Step(v, Join(c, tid)), v');
  }

  lemma Exited(start: State, ok: Action -> bool, v: State, c: nat, v': State)
    requires Mild(ok) && Reaches(start, ok, v) && Working(v, c) && Same(SetStatus(v, v.cores[c].current, Finished), v')
    ensures Reaches(start, ok, v')
  {
    hide Reaches, Same;
    Then(start, ok, v, Exit(c));
    Restated(start, ok, Step(v, Exit(c)), v');
  }

  lemma Waited(start: State, ok: Action -> bool, v: State, a: Action, v': State)
    requires Reaches(start, ok, v) && a.Acquire? && ok(a) && MayTry(v, a.core, a.obj)
    requires v.objects[a.obj].Semaphore? && v.objects[a.obj].count <= 0 && Same(WaitFor(v, a.core, a.obj, a.until), v')
    ensures Reaches(start, ok, v')
  {
    hide Reaches, Same;
    Then(start, ok, v, a);
    Restated(start, ok, Step(v, a), v');
  }

  // ----- Calls of the scheduler -----

  function At(v: State, c: nat, p: Phase, loud: bool): State
    requires c < |v.cores|
  {
    v.(cores := v.cores[c := v.cores[c].(phase := p, loud := loud)])
  }

  /** From the start of the scheduler to its decision, with nothing to clean up. */
  lemma Decision(start: State, ok: Action -> bool, v: State, c: nat)
    requires Mild(ok) && Reaches(start, ok, v) && HasCore(v, c) && v.cores[c].phase == Entering
             && Get(v.queues, FinishedQ(c)) == []
    ensures Reaches(start, ok, At(v, c, Deciding(Current(v, c).status), v.cores[c].loud))
  {
    hide Reaches;
    Then(start, ok, v, Cleanup(c));
    var v1 := Step(v, Cleanup(c));
    Then(start, ok, v1, Read(c));
    assert Step(v1, Read(c)) == At(v, c, Deciding(Current(v, c).status), v.cores[c].loud);
  }

  /** A call by the current task. */
  lemma Called(start: State, ok: Action -> bool, v: State, c: nat, loud: bool)
    requires Mild(ok) && Reaches(start, ok, v) && Own(v, c) && Get(v.queues, FinishedQ(c)) == []
    ensures Reaches(start, ok, At(v, c, Deciding(Current(v, c).status), loud))
  {
    hide Reaches;
    var a := if loud then Call(c) else Yield(c);
    Then(start, ok, v, a);
    Decision(start, ok, Step(v, a), c);
    assert At(Step(v, a), c, Deciding(Current(v, c).status), loud) == At(v, c, Deciding(Current(v, c).status), loud);
  }

  /** A timer interrupt when nobody's time has come. */
  lemma Ticked(start: State, ok: Action -> bool, v: State, c: nat)
    requires Mild(ok) && Reaches(start, ok, v) && Get(v.queues, BlockedQ(c)) == []
    requires Free(v, c) && (Current(v, c).spawning.Some? ==> !Current(v, c).spawning.value.quiet)
    ensures Reaches(start, ok, At(v, c, Entering, false))
  {
    hide Reaches;
    Then(start, ok, v, Tick(c, 0));
    var v1 := Step(v, Tick(c, 0));
    Then(start, ok, v1, Expire(c));
    assert Step(v1, Expire(c)) == At(v, c, Entering, false);
  }

  lemma TopIs(queues: map<QueueId, seq<Tid>>, c: nat, level: int)
    requires -1 <= level < NO_PRIORITIES && (level >= 0 ==> Get(queues, ReadyQ(c, level)) != [])
    requires forall p :: level < p < NO_PRIORITIES ==> Get(queues, ReadyQ(c, p)) == []
    ensures TopReady(queues, c, NO_PRIORITIES) == level
  {
  }

  /** The decision for the only ready task of the highest level. */
  lemma Dispatched(start: State, ok: Action -> bool, v: State, c: nat, level: nat, t: Tid, v': State)
    requires Mild(ok) && Reaches(start, ok, v) && HasCore(v, c) && v.cores[c].phase.Deciding? && t in v.tasks
    requires level < NO_PRIORITIES && Get(v.queues, ReadyQ(c, level)) == [t]
    requires forall p :: level < p < NO_PRIORITIES ==> Get(v.queues, ReadyQ(c, p)) == []
    requires v.cores[c].phase.seen == Running ==> level > Current(v, c).prio
    requires var popped := v.(queues := v.queues[ReadyQ(c, level) := []]);
             Same(SwitchTo(PutAside(popped, c, v.cores[c].phase.seen), c, t), v')
    ensures Reaches(start, ok, v')
  {
    TopIs(v.queues, c, level);
    hide Reaches, TopReady, Same;
    assert RemoveAt([t], 0) == [];
    Then(start, ok, v, Decide(c, false));
    Restated(start, ok, Step(v, Decide(c, false)), v');
  }

  /** The decision without a ready task. */
  lemma Idled(start: State, ok: Action -> bool, v: State, c: nat, v': State)
    requires Mild(ok) && Reaches(start, ok, v) && HasCore(v, c) && v.cores[c].phase.Deciding?
             && v.cores[c].idle in v.tasks
    requires forall p :: 0 <= p < NO_PRIORITIES ==> Get(v.queues, ReadyQ(c, p)) == []
    requires var seen := v.cores[c].phase.seen;
             Same(if seen == Running || seen == Idle then Resume(v, c, v.cores[c].current)
                  else SwitchTo(PutAside(v, c, seen), c, v.cores[c].idle), v')
    ensures Reaches(start, ok, v')
  {
    TopIs(v.queues, c, -1);
    hide Reaches, TopReady, Same;
    Then(start, ok, v, Decide(c, false));
    Restated(start, ok, Step(v, Decide(c, false)), v');
  }
}
