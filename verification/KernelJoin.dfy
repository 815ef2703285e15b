/**
 Joining a task.  A joiner sleeps until `cleanup_tasks` of the joined task's core wakes it.  That works as
 long as the task is registered in TASKS before it is cleaned up; `spawn` pushes the new task first and
 registers it later, and a joiner can be lost if the task can run in between.  It cannot if it is spawned on
 the spawning core with interrupts off.  And it works as long as an interrupted cleanup goes on at some time, which it
 does not if its task had finished.
 */
module KernelJoin {
  import opened Registry
  import opened Kernel
  import opened KernelSafety
  import opened Options
  import opened Priorities

  /** `spawn` is called with interrupts off and for the core that calls it (`clone` is not restricted). */
  predicate QuietSpawn(a: Action) {
    a.Spawn? ==> a.target == a.core && a.quiet
  }

  /** All steps but two: a `spawn` that is not quiet, and an interrupt in the middle of a cleanup that a finished task
      has begun. */
  predicate Kind(k: State, a: Action)
    requires Enabled(k, a)
  {
    QuietSpawn(a) && (a.NestLate? && k.cores[a.core].phase.Cleaning? ==> Current(k, a.core).status != Finished)
  }

  ghost predicate KindRun(k: State, actions: seq<Action>)
    decreases |actions|
  {
    actions != [] && Enabled(k, actions[0]) ==>
      Kind(k, actions[0]) && KindRun(Step(k, actions[0]), actions[1..])
  }

  /** The task that core `c` is cleaning up. */
  function CleaningOn(k: State, c: nat): Option<Tid> {
    if c < |k.cores| && k.cores[c].phase.Cleaning? then Some(k.cores[c].phase.id) else None
  }

  /** A task is going to clean up `t`, and was interrupted when it was about to. */
  predicate CleanedLater(k: State, t: Tid) {
    exists x :: x in k.tasks && Cleans(k.tasks[x]) == Some(t)
  }

  /** A retired task waits in the finished list of its core, or is being cleaned up, or will be by somebody who was
      interrupted. */
  predicate WillBeCleaned(k: State, t: Tid)
    requires t in k.tasks
  {
    k.tasks[t].status == Invalid ==>
      || t in Get(k.queues, FinishedQ(k.tasks[t].core)) || CleaningOn(k, k.tasks[t].core) == Some(t)
      || CleanedLater(k, t)
  }

  /** Who was interrupted in the middle of a cleanup has not finished. */
  predicate CleanerLives(x: Task) {
    Cleans(x).Some? ==> x.status != Finished && x.status != Invalid
  }

  /** The task that core `c` is spawning with interrupts off. */
  function PendingOn(k: State, c: nat): Option<Tid> {
    if HasCore(k, c) && k.cores[c].phase == Executing && Current(k, c).spawning.Some?
      && Current(k, c).spawning.value.quiet
    then Some(Current(k, c).spawning.value.tid) else None
  }

  /** A task that is not in TASKS is being spawned, with interrupts off, by the core on which it will run. */
  predicate FreshOrRegistered(k: State, t: Tid)
    requires t in k.tasks
  {
    t in k.registered || (PendingOn(k, k.tasks[t].core) == Some(t) && k.tasks[t].status == Ready)
  }

  predicate JoinInv(k: State) {
    forall t :: t in k.tasks ==> WillBeCleaned(k, t) && FreshOrRegistered(k, t) && CleanerLives(k.tasks[t])
  }

  /** A step that retires nobody and touches neither TASKS nor a task being spawned. */
  ghost predicate Plain(k: State, k': State) {
    && k'.tasks.Keys == k.tasks.Keys && k'.registered == k.registered && |k'.cores| == |k.cores|
    && (forall t :: t in k.tasks ==> PlainTask(k.tasks[t], k'.tasks[t]))
    && (forall c :: Get(k'.queues, FinishedQ(c)) == Get(k.queues, FinishedQ(c)))
    && (forall c :: PendingOn(k, c).Some? ==> PendingOn(k', c) == PendingOn(k, c))
    && (forall c :: CleaningOn(k, c).Some? ==> CleaningOn(k', c) == CleaningOn(k, c))
  }

  predicate PlainTask(x: Task, x': Task) {
    x'.core == x.core && (x'.status == Invalid <==> x.status == Invalid) && (x.status == Ready ==> x'.status == Ready)
    && Cleans(x') == Cleans(x) && (x'.status == Finished ==> x.status == Finished || Cleans(x) == None)
  }

  lemma PlainKeeps(k: State, k': State)
    requires JoinInv(k) && Plain(k, k')
    ensures JoinInv(k')
  {
    forall t | t in k'.tasks ensures WillBeCleaned(k', t) && FreshOrRegistered(k', t) && CleanerLives(k'.tasks[t]) {
      assert WillBeCleaned(k, t) && FreshOrRegistered(k, t) && CleanerLives(k.tasks[t]);
      assert PlainTask(k.tasks[t], k'.tasks[t]);
      if CleanedLater(k, t) {
        var x :| x in k.tasks && Cleans(k.tasks[x]) == Some(t);
        assert PlainTask(k.tasks[x], k'.tasks[x]) && Cleans(k'.tasks[x]) == Some(t);
      }
    }
  }

  lemma PlainTrans(a: State, b: State, c: State)
    requires Plain(a, b) && Plain(b, c)
    ensures Plain(a, c)
  {
    forall t | t in a.tasks ensures PlainTask(a.tasks[t], c.tasks[t]) {
      assert PlainTask(a.tasks[t], b.tasks[t]) && PlainTask(b.tasks[t], c.tasks[t]);
    }
  }

  lemma BlockPlain(k: State, c: nat, q: QueueId, until: Option<nat>)
    requires HasCore(k, c) && Current(k, c).status == Running && Current(k, c).spawning == None && !q.FinishedQ?
    ensures Plain(k, BlockCurrent(k, c, q, until))
  {
  }

  lemma WakePlain(k: State, c: nat, q: QueueId, at: nat)
    requires at < |Get(k.queues, q)| && Get(k.queues, q)[at] in k.tasks && !q.FinishedQ?
    requires k.tasks[Get(k.queues, q)[at]].status == Blocked
    ensures Plain(k, WakeFrom(k, c, q, at))
  {
  }

  lemma StopRetryingPlain(k: State, c: nat)
    requires HasCore(k, c)
    ensures Plain(k, StopRetrying(k, c))
  {
  }

  lemma WaitForPlain(k: State, c: nat, o: nat, until: Option<nat>)
    requires HasCore(k, c) && Current(k, c).status == Running && Current(k, c).spawning == None
    ensures Plain(k, WaitFor(k, c, o, until))
  {
    hide BlockInAcquire, Plain;
    BlockedPlain(k, c, until);
    var k1, k2 := BlockInAcquire(k, c, until), WaitFor(k, c, o, until);
    WaitsPlain(k1, k2.waits);
    PlainTrans(k, k1, k2);
  }

  lemma BlockedPlain(k: State, c: nat, until: Option<nat>)
    requires HasCore(k, c) && Current(k, c).status == Running && Current(k, c).spawning == None
    ensures Plain(k, BlockInAcquire(k, c, until))
  {
    StopRetryingPlain(k, c);
    var k1 := StopRetrying(k, c);
    BlockPlain(k1, c, BlockedQ(c), until);
    hide StopRetrying, BlockCurrent, Plain;
    PlainTrans(k, k1, BlockCurrent(k1, c, BlockedQ(c), until));
  }

  lemma QueueingPlain(k: State, t: Tid, o: Option<nat>, waits: map<WaitId, seq<Tid>>)
    requires t in k.tasks
    ensures Plain(k, k.(tasks := k.tasks[t := k.tasks[t].(queueing := o)], waits := waits))
  {
  }

  lemma WaitsPlain(k: State, waits: map<WaitId, seq<Tid>>)
    ensures Plain(k, k.(waits := waits))
  {
  }

  lemma RetryPlain(k: State, t: Tid, o: Option<nat>, k': State)
    requires t in k.tasks && k' == k.(tasks := k.tasks[t := k.tasks[t].(retrying := o)], objects := k'.objects)
    ensures Plain(k, k')
  {
  }

  lemma WakeWaiterPlain(k: State, c: nat, o: nat)
    requires Inv(k) && o in k.objects
    ensures Plain(k, WakeWaiter(k, c, o))
  {
    var top := TopWait(k.waits, o, NO_PRIORITIES);
    if top >= 0 {
      var t := Get(k.waits, WaitQ(o, top))[0];
      assert WaiterFits(k, WaitQ(o, top), t) && Fits(k, BlockedQ(k.tasks[t].core), t);
      var popped := k.(waits := Delete(k.waits, WaitQ(o, top), 0));
      var q := BlockedQ(k.tasks[t].core);
      var at := IndexOf(Get(k.queues, q), t);
      hide Inv;
      WakePlain(popped, c, q, at);
      var k2 := WakeFrom(popped, c, q, at);
      var k3 := k2.(tasks := k2.tasks[t := k2.tasks[t].(retrying := Some(o))],
                    objects := k2.objects[o := k2.objects[o].(woken := k2.objects[o].woken + {t})]);
      assert k3 == WakeWaiter(k, c, o);
      WaitsPlain(k, popped.waits);
      hide WakeFrom, WakeWaiter, Plain;
      RetryPlain(k2, t, Some(o), k3);
      PlainTrans(k, popped, k2);
      PlainTrans(k, k2, k3);
    } else {
      PlainSelf(k);
    }
  }

  lemma AcquirePlain(k: State, c: nat, o: nat, until: Option<nat>)
    requires MayTry(k, c, o) && k.objects[o].Semaphore?
    ensures Plain(k, AcquireStep(k, c, o, until))
  {
    StopRetryingPlain(k, c);
    WaitForPlain(k, c, o, until);
  }

  lemma LockPlain(k: State, c: nat, o: nat)
    requires MayTry(k, c, o) && k.objects[o].Mutex?
    ensures Plain(k, LockStep(k, c, o))
  {
    StopRetryingPlain(k, c);
    var t, m := k.cores[c].current, k.objects[o];
    if m.owner != Some(t) && m.owner.Some? {
      BlockedPlain(k, c, None);
      hide BlockInAcquire, Plain;
      var k1 := BlockInAcquire(k, c, None);
      QueueingPlain(k1, t, Some(o), k1.waits);
      PlainTrans(k, k1, LockStep(k, c, o));
    } else {
      LockedPlain(k, c, o);
    }
  }

  lemma LockedPlain(k: State, c: nat, o: nat)
    requires MayTry(k, c, o) && k.objects[o].Mutex?
    requires k.objects[o].owner == Some(k.cores[c].current) || k.objects[o].owner == None
    ensures Plain(k, LockStep(k, c, o))
  {
    StopRetryingPlain(k, c);
    var k1, k2 := StopRetrying(k, c), LockStep(k, c, o);
    hide StopRetrying, Plain;
    ObjectsPlain(k1, k2.objects);
    PlainTrans(k, k1, k2);
  }

  lemma ObjectsPlain(k: State, objects: map<nat, Object>)
    ensures Plain(k, k.(objects := objects))
  {
  }

  lemma ObjectPlain(k: State, o: nat, x: Object)
    ensures Plain(k, k.(objects := k.objects[o := x]))
  {
  }

  lemma ReleasePlain(k: State, c: nat, o: nat)
    requires Inv(k) && o in k.objects && k.objects[o].Semaphore?
    ensures Plain(k, ReleaseStep(k, c, o))
  {
    hide Inv, Plain, WakeWaiter;
    var s := k.objects[o].(count := k.objects[o].count + 1, released := k.objects[o].released + 1);
    var k1 := k.(objects := k.objects[o := s]);
    ObjectKeeps(k, o, s);
    ObjectPlain(k, o, s);
    WakeWaiterPlain(k1, c, o);
    PlainTrans(k, k1, WakeWaiter(k1, c, o));
  }

  lemma UnlockPlain(k: State, c: nat, o: nat)
    requires Inv(k) && Enabled(k, Unlock(c, o))
    ensures Plain(k, UnlockStep(k, c, o))
  {
    hide Inv, Plain, WakeWaiter;
    var t, m := k.cores[c].current, k.objects[o];
    var n := if Nesting(m, t) > 0 then Nesting(m, t) - 1 else 0;
    var m1 := m.(depth := m.depth - 1, nesting := m.nesting[t := n]);
    if m1.depth == 0 {
      var m2 := m1.(owner := None);
      var k1 := k.(objects := k.objects[o := m2]);
      ObjectKeeps(k, o, m2);
      ObjectPlain(k, o, m2);
      WakeWaiterPlain(k1, c, o);
      PlainTrans(k, k1, WakeWaiter(k1, c, o));
    } else {
      ObjectPlain(k, o, m1);
    }
  }

  // ----- The decision -----

  lemma AsidePending(k: State, c: nat, seen: Status, d: nat)
    requires HasCore(k, c)
    ensures PendingOn(PutAside(k, c, seen), d) == PendingOn(k, d)
    ensures CleaningOn(PutAside(k, c, seen), d) == CleaningOn(k, d)
  {
  }

  /** What a switch does to the tasks: the new task runs, the old one may be queued again or retired. */
  lemma AsideJoin(k: State, c: nat)
    requires Inv(k) && JoinInv(k) && HasCore(k, c) && k.cores[c].phase.Deciding?
    ensures JoinInv(PutAside(k, c, k.cores[c].phase.seen))
  {
    var t, seen := k.cores[c].current, k.cores[c].phase.seen;
    var k' := PutAside(k, c, seen);
    OfCore(k, c);
    hide Inv;
    forall x | x in k'.tasks ensures WillBeCleaned(k', x) && FreshOrRegistered(k', x) && CleanerLives(k'.tasks[x]) {
      assert WillBeCleaned(k, x) && FreshOrRegistered(k, x) && CleanerLives(k.tasks[x]);
      AsidePending(k, c, seen, k.tasks[x].core);
      AsideCleaned(k, c, seen, x);
      AsideTask(k, c, seen, x);
    }
  }

  /** No interrupted cleanup is given up. */
  lemma AsideCleaned(k: State, c: nat, seen: Status, x: Tid)
    requires JoinInv(k) && HasCore(k, c) && (seen == Finished ==> Current(k, c).status == Finished)
    ensures CleanedLater(k, x) ==> CleanedLater(PutAside(k, c, seen), x)
  {
    if CleanedLater(k, x) {
      var y :| y in k.tasks && Cleans(k.tasks[y]) == Some(x);
      assert CleanerLives(k.tasks[y]);
      assert Cleans(PutAside(k, c, seen).tasks[y]) == Some(x);
    }
  }

  lemma AsideTask(k: State, c: nat, seen: Status, x: Tid)
    requires HasCore(k, c) && x in k.tasks && WillBeCleaned(k, x) && FreshOrRegistered(k, x) && Current(k, c).core == c
    requires CleanerLives(k.tasks[x]) && (CleanedLater(k, x) ==> CleanedLater(PutAside(k, c, seen), x))
    requires k.cores[c].phase.Deciding? && (seen == Current(k, c).status || seen == Blocked)
    requires PendingOn(PutAside(k, c, seen), k.tasks[x].core) == PendingOn(k, k.tasks[x].core)
    requires CleaningOn(PutAside(k, c, seen), k.tasks[x].core) == CleaningOn(k, k.tasks[x].core)
    ensures x in PutAside(k, c, seen).tasks
    ensures WillBeCleaned(PutAside(k, c, seen), x) && FreshOrRegistered(PutAside(k, c, seen), x)
    ensures CleanerLives(PutAside(k, c, seen).tasks[x])
  {
    assert PendingOn(k, c) == None;
    hide PendingOn, CleaningOn, CleanedLater;
  }

  /** Core `c` goes on with task `t`, where it was interrupted or in its own code. */
  ghost predicate Resumes(k: State, k': State, c: nat, t: Tid) {
    && c < |k.cores| == |k'.cores| && k'.cores == k.cores[c := k'.cores[c]] && k'.registered == k.registered
    && t in k.tasks && k'.tasks.Keys == k.tasks.Keys && k.tasks[t].core == c && k'.tasks[t].core == c
    && (forall x :: x in k.tasks && x != t ==> k'.tasks[x] == k.tasks[x])
    && k.tasks[t].status != Invalid && k'.tasks[t].status != Invalid && k'.tasks[t].inside == None
    && k'.tasks[t].spawning == k.tasks[t].spawning
    && k'.cores[c].phase == ResumedPhase(k.tasks[t])
    && forall d :: Get(k'.queues, FinishedQ(d)) == Get(k.queues, FinishedQ(d))
  }

  lemma ResumeJoin(k: State, k': State, c: nat, t: Tid)
    requires JoinInv(k) && Resumes(k, k', c, t) && k.cores[c].phase.Deciding?
    requires forall id :: Cleans(k.tasks[t]) == Some(id) && id in k.tasks ==> k.tasks[id].core == c
    ensures JoinInv(k')
  {
    forall x | x in k'.tasks ensures WillBeCleaned(k', x) && FreshOrRegistered(k', x) && CleanerLives(k'.tasks[x]) {
      assert WillBeCleaned(k, x) && FreshOrRegistered(k, x) && CleanerLives(k.tasks[x]);
      hide JoinInv;
      ResumeCleaned(k, k', c, t, x);
      ResumePending(k, k', c, t, k.tasks[x].core);
      hide PendingOn, CleaningOn, CleanedLater;
    }
  }

  lemma ResumeCleaned(k: State, k': State, c: nat, t: Tid, x: Tid)
    requires Resumes(k, k', c, t) && x in k.tasks
    requires forall id :: Cleans(k.tasks[t]) == Some(id) && id in k.tasks ==> k.tasks[id].core == c
    ensures CleanedLater(k, x) ==> CleanedLater(k', x) || CleaningOn(k', k.tasks[x].core) == Some(x)
  {
    if CleanedLater(k, x) {
      var y :| y in k.tasks && Cleans(k.tasks[y]) == Some(x);
      assert y != t ==> Cleans(k'.tasks[y]) == Some(x);
    }
  }

  lemma ResumePending(k: State, k': State, c: nat, t: Tid, d: nat)
    requires Resumes(k, k', c, t) && k.cores[c].phase.Deciding?
    ensures d != c ==> CleaningOn(k', d) == CleaningOn(k, d) && PendingOn(k', d) == PendingOn(k, d)
    ensures CleaningOn(k, c) == None && PendingOn(k, c) == None
  {
  }

  lemma DecideJoin(k: State, c: nat, expired: bool)
    requires Inv(k) && JoinInv(k) && HasCore(k, c) && k.cores[c].phase.Deciding?
    ensures JoinInv(DecideStep(k, c, k.cores[c].phase.seen, expired))
  {
    hide Choose;
    match Choose(k, c, k.cores[c].phase.seen, expired)
    case Stay =>
      hide JoinInv, Resume;
      StayJoin(k, c);
    case Dispatch(level) =>
      hide Inv, JoinInv, DispatchStep;
      DispatchJoin(k, c, level);
    case GoIdle =>
      hide Inv, JoinInv, IdleStep;
      IdleJoin(k, c);
  }

  lemma StayJoin(k: State, c: nat)
    requires Inv(k) && JoinInv(k) && HasCore(k, c) && k.cores[c].phase.Deciding?
    ensures JoinInv(Resume(k, c, k.cores[c].current))
  {
    var t := k.cores[c].current;
    OfTask(k, t);
    OfCore(k, c);
    hide Inv, JoinInv;
    ResumeJoin(k, Resume(k, c, t), c, t);
  }

  lemma DispatchJoin(k: State, c: nat, level: nat)
    requires Inv(k) && JoinInv(k) && HasCore(k, c) && k.cores[c].phase.Deciding?
             && Get(k.queues, ReadyQ(c, level)) != []
    ensures JoinInv(DispatchStep(k, c, k.cores[c].phase.seen, level))
  {
    var seen, q := k.cores[c].phase.seen, ReadyQ(c, level);
    hide Inv, JoinInv, PutAside;
    AsideJoin(k, c);
    PutAsideKeeps(k, c);
    var a := PutAside(k, c, seen);
    DispatchQueues(k, c, q);
    InvButFacts(a, c, q);
    InvButCleaner(a, c, Get(a.queues, q)[0]);
    hide InvBut, SwitchTo;
    var b := a.(queues := Delete(a.queues, q, 0));
    SwitchResumes(a, b, c, Get(a.queues, q)[0]);
    ResumeJoin(a, SwitchTo(b, c, Get(a.queues, q)[0]), c, Get(a.queues, q)[0]);
  }

  lemma IdleJoin(k: State, c: nat)
    requires Inv(k) && JoinInv(k) && HasCore(k, c) && k.cores[c].phase.Deciding?
    ensures JoinInv(IdleStep(k, c, k.cores[c].phase.seen))
  {
    var seen := k.cores[c].phase.seen;
    hide Inv, JoinInv, PutAside;
    AsideJoin(k, c);
    PutAsideKeeps(k, c);
    var a := PutAside(k, c, seen);
    assert a.cores[c].idle in a.tasks && a.tasks[a.cores[c].idle].status == Idle && a.tasks[a.cores[c].idle].core == c;
    InvButCleaner(a, c, k.cores[c].idle);
    hide InvBut, SwitchTo;
    SwitchResumes(a, a, c, k.cores[c].idle);
    ResumeJoin(a, SwitchTo(a, c, k.cores[c].idle), c, k.cores[c].idle);
  }

  lemma SwitchResumes(a: State, b: State, c: nat, t: Tid)
    requires c < |a.cores| && t in a.tasks && a.tasks[t].core == c && a.tasks[t].status != Invalid
    requires b == a.(queues := b.queues)
    requires forall d :: Get(b.queues, FinishedQ(d)) == Get(a.queues, FinishedQ(d))
    ensures Resumes(a, SwitchTo(b, c, t), c, t)
  {
  }

  lemma InvButCleaner(a: State, c: nat, t: Tid)
    requires InvBut(a, c) && t in a.tasks && a.tasks[t].core == c
    ensures forall id :: Cleans(a.tasks[t]) == Some(id) && id in a.tasks ==> a.tasks[id].core == c
  {
    assert CleanerOk(a, t);
  }

  // ----- The other steps -----

  lemma CleanupJoin(k: State, c: nat)
    requires Inv(k) && JoinInv(k) && HasCore(k, c) && k.cores[c].phase == Entering
    ensures JoinInv(CleanupStep(k, c))
  {
    var finished := Get(k.queues, FinishedQ(c));
    var k' := CleanupStep(k, c);
    hide Inv;
    if finished == [] {
      PhasePlain(k, c, Reading);
      hide Plain, JoinInv;
      PlainKeeps(k, k');
    } else {
      OfQueue(k, FinishedQ(c), finished[0]);
      forall t | t in k'.tasks ensures WillBeCleaned(k', t) && FreshOrRegistered(k', t) && CleanerLives(k'.tasks[t]) {
        assert WillBeCleaned(k, t) && FreshOrRegistered(k, t) && CleanerLives(k.tasks[t]);
        CleanupKeepsTask(k, c, t);
      }
    }
  }

  lemma CleanupKeepsTask(k: State, c: nat, t: Tid)
    requires HasCore(k, c) && k.cores[c].phase == Entering && Get(k.queues, FinishedQ(c)) != [] && t in k.tasks
    requires WillBeCleaned(k, t) && FreshOrRegistered(k, t)
    requires t == Get(k.queues, FinishedQ(c))[0] ==> k.tasks[t].core == c
    ensures WillBeCleaned(CleanupStep(k, c), t) && FreshOrRegistered(CleanupStep(k, c), t)
  {
    var finished := Get(k.queues, FinishedQ(c));
    var k' := CleanupStep(k, c);
    var d := k.tasks[t].core;
    assert PendingOn(k, d).Some? ==> PendingOn(k', d) == PendingOn(k, d);
    assert CleaningOn(k, d).Some? ==> CleaningOn(k', d) == CleaningOn(k, d);
    assert CleaningOn(k', c) == Some(finished[0]);
    assert CleanedLater(k, t) ==> CleanedLater(k', t);
    hide PendingOn, CleaningOn, CleanedLater;
    assert t in finished && t != finished[0] ==> t in RemoveAt(finished, 0) by {
      assert finished == [finished[0]] + RemoveAt(finished, 0);
    }
  }

  lemma ForgetJoin(k: State, c: nat)
    requires Inv(k) && JoinInv(k) && HasCore(k, c) && k.cores[c].phase.Cleaning?
    ensures k.cores[c].phase.id in k.registered && JoinInv(ForgetStep(k, c, k.cores[c].phase.id))
  {
    var id := k.cores[c].phase.id;
    var k' := ForgetStep(k, c, id);
    CleaningFacts(k, c);
    OfCore(k, c);
    hide Inv;
    assert FreshOrRegistered(k, id) && CleanerLives(k.tasks[id]);
    forall t | t in k'.tasks ensures WillBeCleaned(k', t) && FreshOrRegistered(k', t) && CleanerLives(k'.tasks[t]) {
      assert WillBeCleaned(k, t) && FreshOrRegistered(k, t) && CleanerLives(k.tasks[t]);
      if k.tasks[t].core < |k.cores| {
        OfCore(k, k.tasks[t].core);
      }
      ForgetKeepsTask(k, c, t);
    }
  }

  lemma ForgetKeepsTask(k: State, c: nat, t: Tid)
    requires HasCore(k, c) && k.cores[c].phase.Cleaning? && t in k.tasks && t != k.cores[c].phase.id
    requires k.cores[c].phase.id in k.registered && k.cores[c].phase.id in k.tasks
    requires Cleans(k.tasks[k.cores[c].phase.id]) == None
    requires k.tasks[t].core < |k.cores| ==> k.cores[k.tasks[t].core].current != k.cores[c].phase.id
    requires WillBeCleaned(k, t) && FreshOrRegistered(k, t)
    ensures var k' := ForgetStep(k, c, k.cores[c].phase.id);
            t in k'.tasks && WillBeCleaned(k', t) && FreshOrRegistered(k', t)
  {
    var k' := ForgetStep(k, c, k.cores[c].phase.id);
    var d := k.tasks[t].core;
    if PendingOn(k, d).Some? {
      assert d != c && PendingOn(k', d) == PendingOn(k, d);
    }
    if CleanedLater(k, t) {
      var x :| x in k.tasks && Cleans(k.tasks[x]) == Some(t);
      assert x in k'.tasks && Cleans(k'.tasks[x]) == Some(t);
    }
  }

  lemma SpawnJoin(k: State, c: nat, prio: nat, tid: Tid)
    requires JoinInv(k) && MayCreate(k, c, c, prio, tid)
    ensures JoinInv(SpawnStep(k, c, c, prio, tid, true))
  {
    var k' := SpawnStep(k, c, c, prio, tid, true);
    assert k'.tasks[tid] == NewTask(Ready, prio, c) && PendingOn(k', c) == Some(tid);
    forall t | t in k'.tasks && t != tid
      ensures WillBeCleaned(k', t) && FreshOrRegistered(k', t) && CleanerLives(k'.tasks[t])
    {
      assert WillBeCleaned(k, t) && FreshOrRegistered(k, t) && CleanerLives(k.tasks[t]);
      if PendingOn(k, k.tasks[t].core).Some? {
        CreatePending(k, c, tid, k', k.tasks[t].core);
      }
      StillCleaned(k, k', t);
    }
  }

  lemma StillCleaned(k: State, k': State, t: Tid)
    requires forall x :: x in k.tasks ==> x in k'.tasks && Cleans(k'.tasks[x]) == Cleans(k.tasks[x])
    ensures CleanedLater(k, t) ==> CleanedLater(k', t)
  {
    if CleanedLater(k, t) {
      var x :| x in k.tasks && Cleans(k.tasks[x]) == Some(t);
      assert x in k'.tasks && Cleans(k'.tasks[x]) == Some(t);
    }
  }

  /** Creating a task leaves the pending spawns of other cores alone. */
  lemma CreatePending(k: State, c: nat, tid: Tid, k': State, d: nat)
    requires HasCore(k, c) && tid !in k.tasks && Current(k, c).spawning == None && k'.cores == k.cores
    requires forall t :: t in k.tasks && t != k.cores[c].current ==> t in k'.tasks && k'.tasks[t] == k.tasks[t]
    requires PendingOn(k, d).Some?
    ensures PendingOn(k', d) == PendingOn(k, d)
  {
  }

  lemma CloneJoin(k: State, c: nat, target: nat, tid: Tid)
    requires JoinInv(k) && Enabled(k, Clone(c, target, tid))
    ensures JoinInv(Step(k, Clone(c, target, tid)))
  {
    var k' := Step(k, Clone(c, target, tid));
    forall t | t in k'.tasks ensures WillBeCleaned(k', t) && FreshOrRegistered(k', t) && CleanerLives(k'.tasks[t]) {
      if t != tid {
        assert WillBeCleaned(k, t) && FreshOrRegistered(k, t) && CleanerLives(k.tasks[t]);
        if PendingOn(k, k.tasks[t].core).Some? {
          ClonePending(k, tid, k', k.tasks[t].core);
        }
        StillCleaned(k, k', t);
      }
    }
  }

  lemma ClonePending(k: State, tid: Tid, k': State, d: nat)
    requires tid !in k.tasks && k'.cores == k.cores && PendingOn(k, d).Some?
    requires forall t :: t in k.tasks ==> t in k'.tasks && k'.tasks[t] == k.tasks[t]
    ensures PendingOn(k', d) == PendingOn(k, d)
  {
  }

  lemma RegisterJoin(k: State, c: nat)
    requires JoinInv(k) && Enabled(k, Register(c))
    ensures JoinInv(RegisterStep(k, c))
  {
    var k' := RegisterStep(k, c);
    var s := k.cores[c].current;
    forall t | t in k'.tasks ensures WillBeCleaned(k', t) && FreshOrRegistered(k', t) && CleanerLives(k'.tasks[t]) {
      assert WillBeCleaned(k, t) && FreshOrRegistered(k, t) && CleanerLives(k.tasks[t]);
      StillCleaned(k, k', t);
      var d := k.tasks[t].core;
      if PendingOn(k, d).Some? && k.cores[d].current != s {
        assert PendingOn(k', d) == PendingOn(k, d);
      }
    }
  }

  lemma PushPlain(k: State, c: nat)
    requires Get(k.queues, PushQ(c)) != [] && Get(k.queues, PushQ(c))[0] in k.tasks
    ensures Plain(k, PushStep(k, c))
  {
  }

  lemma PlainSteps(k: State, a: Action)
    requires Inv(k) && Enabled(k, a)
    requires !a.Spawn? && !a.Clone? && !a.Register? && !a.Decide? && !a.Cleanup? && !a.Forget?
    requires a.NestLate? ==> !k.cores[a.core].phase.Cleaning?
    ensures Plain(k, Step(k, a))
  {
    hide AcquireStep, ReleaseStep, LockStep, EnqueueStep, UnlockStep, BlockCurrent, WakeFrom, PushStep, DrainStep;
    hide ExpireStep, NestStep;
    hide Inv, Plain;
    PlainSelf(k);
    match a
    case Drain(c) => DrainPlain(k, c);
    case Expire(c) => ExpirePlain(k, c);
    case Join(c, tid) => BlockPlain(k, c, JoinQ(tid), None);
    case Sleep(c, wakeup) => BlockPlain(k, c, BlockedQ(c), Some(wakeup));
    case Acquire(c, o, until) => AcquirePlain(k, c, o, until);
    case TryAcquire(c, o) => AcquirePlain(k, c, o, None);
    case Release(c, o) => ReleasePlain(k, c, o);
    case Lock(c, o) => LockPlain(k, c, o);
    case Unlock(c, o) => UnlockPlain(k, c, o);
    case Enqueue(c) => EnqueuePlain(k, c);
    case Push(c) => PushPlain(k, c);
    case Exit(c) =>
      NotInside(k, c);
      ExitPlain(k, c);
    case Nest(c, now) =>
      NotInside(k, c);
      NestPlain(k, c, now);
    case Yield(c) => PhasePlain(k, c, Entering);
    case Call(c) => PhasePlain(k, c, Entering);
    case Read(c) => PhasePlain(k, c, Deciding(Current(k, c).status));
    case Tick(c, now) => PhasePlain(k, c, Ticking(now));
    case NestLate(c, now) =>
      NotInside(k, c);
      NestPlain(k, c, now);
  }

  lemma EnqueuePlain(k: State, c: nat)
    requires HasCore(k, c) && Current(k, c).queueing.Some?
    ensures Plain(k, EnqueueStep(k, c))
  {
  }

  lemma PlainSelf(k: State)
    ensures Plain(k, k)
  {
  }

  lemma ExitPlain(k: State, c: nat)
    requires HasCore(k, c) && Current(k, c).status == Running && Current(k, c).inside == None
    ensures Plain(k, SetStatus(k, k.cores[c].current, Finished))
  {
  }

  lemma NestPlain(k: State, c: nat, now: nat)
    requires HasCore(k, c) && k.cores[c].phase != Executing && !k.cores[c].phase.Cleaning?
    requires Current(k, c).inside == None
    ensures Plain(k, NestStep(k, c, now))
  {
  }

  /** An interrupt in the middle of a cleanup: somebody will go on with it. */
  lemma NestJoin(k: State, c: nat, now: nat)
    requires Inv(k) && JoinInv(k) && HasCore(k, c) && k.cores[c].phase.Cleaning? && k.cores[c].loud
    requires Current(k, c).status != Finished
    ensures JoinInv(NestStep(k, c, now))
  {
    var k' := NestStep(k, c, now);
    NotInside(k, c);
    OfCore(k, c);
    hide Inv;
    forall x | x in k'.tasks ensures WillBeCleaned(k', x) && FreshOrRegistered(k', x) && CleanerLives(k'.tasks[x]) {
      assert WillBeCleaned(k, x) && FreshOrRegistered(k, x) && CleanerLives(k.tasks[x]);
      NestCleaned(k, c, now, x);
      NestPending(k, c, now, k.tasks[x].core);
      hide CleanedLater, PendingOn, CleaningOn;
    }
  }

  lemma NestCleaned(k: State, c: nat, now: nat, x: Tid)
    requires HasCore(k, c) && k.cores[c].phase.Cleaning? && Current(k, c).inside == None
    ensures CleanedLater(k, x) || x == k.cores[c].phase.id ==> CleanedLater(NestStep(k, c, now), x)
  {
    var k', t := NestStep(k, c, now), k.cores[c].current;
    assert Cleans(k'.tasks[t]) == Some(k.cores[c].phase.id);
    if CleanedLater(k, x) {
      var y :| y in k.tasks && Cleans(k.tasks[y]) == Some(x);
      assert y != t && Cleans(k'.tasks[y]) == Some(x);
    }
  }

  lemma NestPending(k: State, c: nat, now: nat, d: nat)
    requires HasCore(k, c) && k.cores[c].phase.Cleaning?
    ensures var k' := NestStep(k, c, now);
            && (PendingOn(k, d).Some? ==> PendingOn(k', d) == PendingOn(k, d))
            && CleaningOn(k, d) == if d == c then Some(k.cores[c].phase.id) else CleaningOn(k', d)
  {
  }

  lemma PhasePlain(k: State, c: nat, p: Phase)
    requires c < |k.cores| && PendingOn(k, c) == None && CleaningOn(k, c) == None
    ensures Plain(k, SetPhase(k, c, p))
    ensures forall loud :: Plain(k, k.(cores := k.cores[c := k.cores[c].(phase := p, loud := loud)]))
  {
  }

  lemma DrainPlain(k: State, c: nat)
    requires Inv(k) && HasCore(k, c) && k.cores[c].phase == Draining
    ensures Plain(k, DrainStep(k, c))
  {
    if Get(k.queues, DrainQ(c)) != [] {
      assert Fits(k, DrainQ(c), Get(k.queues, DrainQ(c))[0]);
      hide Inv, WakeFrom;
      WakePlain(k, c, DrainQ(c), 0);
    }
  }

  lemma ExpirePlain(k: State, c: nat)
    requires Inv(k) && HasCore(k, c) && k.cores[c].phase.Ticking?
    ensures Plain(k, ExpireStep(k, c, k.cores[c].phase.now))
  {
    hide Inv;
    var list := Get(k.queues, BlockedQ(c));
    if list != [] {
      OfQueue(k, BlockedQ(c), list[0]);
      WakePlain(k, c, BlockedQ(c), 0);
    }
    PhasePlain(k, c, Entering);
    hide Plain, WakeFrom, TaskOk, RetryOk;
  }

  lemma StepJoin(k: State, a: Action)
    requires Inv(k) && JoinInv(k) && Enabled(k, a) && Kind(k, a)
    ensures JoinInv(Step(k, a))
  {
    hide Inv;
    hide JoinInv;
    if a.Spawn? {
      SpawnJoin(k, a.core, a.prio, a.tid);
    } else if a.Clone? {
      CloneJoin(k, a.core, a.target, a.tid);
    } else if a.Register? {
      RegisterJoin(k, a.core);
    } else if a.Decide? {
      DecideJoin(k, a.core, a.expired);
    } else if a.Cleanup? {
      CleanupJoin(k, a.core);
    } else if a.Forget? {
      ForgetJoin(k, a.core);
    } else if a.NestLate? && k.cores[a.core].phase.Cleaning? {
      NestJoin(k, a.core, a.now);
    } else {
      PlainSteps(k, a);
      PlainKeeps(k, Step(k, a));
    }
  }

  lemma {:induction false} RunJoin(k: State, actions: seq<Action>)
    requires Inv(k) && JoinInv(k) && Run(k, actions).Some? && TameRun(k, actions) && KindRun(k, actions)
    ensures JoinInv(Run(k, actions).value)
    decreases |actions|
  {
    if actions != [] {
      StepKeeps(k, actions[0]);
      StepJoin(k, actions[0]);
      hide Inv, JoinInv, Step, Enabled, Tame, Kind;
      RunJoin(Step(k, actions[0]), actions[1..]);
    }
  }

  /** A joiner of `id` will be woken: by the cleanup of a task that is alive, or in the finished list of its core, or
      being cleaned up there, or that somebody who lives was about to clean up when an interrupt came. */
  predicate WillWake(k: State, id: Tid) {
    && id in k.registered && id in k.tasks
    && (k.tasks[id].status == Invalid ==>
          || id in Get(k.queues, FinishedQ(k.tasks[id].core)) || CleaningOn(k, k.tasks[id].core) == Some(id)
          || exists x :: x in k.tasks && Cleans(k.tasks[x]) == Some(id) && k.tasks[x].status != Finished
                         && k.tasks[x].status != Invalid)
  }

  /** No lost joiner, if every `spawn` is for the spawning core and is called with interrupts off, and no interrupt
      comes in the middle of a cleanup that a finished task has begun: whoever sleeps in `join(id)` waits for a cleanup
      that somebody alive will make, and whoever has been taken from such a list is about to be woken. */
  lemma JoinersAreWoken(start: State, actions: seq<Action>, id: Tid)
    requires Initial(start) && Run(start, actions).Some? && TameRun(start, actions) && KindRun(start, actions)
    ensures var k := Run(start, actions).value;
            && (Get(k.queues, JoinQ(id)) != [] ==> WillWake(k, id))
            && forall c: nat :: Get(k.queues, DrainQ(c)) != [] ==> c < |k.cores| && k.cores[c].phase == Draining
  {
    InitialInv(start);
    RunKeeps(start, actions);
    RunJoin(start, actions);
    var k := Run(start, actions).value;
    hide TameRun, KindRun, Run;
    if Get(k.queues, JoinQ(id)) != [] {
      OfQueue(k, JoinQ(id), Get(k.queues, JoinQ(id))[0]);
      RegisteredExist(k);
      JoinInvWakes(k, id);
    }
    forall c: nat | Get(k.queues, DrainQ(c)) != [] ensures c < |k.cores| && k.cores[c].phase == Draining {
      OfQueue(k, DrainQ(c), Get(k.queues, DrainQ(c))[0]);
      OfCore(k, c);
    }
  }

  lemma JoinInvWakes(k: State, id: Tid)
    requires JoinInv(k) && id in k.registered && id in k.tasks
    ensures WillWake(k, id)
  {
    assert WillBeCleaned(k, id);
    if CleanedLater(k, id) {
      var x :| x in k.tasks && Cleans(k.tasks[x]) == Some(id);
      assert CleanerLives(k.tasks[x]);
    }
  }
}
