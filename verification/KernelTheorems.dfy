/**
 What the kernel promises in every run from boot, stated without the auxiliary invariant: placement of
 tasks, absence of failing assertions, priorities, round robin.
 */
module KernelTheorems {
  import opened Registry
  import opened Kernel
  import opened KernelSafety
  import opened Options
  import opened Priorities

  /** The kernel gets there from boot without one of the two steps that `Tame` excludes. */
  ghost predicate Reachable(k: State) {
    exists start, actions :: Initial(start) && Run(start, actions) == Some(k) && TameRun(start, actions)
  }

  lemma ReachableInv(k: State)
    requires Reachable(k)
    ensures Inv(k)
  {
    var start, actions :| Initial(start) && Run(start, actions) == Some(k) && TameRun(start, actions);
    InitialInv(start);
    RunKeeps(start, actions);
  }

  // ----- Placement -----

  /** `t` is in `q`, exactly once, and in no other queue. */
  ghost predicate OnlyIn(k: State, t: Tid, q: QueueId) {
    && t in Get(k.queues, q) && NoDup(Get(k.queues, q))
    && (forall p :: t in Get(k.queues, p) ==> p == q)
  }

  /** Status agrees with place. */
  ghost predicate Placed(k: State, t: Tid)
    requires t in k.tasks && k.tasks[t].core < |k.cores|
  {
    var x := k.tasks[t];
    match x.status
    case Running => k.cores[x.core].current == t && !Held(k.queues, t) && !Held(k.waits, t)
    case Finished => k.cores[x.core].current == t && !Held(k.queues, t) && !Held(k.waits, t)
    case Idle => k.cores[x.core].idle == t && !Held(k.queues, t) && !Held(k.waits, t)
    case Ready =>
      && !Held(k.waits, t)
      && (OnlyIn(k, t, ReadyQ(x.core, x.prio))
          || exists c :: 0 <= c < |k.cores| && Get(k.queues, PushQ(c)) == [t] && OnlyIn(k, t, PushQ(c)))
    case Blocked =>
      exists q :: OnlyIn(k, t, q) && (q == BlockedQ(x.core) || q.JoinQ? || q.DrainQ?)
    case Invalid => !Held(k.waits, t) && (Held(k.queues, t) ==> OnlyIn(k, t, FinishedQ(x.core)))
  }

  lemma HeldIn(k: State, t: Tid) returns (q: QueueId)
    requires Inv(k) && Held(k.queues, t)
    ensures OnlyIn(k, t, q) && Fits(k, q, t)
  {
    q :| t in Get(k.queues, q);
  }

  lemma InvPlaces(k: State, t: Tid)
    requires Inv(k) && t in k.tasks
    ensures k.tasks[t].core < |k.cores| && Placed(k, t)
  {
    assert TaskOk(k, t);
    var x := k.tasks[t];
    if x.status != Blocked {
      ReadyNotWaiting(k, t);
    }
    if x.status == Running || x.status == Finished || x.status == Idle {
      NotQueued(k, t);
    } else if Held(k.queues, t) {
      var q := HeldIn(k, t);
      if q.PushQ? {
        assert CoreOk(k, q.waker);
        assert Get(k.queues, q) == [t];
      }
    }
  }

  /** In every reachable state each task is where its status says, and only there. */
  lemma StatusAgreesWithPlace(k: State, t: Tid)
    requires Reachable(k) && t in k.tasks
    ensures k.tasks[t].core < |k.cores| && Placed(k, t)
  {
    ReachableInv(k);
    InvPlaces(k, t);
  }

  /** A priority queue is a ready queue or a wait queue; both thread tasks through the same two links. */
  ghost predicate LinkedTwice(k: State, t: Tid) {
    || (exists q: QueueId, w :: q.ReadyQ? && t in Get(k.queues, q) && t in Get(k.waits, w))
    || (exists p: QueueId, q: QueueId ::
          p != q && p.ReadyQ? && q.ReadyQ? && t in Get(k.queues, p) && t in Get(k.queues, q))
    || (exists v, w :: v != w && t in Get(k.waits, v) && t in Get(k.waits, w))
    || (exists q: QueueId :: q.ReadyQ? && t in Get(k.queues, q) && !NoDup(Get(k.queues, q)))
    || (exists w :: t in Get(k.waits, w) && !NoDup(Get(k.waits, w)))
  }

  lemma NeverLinkedTwice(k: State, t: Tid)
    requires Reachable(k)
    ensures !LinkedTwice(k, t)
  {
    ReachableInv(k);
    forall q, w | t in Get(k.queues, q) && t in Get(k.waits, w) ensures !q.ReadyQ? {
      assert Fits(k, q, t) && WaiterFits(k, w, t) && Fits(k, BlockedQ(k.tasks[t].core), t);
    }
  }

  /** Nobody but the current task runs on a core.  A current task that is neither running nor idle has blocked or
      finished, and can do nothing but enter the wait queue of a mutex, call the scheduler or be interrupted. */
  lemma OneRunningPerCore(k: State, c: nat, t: Tid, a: Action)
    requires Reachable(k) && c < |k.cores| && t in k.tasks
    ensures k.tasks[t].status == Running && k.tasks[t].core == c ==> k.cores[c].current == t
    ensures HasCore(k, c) && Current(k, c).core == c && Current(k, c).status != Invalid
    ensures Current(k, c).status != Running && Current(k, c).status != Idle && k.cores[c].phase == Executing ==>
              Enabled(k, a) && a.core == c ==> a.Yield? || a.Call? || a.Tick? || a.Push? || a.Enqueue?
  {
    ReachableInv(k);
    assert CoreOk(k, c) && TaskOk(k, t);
    hide Inv;
  }

  // ----- Assertions of the source -----

  /** The assertions that the code of a step executes: a task is woken only if it is blocked and found in
      the list where its waker looks, a task blocks only if it is running, the idle task never exits, and
      the core of a woken task has a scheduler. */
  predicate AssertionsHold(k: State, a: Action) {
    match a
    case Exit(c) => HasCore(k, c) && Current(k, c).status != Idle
    case Join(c, tid) => HasCore(k, c) && Current(k, c).status == Running
    case Sleep(c, wakeup) => HasCore(k, c) && Current(k, c).status == Running
    case Acquire(c, o, until) => HasCore(k, c) && Current(k, c).status == Running
    case Lock(c, o) => HasCore(k, c) && Current(k, c).status == Running
    case Drain(c) =>
      Get(k.queues, DrainQ(c)) != [] ==> Wakeable(k, Get(k.queues, DrainQ(c))[0])
    case Expire(c) =>
      Get(k.queues, BlockedQ(c)) != [] ==> Wakeable(k, Get(k.queues, BlockedQ(c))[0])
    case Release(c, o) => WaiterWakeable(k, o)
    case Unlock(c, o) => WaiterWakeable(k, o)
    case _ => true
  }

  predicate Wakeable(k: State, t: Tid) {
    t in k.tasks && k.tasks[t].status == Blocked && k.tasks[t].core < |k.cores|
  }

  predicate WaiterWakeable(k: State, o: nat) {
    var top := TopWait(k.waits, o, NO_PRIORITIES);
    top >= 0 ==> var t := Get(k.waits, WaitQ(o, top))[0];
                 Wakeable(k, t) && t in Get(k.queues, BlockedQ(k.tasks[t].core))
  }

  lemma NoAssertionFails(k: State, a: Action)
    requires Reachable(k) && Enabled(k, a)
    ensures AssertionsHold(k, a)
  {
    ReachableInv(k);
    if a.Drain? || a.Expire? {
      var q := if a.Drain? then DrainQ(a.core) else BlockedQ(a.core);
      if Get(k.queues, q) != [] {
        assert Fits(k, q, Get(k.queues, q)[0]) && TaskOk(k, Get(k.queues, q)[0]);
      }
    } else if a.Release? || a.Unlock? {
      var top := TopWait(k.waits, a.obj, NO_PRIORITIES);
      if top >= 0 {
        var t := Get(k.waits, WaitQ(a.obj, top))[0];
        assert WaiterFits(k, WaitQ(a.obj, top), t) && Fits(k, BlockedQ(k.tasks[t].core), t) && TaskOk(k, t);
      }
    }
  }

  // ----- Priorities -----

  /** What a decision does to any ready queue: the dispatched level loses its head, and a preempted task
      is appended at its own level. */
  function ReadyAfter(k: State, c: nat, seen: Status, expired: bool, d: nat, p: nat): seq<Tid>
    requires HasCore(k, c)
  {
    var choice := Choose(k, c, seen, expired);
    var s := Get(k.queues, ReadyQ(d, p));
    (if d == c && choice == Dispatch(p) then RemoveAt(s, 0) else s)
    + (if d == c && choice.Dispatch? && seen == Running && p == Current(k, c).prio then [k.cores[c].current] else [])
  }

  lemma DecisionQueues(k: State, c: nat, seen: Status, expired: bool, d: nat, p: nat)
    requires HasCore(k, c)
    ensures Get(DecideStep(k, c, seen, expired).queues, ReadyQ(d, p)) == ReadyAfter(k, c, seen, expired, d, p)
  {
    hide PutAside, Choose, SwitchTo, Resume;
    match Choose(k, c, seen, expired)
    case Stay =>
    case Dispatch(level) =>
      AsideQueues(k.(queues := Delete(k.queues, ReadyQ(c, level), 0)), c, seen, d, p);
    case GoIdle =>
      AsideQueues(k, c, seen, d, p);
  }

  lemma AsideQueues(k: State, c: nat, seen: Status, d: nat, p: nat)
    requires HasCore(k, c)
    ensures Get(PutAside(k, c, seen).queues, ReadyQ(d, p))
         == Get(k.queues, ReadyQ(d, p))
            + if seen == Running && d == c && p == Current(k, c).prio then [k.cores[c].current] else []
  {
  }

  /** Who runs after a decision. */
  lemma DecisionCurrent(k: State, c: nat, expired: bool)
    requires Inv(k) && HasCore(k, c) && k.cores[c].phase.Deciding?
    ensures var seen := k.cores[c].phase.seen;
            var k' := DecideStep(k, c, seen, expired);
            && HasCore(k', c)
            && match Choose(k, c, seen, expired)
               case Stay =>
                 k'.cores[c].current == k.cores[c].current && Current(k', c).status == Current(k, c).status == seen
                   && Current(k', c).prio == Current(k, c).prio
               case Dispatch(level) =>
                 k'.cores[c].current == Get(k.queues, ReadyQ(c, level))[0] && Current(k', c).status == Running
                   && Current(k', c).prio == level
               case GoIdle =>
                 k'.cores[c].current == k.cores[c].idle && Current(k', c).status == Idle
  {
    assert CoreOk(k, c);
    var seen := k.cores[c].phase.seen;
    match Choose(k, c, seen, expired)
    case Stay =>
      hide Inv;
    case Dispatch(level) =>
      assert Fits(k, ReadyQ(c, level), Get(k.queues, ReadyQ(c, level))[0]);
      hide Inv;
      hide Choose;
      DispatchCurrent(k, c, seen, level);
      hide DispatchStep;
    case GoIdle =>
      hide Inv;
      hide Choose;
      IdleCurrent(k, c, seen);
      hide IdleStep;
  }

  lemma DispatchCurrent(k: State, c: nat, seen: Status, level: nat)
    requires HasCore(k, c) && Get(k.queues, ReadyQ(c, level)) != []
             && Fits(k, ReadyQ(c, level), Get(k.queues, ReadyQ(c, level))[0])
    requires seen == Running || seen == Finished ==> Current(k, c).status == seen
    ensures var k' := DispatchStep(k, c, seen, level);
            && HasCore(k', c) && k'.cores[c].current == Get(k.queues, ReadyQ(c, level))[0]
            && Current(k', c).status == Running && Current(k', c).prio == level
  {
  }

  lemma IdleCurrent(k: State, c: nat, seen: Status)
    requires HasCore(k, c) && k.cores[c].idle in k.tasks && k.tasks[k.cores[c].idle].status == Idle
    requires seen == Running || seen == Finished ==> Current(k, c).status == seen
    ensures var k' := IdleStep(k, c, seen);
            && HasCore(k', c) && k'.cores[c].current == k.cores[c].idle && Current(k', c).status == Idle
  {
  }

  /** After every decision no ready task of the core has a higher priority than the current task, and the
      idle task is current only if no task is ready at all. */
  lemma DecisionRespectsPriority(k: State, c: nat, expired: bool)
    requires Inv(k) && HasCore(k, c) && k.cores[c].phase.Deciding?
    ensures var k' := DecideStep(k, c, k.cores[c].phase.seen, expired);
            && HasCore(k', c)
            && (forall j :: Current(k', c).prio < j < NO_PRIORITIES ==> Get(k'.queues, ReadyQ(c, j)) == [])
            && (Current(k', c).status == Idle ==> forall j :: 0 <= j < NO_PRIORITIES ==>
                Get(k'.queues, ReadyQ(c, j)) == [])
  {
    hide DecideStep;
    hide Inv;
    var seen := k.cores[c].phase.seen;
    DecisionCurrent(k, c, expired);
    forall j ensures Get(DecideStep(k, c, seen, expired).queues, ReadyQ(c, j)) ==
      ReadyAfter(k, c, seen, expired, c, j) {
      DecisionQueues(k, c, seen, expired, c, j);
    }
  }

  /** A running task whose time slice has expired gives way to a ready task of its own priority and goes
      to the end of that queue. */
  lemma RoundRobin(k: State, c: nat)
    requires Inv(k) && HasCore(k, c) && k.cores[c].phase == Deciding(Running)
    requires Current(k, c).prio < NO_PRIORITIES && Get(k.queues, ReadyQ(c, Current(k, c).prio)) != []
    ensures var k' := DecideStep(k, c, Running, true);
            var old_ := k.cores[c].current;
            var q := ReadyQ(c, Current(k, c).prio);
            && old_ in k'.tasks && k'.tasks[old_].status == Ready && k'.cores[c].current != old_
            && Get(k'.queues, q) != [] && Get(k'.queues, q)[|Get(k'.queues, q)| - 1] == old_
  {
    var t := k.cores[c].current;
    assert CoreOk(k, c) && TaskOk(k, t);
    var top := TopReady(k.queues, c, NO_PRIORITIES);
    var n := Get(k.queues, ReadyQ(c, top))[0];
    assert Fits(k, ReadyQ(c, top), n);
    DecisionQueues(k, c, Running, true, c, k.tasks[t].prio);
  }

  // ----- The decision, stated on queues and priorities -----

  /** Some task of core `c` with at least this priority is ready. */
  predicate SomeReady(k: State, c: nat, prio: nat) {
    exists p :: prio <= p < NO_PRIORITIES && Get(k.queues, ReadyQ(c, p)) != []
  }

  /** `t` is the oldest ready task of the highest priority on core `c`. */
  predicate FirstReady(k: State, c: nat, t: Tid) {
    exists p :: && 0 <= p < NO_PRIORITIES && Get(k.queues, ReadyQ(c, p)) != [] && Get(k.queues, ReadyQ(c, p))[0] == t
                && forall q :: p < q < NO_PRIORITIES ==> Get(k.queues, ReadyQ(c, q)) == []
  }

  /** Whether the scheduler takes the processor from the current task, given the status that it has read: from a running
      one for a higher priority, or for the same one when the time slice is over; from an idle one for any ready task;
      from all others always. */
  predicate GivesWay(k: State, c: nat, seen: Status, expired: bool)
    requires HasCore(k, c)
  {
    match seen
    case Running => SomeReady(k, c, Current(k, c).prio + 1) || (expired && SomeReady(k, c, Current(k, c).prio))
    case Idle => SomeReady(k, c, 0)
    case _ => true
  }

  lemma TopIsSome(k: State, c: nat, prio: nat)
    ensures SomeReady(k, c, prio) <==> TopReady(k.queues, c, NO_PRIORITIES) >= prio
  {
  }

  lemma ChoiceGivesWay(k: State, c: nat, seen: Status, expired: bool)
    requires HasCore(k, c)
    ensures Choose(k, c, seen, expired).Stay? <==> !GivesWay(k, c, seen, expired)
    ensures Choose(k, c, seen, expired).GoIdle? <==> GivesWay(k, c, seen, expired) && !SomeReady(k, c, 0)
    ensures Choose(k, c, seen, expired).Dispatch? ==>
              FirstReady(k, c, Get(k.queues, ReadyQ(c, Choose(k, c, seen, expired).level))[0])
  {
    TopIsSome(k, c, Current(k, c).prio);
    TopIsSome(k, c, Current(k, c).prio + 1);
    TopIsSome(k, c, 0);
    hide SomeReady;
  }

  /** Who has the processor after a decision, and what has become of the ready queues and of the task that had it. */
  lemma DecisionExact(k: State, c: nat, expired: bool)
    requires Inv(k) && HasCore(k, c) && k.cores[c].phase.Deciding?
    ensures var seen, t := k.cores[c].phase.seen, k.cores[c].current;
            var k' := DecideStep(k, c, seen, expired);
            && HasCore(k', c) && t in k'.tasks
            && (!GivesWay(k, c, seen, expired) ==>
                  && k'.cores[c].current == t && k'.tasks[t].status == k.tasks[t].status
                  && forall d, p :: Get(k'.queues, ReadyQ(d, p)) == Get(k.queues, ReadyQ(d, p)))
            && (GivesWay(k, c, seen, expired) && SomeReady(k, c, 0) ==>
                  FirstReady(k, c, k'.cores[c].current) && Current(k', c).status == Running)
            && (GivesWay(k, c, seen, expired) && !SomeReady(k, c, 0) ==> k'.cores[c].current == k.cores[c].idle)
  {
    var seen := k.cores[c].phase.seen;
    var k' := DecideStep(k, c, seen, expired);
    ChoiceGivesWay(k, c, seen, expired);
    DecisionCurrent(k, c, expired);
    DecisionTask(k, c, seen, expired);
    hide DecideStep, Inv, Choose, GivesWay, SomeReady, FirstReady;
    if Choose(k, c, seen, expired).Stay? {
      forall d, p ensures Get(k'.queues, ReadyQ(d, p)) == Get(k.queues, ReadyQ(d, p)) {
        DecisionQueues(k, c, seen, expired, d, p);
      }
    }
  }

  lemma DecisionTask(k: State, c: nat, seen: Status, expired: bool)
    requires HasCore(k, c)
    ensures k.cores[c].current in DecideStep(k, c, seen, expired).tasks
  {
    hide Choose, PutAside;
    match Choose(k, c, seen, expired)
    case Stay =>
    case GoIdle =>
    case Dispatch(level) =>
  }

  /** A running task loses the processor exactly if a task of higher priority is ready, or its time slice is over and
      one of its own priority is; then it is ready, at the end of the queue of its priority. */
  lemma PreemptedExactly(k: State, c: nat, expired: bool)
    requires Inv(k) && HasCore(k, c) && k.cores[c].phase == Deciding(Running)
    ensures var t := k.cores[c].current;
            var k', q := DecideStep(k, c, Running, expired), ReadyQ(c, k.tasks[t].prio);
            && HasCore(k', c) && t in k'.tasks
            && (k'.cores[c].current != t <==>
                  || (exists p :: k.tasks[t].prio < p < NO_PRIORITIES && Get(k.queues, ReadyQ(c, p)) != [])
                  || (expired && Get(k.queues, q) != []))
            && (k'.cores[c].current == t ==>
                  forall d, p :: Get(k'.queues, ReadyQ(d, p)) == Get(k.queues, ReadyQ(d, p)))
            && (k'.cores[c].current != t ==>
                  && k'.tasks[t].status == Ready && Get(k'.queues, q) != []
                  && Get(k'.queues, q)[|Get(k'.queues, q)| - 1] == t)
  {
    var t := k.cores[c].current;
    OfCore(k, c);
    OfTask(k, t);
    OfState(k);
    NotQueued(k, t);
    DecisionExact(k, c, expired);
    DecisionQueues(k, c, Running, expired, c, k.tasks[t].prio);
    ChoiceGivesWay(k, c, Running, expired);
    PreemptedStatus(k, c, expired);
    forall x | FirstReady(k, c, x) ensures x != t {
      var p :| 0 <= p < NO_PRIORITIES && Get(k.queues, ReadyQ(c, p)) != [] && Get(k.queues, ReadyQ(c, p))[0] == x;
      assert x in Get(k.queues, ReadyQ(c, p));
    }
    hide Inv, DecideStep, Choose, FirstReady, Held, TaskOk, CoreOk;
    SomeReadySplit(k, c, k.tasks[t].prio);
  }

  lemma SomeReadySplit(k: State, c: nat, prio: nat)
    requires prio < NO_PRIORITIES
    ensures SomeReady(k, c, prio + 1) <==>
              exists p :: prio < p < NO_PRIORITIES && Get(k.queues, ReadyQ(c, p)) != []
    ensures SomeReady(k, c, prio) <==> SomeReady(k, c, prio + 1) || Get(k.queues, ReadyQ(c, prio)) != []
    ensures SomeReady(k, c, prio) ==> SomeReady(k, c, 0)
  {
  }

  lemma PreemptedStatus(k: State, c: nat, expired: bool)
    requires HasCore(k, c)
    ensures var k', t := DecideStep(k, c, Running, expired), k.cores[c].current;
            && Choose(k, c, Running, expired).Dispatch? && HasCore(k', c) && k'.cores[c].current != t && t in k'.tasks
            && FirstReady(k, c, k'.cores[c].current)
            ==> k'.tasks[t].status == Ready
  {
    hide Choose, FirstReady;
    if Choose(k, c, Running, expired).Dispatch? {
      var level := Choose(k, c, Running, expired).level;
      assert DecideStep(k, c, Running, expired) == DispatchStep(k, c, Running, level);
    }
  }

  // ----- Waiting for the processor -----

  /** Whether the decision of core `c` takes a task from its ready queue. */
  predicate Dispatches(k: State, a: Action, c: nat) {
    a.Decide? && a.core == c && Enabled(k, a) && Choose(k, c, k.cores[c].phase.seen, a.expired).Dispatch?
  }

  /** `t` is the `at`-th task of the highest nonempty level `p` of the ready queue of core `c`. */
  predicate Queued(k: State, c: nat, p: nat, t: Tid, at: nat) {
    && p < NO_PRIORITIES && at < |Get(k.queues, ReadyQ(c, p))| && Get(k.queues, ReadyQ(c, p))[at] == t
    && (forall j :: p < j < NO_PRIORITIES ==> Get(k.queues, ReadyQ(c, j)) == [])
  }

  predicate Runs(k: State, c: nat, t: Tid) {
    c < |k.cores| && k.cores[c].current == t && t in k.tasks && k.tasks[t].status == Running
  }

  /** One step: a dispatch brings the task one place forward or runs it, any other step leaves it in place. */
  lemma StepAdvances(k: State, a: Action, c: nat, p: nat, t: Tid, at: nat)
    requires Inv(k) && Enabled(k, a) && Queued(k, c, p, t, at)
    ensures var k' := Step(k, a);
            if Dispatches(k, a, c) then
              if at == 0 then Runs(k', c, t)
              else at - 1 < |Get(k'.queues, ReadyQ(c, p))| && Get(k'.queues, ReadyQ(c, p))[at - 1] == t
            else at < |Get(k'.queues, ReadyQ(c, p))| && Get(k'.queues, ReadyQ(c, p))[at] == t
  {
    assert Fits(k, ReadyQ(c, p), t);
    if Dispatches(k, a, c) {
      DispatchAdvances(k, c, a.expired, p, t, at);
    } else {
      OtherStepsKeep(k, a, c, p);
    }
  }

  lemma DispatchAdvances(k: State, c: nat, expired: bool, p: nat, t: Tid, at: nat)
    requires Inv(k) && Dispatches(k, Decide(c, expired), c) && Queued(k, c, p, t, at)
    ensures var k' := DecideStep(k, c, k.cores[c].phase.seen, expired);
            if at == 0 then Runs(k', c, t)
            else at - 1 < |Get(k'.queues, ReadyQ(c, p))| && Get(k'.queues, ReadyQ(c, p))[at - 1] == t
  {
    hide DecideStep;
    hide Inv;
    assert TopReady(k.queues, c, NO_PRIORITIES) == p;
    DecisionCurrent(k, c, expired);
    DecisionQueues(k, c, k.cores[c].phase.seen, expired, c, p);
  }

  /** Without a dispatch on core `c` its ready queue only grows at the end. */
  lemma OtherStepsKeep(k: State, a: Action, c: nat, p: nat)
    requires Inv(k) && Enabled(k, a) && !Dispatches(k, a, c)
    ensures Get(k.queues, ReadyQ(c, p)) <= Get(Step(k, a).queues, ReadyQ(c, p))
  {
    hide Inv, DecideStep, AcquireStep, ReleaseStep, LockStep, UnlockStep, CleanupStep, ForgetStep, DrainStep;
    hide ExpireStep, BlockCurrent, PushStep, CreateTask;
    match a
    case Spawn(d, target, prio, tid, quiet) => CreateKeepsReady(k, target, prio, tid, c, p);
    case Clone(d, target, tid) => CreateKeepsReady(k, target, Current(k, d).prio, tid, c, p);
    case Decide(d, expired) =>
      DecisionQueues(k, d, k.cores[d].phase.seen, expired, c, p);
    case Join(d, tid) => BlockKeepsReady(k, d, JoinQ(tid), None, c, p);
    case Sleep(d, until) => BlockKeepsReady(k, d, BlockedQ(d), Some(until), c, p);
    case Acquire(d, o, until) => AcquireKeepsReady(k, d, o, until, c, p);
    case TryAcquire(d, o) => AcquireKeepsReady(k, d, o, None, c, p);
    case Release(d, o) => ReleaseKeepsReady(k, d, o, c, p);
    case Lock(d, o) => LockKeepsReady(k, d, o, c, p);
    case Unlock(d, o) => UnlockKeepsReady(k, d, o, c, p);
    case Cleanup(d) => CleanupKeepsReady(k, d, c, p);
    case Forget(d) => ForgetKeepsReady(k, d, k.cores[d].phase.id, c, p);
    case Drain(d) => DrainKeepsReady(k, d, c, p);
    case Push(d) => PushKeepsReady(k, d, c, p);
    case Expire(d) => ExpireKeepsReady(k, d, k.cores[d].phase.now, c, p);
    case _ =>
  }

  lemma CreateKeepsReady(k: State, target: nat, prio: nat, tid: Tid, c: nat, p: nat)
    ensures Get(k.queues, ReadyQ(c, p)) <= Get(CreateTask(k, target, prio, tid).queues, ReadyQ(c, p))
  {
  }

  lemma BlockKeepsReady(k: State, d: nat, q: QueueId, until: Option<nat>, c: nat, p: nat)
    requires HasCore(k, d) && !q.ReadyQ?
    ensures Get(BlockCurrent(k, d, q, until).queues, ReadyQ(c, p)) == Get(k.queues, ReadyQ(c, p))
  {
  }

  lemma ForgetKeepsReady(k: State, d: nat, id: Tid, c: nat, p: nat)
    requires HasCore(k, d)
    ensures Get(ForgetStep(k, d, id).queues, ReadyQ(c, p)) == Get(k.queues, ReadyQ(c, p))
  {
  }

  lemma DrainKeepsReady(k: State, d: nat, c: nat, p: nat)
    requires HasCore(k, d)
    ensures Get(DrainStep(k, d).queues, ReadyQ(c, p)) == Get(k.queues, ReadyQ(c, p))
  {
  }

  lemma PushKeepsReady(k: State, d: nat, c: nat, p: nat)
    requires Get(k.queues, PushQ(d)) != [] && Get(k.queues, PushQ(d))[0] in k.tasks
    ensures Get(k.queues, ReadyQ(c, p)) <= Get(PushStep(k, d).queues, ReadyQ(c, p))
  {
  }

  lemma ExpireKeepsReady(k: State, d: nat, now: nat, c: nat, p: nat)
    requires HasCore(k, d)
    ensures Get(ExpireStep(k, d, now).queues, ReadyQ(c, p)) == Get(k.queues, ReadyQ(c, p))
  {
  }

  lemma ReleaseKeepsReady(k: State, d: nat, o: nat, c: nat, p: nat)
    requires o in k.objects && k.objects[o].Semaphore?
    ensures Get(k.queues, ReadyQ(c, p)) <= Get(ReleaseStep(k, d, o).queues, ReadyQ(c, p))
  {
    hide WakeWaiter;
    var s := k.objects[o];
    WakeKeepsReady(k.(objects := k.objects[o := s.(count := s.count + 1, released := s.released + 1)]), d, o, c, p);
  }

  lemma LockKeepsReady(k: State, d: nat, o: nat, c: nat, p: nat)
    requires HasCore(k, d) && o in k.objects && k.objects[o].Mutex?
    ensures Get(k.queues, ReadyQ(c, p)) <= Get(LockStep(k, d, o).queues, ReadyQ(c, p))
  {
    BlockedKeepsReady(k, d, None, c, p);
    hide BlockInAcquire;
  }

  lemma BlockedKeepsReady(k: State, d: nat, until: Option<nat>, c: nat, p: nat)
    requires HasCore(k, d)
    ensures Get(BlockInAcquire(k, d, until).queues, ReadyQ(c, p)) == Get(k.queues, ReadyQ(c, p))
  {
  }

  lemma AcquireKeepsReady(k: State, d: nat, o: nat, until: Option<nat>, c: nat, p: nat)
    requires HasCore(k, d) && o in k.objects && k.objects[o].Semaphore?
    ensures Get(AcquireStep(k, d, o, until).queues, ReadyQ(c, p)) == Get(k.queues, ReadyQ(c, p))
  {
    BlockedKeepsReady(k, d, until, c, p);
    hide BlockInAcquire;
  }

  lemma CleanupKeepsReady(k: State, d: nat, c: nat, p: nat)
    requires HasCore(k, d)
    ensures Get(CleanupStep(k, d).queues, ReadyQ(c, p)) == Get(k.queues, ReadyQ(c, p))
  {
  }

  lemma WakeKeepsReady(k: State, d: nat, o: nat, c: nat, p: nat)
    requires o in k.objects
    ensures Get(WakeWaiter(k, d, o).queues, ReadyQ(c, p)) == Get(k.queues, ReadyQ(c, p))
  {
  }

  lemma UnlockKeepsReady(k: State, d: nat, o: nat, c: nat, p: nat)
    requires HasCore(k, d) && o in k.objects && k.objects[o].Mutex? && k.objects[o].depth > 0
    ensures Get(UnlockStep(k, d, o).queues, ReadyQ(c, p)) == Get(k.queues, ReadyQ(c, p))
  {
    hide WakeWaiter;
    var m := k.objects[o];
    var n := if Nesting(m, k.cores[d].current) > 0 then Nesting(m, k.cores[d].current) - 1 else 0;
    var m1 := m.(depth := m.depth - 1, nesting := m.nesting[k.cores[d].current := n]);
    WakeKeepsReady(k.(objects := k.objects[o := m1.(owner := None)]), d, o, c, p);
  }

  /** How many steps of the run are dispatches of core `c`. */
  ghost function DispatchCount(k: State, actions: seq<Action>, c: nat): nat
    decreases |actions|
  {
    if actions == [] || !Enabled(k, actions[0]) then 0
    else (if Dispatches(k, actions[0], c) then 1 else 0) + DispatchCount(Step(k, actions[0]), actions[1..], c)
  }

  /** Throughout the run nothing above level `p` is ready on core `c`. */
  ghost predicate NothingAbove(k: State, actions: seq<Action>, c: nat, p: nat)
    decreases |actions|
  {
    && (forall j :: p < j < NO_PRIORITIES ==> Get(k.queues, ReadyQ(c, j)) == [])
    && (actions != [] && Enabled(k, actions[0]) ==> NothingAbove(Step(k, actions[0]), actions[1..], c, p))
  }

  /** At some point of the run core `c` runs task `t`. */
  ghost predicate EventuallyRuns(k: State, actions: seq<Action>, c: nat, t: Tid)
    decreases |actions|
  {
    Runs(k, c, t) || (actions != [] && Enabled(k, actions[0])
                      && EventuallyRuns(Step(k, actions[0]), actions[1..], c, t))
  }

  /** A task with `at` others ahead of it in the top queue runs after at most `at + 1` dispatches of its
      core, if nothing of higher priority becomes ready meanwhile. */
  lemma {:induction false} BoundedWaiting(k: State, actions: seq<Action>, c: nat, p: nat, t: Tid, at: nat)
    requires Inv(k) && Run(k, actions).Some? && TameRun(k, actions)
    requires Queued(k, c, p, t, at) && NothingAbove(k, actions, c, p)
    requires DispatchCount(k, actions, c) > at
    ensures EventuallyRuns(k, actions, c, t)
    decreases |actions|
  {
    var a := actions[0];
    var k' := Step(k, a);
    StepKeeps(k, a);
    StepAdvances(k, a, c, p, t, at);
    hide Inv;
    hide Step;
    if Dispatches(k, a, c) && at == 0 {
      assert EventuallyRuns(k', actions[1..], c, t);
    } else {
      BoundedWaiting(k', actions[1..], c, p, t, if Dispatches(k, a, c) then at - 1 else at);
    }
  }
}
