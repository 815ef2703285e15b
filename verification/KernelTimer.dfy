/**
 The blocked lists and the timer in the running kernel: the lists are sorted by wakeup time, nobody is woken by the
 timer before its time, and a timer handler that ends has woken everybody whose time has come.
 */
module KernelTimer {
  import opened Registry
  import opened Kernel
  import opened KernelSafety
  import opened KernelOrders
  import opened KernelQueues
  import opened KernelSync
  import opened Options
  import opened Priorities

  // ----- Sorted lists -----

  /** Waiting up to `x` ends no later than waiting up to `y`. */
  predicate NoLater(x: Option<nat>, y: Option<nat>) {
    y.None? || (x.Some? && x.value <= y.value)
  }

  predicate SortedList(tasks: map<Tid, Task>, list: seq<Tid>) {
    && (forall i :: 0 <= i < |list| ==> list[i] in tasks)
    && (forall i, j :: 0 <= i < j < |list| ==> NoLater(tasks[list[i]].deadline, tasks[list[j]].deadline))
  }

  /** Every blocked list is sorted by wakeup time, untimed waiters last. */
  ghost predicate Sorted(k: State) {
    forall c :: SortedList(k.tasks, Get(k.queues, BlockedQ(c)))
  }

  lemma InsertSorted(tasks: map<Tid, Task>, list: seq<Tid>, t: Tid, until: Option<nat>)
    requires SortedList(tasks, list) && t in tasks && tasks[t].deadline == until
    ensures SortedList(tasks, InsertAt(list, DeadlinePosition(tasks, list, until), t))
  {
    var at := DeadlinePosition(tasks, list, until);
    var new_ := InsertAt(list, at, t);
    forall i | 0 <= i < |new_| ensures new_[i] == if i < at then list[i] else if i == at then t else list[i - 1] {
    }
    forall i | at <= i < |list| ensures NoLater(until, tasks[list[i]].deadline) {
      assert WaitsLonger(tasks, list[at], until);
    }
  }

  lemma RemoveSorted(tasks: map<Tid, Task>, list: seq<Tid>, at: nat)
    requires SortedList(tasks, list) && at < |list|
    ensures SortedList(tasks, RemoveAt(list, at))
  {
    var new_ := RemoveAt(list, at);
    forall i | 0 <= i < |new_| ensures new_[i] == if i < at then list[i] else list[i + 1] {
    }
  }

  /** The tasks of the list wait as long as before. */
  predicate SameDeadlines(tasks: map<Tid, Task>, tasks': map<Tid, Task>, list: seq<Tid>) {
    forall t :: t in list ==> (t in tasks <==> t in tasks') && (t in tasks ==> tasks'[t].deadline == tasks[t].deadline)
  }

  lemma SameSorted(tasks: map<Tid, Task>, tasks': map<Tid, Task>, list: seq<Tid>)
    requires SortedList(tasks, list) && SameDeadlines(tasks, tasks', list)
    ensures SortedList(tasks', list)
  {
    forall i | 0 <= i < |list| ensures list[i] in tasks' && tasks'[list[i]].deadline == tasks[list[i]].deadline {
      assert list[i] in list;
    }
  }

  // ----- What one step does to a blocked list -----

  /** The list stays or loses a task. */
  predicate Shrinks(k: State, k': State, c: nat) {
    var list, list' := Get(k.queues, BlockedQ(c)), Get(k'.queues, BlockedQ(c));
    list' == list || exists at :: 0 <= at < |list| && list' == RemoveAt(list, at)
  }

  /** The step puts its task into the blocked list of its core. */
  predicate Sleeps(k: State, a: Action) {
    !a.Join? && Waits(k, a).Some?
  }

  /** The list gets the current task of its core, at the place that its wakeup time has. */
  ghost predicate Grows(k: State, k': State, c: nat, until: Option<nat>)
    requires HasCore(k, c)
  {
    var list := Get(k.queues, BlockedQ(c));
    && Get(k'.queues, BlockedQ(c)) == InsertAt(list, DeadlinePosition(k.tasks, list, until), k.cores[c].current)
    && forall d :: d != c ==> Get(k'.queues, BlockedQ(d)) == Get(k.queues, BlockedQ(d))
  }

  ghost predicate Listed(k: State, a: Action, k': State, c: nat) {
    if Sleeps(k, a) then HasCore(k, a.core) && Grows(k, k', a.core, Waits(k, a).value)
    else if a.Expire? || a.Release? || a.Unlock? then Shrinks(k, k', c)
    else SameList(k, k', BlockedQ(c))
  }

  lemma ListStep(k: State, a: Action, c: nat)
    requires Enabled(k, a)
    ensures Listed(k, a, Step(k, a), c)
  {
    hide Enabled, Step, Waits, Grows, Shrinks, SameList;
    if Sleeps(k, a) {
      SleepList(k, a);
    } else if a.Expire? || a.Release? || a.Unlock? {
      WakeStepList(k, a, c);
    } else {
      KeptList(k, a, c);
    }
  }

  lemma SleepList(k: State, a: Action)
    requires Enabled(k, a) && Sleeps(k, a)
    ensures HasCore(k, a.core) && Grows(k, Step(k, a), a.core, Waits(k, a).value)
  {
    hide BlockCurrent, AcquireStep, LockStep, Grows;
    match a
    case Sleep(d, until) => BlockList(k, d, BlockedQ(d), Some(until), d);
    case Acquire(d, o, until) => AcquireList(k, d, o, until, d);
    case Lock(d, o) => LockList(k, d, o, d);
  }

  lemma WakeStepList(k: State, a: Action, c: nat)
    requires Enabled(k, a) && (a.Expire? || a.Release? || a.Unlock?)
    ensures Shrinks(k, Step(k, a), c)
  {
    hide ExpireStep, ReleaseStep, UnlockStep, Shrinks;
    match a
    case Expire(d) => ExpireList(k, d, k.cores[d].phase.now, c);
    case Release(d, o) => ReleaseList(k, d, o, c);
    case Unlock(d, o) => UnlockList(k, d, o, c);
  }

  lemma KeptList(k: State, a: Action, c: nat)
    requires Enabled(k, a) && !Sleeps(k, a) && !a.Expire? && !a.Release? && !a.Unlock?
    ensures SameList(k, Step(k, a), BlockedQ(c))
  {
    match a
    case Acquire(d, o, until) =>
      AcquireList(k, d, o, until, c);
      hide AcquireStep;
    case Lock(d, o) =>
      LockList(k, d, o, c);
      hide LockStep;
    case _ => Untouched(k, a, BlockedQ(c));
  }

  lemma WakeFromList(k: State, d: nat, q: QueueId, at: nat, c: nat)
    requires at < |Get(k.queues, q)| && Get(k.queues, q)[at] in k.tasks
    ensures Shrinks(k, WakeFrom(k, d, q, at), c)
  {
  }

  lemma ExpireList(k: State, d: nat, now: nat, c: nat)
    requires HasCore(k, d)
    ensures Shrinks(k, ExpireStep(k, d, now), c)
  {
    if |Get(k.queues, BlockedQ(d))| > 0 && Get(k.queues, BlockedQ(d))[0] in k.tasks {
      WakeFromList(k, d, BlockedQ(d), 0, c);
    }
    hide WakeFrom;
  }

  lemma BlockList(k: State, d: nat, q: QueueId, until: Option<nat>, c: nat)
    requires HasCore(k, d)
    ensures var k' := BlockCurrent(k, d, q, until);
            && SameList(k, k, BlockedQ(c)) && (!q.BlockedQ? ==> SameList(k, k', BlockedQ(c)))
            && (q == BlockedQ(d) ==> Grows(k, k', d, until))
  {
  }

  lemma StopList(k: State, d: nat)
    requires HasCore(k, d)
    ensures var k1 := StopRetrying(k, d);
            && k1.queues == k.queues && k1.cores == k.cores && k1.tasks.Keys == k.tasks.Keys
            && forall list, until :: DeadlinePosition(k1.tasks, list, until) == DeadlinePosition(k.tasks, list, until)
  {
    var k1 := StopRetrying(k, d);
    forall list, until
      ensures DeadlinePosition(k1.tasks, list, until) == DeadlinePosition(k.tasks, list, until)
    {
      SamePosition(k.tasks, k1.tasks, list, until);
    }
  }

  lemma {:induction false} SamePosition(tasks: map<Tid, Task>, tasks': map<Tid, Task>, list: seq<Tid>,
                                        until: Option<nat>)
    requires SameDeadlines(tasks, tasks', list)
    ensures DeadlinePosition(tasks', list, until) == DeadlinePosition(tasks, list, until)
    decreases |list|
  {
    if list != [] {
      assert list[0] in list;
      assert forall t :: t in list[1..] ==> t in list;
      SamePosition(tasks, tasks', list[1..], until);
    }
  }

  lemma BlockInList(k: State, d: nat, until: Option<nat>)
    requires HasCore(k, d)
    ensures Grows(k, BlockInAcquire(k, d, until), d, until)
  {
    StopList(k, d);
    BlockList(StopRetrying(k, d), d, BlockedQ(d), until, d);
    hide StopRetrying, BlockCurrent;
  }

  lemma AcquireList(k: State, d: nat, o: nat, until: Option<nat>, c: nat)
    requires HasCore(k, d) && o in k.objects && k.objects[o].Semaphore?
    ensures if k.objects[o].count > 0 then SameList(k, AcquireStep(k, d, o, until), BlockedQ(c))
            else Grows(k, AcquireStep(k, d, o, until), d, until) && SameList(k, k, BlockedQ(c))
  {
    StopList(k, d);
    BlockInList(k, d, until);
    hide StopRetrying, BlockInAcquire;
  }

  lemma WakeList(k: State, d: nat, o: nat, c: nat)
    requires o in k.objects
    ensures Shrinks(k, WakeWaiter(k, d, o), c)
  {
    var top := TopWait(k.waits, o, NO_PRIORITIES);
    if top >= 0 && Get(k.waits, WaitQ(o, top))[0] in k.tasks {
      var t := Get(k.waits, WaitQ(o, top))[0];
      var q := BlockedQ(k.tasks[t].core);
      var at := IndexOf(Get(k.queues, q), t);
      if at < |Get(k.queues, q)| {
        WakeFromList(k.(waits := Delete(k.waits, WaitQ(o, top), 0)), d, q, at, c);
      }
    }
    hide WakeFrom;
  }

  lemma ReleaseList(k: State, d: nat, o: nat, c: nat)
    requires o in k.objects && k.objects[o].Semaphore?
    ensures Shrinks(k, ReleaseStep(k, d, o), c)
  {
    var s := k.objects[o];
    WakeList(k.(objects := k.objects[o := s.(count := s.count + 1, released := s.released + 1)]), d, o, c);
    hide WakeWaiter;
  }

  lemma LockList(k: State, d: nat, o: nat, c: nat)
    requires HasCore(k, d) && o in k.objects && k.objects[o].Mutex?
    ensures var t, m := k.cores[d].current, k.objects[o];
            if m.owner == Some(t) || m.owner.None? then SameList(k, LockStep(k, d, o), BlockedQ(c))
            else Grows(k, LockStep(k, d, o), d, None)
  {
    StopList(k, d);
    BlockInList(k, d, None);
    hide StopRetrying, BlockInAcquire;
  }

  lemma UnlockList(k: State, d: nat, o: nat, c: nat)
    requires HasCore(k, d) && o in k.objects && k.objects[o].Mutex? && k.objects[o].depth > 0
    ensures Shrinks(k, UnlockStep(k, d, o), c)
  {
    var m := k.objects[o];
    var n := if Nesting(m, k.cores[d].current) > 0 then Nesting(m, k.cores[d].current) - 1 else 0;
    var m1 := m.(depth := m.depth - 1, nesting := m.nesting[k.cores[d].current := n]);
    WakeList(k.(objects := k.objects[o := m1.(owner := None)]), d, o, c);
    hide WakeWaiter;
  }

  // ----- Sorted in every run -----

  lemma SortedStep(k: State, a: Action)
    requires Inv(k) && Sorted(k) && Enabled(k, a) && Tame(k, a)
    ensures Sorted(Step(k, a))
  {
    var k' := Step(k, a);
    StepKeeps(k, a);
    OrderStep(k, a);
    hide Inv, Step, Enabled;
    forall c ensures SortedList(k'.tasks, Get(k'.queues, BlockedQ(c))) {
      ListStep(k, a, c);
      SortedChange(k, k', a, c);
    }
  }

  lemma SortedChange(k: State, k': State, a: Action, c: nat)
    requires Inv(k) && Inv(k') && Enabled(k, a) && Ordered(k, a, k') && Listed(k, a, k', c)
    requires SortedList(k.tasks, Get(k.queues, BlockedQ(c)))
    ensures SortedList(k'.tasks, Get(k'.queues, BlockedQ(c)))
  {
    var list, list' := Get(k.queues, BlockedQ(c)), Get(k'.queues, BlockedQ(c));
    KeptDeadlines(k, k', a, c);
    hide Inv, Enabled, Ordered, SortedList;
    if Sleeps(k, a) && c == a.core {
      var t, until := k.cores[c].current, Waits(k, a).value;
      SameSorted(k.tasks, k'.tasks, list);
      SamePosition(k.tasks, k'.tasks, list, until);
      InsertSorted(k'.tasks, list, t, until);
    } else {
      if list' != list {
        var at :| 0 <= at < |list| && list' == RemoveAt(list, at);
        RemoveSorted(k.tasks, list, at);
      }
      SameSorted(k.tasks, k'.tasks, list');
    }
  }

  /** The task of a step that blocks was in no blocked list, so all that were there wait as long as before. */
  lemma KeptDeadlines(k: State, k': State, a: Action, c: nat)
    requires Inv(k) && Inv(k') && Enabled(k, a) && Ordered(k, a, k') && Listed(k, a, k', c)
    ensures Sleeps(k, a) && c == a.core ==>
              && k.cores[c].current in k'.tasks && k'.tasks[k.cores[c].current].deadline == Waits(k, a).value
              && SameDeadlines(k.tasks, k'.tasks, Get(k.queues, BlockedQ(c)))
    ensures !(Sleeps(k, a) && c == a.core) ==> SameDeadlines(k.tasks, k'.tasks, Get(k'.queues, BlockedQ(c)))
  {
    hide Inv, Enabled, Waits, Listed, Ordered;
    ListedBlocked(k, c);
    ListedBlocked(k', c);
    forall t | t in k.tasks && t in k'.tasks && k.tasks[t].status == Blocked
      ensures k'.tasks[t].deadline == k.tasks[t].deadline
    {
      BlockedDeadline(k, k', a, t);
    }
    if Sleeps(k, a) && c == a.core {
      BlockerDeadline(k, k', a);
    } else {
      ListSubset(k, k', a, c);
    }
  }

  lemma BlockedDeadline(k: State, k': State, a: Action, t: Tid)
    requires Enabled(k, a) && Ordered(k, a, k') && t in k.tasks && t in k'.tasks && k.tasks[t].status == Blocked
    ensures k'.tasks[t].deadline == k.tasks[t].deadline
  {
    BlockerRuns(k, a);
    hide Enabled, Waits;
  }

  lemma BlockerDeadline(k: State, k': State, a: Action)
    requires Enabled(k, a) && Ordered(k, a, k') && Sleeps(k, a)
    ensures HasCore(k, a.core) && k'.tasks.Keys == k.tasks.Keys
    ensures k'.tasks[k.cores[a.core].current].deadline == Waits(k, a).value
  {
    BlockerRuns(k, a);
    assert !a.Spawn? && !a.Clone?;
    hide Enabled, Waits;
  }

  lemma ListSubset(k: State, k': State, a: Action, c: nat)
    requires Enabled(k, a) && Listed(k, a, k', c) && !(Sleeps(k, a) && c == a.core)
    ensures forall t :: t in Get(k'.queues, BlockedQ(c)) ==> t in Get(k.queues, BlockedQ(c))
  {
    hide Enabled, Waits;
    var list, list' := Get(k.queues, BlockedQ(c)), Get(k'.queues, BlockedQ(c));
    if list' != list {
      var at :| 0 <= at < |list| && list' == RemoveAt(list, at);
    }
  }

  lemma ListedBlocked(k: State, c: nat)
    requires Inv(k)
    ensures forall t :: t in Get(k.queues, BlockedQ(c)) ==> t in k.tasks && k.tasks[t].status == Blocked
  {
  }

  lemma {:induction false} SortedOverRun(k: State, actions: seq<Action>)
    requires Inv(k) && Sorted(k) && Run(k, actions).Some? && TameRun(k, actions)
    ensures Inv(Run(k, actions).value) && Sorted(Run(k, actions).value)
    decreases |actions|
  {
    if actions != [] {
      StepKeeps(k, actions[0]);
      SortedStep(k, actions[0]);
      hide Inv, Step, Sorted, Enabled, Tame;
      SortedOverRun(Step(k, actions[0]), actions[1..]);
    }
  }

  // ----- Not too late -----

  /** The time of a task has come. */
  predicate Elapsed(k: State, t: Tid, now: nat) {
    t in k.tasks && k.tasks[t].deadline.Some? && k.tasks[t].deadline.value <= now
  }

  /** One turn of the timer handler of core `c` at time `now`: it wakes the first task of the blocked list, whose time
      has come, or calls the scheduler, and then nobody in the list is to be woken at this time. */
  ghost predicate HandlerTurn(k: State, k': State, c: nat, now: nat) {
    var list, list' := Get(k.queues, BlockedQ(c)), Get(k'.queues, BlockedQ(c));
    && c < |k.cores| && c < |k'.cores|
    && (k'.cores[c].phase != k.cores[c].phase ==>
          && k'.cores[c].phase == Entering && list' == list && k'.tasks == k.tasks
          && forall t :: t in list ==> !Elapsed(k, t, now))
    && (k'.cores[c].phase == k.cores[c].phase ==>
          && list != [] && Elapsed(k, list[0], now) && list' == list[1..]
          && Get(k'.queues, PushQ(c)) == [list[0]] && list[0] in k'.tasks && k'.tasks[list[0]].status == Ready)
  }

  /** In every run from boot the timer handler wakes those whose time has come, and only those, before it ends. */
  lemma HandlerWakesAll(start: State, actions: seq<Action>, c: nat)
    requires Initial(start) && Run(start, actions).Some? && TameRun(start, actions)
    requires Enabled(Run(start, actions).value, Expire(c))
    ensures var k := Run(start, actions).value;
            c < |k.cores| && k.cores[c].phase.Ticking? && HandlerTurn(k, Step(k, Expire(c)), c, k.cores[c].phase.now)
  {
    hide *;
    SortedFromBoot(start, actions);
    ExpireExact(Run(start, actions).value, c);
  }

  lemma SortedFromBoot(start: State, actions: seq<Action>)
    requires Initial(start) && Run(start, actions).Some? && TameRun(start, actions)
    ensures Inv(Run(start, actions).value) && Sorted(Run(start, actions).value)
  {
    InitialInv(start);
    assert Sorted(start);
    hide Inv, Sorted, Initial;
    SortedOverRun(start, actions);
  }

  lemma ExpireExact(k: State, c: nat)
    requires Inv(k) && Sorted(k) && Enabled(k, Expire(c))
    ensures c < |k.cores| && k.cores[c].phase.Ticking?
    ensures HandlerTurn(k, Step(k, Expire(c)), c, k.cores[c].phase.now)
  {
    var list := Get(k.queues, BlockedQ(c));
    ListedBlocked(k, c);
    assert SortedList(k.tasks, list);
    hide Inv, Sorted;
    if list != [] {
      assert list[0] in list;
      if !Elapsed(k, list[0], k.cores[c].phase.now) {
        forall t | t in list ensures !Elapsed(k, t, k.cores[c].phase.now) {
          var i :| 0 <= i < |list| && list[i] == t;
          assert i > 0 ==> NoLater(k.tasks[list[0]].deadline, k.tasks[list[i]].deadline);
        }
      } else {
        assert RemoveAt(list, 0) == list[1..];
      }
    }
  }

  // ----- Not too early -----

  /** `t` sleeps on core `c` and waits for no semaphore and no mutex. */
  ghost predicate Asleep(k: State, c: nat, t: Tid) {
    t in k.tasks && t in Get(k.queues, BlockedQ(c)) && !Held(k.waits, t) && k.tasks[t].queueing == None
  }

  /** The step is a timer interrupt on core `c`. */
  predicate Interrupts(a: Action, c: nat) {
    (a.Tick? || a.Nest? || a.NestLate?) && a.core == c
  }

  /** The step may change the phase of its core. */
  predicate Moves(a: Action) {
    a.Yield? || a.Call? || a.Cleanup? || a.Forget? || a.Drain? || a.Read? || a.Decide? || a.Tick? || a.Nest?
    || a.NestLate? || a.Expire?
  }

  lemma CoresKept(k: State, a: Action)
    requires Enabled(k, a) && !Moves(a)
    ensures Step(k, a).cores == k.cores
  {
    hide WakeWaiter, DeadlinePosition;
    match a
    case Release(c, o) =>
      var s := k.objects[o];
      WakeCores(k.(objects := k.objects[o := s.(count := s.count + 1, released := s.released + 1)]), c, o);
    case Unlock(c, o) =>
      var m, t := k.objects[o], k.cores[c].current;
      var n := if Nesting(m, t) > 0 then Nesting(m, t) - 1 else 0;
      var m1 := m.(depth := m.depth - 1, nesting := m.nesting[t := n], owner := None);
      WakeCores(k.(objects := k.objects[o := m1]), c, o);
    case _ =>
  }

  lemma WakeCores(k: State, c: nat, o: nat)
    requires o in k.objects
    ensures WakeWaiter(k, c, o).cores == k.cores
  {
  }

  lemma DecidedPhase(k: State, d: nat, expired: bool, c: nat)
    requires Inv(k) && Enabled(k, Decide(d, expired)) && c < |k.cores|
    ensures var k' := DecideStep(k, d, k.cores[d].phase.seen, expired);
            && c < |k'.cores| && (c != d ==> k'.cores[c] == k.cores[c])
            && (c == d ==> !k'.cores[c].phase.Ticking?)
  {
    forall t | t in k.tasks ensures InsideOk(k.tasks[t]) {
      OfTask(k, t);
    }
    forall p, t | t in Get(k.queues, ReadyQ(d, p)) ensures t in k.tasks {
      OfQueue(k, ReadyQ(d, p), t);
    }
    OfCore(k, d);
    hide Inv, Choose, PutAside, SwitchTo, InsideOk;
    var seen := k.cores[d].phase.seen;
    match Choose(k, d, seen, expired)
    case Stay => StayedPhase(k, d, c);
    case Dispatch(level) =>
      var t := Get(k.queues, ReadyQ(d, level))[0];
      SwitchedPhase(k, k.(queues := Delete(k.queues, ReadyQ(d, level), 0)), d, seen, t, c);
    case GoIdle => SwitchedPhase(k, k, d, seen, k.cores[d].idle, c);
  }

  lemma StayedPhase(k: State, d: nat, c: nat)
    requires HasCore(k, d) && InsideOk(Current(k, d)) && c < |k.cores|
    ensures var k' := Resume(k, d, k.cores[d].current);
            && c < |k'.cores| && (c != d ==> k'.cores[c] == k.cores[c]) && (c == d ==> !k'.cores[c].phase.Ticking?)
  {
  }

  lemma SwitchedPhase(k: State, k1: State, d: nat, seen: Status, t: Tid, c: nat)
    requires HasCore(k, d) && k1 == k.(queues := k1.queues) && t in k.tasks && InsideOk(k.tasks[t]) && c < |k.cores|
    ensures var aside := PutAside(k1, d, seen);
            && t in aside.tasks && c < |SwitchTo(aside, d, t).cores|
            && (c != d ==> SwitchTo(aside, d, t).cores[c] == k.cores[c])
            && (c == d ==> !SwitchTo(aside, d, t).cores[c].phase.Ticking?)
  {
  }

  /** The timer handler of core `c` begins with an interrupt and knows its time. */
  lemma HandlerTime(k: State, a: Action, c: nat)
    requires Inv(k) && Enabled(k, a) && c < |k.cores|
    ensures c < |Step(k, a).cores|
    ensures Interrupts(a, c) ==> Step(k, a).cores[c].phase == Ticking(a.now)
    ensures !Interrupts(a, c) && Step(k, a).cores[c].phase.Ticking? ==>
              Step(k, a).cores[c].phase == k.cores[c].phase
  {
    if !Moves(a) {
      CoresKept(k, a);
      hide Inv, Step, Enabled;
    } else if a.Decide? {
      DecidedPhase(k, a.core, a.expired, c);
      hide Inv, DecideStep;
    } else {
      hide Inv, Step, Enabled;
      MovedPhase(k, a, c);
    }
  }

  lemma MovedPhase(k: State, a: Action, c: nat)
    requires Enabled(k, a) && c < |k.cores| && Moves(a) && !a.Decide?
    ensures c < |Step(k, a).cores|
    ensures Interrupts(a, c) ==> Step(k, a).cores[c].phase == Ticking(a.now)
    ensures !Interrupts(a, c) && Step(k, a).cores[c].phase.Ticking? ==>
              Step(k, a).cores[c].phase == k.cores[c].phase
  {
  }

  lemma RemovedOther(list: seq<Tid>, at: nat, t: Tid)
    requires at < |list| && t in list && list[at] != t
    ensures t in RemoveAt(list, at)
  {
    var i :| 0 <= i < |list| && list[i] == t;
    assert RemoveAt(list, at)[if i < at then i else i - 1] == t;
  }

  /** A wakeup for an object passes over all that do not wait for one. */
  lemma WakeSpares(k: State, d: nat, o: nat, c: nat, t: Tid)
    requires o in k.objects && Asleep(k, c, t)
    ensures Asleep(WakeWaiter(k, d, o), c, t)
  {
    var top := TopWait(k.waits, o, NO_PRIORITIES);
    if top >= 0 {
      var w := WaitQ(o, top);
      var u := Get(k.waits, w)[0];
      assert u in Get(k.waits, w) && u != t;
      forall v ensures t !in Get(Delete(k.waits, w, 0), v) {
        assert t !in Get(k.waits, v);
      }
      if u in k.tasks {
        var q := BlockedQ(k.tasks[u].core);
        var at := IndexOf(Get(k.queues, q), u);
        if at < |Get(k.queues, q)| && q == BlockedQ(c) {
          RemovedOther(Get(k.queues, q), at, t);
        }
      }
    }
  }

  lemma ReleaseSpares(k: State, d: nat, o: nat, c: nat, t: Tid)
    requires o in k.objects && k.objects[o].Semaphore? && Asleep(k, c, t)
    ensures Asleep(ReleaseStep(k, d, o), c, t)
  {
    var s := k.objects[o];
    WakeSpares(k.(objects := k.objects[o := s.(count := s.count + 1, released := s.released + 1)]), d, o, c, t);
    hide WakeWaiter;
  }

  lemma UnlockSpares(k: State, d: nat, o: nat, c: nat, t: Tid)
    requires HasCore(k, d) && o in k.objects && k.objects[o].Mutex? && k.objects[o].depth > 0 && Asleep(k, c, t)
    ensures Asleep(UnlockStep(k, d, o), c, t)
  {
    var m := k.objects[o];
    var n := if Nesting(m, k.cores[d].current) > 0 then Nesting(m, k.cores[d].current) - 1 else 0;
    var m1 := m.(depth := m.depth - 1, nesting := m.nesting[k.cores[d].current := n]);
    WakeSpares(k.(objects := k.objects[o := m1.(owner := None)]), d, o, c, t);
    hide WakeWaiter;
  }

  lemma ExpireSpares(k: State, d: nat, c: nat, t: Tid)
    requires HasCore(k, d) && k.cores[d].phase.Ticking? && Asleep(k, c, t)
    requires d == c && Due(k, d) ==> Get(k.queues, BlockedQ(c))[0] != t
    ensures Asleep(ExpireStep(k, d, k.cores[d].phase.now), c, t)
  {
    if d == c && Due(k, d) {
      RemovedOther(Get(k.queues, BlockedQ(c)), 0, t);
    }
  }

  /** Nothing but the timer handler of its core wakes a sleeper, and only if the sleeper is the first of the list. */
  lemma AsleepStep(k: State, a: Action, c: nat, t: Tid)
    requires Inv(k) && Enabled(k, a) && Tame(k, a) && Asleep(k, c, t)
    requires a == Expire(c) && Due(k, c) ==> Get(k.queues, BlockedQ(c))[0] != t
    ensures Asleep(Step(k, a), c, t) && Step(k, a).tasks[t].deadline == k.tasks[t].deadline
  {
    var k' := Step(k, a);
    hide Inv, Step, Enabled, Waits, Held;
    AsleepPlace(k, a, c, t);
    ListedBlocked(k, c);
    BlockerRuns(k, a);
    StepKeeps(k, a);
    ListedBlocked(k', c);
    if !a.Release? && !a.Unlock? {
      OthersWait(k, a, t);
    }
    OrderStep(k, a);
    BlockedDeadline(k, k', a, t);
  }

  lemma AsleepPlace(k: State, a: Action, c: nat, t: Tid)
    requires Inv(k) && Enabled(k, a) && Asleep(k, c, t)
    requires a == Expire(c) && Due(k, c) ==> Get(k.queues, BlockedQ(c))[0] != t
    ensures t in Get(Step(k, a).queues, BlockedQ(c))
    ensures a.Release? || a.Unlock? ==> Asleep(Step(k, a), c, t)
  {
    hide Inv;
    match a
    case Release(d, o) => ReleaseSpares(k, d, o, c, t);
    case Unlock(d, o) => UnlockSpares(k, d, o, c, t);
    case Expire(d) => ExpireSpares(k, d, c, t);
    case _ =>
      ListStep(k, a, c);
      PlaceKept(k, Step(k, a), a, c, t);
  }

  lemma PlaceKept(k: State, k': State, a: Action, c: nat, t: Tid)
    requires Enabled(k, a) && Listed(k, a, k', c) && t in Get(k.queues, BlockedQ(c))
    requires !a.Expire? && !a.Release? && !a.Unlock?
    ensures t in Get(k'.queues, BlockedQ(c))
  {
    hide Enabled, Waits;
    if Sleeps(k, a) && a.core == c {
      var list := Get(k.queues, BlockedQ(c));
      InsertedOther(list, DeadlinePosition(k.tasks, list, Waits(k, a).value), k.cores[c].current, t);
    }
  }

  lemma InsertedOther(list: seq<Tid>, at: nat, x: Tid, t: Tid)
    requires at <= |list| && t in list
    ensures t in InsertAt(list, at, x)
  {
    InsertAtKeeps(list, at, x);
  }

  /** Nobody enters a wait queue, or is about to, but the task of the step. */
  lemma OthersWait(k: State, a: Action, t: Tid)
    requires Enabled(k, a) && !a.Release? && !a.Unlock? && t in k.tasks && t in Step(k, a).tasks
    requires !Held(k.waits, t) && k.tasks[t].queueing == None
    requires Waits(k, a).Some? ==> k.cores[a.core].current != t
    ensures !Held(Step(k, a).waits, t) && Step(k, a).tasks[t].queueing == None
  {
    forall v ensures t !in Get(k.waits, v) {
    }
    hide AcquireStep, LockStep, EnqueueStep;
    match a
    case Acquire(d, o, until) => AcquireWaits(k, d, o, until, t);
    case TryAcquire(d, o) => if k.objects[o].count > 0 { AcquireWaits(k, d, o, None, t); }
    case Lock(d, o) => LockWaits(k, d, o, t);
    case Enqueue(d) => EnqueueWaits(k, d, t);
    case _ => OtherStepsKeepObjects(k, a);
  }

  lemma AcquireWaits(k: State, d: nat, o: nat, until: Option<nat>, t: Tid)
    requires HasCore(k, d) && o in k.objects && k.objects[o].Semaphore? && t in k.tasks
    requires (forall v :: t !in Get(k.waits, v)) && k.tasks[t].queueing == None
    requires k.objects[o].count <= 0 ==> k.cores[d].current != t
    ensures var k' := AcquireStep(k, d, o, until);
            (forall v :: t !in Get(k'.waits, v)) && (t in k'.tasks ==> k'.tasks[t].queueing == None)
  {
    var k' := AcquireStep(k, d, o, until);
    forall v ensures t !in Get(k'.waits, v) {
      assert t !in Get(k.waits, v);
    }
  }

  lemma LockWaits(k: State, d: nat, o: nat, t: Tid)
    requires HasCore(k, d) && o in k.objects && k.objects[o].Mutex? && t in k.tasks
    requires (forall v :: t !in Get(k.waits, v)) && k.tasks[t].queueing == None
    requires k.objects[o].owner.Some? && k.objects[o].owner != Some(k.cores[d].current) ==> k.cores[d].current != t
    ensures var k' := LockStep(k, d, o);
            (forall v :: t !in Get(k'.waits, v)) && (t in k'.tasks ==> k'.tasks[t].queueing == None)
  {
    var k' := LockStep(k, d, o);
    forall v ensures t !in Get(k'.waits, v) {
      assert t !in Get(k.waits, v);
    }
  }

  lemma EnqueueWaits(k: State, d: nat, t: Tid)
    requires HasCore(k, d) && Current(k, d).queueing.Some? && t in k.tasks
    requires (forall v :: t !in Get(k.waits, v)) && k.tasks[t].queueing == None
    ensures var k' := EnqueueStep(k, d);
            (forall v :: t !in Get(k'.waits, v)) && t in k'.tasks && k'.tasks[t].queueing == None
  {
    var k' := EnqueueStep(k, d);
    forall v ensures t !in Get(k'.waits, v) {
      assert t !in Get(k.waits, v);
    }
  }

  /** Every timer interrupt of core `c` comes before a sleeper with this wakeup time is to be woken. */
  predicate AllBefore(actions: seq<Action>, c: nat, until: Option<nat>) {
    forall a :: a in actions && Interrupts(a, c) ==> until.Some? ==> a.now < until.value
  }

  /** Nobody is woken too early: a sleeper whose core gets timer interrupts before its time only goes on sleeping. */
  lemma {:induction false} SleepsUntilItsTime(k: State, actions: seq<Action>, c: nat, t: Tid)
    requires Inv(k) && Run(k, actions).Some? && TameRun(k, actions) && Asleep(k, c, t) && c < |k.cores|
    requires AllBefore(actions, c, k.tasks[t].deadline)
    requires k.cores[c].phase.Ticking? ==> !Elapsed(k, t, k.cores[c].phase.now)
    ensures var k' := Run(k, actions).value; Asleep(k', c, t) && k'.tasks[t].deadline == k.tasks[t].deadline
    decreases |actions|
  {
    if actions != [] {
      var a := actions[0];
      StepKeeps(k, a);
      AsleepStep(k, a, c, t);
      HandlerTime(k, a, c);
      hide Inv, Step, Enabled, Tame, Asleep;
      SleepsUntilItsTime(Step(k, a), actions[1..], c, t);
    }
  }

  /** Who asks to sleep up to `wakeup` is still blocked after every run in which all timer interrupts of the core come
      before that time. */
  lemma SleepLasts(k: State, c: nat, wakeup: nat, actions: seq<Action>)
    requires Inv(k) && Enabled(k, Sleep(c, wakeup)) && AllBefore(actions, c, Some(wakeup))
    requires var k1 := Step(k, Sleep(c, wakeup)); Run(k1, actions).Some? && TameRun(k1, actions)
    ensures var k', t := Run(Step(k, Sleep(c, wakeup)), actions).value, k.cores[c].current;
            t in k'.tasks && k'.tasks[t].status == Blocked && t in Get(k'.queues, BlockedQ(c))
  {
    var k1, t := Step(k, Sleep(c, wakeup)), k.cores[c].current;
    StepKeeps(k, Sleep(c, wakeup));
    FallsAsleep(k, c, wakeup);
    hide Inv, Step, Enabled;
    RunKeeps(k1, actions);
    SleepsUntilItsTime(k1, actions, c, t);
    ListedBlocked(Run(k1, actions).value, c);
  }

  lemma FallsAsleep(k: State, c: nat, wakeup: nat)
    requires Inv(k) && Enabled(k, Sleep(c, wakeup))
    ensures var k1, t := Step(k, Sleep(c, wakeup)), k.cores[c].current;
            && Asleep(k1, c, t) && k1.tasks[t].deadline == Some(wakeup)
            && c < |k1.cores| && k1.cores[c].phase == Executing
  {
    var t := k.cores[c].current;
    ReadyNotWaiting(k, t);
    OfTask(k, t);
    hide Inv;
    var list := Get(k.queues, BlockedQ(c));
    InsertAtKeeps(list, DeadlinePosition(k.tasks, list, Some(wakeup)), t);
  }
}
