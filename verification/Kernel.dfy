/**
 The scheduler and the blocking primitives as one step system over any number of cores
 (`src/scheduler/mod.rs`, `src/scheduler/task.rs`, `src/synch/semaphore.rs`, `src/synch/recmutex.rs`).

 There is one step per locked section.  In particular the scheduler's unlocked read of the current
 status and its decision under the state lock are two steps, and a wakeup first makes the task ready and
 pushes it onto the ready queue of its core in a later step, so other cores can run in between.
 */
module Kernel {
  import opened Registry
  import opened Options
  import opened Priorities

  type Tid = nat

  datatype Status = Invalid | Ready | Running | Blocked | Finished | Idle

  datatype Phase =
    | Executing            // the current task runs its own code, with interrupts on
    | Entering             // at the start of scheduler()
    | Cleaning(id: Tid)    // cleanup_tasks has taken a finished task from its list, which is still in TASKS
    | Draining             // cleanup_tasks is waking the joiners of a finished task
    | Reading              // cleanup is done, the current status is about to be read
    | Deciding(seen: Status)
    | Ticking(now: nat)    // the timer handler is waking elapsed tasks

  /** A `spawn` that has pushed the new task onto a ready queue and has yet to enter it in TASKS; it is `quiet` if
      it was called with interrupts off. */
  datatype Pending = Pending(tid: Tid, quiet: bool)

  /** `deadline` is the wakeup time of a blocked task; `retrying` names the object for which the task was
      woken inside `acquire` and which it has not tried again yet.  `inside` is where in `scheduler` the task was
      when an interrupt took the processor from it.  `queueing` names a mutex: the task has blocked itself, holds the
      spinlock of the mutex and has yet to enter its wait queue. */
  datatype Task = Task(
    status: Status, prio: nat, core: nat, deadline: Option<nat>, retrying: Option<nat>,
    spawning: Option<Pending>, inside: Option<Phase>, queueing: Option<nat>)

  /** `loud` says whether the current call of `scheduler` was made with interrupts on. */
  datatype Core = Core(current: Tid, idle: Tid, phase: Phase, loud: bool)

  /** Every list a task can be in, apart from the wait queues of semaphores and mutexes.
      `PushQ` holds a task made ready by a core that has yet to take the state lock of the task's core. */
  datatype QueueId =
    | ReadyQ(core: nat, prio: nat)
    | PushQ(waker: nat)
    | BlockedQ(core: nat)
    | JoinQ(tid: Tid)
    | DrainQ(core: nat)
    | FinishedQ(core: nat)

  /** One priority level of the wait queue of a semaphore or mutex. */
  datatype WaitId = WaitQ(obj: nat, prio: nat)

  /** `initial`, `released` and `acquired` count what happened to the semaphore, `nesting` how often each
      task has locked the mutex without unlocking it; no step reads them. */
  datatype Object =
    | Semaphore(count: int, woken: set<Tid>, initial: int, released: nat, acquired: nat)
    | Mutex(owner: Option<Tid>, depth: nat, woken: set<Tid>, nesting: map<Tid, nat>)

  datatype State = State(
    tasks: map<Tid, Task>,
    registered: set<Tid>,              // the keys of TASKS
    cores: seq<Core>,
    queues: map<QueueId, seq<Tid>>,
    waits: map<WaitId, seq<Tid>>,
    objects: map<nat, Object>)

  datatype Action =
    | Spawn(core: nat, target: nat, prio: nat, tid: Tid, quiet: bool)
    | Register(core: nat)
    | Clone(core: nat, target: nat, tid: Tid)
    | Exit(core: nat)
    | Yield(core: nat)              // `reschedule`
    | Call(core: nat)               // `scheduler` with interrupts on, as `join` and `exit` call it
    | Cleanup(core: nat)
    | Forget(core: nat)
    | Drain(core: nat)
    | Push(core: nat)
    | Read(core: nat)
    | Decide(core: nat, expired: bool)
    | Join(core: nat, tid: Tid)
    | Sleep(core: nat, wakeup: nat)
    | Tick(core: nat, now: nat)     // a timer interrupt in the code of the current task
    | Nest(core: nat, now: nat)     // one inside `scheduler`, before or after `cleanup_tasks`
    | NestLate(core: nat, now: nat) // one in the middle of `cleanup_tasks`, or between the read and the decision
    | Expire(core: nat)
    | Acquire(core: nat, obj: nat, until: Option<nat>)
    | TryAcquire(core: nat, obj: nat)
    | Release(core: nat, obj: nat)
    | Lock(core: nat, obj: nat)
    | Enqueue(core: nat)            // the second half of a `Lock` that blocks
    | Unlock(core: nat, obj: nat)

  // ----- Small operations -----

  /** Whether core `c` exists and its current task has a control block. */
  predicate HasCore(k: State, c: nat) {
    c < |k.cores| && k.cores[c].current in k.tasks
  }

  function Current(k: State, c: nat): Task
    requires HasCore(k, c)
  {
    k.tasks[k.cores[c].current]
  }

  function SetStatus(k: State, t: Tid, s: Status): State
    requires t in k.tasks
  {
    k.(tasks := k.tasks[t := k.tasks[t].(status := s)])
  }

  function SetPhase(k: State, c: nat, p: Phase): State
    requires c < |k.cores|
  {
    k.(cores := k.cores[c := k.cores[c].(phase := p)])
  }

  function NewTask(s: Status, prio: nat, core: nat): Task {
    Task(s, prio, core, None, None, None, None, None)
  }

  /** Core `c` starts a call of the scheduler. */
  function EnterScheduler(k: State, c: nat, loud: bool): State
    requires c < |k.cores|
  {
    k.(cores := k.cores[c := k.cores[c].(phase := Entering, loud := loud)])
  }

  /** The highest nonempty level below `n` of the ready queue of core `c`, or -1. */
  function TopReady(queues: map<QueueId, seq<Tid>>, c: nat, n: nat): (top: int)
    ensures -1 <= top < n
    ensures top >= 0 ==> Get(queues, ReadyQ(c, top)) != []
    ensures forall j :: top < j < n ==> Get(queues, ReadyQ(c, j)) == []
  {
    if n == 0 then -1
    else if Get(queues, ReadyQ(c, n - 1)) != [] then n - 1
    else TopReady(queues, c, n - 1)
  }

  /** The highest nonempty level below `n` of the wait queue of object `o`, or -1. */
  function TopWait(waits: map<WaitId, seq<Tid>>, o: nat, n: nat): (top: int)
    ensures -1 <= top < n
    ensures top >= 0 ==> Get(waits, WaitQ(o, top)) != []
    ensures forall j :: top < j < n ==> Get(waits, WaitQ(o, j)) == []
  {
    if n == 0 then -1
    else if Get(waits, WaitQ(o, n - 1)) != [] then n - 1
    else TopWait(waits, o, n - 1)
  }

  /** Where `BlockedTaskQueue::add` inserts a task with this wakeup time: before the first entry that
      waits longer, behind entries with the same time, untimed waiters last. */
  function DeadlinePosition(tasks: map<Tid, Task>, list: seq<Tid>, until: Option<nat>): (at: nat)
    ensures at <= |list|
    ensures forall i :: 0 <= i < at ==> !WaitsLonger(tasks, list[i], until)
    ensures at < |list| ==> WaitsLonger(tasks, list[at], until)
  {
    if list == [] || WaitsLonger(tasks, list[0], until) then 0
    else 1 + DeadlinePosition(tasks, list[1..], until)
  }

  /** Task `t` is to be woken later than at `until`. */
  predicate WaitsLonger(tasks: map<Tid, Task>, t: Tid, until: Option<nat>) {
    until.Some? && t in tasks && (tasks[t].deadline.None? || until.value < tasks[t].deadline.value)
  }

  /** `BlockedTaskQueue::add` for the current task of core `c`, which has yet to call the scheduler. */
  function BlockCurrent(k: State, c: nat, q: QueueId, until: Option<nat>): State
    requires HasCore(k, c)
  {
    var t := k.cores[c].current;
    var at := DeadlinePosition(k.tasks, Get(k.queues, q), until);
    k.(tasks := k.tasks[t := k.tasks[t].(status := Blocked, deadline := until, retrying := None)],
       queues := Insert(k.queues, q, at, t))
  }

  /** First half of `wakeup_task`, run by core `c`: the `at`-th task of `q` leaves the list and becomes ready. */
  function WakeFrom(k: State, c: nat, q: QueueId, at: nat): State
    requires at < |Get(k.queues, q)| && Get(k.queues, q)[at] in k.tasks
  {
    var t := Get(k.queues, q)[at];
    SetStatus(k.(queues := Append(Delete(k.queues, q, at), PushQ(c), t)), t, Ready)
  }

  /** The released object's wait queue loses its head, and `custom_wakeup` looks for that task in the
      blocked list of its core. */
  function WakeWaiter(k: State, c: nat, o: nat): State
    requires o in k.objects
  {
    var top := TopWait(k.waits, o, NO_PRIORITIES);
    if top < 0 then k
    else
      var t := Get(k.waits, WaitQ(o, top))[0];
      var popped := k.(waits := Delete(k.waits, WaitQ(o, top), 0));
      if t !in k.tasks then popped
      else
        var q := BlockedQ(k.tasks[t].core);
        var at := IndexOf(Get(k.queues, q), t);
        if at == |Get(k.queues, q)| then popped
        else
          var woken := WakeFrom(popped, c, q, at);
          woken.(tasks := woken.tasks[t := woken.tasks[t].(retrying := Some(o))],
                 objects := woken.objects[o := woken.objects[o].(woken := woken.objects[o].woken + {t})])
  }

  // ----- The scheduler's decision -----

  datatype Choice = Stay | Dispatch(level: nat) | GoIdle

  /** Which task the scheduler wants to switch to, given the status it read earlier. */
  function Choose(k: State, c: nat, seen: Status, expired: bool): (choice: Choice)
    requires HasCore(k, c)
    ensures choice.Dispatch? ==> Get(k.queues, ReadyQ(c, choice.level)) != []
    ensures choice.Stay? ==> seen == Running || seen == Idle
    ensures choice.GoIdle? ==> seen != Running && seen != Idle
  {
    var top := TopReady(k.queues, c, NO_PRIORITIES);
    var prio := Current(k, c).prio;
    if seen == Running then
      if top >= prio + 1 then Dispatch(top)
      else if expired && top >= prio then Dispatch(top)
      else Stay
    else if top >= 0 then Dispatch(top)
    else if seen != Idle then GoIdle
    else Stay
  }

  /** What happens to the task that was current: a running one is queued again, a finished one is retired, and with
      it a call of the scheduler that was interrupted. */
  function PutAside(k: State, c: nat, seen: Status): (k': State)
    requires HasCore(k, c)
    ensures k'.objects == k.objects && k'.waits == k.waits && k'.cores == k.cores
    ensures k'.tasks.Keys == k.tasks.Keys
  {
    var t := k.cores[c].current;
    if seen == Running then
      SetStatus(k.(queues := Append(k.queues, ReadyQ(c, k.tasks[t].prio), t)), t, Ready)
    else if seen == Finished then
      k.(queues := Append(k.queues, FinishedQ(c), t),
         tasks := k.tasks[t := k.tasks[t].(status := Invalid, inside := None)])
    else k
  }

  /** Core `c` returns from the scheduler to task `t`, which goes on where it was interrupted or in its own code. */
  function Resume(k: State, c: nat, t: Tid): (k': State)
    requires c < |k.cores| && t in k.tasks
    ensures k'.objects == k.objects && k'.waits == k.waits && k'.queues == k.queues && k'.registered == k.registered
    ensures k'.tasks.Keys == k.tasks.Keys
  {
    var x := k.tasks[t];
    k.(tasks := k.tasks[t := x.(inside := None)],
       cores := k.cores[c := k.cores[c].(current := t, loud := x.inside.Some?,
                                         phase := if x.inside.Some? then x.inside.value else Executing)])
  }

  /** Makes `t` the current task of core `c`; any task but an idle one is marked running. */
  function SwitchTo(k: State, c: nat, t: Tid): (k': State)
    requires c < |k.cores| && t in k.tasks
    ensures k'.objects == k.objects && k'.waits == k.waits && k'.queues == k.queues && k'.registered == k.registered
  {
    Resume(if k.tasks[t].status == Idle then k else SetStatus(k, t, Running), c, t)
  }

  /** Switch to the oldest ready task of `level`. */
  function DispatchStep(k: State, c: nat, seen: Status, level: nat): State
    requires HasCore(k, c) && Get(k.queues, ReadyQ(c, level)) != []
  {
    var t := Get(k.queues, ReadyQ(c, level))[0];
    var aside := PutAside(k.(queues := Delete(k.queues, ReadyQ(c, level), 0)), c, seen);
    if t in aside.tasks then SwitchTo(aside, c, t) else aside
  }

  /** Switch to the idle task of the core. */
  function IdleStep(k: State, c: nat, seen: Status): State
    requires HasCore(k, c)
  {
    var aside := PutAside(k, c, seen);
    if k.cores[c].idle in aside.tasks then SwitchTo(aside, c, k.cores[c].idle) else aside
  }

  function DecideStep(k: State, c: nat, seen: Status, expired: bool): State
    requires HasCore(k, c)
  {
    match Choose(k, c, seen, expired)
    case Stay => Resume(k, c, k.cores[c].current)
    case Dispatch(level) => DispatchStep(k, c, seen, level)
    case GoIdle => IdleStep(k, c, seen)
  }

  // ----- The other steps -----

  /** `cleanup_tasks` takes the oldest finished task from the list of the core. */
  function CleanupStep(k: State, c: nat): State
    requires HasCore(k, c)
  {
    var finished := Get(k.queues, FinishedQ(c));
    if finished == [] then SetPhase(k, c, Reading)
    else SetPhase(k.(queues := Delete(k.queues, FinishedQ(c), 0)), c, Cleaning(finished[0]))
  }

  /** It removes the task from TASKS, and takes the list of its joiners. */
  function ForgetStep(k: State, c: nat, id: Tid): State
    requires HasCore(k, c)
  {
    if id in k.registered then
      SetPhase(k.(tasks := k.tasks - {id}, registered := k.registered - {id},
                  queues := Transfer(k.queues, JoinQ(id), DrainQ(c))), c, Draining)
    else SetPhase(k, c, Reading)
  }

  function DrainStep(k: State, c: nat): State
    requires HasCore(k, c)
  {
    var list := Get(k.queues, DrainQ(c));
    if list == [] then SetPhase(k, c, Reading)
    else if list[0] in k.tasks then WakeFrom(k, c, DrainQ(c), 0)
    else k
  }

  /** One turn of `handle_waiting_tasks`; when the first task has not elapsed, the handler calls the scheduler. */
  function ExpireStep(k: State, c: nat, now: nat): State
    requires HasCore(k, c)
  {
    var list := Get(k.queues, BlockedQ(c));
    if list != [] && list[0] in k.tasks && k.tasks[list[0]].deadline.Some? && k.tasks[list[0]].deadline.value <= now
    then WakeFrom(k, c, BlockedQ(c), 0)
    else EnterScheduler(k, c, false)
  }

  /** An interrupt inside `scheduler`: the task keeps its place, and the handler begins. */
  function NestStep(k: State, c: nat, now: nat): State
    requires HasCore(k, c)
  {
    var t := k.cores[c].current;
    k.(tasks := k.tasks[t := k.tasks[t].(inside := Some(k.cores[c].phase))],
       cores := k.cores[c := k.cores[c].(phase := Ticking(now), loud := false)])
  }

  /** Second half of `wakeup_task`: the push under the state lock of the task's core. */
  function PushStep(k: State, c: nat): State
    requires Get(k.queues, PushQ(c)) != [] && Get(k.queues, PushQ(c))[0] in k.tasks
  {
    var t := Get(k.queues, PushQ(c))[0];
    k.(queues := Append(Delete(k.queues, PushQ(c), 0), ReadyQ(k.tasks[t].core, k.tasks[t].prio), t))
  }

  function CreateTask(k: State, target: nat, prio: nat, tid: Tid): State {
    k.(tasks := k.tasks[tid := NewTask(Ready, prio, target)],
       queues := Append(k.queues, ReadyQ(target, prio), tid))
  }

  /** `spawn`, up to the push. */
  function SpawnStep(k: State, c: nat, target: nat, prio: nat, tid: Tid, quiet: bool): State
    requires HasCore(k, c) && tid != k.cores[c].current
  {
    var t := k.cores[c].current;
    var k1 := CreateTask(k, target, prio, tid);
    k1.(tasks := k1.tasks[t := k1.tasks[t].(spawning := Some(Pending(tid, quiet)))])
  }

  /** The rest of `spawn`: the new task is entered in TASKS. */
  function RegisterStep(k: State, c: nat): State
    requires HasCore(k, c) && Current(k, c).spawning.Some?
  {
    var t := k.cores[c].current;
    k.(registered := k.registered + {k.tasks[t].spawning.value.tid},
       tasks := k.tasks[t := k.tasks[t].(spawning := None)])
  }

  /** The current task gives up waiting for the object it was woken for. */
  function StopRetrying(k: State, c: nat): State
    requires HasCore(k, c)
  {
    var t := k.cores[c].current;
    if k.tasks[t].retrying.Some? && k.tasks[t].retrying.value in k.objects then
      var o := k.tasks[t].retrying.value;
      k.(tasks := k.tasks[t := k.tasks[t].(retrying := None)],
         objects := k.objects[o := k.objects[o].(woken := k.objects[o].woken - {t})])
    else k
  }

  /** The current task blocks itself inside `acquire`. */
  function BlockInAcquire(k: State, c: nat, until: Option<nat>): (k': State)
    requires HasCore(k, c)
    ensures k'.cores == k.cores && HasCore(k', c) && k'.waits == k.waits
  {
    BlockCurrent(StopRetrying(k, c), c, BlockedQ(c), until)
  }

  /** The blocking branch of the `acquire` of a semaphore, which runs with interrupts off: into the blocked list of the
      core and the wait queue of the object. */
  function WaitFor(k: State, c: nat, o: nat, until: Option<nat>): State
    requires HasCore(k, c)
  {
    var k1 := BlockInAcquire(k, c, until);
    k1.(waits := Append(k1.waits, WaitQ(o, Current(k, c).prio), k.cores[c].current))
  }

  function AcquireStep(k: State, c: nat, o: nat, until: Option<nat>): State
    requires HasCore(k, c) && o in k.objects && k.objects[o].Semaphore?
  {
    if k.objects[o].count > 0 then
      var k1 := StopRetrying(k, c);
      if o in k1.objects && k1.objects[o].Semaphore? then
        k1.(objects := k1.objects[o := k1.objects[o].(count := k1.objects[o].count - 1,
                                                      acquired := k1.objects[o].acquired + 1)])
      else k1
    else WaitFor(k, c, o, until)
  }

  function ReleaseStep(k: State, c: nat, o: nat): State
    requires o in k.objects && k.objects[o].Semaphore?
  {
    var s := k.objects[o];
    WakeWaiter(k.(objects := k.objects[o := s.(count := s.count + 1, released := s.released + 1)]), c, o)
  }

  function Nesting(m: Object, t: Tid): nat
    requires m.Mutex?
  {
    if t in m.nesting then m.nesting[t] else 0
  }

  /** One turn of the loop of the `acquire` of a mutex, up to the point where a task that has to wait has blocked
      itself; the plain spinlock leaves interrupts on. */
  function LockStep(k: State, c: nat, o: nat): State
    requires HasCore(k, c) && o in k.objects && k.objects[o].Mutex?
  {
    var t := k.cores[c].current;
    var m := k.objects[o];
    if m.owner == Some(t) || m.owner.None? then
      var k1 := StopRetrying(k, c);
      if o in k1.objects && k1.objects[o].Mutex? then
        var m1 := k1.objects[o];
        k1.(objects := k1.objects[o := m1.(owner := Some(t),
                                           depth := if m.owner.None? then 1 else m1.depth + 1,
                                           nesting := m1.nesting[t := Nesting(m1, t) + 1])])
      else k1
    else
      var k1 := BlockInAcquire(k, c, None);
      k1.(tasks := k1.tasks[t := k1.tasks[t].(queueing := Some(o))])
  }

  /** The rest of the blocking branch of the `acquire` of a mutex: into the wait queue, and the spinlock is dropped. */
  function EnqueueStep(k: State, c: nat): State
    requires HasCore(k, c) && Current(k, c).queueing.Some?
  {
    var t := k.cores[c].current;
    k.(waits := Append(k.waits, WaitQ(k.tasks[t].queueing.value, k.tasks[t].prio), t),
       tasks := k.tasks[t := k.tasks[t].(queueing := None)])
  }

  function UnlockStep(k: State, c: nat, o: nat): State
    requires HasCore(k, c) && o in k.objects && k.objects[o].Mutex? && k.objects[o].depth > 0
  {
    var t := k.cores[c].current;
    var m := k.objects[o];
    var n := if Nesting(m, t) > 0 then Nesting(m, t) - 1 else 0;
    var m1 := m.(depth := m.depth - 1, nesting := m.nesting[t := n]);
    if m1.depth == 0 then WakeWaiter(k.(objects := k.objects[o := m1.(owner := None)]), c, o)
    else k.(objects := k.objects[o := m1])
  }

  // ----- The step relation -----

  /** The core runs the code of its current task and is not in the middle of a wakeup. */
  predicate Free(k: State, c: nat) {
    HasCore(k, c) && k.cores[c].phase == Executing && Get(k.queues, PushQ(c)) == []
  }

  /** As `Free`, and not in the middle of `spawn` or of the `acquire` of a mutex. */
  predicate Own(k: State, c: nat) {
    Free(k, c) && Current(k, c).spawning == None && Current(k, c).queueing == None
  }

  /** Somebody holds the spinlock of mutex `o`. */
  predicate Busy(k: State, o: nat) {
    exists t :: t in k.tasks && k.tasks[t].queueing == Some(o)
  }

  /** The current task may go on with its code; otherwise it has blocked or finished, and can only call the
      scheduler. */
  predicate Awake(k: State, c: nat) {
    Own(k, c) && (Current(k, c).status == Running || Current(k, c).status == Idle)
  }

  /** As `Awake`, with an ordinary task that is not inside an unfinished `acquire`. */
  predicate Working(k: State, c: nat) {
    Own(k, c) && Current(k, c).status == Running && Current(k, c).retrying == None
  }

  /** A task may (again) try to acquire `o`: it is not inside the `acquire` of another object. */
  predicate MayTry(k: State, c: nat, o: nat) {
    Own(k, c) && Current(k, c).status == Running && o in k.objects
    && (Current(k, c).retrying == None || Current(k, c).retrying == Some(o))
  }

  /** A new task: an id that is not in use and a priority that has a queue. */
  predicate MayCreate(k: State, c: nat, target: nat, prio: nat, tid: Tid) {
    Awake(k, c) && Current(k, c).retrying == None
    && target < |k.cores| && prio < NO_PRIORITIES && tid !in k.tasks && tid !in k.registered
  }

  /** A call of the scheduler that an interrupt can interrupt. */
  predicate Interruptible(k: State, c: nat) {
    HasCore(k, c) && k.cores[c].loud && Get(k.queues, PushQ(c)) == []
  }

  predicate Enabled(k: State, a: Action) {
    match a
    case Spawn(c, target, prio, tid, quiet) => MayCreate(k, c, target, prio, tid)
    case Register(c) => Free(k, c) && Current(k, c).spawning.Some?
    case Clone(c, target, tid) => HasCore(k, c) && MayCreate(k, c, target, Current(k, c).prio, tid)
    case Exit(c) => Working(k, c)
    case Yield(c) => Own(k, c)
    case Call(c) => Own(k, c)
    case Cleanup(c) => HasCore(k, c) && k.cores[c].phase == Entering
    case Forget(c) => HasCore(k, c) && k.cores[c].phase.Cleaning?
    case Drain(c) => HasCore(k, c) && k.cores[c].phase == Draining && Get(k.queues, PushQ(c)) == []
    case Push(c) => Get(k.queues, PushQ(c)) != [] && Get(k.queues, PushQ(c))[0] in k.tasks
    case Read(c) => HasCore(k, c) && k.cores[c].phase == Reading
    case Decide(c, expired) => HasCore(k, c) && k.cores[c].phase.Deciding?
    case Join(c, tid) => Working(k, c) && tid != k.cores[c].current  // who joins itself stops the kernel
    case Sleep(c, until) => Working(k, c)
    case Tick(c, now) => Free(k, c) && (Current(k, c).spawning.Some? ==> !Current(k, c).spawning.value.quiet)
    case Nest(c, now) => Interruptible(k, c) && (k.cores[c].phase == Entering || k.cores[c].phase == Reading)
    case NestLate(c, now) => Interruptible(k, c) && (k.cores[c].phase.Cleaning? || k.cores[c].phase.Deciding?)
    case Expire(c) => HasCore(k, c) && k.cores[c].phase.Ticking? && Get(k.queues, PushQ(c)) == []
    case Acquire(c, o, until) => MayTry(k, c, o) && k.objects[o].Semaphore?
    case TryAcquire(c, o) => Working(k, c) && o in k.objects && k.objects[o].Semaphore?
    case Release(c, o) => Awake(k, c) && Current(k, c).retrying == None && o in k.objects && k.objects[o].Semaphore?
    case Lock(c, o) => MayTry(k, c, o) && k.objects[o].Mutex? && !Busy(k, o)
    case Enqueue(c) => Free(k, c) && Current(k, c).queueing.Some?
    case Unlock(c, o) =>  // only the owner unlocks
      Working(k, c) && o in k.objects && k.objects[o].Mutex?
      && k.objects[o].owner == Some(k.cores[c].current) && k.objects[o].depth > 0 && !Busy(k, o)
  }

  function Step(k: State, a: Action): State
    requires Enabled(k, a)
  {
    match a
    case Spawn(c, target, prio, tid, quiet) => SpawnStep(k, c, target, prio, tid, quiet)
    case Register(c) => RegisterStep(k, c)
    case Clone(c, target, tid) =>
      var k1 := CreateTask(k, target, Current(k, c).prio, tid);
      k1.(registered := k1.registered + {tid})
    case Exit(c) => SetStatus(k, k.cores[c].current, Finished)
    case Yield(c) => EnterScheduler(k, c, false)
    case Call(c) => EnterScheduler(k, c, true)
    case Cleanup(c) => CleanupStep(k, c)
    case Forget(c) => ForgetStep(k, c, k.cores[c].phase.id)
    case Drain(c) => DrainStep(k, c)
    case Push(c) => PushStep(k, c)
    case Read(c) => SetPhase(k, c, Deciding(Current(k, c).status))
    case Decide(c, expired) => DecideStep(k, c, k.cores[c].phase.seen, expired)
    case Join(c, tid) => if tid in k.registered then BlockCurrent(k, c, JoinQ(tid), None) else k
    case Sleep(c, until) => BlockCurrent(k, c, BlockedQ(c), Some(until))
    case Tick(c, now) => SetPhase(k, c, Ticking(now))
    case Nest(c, now) => NestStep(k, c, now)
    case NestLate(c, now) => NestStep(k, c, now)
    case Expire(c) => ExpireStep(k, c, k.cores[c].phase.now)
    case Acquire(c, o, until) => AcquireStep(k, c, o, until)
    case TryAcquire(c, o) => if k.objects[o].count > 0 then AcquireStep(k, c, o, None) else k
    case Release(c, o) => ReleaseStep(k, c, o)
    case Lock(c, o) => LockStep(k, c, o)
    case Enqueue(c) => EnqueueStep(k, c)
    case Unlock(c, o) => UnlockStep(k, c, o)
  }

  /** The kernel after boot: every core runs its registered idle task, and all lists are empty. */
  ghost predicate Initial(k: State) {
    && (forall q :: Get(k.queues, q) == []) && (forall w :: Get(k.waits, w) == [])
    && k.registered == k.tasks.Keys
    && (forall c :: 0 <= c < |k.cores| ==>
          && k.cores[c].current == k.cores[c].idle && k.cores[c].idle in k.tasks && k.cores[c].phase == Executing
          && k.tasks[k.cores[c].idle] == NewTask(Idle, 0, c))
    && (forall t :: t in k.tasks ==> k.tasks[t].core < |k.cores| && k.cores[k.tasks[t].core].idle == t)
    && (forall o :: o in k.objects ==> FreshObject(k.objects[o]))
  }

  /** `Semaphore::new(count)` for any count, or `RecursiveMutex::new()`. */
  predicate FreshObject(x: Object) {
    match x
    case Semaphore(count, woken, initial, released, acquired) =>
      woken == {} && count == initial && released == 0 && acquired == 0
    case Mutex(owner, depth, woken, nesting) => owner == None && depth == 0 && woken == {} && nesting == map[]
  }

  /** The state after a run of steps, if each of them was enabled. */
  function Run(k: State, actions: seq<Action>): Option<State>
    decreases |actions|
  {
    if actions == [] then Some(k)
    else if Enabled(k, actions[0]) then Run(Step(k, actions[0]), actions[1..])
    else None
  }
}
