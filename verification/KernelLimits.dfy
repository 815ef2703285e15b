/**
 Promises the kernel does not keep in general.  Each comes with the exact condition under which a step breaks it
 and with a run from boot that does.

 A semaphore wait with a timeout: the timer handler pushes the task onto its ready queue while the wait
 queue of the semaphore still links it, and both queues use the same two links of the task.

 A spawned task can run, finish and be cleaned up before `spawn` registers it in TASKS, on another core or, if an
 interrupt comes in between, on the same one; whoever joins it afterwards sleeps for ever.
 */
module KernelLimits {
  import opened Registry
  import opened Kernel
  import opened KernelSafety
  import opened KernelTheorems
  import opened KernelJoin
  import opened KernelGone
  import opened KernelCycles
  import opened KernelQuiet
  import opened KernelRuns
  import opened Options

  // ----- Timed semaphore waits -----

  /** When a deadline elapses, the woken task ends up in two priority queues exactly if a wait queue still held it. */
  lemma ExpiryLinksTwice(k: State, c: nat)
    requires QueuesOk(k) && Linear(k.waits) && HasCore(k, c) && k.cores[c].phase.Ticking?
    requires Get(k.queues, PushQ(c)) == [] && Get(k.queues, BlockedQ(c)) != []
    requires var t := Get(k.queues, BlockedQ(c))[0];
             t in k.tasks && k.tasks[t].deadline.Some? && k.tasks[t].deadline.value <= k.cores[c].phase.now
    ensures var t := Get(k.queues, BlockedQ(c))[0];
            var woken := ExpireStep(k, c, k.cores[c].phase.now);
            && Get(woken.queues, PushQ(c)) == [t] && t in woken.tasks
            && (LinkedTwice(PushStep(woken, c), t) <==> Held(k.waits, t))
  {
    var t := Get(k.queues, BlockedQ(c))[0];
    ShiftMoves(k.queues, BlockedQ(c), 0, PushQ(c));
    var woken := ExpireStep(k, c, k.cores[c].phase.now);
    assert Get(woken.queues, PushQ(c)) == [t];
    var q := ReadyQ(k.tasks[t].core, k.tasks[t].prio);
    ShiftMoves(woken.queues, PushQ(c), 0, q);
    var pushed := PushStep(woken, c);
    assert pushed.waits == k.waits;
    LinkedByBoth(pushed, q, t);
  }

  lemma LinkedByBoth(k: State, q: QueueId, t: Tid)
    requires Linear(k.queues) && Linear(k.waits) && q.ReadyQ? && t in Get(k.queues, q)
    ensures LinkedTwice(k, t) <==> Held(k.waits, t)
  {
    if Held(k.waits, t) {
      var w :| t in Get(k.waits, w);
      assert q.ReadyQ? && t in Get(k.queues, q) && t in Get(k.waits, w);
    }
  }

  // ----- Runs on one core -----

  /** A semaphore with count 0 and a mutex. */
  function Objects(): map<nat, Object> {
    map[0 := Semaphore(0, {}, 0, 0, 0), 1 := Mutex(None, 0, {}, map[])]
  }

  /** One core. */
  function One(tasks: map<Tid, Task>, registered: set<Tid>, core: Core, queues: map<QueueId, seq<Tid>>): State {
    State(tasks, registered, [core], queues, map[], Objects())
  }

  const ONE := One(map[0 := NewTask(Idle, 0, 0)], {0}, Core(0, 0, Executing, false), map[])

  /** The idle task and task 1. */
  function Two(x: Task): map<Tid, Task> {
    map[0 := NewTask(Idle, 0, 0), 1 := x]
  }

  /** The idle task, task 1 and task 2. */
  function Three(x: Task, y: Task): map<Tid, Task> {
    map[0 := NewTask(Idle, 0, 0), 1 := x, 2 := y]
  }

  /** The core runs the code of task `t`. */
  function Runs(t: Tid): Core {
    Core(t, 0, Executing, false)
  }

  lemma OneIsInitial()
    ensures Initial(ONE)
  {
  }

  /** The idle task spawns task 1 with priority 1. */
  lemma OneSpawns(ok: Action -> bool, quiet: bool)
    requires Mild(ok) && ok(Spawn(0, 0, 1, 1, quiet))
    ensures Reaches(ONE, ok, One(Two(NewTask(Ready, 1, 0)), {0, 1}, Runs(0), map[ReadyQ(0, 1) := [1]]))
  {
    Start(ONE, ok);
    hide Reaches, Objects;
    var a := Spawn(0, 0, 1, 1, quiet);
    var v1 := SpawnStep(ONE, 0, 0, 1, 1, quiet);
    Spawned(ONE, ok, ONE, a, v1);
    Registered(ONE, ok, v1, 0, One(Two(NewTask(Ready, 1, 0)), {0, 1}, Runs(0), map[ReadyQ(0, 1) := [1]]));
  }

  /** The idle task yields to task 1. */
  lemma OneRuns(ok: Action -> bool, quiet: bool)
    requires Mild(ok) && ok(Spawn(0, 0, 1, 1, quiet))
    ensures Reaches(ONE, ok, One(Two(NewTask(Running, 1, 0)), {0, 1}, Runs(1), map[]))
  {
    OneSpawns(ok, quiet);
    hide Reaches, Objects, Mild;
    var v1 := One(Two(NewTask(Ready, 1, 0)), {0, 1}, Runs(0), map[ReadyQ(0, 1) := [1]]);
    Called(ONE, ok, v1, 0, false);
    Dispatched(ONE, ok, At(v1, 0, Deciding(Idle), false), 0, 1, 1,
               One(Two(NewTask(Running, 1, 0)), {0, 1}, Runs(1), map[]));
  }

  /** The run with a timed wait is otherwise harmless. */
  predicate Timed(a: Action) {
    !a.NestLate? && (a.Spawn? ==> a.target == a.core && a.quiet)
  }

  /** Task 1 waits for the semaphore until time 5. */
  function Waiting(core: Core, queues: map<QueueId, seq<Tid>>, s: Status): State {
    One(Two(NewTask(s, 1, 0).(deadline := Some(5))), {0, 1}, core, queues).(waits := map[WaitQ(0, 1) := [1]])
  }

  lemma WaitForFive()
    ensures Same(WaitFor(One(Two(NewTask(Running, 1, 0)), {0, 1}, Runs(1), map[]), 0, 0, Some(5)),
                 Waiting(Runs(1), map[BlockedQ(0) := [1]], Blocked))
  {
    var v := One(Two(NewTask(Running, 1, 0)), {0, 1}, Runs(1), map[]);
    assert InsertAt([], 0, 1) == [1] && Get(v.queues, BlockedQ(0)) == [] && StopRetrying(v, 0) == v;
  }

  lemma TimedWaits()
    ensures Reaches(ONE, Timed, Waiting(Runs(1), map[BlockedQ(0) := [1]], Blocked))
  {
    OneRuns(Timed, true);
    WaitForFive();
    hide Reaches, Step, Enabled, WaitFor, Same;
    var v0 := One(Two(NewTask(Running, 1, 0)), {0, 1}, Runs(1), map[]);
    Waited(ONE, Timed, v0, Acquire(0, 0, Some(5)), Waiting(Runs(1), map[BlockedQ(0) := [1]], Blocked));
  }

  lemma TimedSleeps()
    ensures Reaches(ONE, Timed, Waiting(Runs(0), map[BlockedQ(0) := [1]], Blocked))
  {
    TimedWaits();
    hide Reaches, Objects;
    var v1 := Waiting(Runs(1), map[BlockedQ(0) := [1]], Blocked);
    Called(ONE, Timed, v1, 0, false);
    Idled(ONE, Timed, At(v1, 0, Deciding(Blocked), false), 0, Waiting(Runs(0), map[BlockedQ(0) := [1]], Blocked));
  }

  /** Time 7 comes. */
  lemma TimedWakes()
    ensures Reaches(ONE, Timed, Waiting(Core(0, 0, Ticking(7), false), map[PushQ(0) := [1]], Ready))
  {
    TimedSleeps();
    hide Reaches, Objects;
    var v0 := Waiting(Runs(0), map[BlockedQ(0) := [1]], Blocked);
    var handler := Core(0, 0, Ticking(7), false);
    Then(ONE, Timed, v0, Tick(0, 7));
    var v1 := Waiting(handler, map[BlockedQ(0) := [1]], Blocked);
    Restated(ONE, Timed, Step(v0, Tick(0, 7)), v1);
    Then(ONE, Timed, v1, Expire(0));
    Restated(ONE, Timed, Step(v1, Expire(0)), Waiting(handler, map[PushQ(0) := [1]], Ready));
  }

  lemma TimedExpires()
    ensures Reaches(ONE, Timed, Waiting(Core(0, 0, Ticking(7), false), map[ReadyQ(0, 1) := [1]], Ready))
  {
    TimedWakes();
    hide Reaches, Objects;
    var handler := Core(0, 0, Ticking(7), false);
    var v := Waiting(handler, map[PushQ(0) := [1]], Ready);
    Then(ONE, Timed, v, Push(0));
    Restated(ONE, Timed, Step(v, Push(0)), Waiting(handler, map[ReadyQ(0, 1) := [1]], Ready));
  }

  /** A run from boot with one timed wait, after which task 1 is linked by the ready queue and by the wait queue. */
  lemma TimedWaitLinksTwice() returns (run: seq<Action>, k: State)
    ensures Initial(ONE) && Run(ONE, run) == Some(k) && All(run, Timed) && LinkedTwice(k, 1)
  {
    OneIsInitial();
    TimedExpires();
    var v := Waiting(Core(0, 0, Ticking(7), false), map[ReadyQ(0, 1) := [1]], Ready);
    hide Initial, Run;
    run, k :| Run(ONE, run) == Some(k) && All(run, Timed) && Same(k, v);
    assert Get(k.queues, ReadyQ(0, 1)) == Get(v.queues, ReadyQ(0, 1)) == [1];
    assert Get(k.waits, WaitQ(0, 1)) == Get(v.waits, WaitQ(0, 1)) == [1];
    assert 1 in Get(k.queues, ReadyQ(0, 1)) && 1 in Get(k.waits, WaitQ(0, 1));
  }

  // ----- Joiners that are never woken -----

  /** A cleanup leaves its task behind for ever, unreachable for later cleanups, exactly if `spawn` had not
      registered it yet. */
  lemma ForgetLosesUnregistered(k: State, c: nat)
    requires Inv(k) && HasCore(k, c) && k.cores[c].phase.Cleaning?
    ensures Gone(ForgetStep(k, c, k.cores[c].phase.id), k.cores[c].phase.id) <==> k.cores[c].phase.id !in k.registered
  {
    var id, k' := k.cores[c].phase.id, ForgetStep(k, c, k.cores[c].phase.id);
    CleaningFacts(k, c);
    OfCore(k, c);
    if id !in k.registered {
      ForgetStepKeeps(k, c);
      hide Inv;
      assert !WillBeCleaned(k', id);
      MembersAreLost(k', {id});
      assert id in {id};
    } else {
      forall s: set<Tid> | id in s ensures !Lost(k', s) {
        assert !LostTask(k', s, id);
      }
    }
  }

  /** Half of the condition under which joiners are woken: every spawn is on the spawning core. */
  predicate LocalSpawns(a: Action) {
    Mannerly(a) && (a.Spawn? ==> a.target == a.core)
  }

  /** The other half: every spawn runs with interrupts off. */
  predicate QuietSpawns(a: Action) {
    Mannerly(a) && (a.Spawn? ==> a.quiet)
  }

  /** Task `j` waits in `join` for task `t`, and no run that goes on from here wakes it. */
  ghost predicate JoinerLost(k: State, t: Tid, j: Tid) {
    && Get(k.queues, JoinQ(t)) == [j] && Gone(k, t)
    && forall actions :: Run(k, actions).Some? ==> j in Get(Run(k, actions).value.queues, JoinQ(t))
  }

  lemma LostFromHere(start: State, ok: Action -> bool, v: State, t: Tid, j: Tid) returns (run: seq<Action>, k: State)
    requires Reaches(start, ok, v) && Gone(v, t) && Get(v.queues, JoinQ(t)) == [j]
    ensures Run(start, run) == Some(k) && All(run, ok) && JoinerLost(k, t, j)
  {
    hide Lost, Run;
    run, k :| Run(start, run) == Some(k) && All(run, ok) && Same(k, v);
    var s :| t in s && Lost(v, s);
    SameLost(k, v, s);
    assert Get(k.queues, JoinQ(t)) == [j];
    hide Same;
    forall actions | Run(k, actions).Some? ensures j in Get(Run(k, actions).value.queues, JoinQ(t)) {
      LostForEver(k, s, actions);
    }
  }

  lemma SameLost(k: State, v: State, s: set<Tid>)
    requires Same(k, v) && Lost(v, s)
    ensures Lost(k, s)
  {
    forall t | t in s ensures LostTask(k, s, t) {
      assert LostTask(v, s, t);
      forall q | t in Get(k.queues, q) ensures LostIn(k, s, t, q) {
        assert Get(k.queues, q) == Get(v.queues, q) && LostIn(v, s, t, q);
      }
      forall w | t in Get(k.waits, w) ensures HeldUp(k, s, w.obj) {
        assert Get(k.waits, w) == Get(v.waits, w);
        HeldUpStays(v, k, s, w.obj);
      }
    }
    forall c | 0 <= c < |k.cores| ensures LostCore(k, s, c) {
      assert LostCore(v, s, c);
    }
  }

  /** A set of one task. */
  lemma AloneIsGone(v: State, t: Tid)
    requires Lost(v, {t})
    ensures Gone(v, t)
  {
    assert t in {t};
  }

  /** Task 1 in the middle of spawning task 2, with interrupts on. */
  function Spawner(s: Status): Task {
    NewTask(s, 1, 0).(spawning := Some(Pending(2, false)))
  }

  /** Task 1 begins to spawn task 2 with a higher priority. */
  lemma SpawnPushed()
    ensures Reaches(ONE, LocalSpawns, One(Three(Spawner(Running), NewTask(Ready, 2, 0)), {0, 1}, Runs(1),
                                          map[ReadyQ(0, 2) := [2]]))
  {
    OneRuns(LocalSpawns, false);
    hide Reaches, Objects, Step, Enabled;
    var v0 := One(Two(NewTask(Running, 1, 0)), {0, 1}, Runs(1), map[]);
    Spawned(ONE, LocalSpawns, v0, Spawn(0, 0, 2, 2, false),
            One(Three(Spawner(Running), NewTask(Ready, 2, 0)), {0, 1}, Runs(1), map[ReadyQ(0, 2) := [2]]));
  }

  /** A timer interrupt comes before `spawn` has registered task 2. */
  lemma SpawnInterrupted()
    ensures Reaches(ONE, LocalSpawns, One(Three(Spawner(Running), NewTask(Ready, 2, 0)), {0, 1},
                                          Core(1, 0, Entering, false), map[ReadyQ(0, 2) := [2]]))
  {
    SpawnPushed();
    hide Reaches, Objects, Step, Enabled;
    var v1 := One(Three(Spawner(Running), NewTask(Ready, 2, 0)), {0, 1}, Runs(1), map[ReadyQ(0, 2) := [2]]);
    Ticked(ONE, LocalSpawns, v1, 0);
    assert At(v1, 0, Entering, false).cores == [Core(1, 0, Entering, false)];
  }

  /** The interrupt handler hands the processor to task 2. */
  lemma SpawnedRuns()
    ensures Reaches(ONE, LocalSpawns, One(Three(Spawner(Ready), NewTask(Running, 2, 0)), {0, 1}, Runs(2),
                                          map[ReadyQ(0, 1) := [1]]))
  {
    SpawnInterrupted();
    hide Reaches, Objects;
    var v0 := One(Three(Spawner(Running), NewTask(Ready, 2, 0)), {0, 1}, Core(1, 0, Entering, false),
                  map[ReadyQ(0, 2) := [2]]);
    Decision(ONE, LocalSpawns, v0, 0);
    Dispatched(ONE, LocalSpawns, At(v0, 0, Deciding(Running), false), 0, 2, 2,
               One(Three(Spawner(Ready), NewTask(Running, 2, 0)), {0, 1}, Runs(2), map[ReadyQ(0, 1) := [1]]));
  }

  /** Task 2 exits. */
  lemma SpawnedExits()
    ensures Reaches(ONE, LocalSpawns, One(Three(Spawner(Running), NewTask(Invalid, 2, 0)), {0, 1}, Runs(1),
                                          map[FinishedQ(0) := [2]]))
  {
    SpawnedRuns();
    hide Reaches, Objects, Step, Enabled;
    var v0 := One(Three(Spawner(Ready), NewTask(Running, 2, 0)), {0, 1}, Runs(2), map[ReadyQ(0, 1) := [1]]);
    var v1 := One(Three(Spawner(Ready), NewTask(Finished, 2, 0)), {0, 1}, Runs(2), map[ReadyQ(0, 1) := [1]]);
    Exited(ONE, LocalSpawns, v0, 0, v1);
    Called(ONE, LocalSpawns, v1, 0, true);
    Dispatched(ONE, LocalSpawns, At(v1, 0, Deciding(Finished), true), 0, 1, 1,
               One(Three(Spawner(Running), NewTask(Invalid, 2, 0)), {0, 1}, Runs(1), map[FinishedQ(0) := [2]]));
  }

  /** The next timer interrupt cleans task 2 up, and finds nothing in TASKS. */
  lemma SpawnedForgotten()
    ensures Reaches(ONE, LocalSpawns, One(Three(Spawner(Running), NewTask(Invalid, 2, 0)), {0, 1}, Runs(1), map[]))
  {
    SpawnedExits();
    hide Reaches, Objects;
    var v0 := One(Three(Spawner(Running), NewTask(Invalid, 2, 0)), {0, 1}, Runs(1), map[FinishedQ(0) := [2]]);
    Ticked(ONE, LocalSpawns, v0, 0);
    var v1 := At(v0, 0, Entering, false);
    Then(ONE, LocalSpawns, v1, Cleanup(0));
    var v2 := One(v0.tasks, {0, 1}, Core(1, 0, Cleaning(2), false), map[]);
    Restated(ONE, LocalSpawns, Step(v1, Cleanup(0)), v2);
    Then(ONE, LocalSpawns, v2, Forget(0));
    var v3 := Step(v2, Forget(0));
    Then(ONE, LocalSpawns, v3, Read(0));
    Idled(ONE, LocalSpawns, Step(v3, Read(0)), 0, One(v0.tasks, {0, 1}, Runs(1), map[]));
  }

  /** A run from boot on one core after which task 1 sleeps for ever in `join(2)`: `spawn` was interrupted between
      the push and the registration, and task 2 ran, exited and was cleaned up in between. */
  lemma LocalSpawnLosesJoiner() returns (run: seq<Action>, k: State)
    ensures Initial(ONE) && Run(ONE, run) == Some(k) && All(run, LocalSpawns) && JoinerLost(k, 2, 1)
  {
    OneIsInitial();
    SpawnedForgotten();
    hide Reaches, Initial, Step, Enabled;
    var v0 := One(Three(Spawner(Running), NewTask(Invalid, 2, 0)), {0, 1}, Runs(1), map[]);
    var v1 := One(Three(NewTask(Running, 1, 0), NewTask(Invalid, 2, 0)), {0, 1, 2}, Runs(1), map[]);
    Registered(ONE, LocalSpawns, v0, 0, v1);
    var v2 := One(Three(NewTask(Blocked, 1, 0), NewTask(Invalid, 2, 0)), {0, 1, 2}, Runs(1), map[JoinQ(2) := [1]]);
    Joined(ONE, LocalSpawns, v1, 0, 2, v2);
    assert LostTask(v2, {2}, 2);
    AloneIsGone(v2, 2);
    run, k := LostFromHere(ONE, LocalSpawns, v2, 2, 1);
  }

  // ----- Two cores -----

  /** Two cores with idle tasks 0 and 1. */
  function Duo(tasks: map<Tid, Task>, registered: set<Tid>, current: Tid, queues: map<QueueId, seq<Tid>>): State {
    State(tasks, registered, [Core(0, 0, Executing, false), Core(current, 1, Executing, false)], queues, map[], map[])
  }

  const DUO := Duo(map[0 := NewTask(Idle, 0, 0), 1 := NewTask(Idle, 0, 1)], {0, 1}, 1, map[])

  lemma DuoIsInitial()
    ensures Initial(DUO)
  {
  }

  /** Both idle tasks, that of core 0 in the middle of spawning task 3, and task 3. */
  function Spawning(x: Task): map<Tid, Task> {
    map[0 := NewTask(Idle, 0, 0).(spawning := Some(Pending(3, true))), 1 := NewTask(Idle, 0, 1), 3 := x]
  }

  /** Both idle tasks, and task 3 that nobody knows any more. */
  const FORGOTTEN := map[0 := NewTask(Idle, 0, 0), 1 := NewTask(Idle, 0, 1), 3 := NewTask(Invalid, 1, 1)]

  /** Core 0 spawns task 3 on core 1, with interrupts off, and is slow to register it; task 3 runs. */
  lemma RemoteRuns()
    ensures Reaches(DUO, QuietSpawns, Duo(Spawning(NewTask(Running, 1, 1)), {0, 1}, 3, map[]))
  {
    Start(DUO, QuietSpawns);
    hide Reaches, Step, Enabled;
    var v1 := Duo(Spawning(NewTask(Ready, 1, 1)), {0, 1}, 1, map[ReadyQ(1, 1) := [3]]);
    Spawned(DUO, QuietSpawns, DUO, Spawn(0, 1, 1, 3, true), v1);
    Called(DUO, QuietSpawns, v1, 1, false);
    Dispatched(DUO, QuietSpawns, At(v1, 1, Deciding(Idle), false), 1, 1, 3,
               Duo(Spawning(NewTask(Running, 1, 1)), {0, 1}, 3, map[]));
  }

  /** Task 3 exits. */
  lemma RemoteExits()
    ensures Reaches(DUO, QuietSpawns, Duo(Spawning(NewTask(Invalid, 1, 1)), {0, 1}, 1, map[FinishedQ(1) := [3]]))
  {
    RemoteRuns();
    hide Reaches, Step, Enabled;
    var v0 := Duo(Spawning(NewTask(Running, 1, 1)), {0, 1}, 3, map[]);
    var v1 := Duo(Spawning(NewTask(Finished, 1, 1)), {0, 1}, 3, map[]);
    Exited(DUO, QuietSpawns, v0, 1, v1);
    Called(DUO, QuietSpawns, v1, 1, true);
    Idled(DUO, QuietSpawns, At(v1, 1, Deciding(Finished), true), 1,
          Duo(Spawning(NewTask(Invalid, 1, 1)), {0, 1}, 1, map[FinishedQ(1) := [3]]));
  }

  /** Core 1 cleans task 3 up. */
  lemma RemoteForgotten()
    ensures Reaches(DUO, QuietSpawns, Duo(Spawning(NewTask(Invalid, 1, 1)), {0, 1}, 1, map[]))
  {
    RemoteExits();
    hide Reaches;
    var v0 := Duo(Spawning(NewTask(Invalid, 1, 1)), {0, 1}, 1, map[FinishedQ(1) := [3]]);
    Then(DUO, QuietSpawns, v0, Yield(1));
    var v1 := At(v0, 1, Entering, false);
    Then(DUO, QuietSpawns, v1, Cleanup(1));
    var v2 := At(Duo(v0.tasks, {0, 1}, 1, map[]), 1, Cleaning(3), false);
    Restated(DUO, QuietSpawns, Step(v1, Cleanup(1)), v2);
    Then(DUO, QuietSpawns, v2, Forget(1));
    var v3 := Step(v2, Forget(1));
    Then(DUO, QuietSpawns, v3, Read(1));
    Idled(DUO, QuietSpawns, Step(v3, Read(1)), 1, Duo(v0.tasks, {0, 1}, 1, map[]));
  }

  /** Core 0 registers task 3, and core 1 spawns a task 2. */
  lemma RemoteJoinerSpawned()
    ensures Reaches(DUO, QuietSpawns, Duo(FORGOTTEN[2 := NewTask(Ready, 1, 1)], {0, 1, 2, 3}, 1,
                                          map[ReadyQ(1, 1) := [2]]))
  {
    RemoteForgotten();
    hide Reaches, Step, Enabled;
    var v0 := Duo(Spawning(NewTask(Invalid, 1, 1)), {0, 1}, 1, map[]);
    var v1 := Duo(FORGOTTEN, {0, 1, 3}, 1, map[]);
    Registered(DUO, QuietSpawns, v0, 0, v1);
    var v2 := SpawnStep(v1, 1, 1, 1, 2, true);
    Spawned(DUO, QuietSpawns, v1, Spawn(1, 1, 1, 2, true), v2);
    Registered(DUO, QuietSpawns, v2, 1,
               Duo(FORGOTTEN[2 := NewTask(Ready, 1, 1)], {0, 1, 2, 3}, 1, map[ReadyQ(1, 1) := [2]]));
  }

  /** A run from boot on two cores, with interrupts off in every `spawn`, after which task 2 sleeps for ever in
      `join(3)`. */
  lemma RemoteSpawnLosesJoiner() returns (run: seq<Action>, k: State)
    ensures Initial(DUO) && Run(DUO, run) == Some(k) && All(run, QuietSpawns) && JoinerLost(k, 3, 2)
  {
    DuoIsInitial();
    RemoteJoinerSpawned();
    hide Reaches, Initial, Step, Enabled;
    var v0 := Duo(FORGOTTEN[2 := NewTask(Ready, 1, 1)], {0, 1, 2, 3}, 1, map[ReadyQ(1, 1) := [2]]);
    Called(DUO, QuietSpawns, v0, 1, false);
    var v1 := Duo(FORGOTTEN[2 := NewTask(Running, 1, 1)], {0, 1, 2, 3}, 2, map[]);
    Dispatched(DUO, QuietSpawns, At(v0, 1, Deciding(Idle), false), 1, 1, 2, v1);
    var v2 := Duo(FORGOTTEN[2 := NewTask(Blocked, 1, 1)], {0, 1, 2, 3}, 2, map[JoinQ(3) := [2]]);
    Joined(DUO, QuietSpawns, v1, 1, 3, v2);
    assert LostTask(v2, {3}, 3);
    AloneIsGone(v2, 3);
    run, k := LostFromHere(DUO, QuietSpawns, v2, 3, 2);
  }
}
