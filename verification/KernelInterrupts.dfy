/**
 What interrupts can break where interrupts are on and should not be.  Each promise comes with the exact condition under
 which it is broken and with a run from boot that does.

 `join` and `exit` call the scheduler with interrupts on.  If an interrupt comes between the scheduler's read of the
 status and its decision, the task later goes on with a decision that is out of date, and is lost.  If one comes in the
 middle of `cleanup_tasks`, the cleanup goes on only when its task does: never, if the task had finished or waits
 itself, directly or through others, for the task that it was to clean up.

 `RecursiveMutex` leaves interrupts on while it holds its spinlock.  If one comes when a task has blocked itself and has
 yet to enter the wait queue, the task is lost, the spinlock is never dropped, and nobody can unlock the mutex.
 */
module KernelInterrupts {
  import opened Registry
  import opened Kernel
  import opened KernelSafety
  import opened KernelJoin
  import opened KernelGone
  import opened KernelCycles
  import opened KernelRuns
  import opened KernelLimits
  import opened KernelQuiet
  import opened Options
  import opened Priorities

  // ----- Between the status read and the decision -----

  /** Task `t` is on core `c` only, and nobody is about to clean it up. */
  predicate OnlyOn(k: State, c: nat, t: Tid) {
    && (forall d :: 0 <= d < |k.cores| ==>
          k.cores[d].idle != t && (d != c ==> k.cores[d].current != t) && k.cores[d].phase != Cleaning(t))
    && (forall x :: x in k.tasks ==> Cleans(k.tasks[x]) != Some(t))
  }

  lemma DeleteHolds(m: map<QueueId, seq<Tid>>, q: QueueId, t: Tid)
    requires !Held(m, t) && Get(m, q) != []
    ensures !Held(Delete(m, q, 0), t)
  {
    var m' := Delete(m, q, 0);
    forall p ensures t !in Get(m', p) {
      assert t !in Get(m, p);
    }
  }

  lemma AsideHolds(k: State, c: nat, seen: Status)
    requires HasCore(k, c) && !Held(k.queues, k.cores[c].current)
    ensures var t, a := k.cores[c].current, PutAside(k, c, seen);
            if seen == Running then t in Get(a.queues, ReadyQ(c, k.tasks[t].prio))
            else if seen == Finished then t in Get(a.queues, FinishedQ(c))
            else !Held(a.queues, t)
  {
  }

  /** A task in such a list is not lost. */
  lemma QueuedNotGone(k: State, t: Tid, q: QueueId)
    requires t in Get(k.queues, q) && !q.JoinQ? && !q.BlockedQ?
    ensures !Gone(k, t)
  {
    forall s | Lost(k, s) ensures t !in s {
      NotLost(k, s, q, t);
    }
  }

  lemma NowhereIsGone(k: State, t: Tid)
    requires t in k.tasks && !Held(k.queues, t) && !Held(k.waits, t)
    requires forall c :: 0 <= c < |k.cores| ==>
               k.cores[c].idle != t && k.cores[c].current != t && k.cores[c].phase != Cleaning(t)
    requires forall x :: x in k.tasks ==> Cleans(k.tasks[x]) != Some(t)
    ensures Gone(k, t)
  {
    assert LostTask(k, {t}, t);
    assert Lost(k, {t});
  }

  lemma SwitchAway(k: State, c: nat, x: Tid, t: Tid)
    requires c < |k.cores| && x in k.tasks && t in k.tasks && t != x && OnlyOn(k, c, t)
    requires !Held(k.queues, t) && !Held(k.waits, t)
    ensures Gone(SwitchTo(k, c, x), t)
  {
    hide Held;
    NowhereIsGone(SwitchTo(k, c, x), t);
  }

  lemma AsideOnly(k: State, c: nat, seen: Status, t: Tid)
    requires HasCore(k, c) && OnlyOn(k, c, t)
    ensures OnlyOn(PutAside(k, c, seen), c, t)
  {
  }

  /** The task that was current, once the new task `x` is chosen. */
  lemma LeftBehind(k: State, c: nat, seen: Status, x: Tid)
    requires HasCore(k, c) && OnlyOn(k, c, k.cores[c].current) && x in k.tasks && x != k.cores[c].current
    requires !Held(k.queues, k.cores[c].current) && !Held(k.waits, k.cores[c].current)
    ensures Gone(SwitchTo(PutAside(k, c, seen), c, x), k.cores[c].current) <==> seen != Running && seen != Finished
  {
    var t, a := k.cores[c].current, PutAside(k, c, seen);
    AsideHolds(k, c, seen);
    AsideOnly(k, c, seen, t);
    hide PutAside, Held, OnlyOn, Gone;
    if seen == Running {
      QueuedNotGone(SwitchTo(a, c, x), t, ReadyQ(c, k.tasks[t].prio));
    } else if seen == Finished {
      QueuedNotGone(SwitchTo(a, c, x), t, FinishedQ(c));
    } else {
      SwitchAway(a, c, x, t);
    }
  }

  /** A task that is not blocked is lost by the decision exactly if the scheduler has read another status of it than
      running or finished. */
  lemma StaleDecisionLosesTask(k: State, c: nat, seen: Status, expired: bool)
    requires HasCore(k, c) && k.cores[c].idle in k.tasks && seen != Idle && Current(k, c).status != Blocked
    requires !Held(k.queues, k.cores[c].current) && !Held(k.waits, k.cores[c].current)
    requires OnlyOn(k, c, k.cores[c].current) && forall q, x :: x in Get(k.queues, q) ==> x in k.tasks
    ensures Gone(DecideStep(k, c, seen, expired), k.cores[c].current) <==> seen != Running && seen != Finished
  {
    var t := k.cores[c].current;
    hide Choose, PutAside, SwitchTo, Gone;
    match Choose(k, c, seen, expired)
    case Stay => CurrentNotGone(Resume(k, c, t), c);
    case GoIdle => LeftBehind(k, c, seen, k.cores[c].idle);
    case Dispatch(level) =>
      var q := ReadyQ(c, level);
      var x := Get(k.queues, q)[0];
      assert x in Get(k.queues, q);
      var k1 := k.(queues := Delete(k.queues, q, 0));
      DeleteHolds(k.queues, q, t);
      LeftBehind(k1, c, seen, x);
  }

  lemma CurrentNotGone(k: State, c: nat)
    requires HasCore(k, c) && Current(k, c).status != Blocked
    ensures !Gone(k, k.cores[c].current)
  {
    forall s | Lost(k, s) ensures k.cores[c].current !in s {
      CurrentNotLost(k, s, c);
    }
  }

  // ----- In the middle of a cleanup -----

  /** The task that was to be cleaned up is not lost while its cleaner can go on. */
  lemma CleanerIsLost(k: State, s: set<Tid>, id: Tid, t: Tid)
    requires Lost(k, s) && id in s && t in k.tasks && Cleans(k.tasks[t]) == Some(id)
    ensures t in s
  {
    assert LostTask(k, s, id);
  }

  /** Before a decision that takes the processor from a blocked task, the same set was lost. */
  lemma LostBefore(k: State, s: set<Tid>, c: nat, x: Tid, k1: State)
    requires HasCore(k, c) && k.cores[c].phase == Deciding(Blocked) && Current(k, c).status == Blocked && x in k.tasks
    requires k1 == k.(queues := k1.queues) && Lost(SwitchTo(k1, c, x), s)
    requires forall q, t :: t in s && t in Get(k.queues, q) && t != x ==> t in Get(k1.queues, q)
    requires k.tasks[x].status == Ready || k.tasks[x].status == Idle
    ensures Lost(k, s)
  {
    var k' := SwitchTo(k1, c, x);
    assert LostCore(k', s, c) && x !in s;
    forall t | t in s ensures LostTask(k, s, t) {
      assert LostTask(k', s, t);
      forall q | t in Get(k.queues, q) ensures LostIn(k, s, t, q) {
        assert LostIn(k', s, t, q);
      }
      forall w | t in Get(k.waits, w) ensures HeldUp(k, s, w.obj) {
        HeldUpStays(k', k, s, w.obj);
      }
      forall y | y in k.tasks && Cleans(k.tasks[y]) == Some(t) ensures y in s {
        assert y != x && Cleans(k'.tasks[y]) == Some(t);
      }
    }
    forall d | 0 <= d < |k.cores| ensures LostCore(k, s, d) {
      assert LostCore(k', s, d);
    }
  }

  /** The cleaner is not lost if it is queued again, or gets the processor at once. */
  lemma CleanerQueued(k: State, c: nat, id: Tid, seen: Status, k1: State, x: Tid, s: set<Tid>)
    requires Inv(k) && HasCore(k, c) && k.cores[c].phase == Deciding(seen) && Cleans(Current(k, c)) == Some(id)
    requires seen != Finished && k1 == k.(queues := k1.queues) && x in k.tasks
    requires forall q, t :: t in Get(k.queues, q) && t != x ==> t in Get(k1.queues, q)
    requires Lost(SwitchTo(PutAside(k1, c, seen), c, x), s) && id in s
    ensures seen == Blocked && Current(k, c).status == Blocked
  {
    hide Inv, SwitchTo, PutAside;
    var t := k.cores[c].current;
    var k' := SwitchTo(PutAside(k1, c, seen), c, x);
    OfCore(k, c);
    OfTask(k, t);
    CleanerStays(k, c, id, seen, k1, x, s);
    NotReady(k', s, t);
    assert seen != Running;
    if k.tasks[t].status == Ready {
      forall q | t in Get(k.queues, q) ensures false {
        OfQueue(k, q, t);
      }
    }
  }

  /** A lost task is in no ready queue, and about to be pushed onto none. */
  lemma NotReady(k: State, s: set<Tid>, t: Tid)
    requires Lost(k, s) && t in s
    ensures forall q: QueueId :: t in Get(k.queues, q) ==> q.JoinQ? || q.BlockedQ?
  {
    assert LostTask(k, s, t);
    forall q: QueueId | t in Get(k.queues, q) ensures q.JoinQ? || q.BlockedQ? {
      assert LostIn(k, s, t, q);
    }
  }

  lemma CleanerStays(k: State, c: nat, id: Tid, seen: Status, k1: State, x: Tid, s: set<Tid>)
    requires HasCore(k, c) && Cleans(Current(k, c)) == Some(id) && seen != Finished
    requires k1 == k.(queues := k1.queues) && x in k.tasks
    requires forall q, t :: t in Get(k.queues, q) && t != x ==> t in Get(k1.queues, q)
    requires Lost(SwitchTo(PutAside(k1, c, seen), c, x), s) && id in s
    ensures var t, k' := k.cores[c].current, SwitchTo(PutAside(k1, c, seen), c, x);
            && t in s && t != k.cores[c].idle && (seen == Running ==> t in Get(k'.queues, ReadyQ(c, k.tasks[t].prio)))
            && forall q :: t in Get(k.queues, q) ==> t in Get(k'.queues, q)
  {
    var t, a := k.cores[c].current, PutAside(k1, c, seen);
    var k' := SwitchTo(a, c, x);
    assert LostCore(k', s, c);
    SwitchPhase(a, c, x);
    assert x != t;
    assert t in k'.tasks && Cleans(k'.tasks[t]) == Some(id);
    CleanerIsLost(k', s, id, t);
    hide Lost;
    AsideGrows(k1, c, seen);
  }

  lemma SwitchPhase(k: State, c: nat, x: Tid)
    requires c < |k.cores| && x in k.tasks
    ensures |SwitchTo(k, c, x).cores| == |k.cores| && SwitchTo(k, c, x).cores[c].phase == ResumedPhase(k.tasks[x])
  {
  }

  lemma AsideGrows(k: State, c: nat, seen: Status)
    requires HasCore(k, c)
    ensures var t, a := k.cores[c].current, PutAside(k, c, seen);
            && (seen == Running ==> t in Get(a.queues, ReadyQ(c, k.tasks[t].prio)))
            && forall q, x :: x in Get(k.queues, q) ==> x in Get(a.queues, q)
  {
  }

  lemma GoneBefore(k: State, c: nat, id: Tid, seen: Status, k1: State, x: Tid)
    requires Inv(k) && HasCore(k, c) && k.cores[c].phase == Deciding(seen) && Cleans(Current(k, c)) == Some(id)
    requires seen != Finished && k1 == k.(queues := k1.queues) && x in k.tasks
    requires forall q, t :: t in Get(k.queues, q) && t != x ==> t in Get(k1.queues, q)
    requires k.tasks[x].status == Ready || k.tasks[x].status == Idle
    requires Gone(SwitchTo(PutAside(k1, c, seen), c, x), id)
    ensures Gone(k, id)
  {
    hide Inv, SwitchTo, Lost;
    var s :| id in s && Lost(SwitchTo(PutAside(k1, c, seen), c, x), s);
    CleanerQueued(k, c, id, seen, k1, x, s);
    LostBefore(k, s, c, x, k1);
  }

  /** A finished task that was to clean up `id` never does. */
  lemma FinishedDrops(k: State, c: nat, id: Tid, k1: State, x: Tid)
    requires Inv(k) && HasCore(k, c) && k.cores[c].phase == Deciding(Finished) && Cleans(Current(k, c)) == Some(id)
    requires k1 == k.(queues := k1.queues) && x in k.tasks && x != k.cores[c].current && k.tasks[x].status != Invalid
    requires Get(k1.queues, FinishedQ(c)) == Get(k.queues, FinishedQ(c))
    ensures DeadEnd(SwitchTo(PutAside(k1, c, Finished), c, x), id)
  {
    hide Inv;
    var t, a := k.cores[c].current, PutAside(k1, c, Finished);
    OfCore(k, c);
    OfTask(k, t);
    forall y | y in k.tasks && y != t ensures Cleans(k.tasks[y]) != Some(id) {
      OthersCleanOthers(k, t, y);
    }
    assert a.tasks[id] == k.tasks[id] && id !in Get(a.queues, FinishedQ(c));
    forall y | y in a.tasks ensures Cleans(a.tasks[y]) != Some(id) {
    }
    hide PutAside, Fits, TaskOk, CoreOk;
    SwitchDrops(a, c, id, x);
  }

  lemma SwitchDrops(a: State, c: nat, id: Tid, x: Tid)
    requires c < |a.cores| && x in a.tasks && id in a.tasks && x != id
    requires a.tasks[id].status == Invalid && a.tasks[id].core == c && id !in Get(a.queues, FinishedQ(c))
    requires forall y :: y in a.tasks ==> Cleans(a.tasks[y]) != Some(id)
    ensures DeadEnd(SwitchTo(a, c, x), id)
  {
    var k' := SwitchTo(a, c, x);
    assert k'.tasks[id] == a.tasks[id];
    assert CleaningOn(k', c) != Some(id);
    assert !CleanedLater(k', id);
  }

  lemma OthersCleanOthers(k: State, t: Tid, y: Tid)
    requires Inv(k) && t in k.tasks && y in k.tasks && y != t && Cleans(k.tasks[t]).Some?
    ensures Cleans(k.tasks[y]) != Cleans(k.tasks[t])
  {
    assert CleansApart(k.tasks[t], k.tasks[y]);
  }

  /** The new task that a decision takes from a ready queue. */
  lemma TakenFacts(k: State, c: nat, level: nat)
    requires Inv(k) && Get(k.queues, ReadyQ(c, level)) != []
    ensures var q := ReadyQ(c, level);
            var x, m := Get(k.queues, q)[0], Delete(k.queues, q, 0);
            && x in k.tasks && k.tasks[x].status == Ready
            && forall p, t :: t in Get(k.queues, p) && t != x ==> t in Get(m, p)
  {
    OfQueue(k, ReadyQ(c, level), Get(k.queues, ReadyQ(c, level))[0]);
    OfState(k);
    DeleteKeeps(k.queues, ReadyQ(c, level), 0);
  }

  /** A decision brings no lost task back, and before it no other task was lost. */
  lemma DecisionKeepsGone(k: State, c: nat, expired: bool, id: Tid)
    requires Inv(k) && HasCore(k, c) && k.cores[c].phase.Deciding? && Cleans(Current(k, c)) == Some(id)
    requires k.cores[c].phase.seen != Finished
    ensures Gone(DecideStep(k, c, k.cores[c].phase.seen, expired), id) ==> Gone(k, id)
  {
    var seen, t := k.cores[c].phase.seen, k.cores[c].current;
    OfCore(k, c);
    hide Inv, Choose, PutAside, SwitchTo, Gone;
    match Choose(k, c, seen, expired)
    case Stay => CleaningNotGone(Resume(k, c, t), c, id);
    case GoIdle =>
      if Gone(DecideStep(k, c, seen, expired), id) {
        GoneBefore(k, c, id, seen, k, k.cores[c].idle);
      }
    case Dispatch(level) =>
      TakenFacts(k, c, level);
      if Gone(DecideStep(k, c, seen, expired), id) {
        var q := ReadyQ(c, level);
        GoneBefore(k, c, id, seen, k.(queues := Delete(k.queues, q, 0)), Get(k.queues, q)[0]);
      }
  }

  lemma CleaningNotGone(k: State, c: nat, id: Tid)
    requires c < |k.cores| && k.cores[c].phase == Cleaning(id)
    ensures !Gone(k, id)
  {
    forall s | Lost(k, s) ensures id !in s {
      assert LostCore(k, s, c);
    }
  }

  lemma FinishedLoses(k: State, c: nat, expired: bool, id: Tid)
    requires Inv(k) && HasCore(k, c) && k.cores[c].phase == Deciding(Finished) && Cleans(Current(k, c)) == Some(id)
    ensures DeadEnd(DecideStep(k, c, Finished, expired), id)
  {
    OfCore(k, c);
    hide Inv, Choose, PutAside, SwitchTo, DeadEnd;
    match Choose(k, c, Finished, expired)
    case GoIdle => FinishedDrops(k, c, id, k, k.cores[c].idle);
    case Dispatch(level) =>
      TakenFacts(k, c, level);
      var q := ReadyQ(c, level);
      FinishedDrops(k, c, id, k.(queues := Delete(k.queues, q, 0)), Get(k.queues, q)[0]);
  }

  /** The handler of an interrupt that came in the middle of `cleanup_tasks` decides: the task that was to be cleaned
      up is lost, with all its joiners, exactly if the interrupted task had finished, or if the chain of waits that goes
      on with the interrupted task runs into a cycle or comes to a dead end. */
  lemma InterruptedCleanupLosesTask(k: State, c: nat, expired: bool, id: Tid)
    requires Inv(k) && Accounted(k) && HasCore(k, c) && k.cores[c].phase.Deciding?
    requires Cleans(Current(k, c)) == Some(id)
    ensures Gone(DecideStep(k, c, k.cores[c].phase.seen, expired), id)
            <==> k.cores[c].phase.seen == Finished || Doomed(k, id)
  {
    var seen := k.cores[c].phase.seen;
    hide Inv, Accounted, Doomed, DeadEnd, Gone, DecideStep, Step, Enabled, Tame;
    DecideIsStep(k, c, expired);
    LostExactly(k, id);
    if Gone(k, id) {
      StepGone(k, Decide(c, expired), id);
    }
    if seen == Finished {
      FinishedLoses(k, c, expired, id);
      StepKeeps(k, Decide(c, expired));
      DeadEndIsGone(DecideStep(k, c, seen, expired), id);
    } else {
      DecisionKeepsGone(k, c, expired, id);
    }
  }

  lemma DecideIsStep(k: State, c: nat, expired: bool)
    requires HasCore(k, c) && k.cores[c].phase.Deciding?
    ensures var a := Decide(c, expired);
            Enabled(k, a) && Tame(k, a) && Step(k, a) == DecideStep(k, c, k.cores[c].phase.seen, expired)
  {
    hide DecideStep;
  }

  lemma StepGone(k: State, a: Action, t: Tid)
    requires Gone(k, t) && Enabled(k, a)
    ensures Gone(Step(k, a), t)
  {
    hide Lost, Step, Enabled;
    var s :| t in s && Lost(k, s);
    StepLost(k, s, a);
  }

  lemma DeadEndIsGone(k: State, t: Tid)
    requires Inv(k) && DeadEnd(k, t)
    ensures Gone(k, t)
  {
    hide Inv, DeadEnd, Lost;
    MembersAreLost(k, {t});
    assert t in {t};
  }

  /** The shortest such chain: the interrupted task waits in `join` for the very task that it was to clean up. */
  lemma OwnCleanupDooms(k: State, t: Tid, id: Tid)
    requires t in k.tasks && Cleans(k.tasks[t]) == Some(id) && t in Get(k.queues, JoinQ(id))
    ensures Doomed(k, id)
  {
    var path := [id, t, id];
    assert WaitsFor(k, id, t) && WaitsFor(k, t, id);
    assert Chain(k, path) && path[..|path| - 1] == [id, t] && Closes(path);
  }

  // ----- While a task holds the spinlock of a mutex -----

  /** An interrupt in the code of a task loses it exactly if it has blocked itself and is about to enter the wait queue
      of a mutex. */
  lemma InterruptedLockLosesTask(k: State, c: nat, now: nat)
    requires Inv(k) && Enabled(k, Tick(c, now))
    ensures Gone(Step(k, Tick(c, now)), k.cores[c].current) <==>
              Current(k, c).queueing.Some? || Gone(k, k.cores[c].current)
  {
    var t, k' := k.cores[c].current, Step(k, Tick(c, now));
    StepKeeps(k, Tick(c, now));
    if Current(k, c).queueing.Some? {
      OfCore(k, c);
      forall d | 0 <= d < |k'.cores| && k'.cores[d].current == t ensures k'.cores[d].phase != Executing {
        OfCore(k, d);
      }
      assert Stranded(k', t);
      hide Inv;
      DeadEndIsGone(k', t);
    } else {
      hide Inv;
      if Gone(k, t) {
        StepGone(k, Tick(c, now), t);
      }
      if Gone(k', t) {
        var s :| t in s && Lost(k', s);
        UntickedLost(k, s, c, now);
      }
    }
  }

  lemma UntickedLost(k: State, s: set<Tid>, c: nat, now: nat)
    requires Enabled(k, Tick(c, now)) && Current(k, c).queueing == None && Lost(Step(k, Tick(c, now)), s)
    ensures Lost(k, s)
  {
    var k' := Step(k, Tick(c, now));
    forall t | t in s ensures LostTask(k, s, t) {
      assert LostTask(k', s, t);
      forall q | t in Get(k.queues, q) ensures LostIn(k, s, t, q) {
        assert LostIn(k', s, t, q);
      }
      forall w | t in Get(k.waits, w) ensures HeldUp(k, s, w.obj) {
        HeldUpStays(k', k, s, w.obj);
      }
    }
    forall d | 0 <= d < |k.cores| ensures LostCore(k, s, d) {
      assert LostCore(k', s, d);
    }
  }

  /** Nobody can lock or unlock the mutex any more. */
  lemma SpinlockForEver(k: State, s: set<Tid>, t: Tid, o: nat, actions: seq<Action>, c: nat)
    requires Lost(k, s) && t in s && t in k.tasks && k.tasks[t].queueing == Some(o) && Run(k, actions).Some?
    ensures var k' := Run(k, actions).value; !Enabled(k', Lock(c, o)) && !Enabled(k', Unlock(c, o))
  {
    hide Lost;
    LostForEver(k, s, actions);
    var k' := Run(k, actions).value;
    assert t in k'.tasks && k'.tasks[t].queueing == Some(o);
    assert Busy(k', o);
  }

  // ----- Runs -----

  /** Every spawn is local and quiet, no wait has a deadline, but interrupts come at any time. */
  predicate QuietButLate(a: Action) {
    QuietSpawn(a) && (a.Acquire? ==> a.until == None)
  }

  /** Task 1 spawns task 2 with priority `prio`, up to the push. */
  function Pushed(prio: nat): State {
    One(Three(NewTask(Running, 1, 0).(spawning := Some(Pending(2, true))), NewTask(Ready, prio, 0)), {0, 1}, Runs(1),
        map[ReadyQ(0, prio) := [2]])
  }

  lemma SecondPushed(prio: nat)
    requires prio < NO_PRIORITIES
    ensures var v := One(Two(NewTask(Running, 1, 0)), {0, 1}, Runs(1), map[]);
            MayCreate(v, 0, 0, prio, 2) && Same(SpawnStep(v, 0, 0, prio, 2, true), Pushed(prio))
  {
  }

  lemma SecondRegistered(prio: nat)
    ensures Same(RegisterStep(Pushed(prio), 0),
                 One(Three(NewTask(Running, 1, 0), NewTask(Ready, prio, 0)), {0, 1, 2}, Runs(1),
                     map[ReadyQ(0, prio) := [2]]))
  {
  }

  lemma OneSpawnsAgain(ok: Action -> bool, prio: nat)
    requires Mild(ok) && ok(Spawn(0, 0, 1, 1, true)) && ok(Spawn(0, 0, prio, 2, true)) && prio < NO_PRIORITIES
    ensures Reaches(ONE, ok, One(Three(NewTask(Running, 1, 0), NewTask(Ready, prio, 0)), {0, 1, 2}, Runs(1),
                                 map[ReadyQ(0, prio) := [2]]))
  {
    OneRuns(ok, true);
    SecondPushed(prio);
    SecondRegistered(prio);
    hide Reaches, Objects, Step, Enabled, SpawnStep, Same;
    Spawned(ONE, ok, One(Two(NewTask(Running, 1, 0)), {0, 1}, Runs(1), map[]), Spawn(0, 0, prio, 2, true),
            Pushed(prio));
    Registered(ONE, ok, Pushed(prio), 0,
               One(Three(NewTask(Running, 1, 0), NewTask(Ready, prio, 0)), {0, 1, 2}, Runs(1),
                   map[ReadyQ(0, prio) := [2]]));
  }

  /** Task 1 in `scheduler`, interrupted between the read of its status and the decision. */
  const INTERRUPTED := NewTask(Blocked, 1, 0).(inside := Some(Deciding(Blocked)))

  /** Task 1 spawns task 2. */
  lemma JoinerSpawns()
    ensures Reaches(ONE, QuietButLate, One(Three(NewTask(Running, 1, 0), NewTask(Ready, 1, 0)), {0, 1, 2}, Runs(1),
                                           map[ReadyQ(0, 1) := [2]]))
  {
    OneSpawnsAgain(QuietButLate, 1);
  }

  /** Task 1 joins task 2 and calls the scheduler. */
  lemma JoinerCalls()
    ensures Reaches(ONE, QuietButLate, One(Three(NewTask(Blocked, 1, 0), NewTask(Ready, 1, 0)), {0, 1, 2},
                                           Core(1, 0, Deciding(Blocked), true),
                                             map[ReadyQ(0, 1) := [2], JoinQ(2) := [1]]))
  {
    JoinerSpawns();
    hide Reaches, Objects, Step, Enabled;
    var v0 := One(Three(NewTask(Running, 1, 0), NewTask(Ready, 1, 0)), {0, 1, 2}, Runs(1), map[ReadyQ(0, 1) := [2]]);
    var v1 := One(Three(NewTask(Blocked, 1, 0), NewTask(Ready, 1, 0)), {0, 1, 2}, Runs(1),
                  map[ReadyQ(0, 1) := [2], JoinQ(2) := [1]]);
    Joined(ONE, QuietButLate, v0, 0, 2, v1);
    Called(ONE, QuietButLate, v1, 0, true);
    assert At(v1, 0, Deciding(Blocked), true).cores == [Core(1, 0, Deciding(Blocked), true)];
  }

  /** A timer interrupt comes between the read and the decision. */
  lemma JoinInterrupted()
    ensures Reaches(ONE, QuietButLate, One(Three(INTERRUPTED, NewTask(Ready, 1, 0)), {0, 1, 2},
                                           Core(1, 0, Entering, false),
                                           map[ReadyQ(0, 1) := [2], JoinQ(2) := [1]]))
  {
    JoinerCalls();
    hide Reaches, Objects;
    var lists := map[ReadyQ(0, 1) := [2], JoinQ(2) := [1]];
    var v0 := One(Three(NewTask(Blocked, 1, 0), NewTask(Ready, 1, 0)), {0, 1, 2}, Core(1, 0, Deciding(Blocked), true),
                  lists);
    Then(ONE, QuietButLate, v0, NestLate(0, 0));
    var v1 := Step(v0, NestLate(0, 0));
    Then(ONE, QuietButLate, v1, Expire(0));
    Restated(ONE, QuietButLate, Step(v1, Expire(0)),
             One(Three(INTERRUPTED, NewTask(Ready, 1, 0)), {0, 1, 2}, Core(1, 0, Entering, false), lists));
  }

  /** The handler hands the processor to task 2. */
  lemma JoinedRuns()
    ensures Reaches(ONE, QuietButLate, One(Three(INTERRUPTED, NewTask(Running, 1, 0)), {0, 1, 2}, Runs(2),
                                           map[JoinQ(2) := [1]]))
  {
    JoinInterrupted();
    hide Reaches, Objects, Step, Enabled;
    var v0 := One(Three(INTERRUPTED, NewTask(Ready, 1, 0)), {0, 1, 2}, Core(1, 0, Entering, false),
                  map[ReadyQ(0, 1) := [2], JoinQ(2) := [1]]);
    Decision(ONE, QuietButLate, v0, 0);
    Dispatched(ONE, QuietButLate, At(v0, 0, Deciding(Blocked), false), 0, 1, 2,
               One(Three(INTERRUPTED, NewTask(Running, 1, 0)), {0, 1, 2}, Runs(2), map[JoinQ(2) := [1]]));
  }

  /** Task 2 exits. */
  lemma JoinedExits()
    ensures Reaches(ONE, QuietButLate, One(Three(INTERRUPTED, NewTask(Invalid, 1, 0)), {0, 1, 2}, Runs(0),
                                           map[FinishedQ(0) := [2], JoinQ(2) := [1]]))
  {
    JoinedRuns();
    hide Reaches, Objects, Step, Enabled;
    var v0 := One(Three(INTERRUPTED, NewTask(Running, 1, 0)), {0, 1, 2}, Runs(2), map[JoinQ(2) := [1]]);
    var v1 := One(Three(INTERRUPTED, NewTask(Finished, 1, 0)), {0, 1, 2}, Runs(2), map[JoinQ(2) := [1]]);
    Exited(ONE, QuietButLate, v0, 0, v1);
    Called(ONE, QuietButLate, v1, 0, true);
    Idled(ONE, QuietButLate, At(v1, 0, Deciding(Finished), true), 0,
          One(Three(INTERRUPTED, NewTask(Invalid, 1, 0)), {0, 1, 2}, Runs(0),
              map[FinishedQ(0) := [2], JoinQ(2) := [1]]));
  }

  /** The idle task cleans task 2 up. */
  lemma JoinedCleaned()
    ensures Reaches(ONE, QuietButLate, One(Two(INTERRUPTED), {0, 1}, Core(0, 0, Draining, false),
                                           map[DrainQ(0) := [1]]))
  {
    JoinedExits();
    hide Reaches, Objects;
    var v0 := One(Three(INTERRUPTED, NewTask(Invalid, 1, 0)), {0, 1, 2}, Runs(0),
                  map[FinishedQ(0) := [2], JoinQ(2) := [1]]);
    Then(ONE, QuietButLate, v0, Yield(0));
    var v1 := At(v0, 0, Entering, false);
    Then(ONE, QuietButLate, v1, Cleanup(0));
    var v2 := One(v0.tasks, {0, 1, 2}, Core(0, 0, Cleaning(2), false), map[JoinQ(2) := [1]]);
    Restated(ONE, QuietButLate, Step(v1, Cleanup(0)), v2);
    Then(ONE, QuietButLate, v2, Forget(0));
    Restated(ONE, QuietButLate, Step(v2, Forget(0)),
             One(Two(INTERRUPTED), {0, 1}, Core(0, 0, Draining, false), map[DrainQ(0) := [1]]));
  }

  /** The cleanup wakes task 1. */
  lemma JoinerWoken()
    ensures Reaches(ONE, QuietButLate, One(Two(INTERRUPTED.(status := Ready)), {0, 1}, Core(0, 0, Draining, false),
                                           map[ReadyQ(0, 1) := [1]]))
  {
    JoinedCleaned();
    hide Reaches, Objects;
    var drain := Core(0, 0, Draining, false);
    var v0 := One(Two(INTERRUPTED), {0, 1}, drain, map[DrainQ(0) := [1]]);
    Then(ONE, QuietButLate, v0, Drain(0));
    var v1 := One(Two(INTERRUPTED.(status := Ready)), {0, 1}, drain, map[PushQ(0) := [1]]);
    Restated(ONE, QuietButLate, Step(v0, Drain(0)), v1);
    Then(ONE, QuietButLate, v1, Push(0));
    Restated(ONE, QuietButLate, Step(v1, Push(0)),
             One(Two(INTERRUPTED.(status := Ready)), {0, 1}, drain, map[ReadyQ(0, 1) := [1]]));
  }

  /** Task 1 gets the processor back, and goes on with the decision to switch away from a blocked task. */
  lemma JoinerResumes()
    ensures Reaches(ONE, QuietButLate, One(Two(NewTask(Running, 1, 0)), {0, 1}, Core(1, 0, Deciding(Blocked), true),
                                           map[]))
  {
    JoinerWoken();
    hide Reaches, Objects;
    var v0 := One(Two(INTERRUPTED.(status := Ready)), {0, 1}, Core(0, 0, Draining, false), map[ReadyQ(0, 1) := [1]]);
    Then(ONE, QuietButLate, v0, Drain(0));
    var v1 := At(v0, 0, Reading, false);
    assert Step(v0, Drain(0)) == v1;
    Then(ONE, QuietButLate, v1, Read(0));
    var v2 := At(v0, 0, Deciding(Idle), false);
    assert Step(v1, Read(0)) == v2;
    Dispatched(ONE, QuietButLate, v2, 0, 1, 1,
               One(Two(NewTask(Running, 1, 0)), {0, 1}, Core(1, 0, Deciding(Blocked), true), map[]));
  }

  lemma JoinerGone()
    ensures Reaches(ONE, QuietButLate, One(Two(NewTask(Running, 1, 0)), {0, 1}, Runs(0), map[]))
  {
    JoinerResumes();
    hide Reaches, Objects, Step, Enabled;
    Idled(ONE, QuietButLate, One(Two(NewTask(Running, 1, 0)), {0, 1}, Core(1, 0, Deciding(Blocked), true), map[]), 0,
          One(Two(NewTask(Running, 1, 0)), {0, 1}, Runs(0), map[]));
  }

  lemma LateIsLost()
    ensures Lost(One(Two(NewTask(Running, 1, 0)), {0, 1}, Runs(0), map[]), {1})
  {
    assert LostTask(One(Two(NewTask(Running, 1, 0)), {0, 1}, Runs(0), map[]), {1}, 1);
  }

  /** A run from boot on one core after which the running task 1 is in no list and never gets the processor again. */
  lemma LateInterruptLosesTask() returns (run: seq<Action>, k: State)
    ensures Initial(ONE) && Run(ONE, run) == Some(k) && All(run, QuietButLate)
    ensures 1 in k.tasks && k.tasks[1].status == Running && Gone(k, 1)
    ensures forall actions :: Run(k, actions).Some? ==> Gone(Run(k, actions).value, 1)
  {
    OneIsInitial();
    JoinerGone();
    var v := One(Two(NewTask(Running, 1, 0)), {0, 1}, Runs(0), map[]);
    assert Lost(v, {1}) by { LateIsLost(); }
    hide Initial, Run, Lost, Objects;
    run, k :| Run(ONE, run) == Some(k) && All(run, QuietButLate) && Same(k, v);
    SameLost(k, v, {1});
    AloneIsGone(k, 1);
    forall actions | Run(k, actions).Some? ensures Gone(Run(k, actions).value, 1) {
      LostForEver(k, {1}, actions);
      AloneIsGone(Run(k, actions).value, 1);
    }
  }

  // ----- Interrupts in the middle of a cleanup -----

  /** The idle task and tasks 1, 2 and 3. */
  function Four(x: Task, y: Task, z: Task): map<Tid, Task> {
    map[0 := NewTask(Idle, 0, 0), 1 := x, 2 := y, 3 := z]
  }

  /** Task 1 waits in `join(2)`, and task 2 runs. */
  lemma JoinedGoesOn()
    ensures Reaches(ONE, QuietButLate, One(Three(NewTask(Blocked, 1, 0), NewTask(Running, 1, 0)), {0, 1, 2}, Runs(2),
                                           map[JoinQ(2) := [1]]))
  {
    JoinerCalls();
    hide Reaches, Objects, Step, Enabled;
    Dispatched(ONE, QuietButLate,
               One(Three(NewTask(Blocked, 1, 0), NewTask(Ready, 1, 0)), {0, 1, 2}, Core(1, 0, Deciding(Blocked), true),
                   map[ReadyQ(0, 1) := [2], JoinQ(2) := [1]]), 0, 1, 2,
               One(Three(NewTask(Blocked, 1, 0), NewTask(Running, 1, 0)), {0, 1, 2}, Runs(2), map[JoinQ(2) := [1]]));
  }

  /** Task 2 spawns task 3. */
  lemma JoinedSpawns()
    ensures Reaches(ONE, QuietButLate, One(Four(NewTask(Blocked, 1, 0), NewTask(Running, 1, 0), NewTask(Ready, 1, 0)),
                                           {0, 1, 2, 3}, Runs(2), map[ReadyQ(0, 1) := [3], JoinQ(2) := [1]]))
  {
    JoinedGoesOn();
    hide Reaches, Objects, Step, Enabled;
    var v0 := One(Three(NewTask(Blocked, 1, 0), NewTask(Running, 1, 0)), {0, 1, 2}, Runs(2), map[JoinQ(2) := [1]]);
    var v1 := SpawnStep(v0, 0, 0, 1, 3, true);
    Spawned(ONE, QuietButLate, v0, Spawn(0, 0, 1, 3, true), v1);
    Registered(ONE, QuietButLate, v1, 0,
               One(Four(NewTask(Blocked, 1, 0), NewTask(Running, 1, 0), NewTask(Ready, 1, 0)), {0, 1, 2, 3}, Runs(2),
                   map[ReadyQ(0, 1) := [3], JoinQ(2) := [1]]));
  }

  /** Task 2 exits, and task 3 runs. */
  lemma JoinedLeaves()
    ensures Reaches(ONE, QuietButLate, One(Four(NewTask(Blocked, 1, 0), NewTask(Invalid, 1, 0), NewTask(Running, 1, 0)),
                                           {0, 1, 2, 3}, Runs(3), map[FinishedQ(0) := [2], JoinQ(2) := [1]]))
  {
    JoinedSpawns();
    hide Reaches, Objects, Step, Enabled;
    var v0 := One(Four(NewTask(Blocked, 1, 0), NewTask(Running, 1, 0), NewTask(Ready, 1, 0)), {0, 1, 2, 3}, Runs(2),
                  map[ReadyQ(0, 1) := [3], JoinQ(2) := [1]]);
    var v1 := One(Four(NewTask(Blocked, 1, 0), NewTask(Finished, 1, 0), NewTask(Ready, 1, 0)), {0, 1, 2, 3}, Runs(2),
                  map[ReadyQ(0, 1) := [3], JoinQ(2) := [1]]);
    Exited(ONE, QuietButLate, v0, 0, v1);
    Called(ONE, QuietButLate, v1, 0, true);
    Dispatched(ONE, QuietButLate, At(v1, 0, Deciding(Finished), true), 0, 1, 3,
               One(Four(NewTask(Blocked, 1, 0), NewTask(Invalid, 1, 0), NewTask(Running, 1, 0)), {0, 1, 2, 3}, Runs(3),
                   map[FinishedQ(0) := [2], JoinQ(2) := [1]]));
  }

  /** Task 3 exits; its call of the scheduler takes task 2 from the list of finished tasks. */
  lemma LastExits()
    ensures Reaches(ONE, QuietButLate, One(Four(NewTask(Blocked, 1, 0), NewTask(Invalid, 1, 0),
                                                NewTask(Finished, 1, 0)),
                                           {0, 1, 2, 3}, Core(3, 0, Cleaning(2), true), map[JoinQ(2) := [1]]))
  {
    JoinedLeaves();
    hide Reaches, Objects;
    var v0 := One(Four(NewTask(Blocked, 1, 0), NewTask(Invalid, 1, 0), NewTask(Running, 1, 0)), {0, 1, 2, 3}, Runs(3),
                  map[FinishedQ(0) := [2], JoinQ(2) := [1]]);
    var v1 := One(Four(NewTask(Blocked, 1, 0), NewTask(Invalid, 1, 0), NewTask(Finished, 1, 0)), {0, 1, 2, 3}, Runs(3),
                  map[FinishedQ(0) := [2], JoinQ(2) := [1]]);
    Exited(ONE, QuietButLate, v0, 0, v1);
    Then(ONE, QuietButLate, v1, Call(0));
    var v2 := At(v1, 0, Entering, true);
    assert Step(v1, Call(0)) == v2;
    Then(ONE, QuietButLate, v2, Cleanup(0));
    Restated(ONE, QuietButLate, Step(v2, Cleanup(0)),
             One(Four(NewTask(Blocked, 1, 0), NewTask(Invalid, 1, 0), NewTask(Finished, 1, 0)), {0, 1, 2, 3},
                 Core(3, 0, Cleaning(2), true), map[JoinQ(2) := [1]]));
  }

  /** An interrupt comes before it removes task 2 from TASKS. */
  lemma LastInterrupted()
    ensures Reaches(ONE, QuietButLate,
                    One(Four(NewTask(Blocked, 1, 0), NewTask(Invalid, 1, 0),
                             NewTask(Finished, 1, 0).(inside := Some(Cleaning(2)))), {0, 1, 2, 3},
                        Core(3, 0, Entering, false), map[JoinQ(2) := [1]]))
  {
    LastExits();
    hide Reaches, Objects;
    var v0 := One(Four(NewTask(Blocked, 1, 0), NewTask(Invalid, 1, 0), NewTask(Finished, 1, 0)), {0, 1, 2, 3},
                  Core(3, 0, Cleaning(2), true), map[JoinQ(2) := [1]]);
    Then(ONE, QuietButLate, v0, NestLate(0, 0));
    var v1 := Step(v0, NestLate(0, 0));
    Then(ONE, QuietButLate, v1, Expire(0));
    Restated(ONE, QuietButLate, Step(v1, Expire(0)),
             One(Four(NewTask(Blocked, 1, 0), NewTask(Invalid, 1, 0),
                      NewTask(Finished, 1, 0).(inside := Some(Cleaning(2)))), {0, 1, 2, 3},
                 Core(3, 0, Entering, false), map[JoinQ(2) := [1]]));
  }

  /** A run from boot on one core after which task 1 sleeps for ever in `join(2)`: the call of the scheduler that was to
      clean up task 2 was interrupted, and since its task had finished, it never went on. */
  lemma InterruptedExitLosesJoiner() returns (run: seq<Action>, k: State)
    ensures Initial(ONE) && Run(ONE, run) == Some(k) && All(run, QuietButLate) && JoinerLost(k, 2, 1)
  {
    OneIsInitial();
    LastInterrupted();
    hide Reaches, Initial, Step, Enabled;
    var v0 := One(Four(NewTask(Blocked, 1, 0), NewTask(Invalid, 1, 0),
                       NewTask(Finished, 1, 0).(inside := Some(Cleaning(2)))), {0, 1, 2, 3},
                  Core(3, 0, Entering, false), map[JoinQ(2) := [1]]);
    Decision(ONE, QuietButLate, v0, 0);
    var v1 := One(Four(NewTask(Blocked, 1, 0), NewTask(Invalid, 1, 0), NewTask(Invalid, 1, 0)), {0, 1, 2, 3}, Runs(0),
                  map[FinishedQ(0) := [3], JoinQ(2) := [1]]);
    Idled(ONE, QuietButLate, At(v0, 0, Deciding(Finished), false), 0, v1);
    assert LostTask(v1, {2}, 2);
    AloneIsGone(v1, 2);
    run, k := LostFromHere(ONE, QuietButLate, v1, 2, 1);
  }

  // ----- A task that was to wake itself -----

  /** Task 1 spawns task 2 with a higher priority, and yields to it. */
  lemma SecondRuns()
    ensures Reaches(ONE, QuietButLate, One(Three(NewTask(Ready, 1, 0), NewTask(Running, 2, 0)), {0, 1, 2}, Runs(2),
                                           map[ReadyQ(0, 1) := [1]]))
  {
    OneSpawnsAgain(QuietButLate, 2);
    SecondTakesOver();
    hide Reaches, Objects, Step, Enabled, Same, SwitchTo, PutAside;
    var v0 := One(Three(NewTask(Running, 1, 0), NewTask(Ready, 2, 0)), {0, 1, 2}, Runs(1), map[ReadyQ(0, 2) := [2]]);
    Called(ONE, QuietButLate, v0, 0, false);
    Dispatched(ONE, QuietButLate, At(v0, 0, Deciding(Running), false), 0, 2, 2,
               One(Three(NewTask(Ready, 1, 0), NewTask(Running, 2, 0)), {0, 1, 2}, Runs(2), map[ReadyQ(0, 1) := [1]]));
  }

  lemma SecondTakesOver()
    ensures var v := At(One(Three(NewTask(Running, 1, 0), NewTask(Ready, 2, 0)), {0, 1, 2}, Runs(1),
                            map[ReadyQ(0, 2) := [2]]), 0, Deciding(Running), false);
            Same(SwitchTo(PutAside(v.(queues := v.queues[ReadyQ(0, 2) := []]), 0, Running), 0, 2),
                 One(Three(NewTask(Ready, 1, 0), NewTask(Running, 2, 0)), {0, 1, 2}, Runs(2),
                     map[ReadyQ(0, 1) := [1]]))
  {
    hide Objects;
  }

  /** Task 2 exits, and task 1 joins it. */
  lemma SecondJoined()
    ensures Reaches(ONE, QuietButLate, One(Three(NewTask(Blocked, 1, 0), NewTask(Invalid, 2, 0)), {0, 1, 2}, Runs(1),
                                           map[FinishedQ(0) := [2], JoinQ(2) := [1]]))
  {
    SecondRuns();
    hide Reaches, Objects, Step, Enabled;
    var v0 := One(Three(NewTask(Ready, 1, 0), NewTask(Running, 2, 0)), {0, 1, 2}, Runs(2), map[ReadyQ(0, 1) := [1]]);
    var v1 := One(Three(NewTask(Ready, 1, 0), NewTask(Finished, 2, 0)), {0, 1, 2}, Runs(2), map[ReadyQ(0, 1) := [1]]);
    Exited(ONE, QuietButLate, v0, 0, v1);
    Called(ONE, QuietButLate, v1, 0, true);
    var v2 := One(Three(NewTask(Running, 1, 0), NewTask(Invalid, 2, 0)), {0, 1, 2}, Runs(1), map[FinishedQ(0) := [2]]);
    Dispatched(ONE, QuietButLate, At(v1, 0, Deciding(Finished), true), 0, 1, 1, v2);
    Joined(ONE, QuietButLate, v2, 0, 2,
           One(Three(NewTask(Blocked, 1, 0), NewTask(Invalid, 2, 0)), {0, 1, 2}, Runs(1),
               map[FinishedQ(0) := [2], JoinQ(2) := [1]]));
  }

  /** Its call of the scheduler takes task 2 from the list of finished tasks. */
  lemma OwnCleanupBegins()
    ensures Reaches(ONE, QuietButLate, One(Three(NewTask(Blocked, 1, 0), NewTask(Invalid, 2, 0)), {0, 1, 2},
                                           Core(1, 0, Cleaning(2), true), map[JoinQ(2) := [1]]))
  {
    SecondJoined();
    hide Reaches, Objects;
    var v0 := One(Three(NewTask(Blocked, 1, 0), NewTask(Invalid, 2, 0)), {0, 1, 2}, Runs(1),
                  map[FinishedQ(0) := [2], JoinQ(2) := [1]]);
    Then(ONE, QuietButLate, v0, Call(0));
    var v1 := At(v0, 0, Entering, true);
    assert Step(v0, Call(0)) == v1;
    Then(ONE, QuietButLate, v1, Cleanup(0));
    Restated(ONE, QuietButLate, Step(v1, Cleanup(0)),
             One(Three(NewTask(Blocked, 1, 0), NewTask(Invalid, 2, 0)), {0, 1, 2}, Core(1, 0, Cleaning(2), true),
                 map[JoinQ(2) := [1]]));
  }

  /** Task 1 in `scheduler`, interrupted when it was about to clean up task 2. */
  const SELF_CLEANER := NewTask(Blocked, 1, 0).(inside := Some(Cleaning(2)))

  /** An interrupt comes before it removes task 2 from TASKS. */
  lemma OwnCleanupInterrupted()
    ensures Reaches(ONE, QuietButLate, One(Three(SELF_CLEANER, NewTask(Invalid, 2, 0)), {0, 1, 2},
                                           Core(1, 0, Entering, false), map[JoinQ(2) := [1]]))
  {
    OwnCleanupBegins();
    hide Reaches, Objects;
    var v0 := One(Three(NewTask(Blocked, 1, 0), NewTask(Invalid, 2, 0)), {0, 1, 2}, Core(1, 0, Cleaning(2), true),
                  map[JoinQ(2) := [1]]);
    Then(ONE, QuietButLate, v0, NestLate(0, 0));
    var v1 := Step(v0, NestLate(0, 0));
    Then(ONE, QuietButLate, v1, Expire(0));
    Restated(ONE, QuietButLate, Step(v1, Expire(0)),
             One(Three(SELF_CLEANER, NewTask(Invalid, 2, 0)), {0, 1, 2}, Core(1, 0, Entering, false),
                 map[JoinQ(2) := [1]]));
  }

  /** A run from boot on one core after which task 1 sleeps for ever in `join(2)`: it was itself about to clean up
      task 2, and with that to wake itself, when the interrupt came. */
  lemma InterruptedJoinLosesJoiner() returns (run: seq<Action>, k: State)
    ensures Initial(ONE) && Run(ONE, run) == Some(k) && All(run, QuietButLate) && JoinerLost(k, 2, 1)
  {
    OneIsInitial();
    OwnCleanupInterrupted();
    hide Reaches, Initial, Step, Enabled;
    var v0 := One(Three(SELF_CLEANER, NewTask(Invalid, 2, 0)), {0, 1, 2}, Core(1, 0, Entering, false),
                  map[JoinQ(2) := [1]]);
    Decision(ONE, QuietButLate, v0, 0);
    var v1 := One(Three(SELF_CLEANER, NewTask(Invalid, 2, 0)), {0, 1, 2}, Runs(0), map[JoinQ(2) := [1]]);
    Idled(ONE, QuietButLate, At(v0, 0, Deciding(Blocked), false), 0, v1);
    var s := {1, 2};
    assert LostTask(v1, s, 1) && LostTask(v1, s, 2);
    assert 2 in s && Lost(v1, s);
    run, k := LostFromHere(ONE, QuietButLate, v1, 2, 1);
  }

  // ----- A mutex that nobody can unlock -----

  /** Spawns are local and quiet, no wait has a deadline, and no interrupt comes late in a call of the scheduler. */
  predicate Harmless(a: Action) {
    QuietSpawn(a) && Mannerly(a)
  }

  const LOCKED := Mutex(Some(1), 1, {}, map[1 := 1])

  /** Task 1 has locked the mutex. */
  function WithLock(v: State): State {
    v.(objects := map[0 := Semaphore(0, {}, 0, 0, 0), 1 := LOCKED])
  }

  lemma LockTaken()
    ensures var v := One(Two(NewTask(Running, 1, 0)), {0, 1}, Runs(1), map[]);
            && Enabled(v, Lock(0, 1)) && Step(v, Lock(0, 1)) == WithLock(v)
  {
    var v := One(Two(NewTask(Running, 1, 0)), {0, 1}, Runs(1), map[]);
    assert StopRetrying(v, 0) == v && v.objects[1] == Mutex(None, 0, {}, map[]);
    assert LockStep(v, 0, 1).objects == v.objects[1 := LOCKED] == WithLock(v).objects;
  }

  /** Task 1 locks the mutex. */
  lemma MutexLocked()
    ensures Reaches(ONE, Harmless, WithLock(One(Two(NewTask(Running, 1, 0)), {0, 1}, Runs(1), map[])))
  {
    OneRuns(Harmless, true);
    LockTaken();
    hide Reaches, Step, Enabled;
    Then(ONE, Harmless, One(Two(NewTask(Running, 1, 0)), {0, 1}, Runs(1), map[]), Lock(0, 1));
  }

  /** It spawns task 2 with a higher priority, and yields to it. */
  lemma ContenderRuns()
    ensures Reaches(ONE, Harmless, WithLock(One(Three(NewTask(Ready, 1, 0), NewTask(Running, 2, 0)), {0, 1, 2}, Runs(2),
                                                map[ReadyQ(0, 1) := [1]])))
  {
    MutexLocked();
    hide Reaches, Objects, Step, Enabled;
    var v0 := WithLock(One(Two(NewTask(Running, 1, 0)), {0, 1}, Runs(1), map[]));
    var v1 := SpawnStep(v0, 0, 0, 2, 2, true);
    Spawned(ONE, Harmless, v0, Spawn(0, 0, 2, 2, true), v1);
    var v2 := WithLock(One(Three(NewTask(Running, 1, 0), NewTask(Ready, 2, 0)), {0, 1, 2}, Runs(1),
                           map[ReadyQ(0, 2) := [2]]));
    Registered(ONE, Harmless, v1, 0, v2);
    Called(ONE, Harmless, v2, 0, false);
    Dispatched(ONE, Harmless, At(v2, 0, Deciding(Running), false), 0, 2, 2,
               WithLock(One(Three(NewTask(Ready, 1, 0), NewTask(Running, 2, 0)), {0, 1, 2}, Runs(2),
                            map[ReadyQ(0, 1) := [1]])));
  }

  /** Task 2 has blocked itself, and has yet to enter the wait queue of the mutex. */
  const CONTENDER := NewTask(Blocked, 2, 0).(queueing := Some(1))

  lemma ContenderBlocks()
    ensures Reaches(ONE, Harmless, WithLock(One(Three(NewTask(Ready, 1, 0), CONTENDER), {0, 1, 2}, Runs(2),
                                                map[ReadyQ(0, 1) := [1], BlockedQ(0) := [2]])))
  {
    ContenderRuns();
    hide Reaches;
    var v0 := WithLock(One(Three(NewTask(Ready, 1, 0), NewTask(Running, 2, 0)), {0, 1, 2}, Runs(2),
                           map[ReadyQ(0, 1) := [1]]));
    Then(ONE, Harmless, v0, Lock(0, 1));
    assert InsertAt([], 0, 2) == [2] && Get(v0.queues, BlockedQ(0)) == [] && StopRetrying(v0, 0) == v0;
    Restated(ONE, Harmless, Step(v0, Lock(0, 1)),
             WithLock(One(Three(NewTask(Ready, 1, 0), CONTENDER), {0, 1, 2}, Runs(2),
                          map[ReadyQ(0, 1) := [1], BlockedQ(0) := [2]])));
  }

  /** An interrupt comes. */
  lemma ContenderInterrupted()
    ensures Reaches(ONE, Harmless, WithLock(One(Three(NewTask(Ready, 1, 0), CONTENDER), {0, 1, 2},
                                                Core(2, 0, Entering, false),
                                                map[ReadyQ(0, 1) := [1], BlockedQ(0) := [2]])))
  {
    ContenderBlocks();
    hide Reaches, Objects;
    var v0 := WithLock(One(Three(NewTask(Ready, 1, 0), CONTENDER), {0, 1, 2}, Runs(2),
                           map[ReadyQ(0, 1) := [1], BlockedQ(0) := [2]]));
    Then(ONE, Harmless, v0, Tick(0, 0));
    var v1 := Step(v0, Tick(0, 0));
    Then(ONE, Harmless, v1, Expire(0));
    Restated(ONE, Harmless, Step(v1, Expire(0)),
             WithLock(One(Three(NewTask(Ready, 1, 0), CONTENDER), {0, 1, 2}, Core(2, 0, Entering, false),
                          map[ReadyQ(0, 1) := [1], BlockedQ(0) := [2]])));
  }

  /** A run from boot on one core after which task 1 owns the mutex and runs, but neither it nor anybody else can ever
      lock or unlock it: task 2 was interrupted while it held the spinlock, and sleeps for ever. */
  lemma InterruptedLockHoldsUpMutex() returns (run: seq<Action>, k: State)
    ensures Initial(ONE) && Run(ONE, run) == Some(k) && All(run, Harmless)
    ensures Gone(k, 2) && 1 in k.objects && k.objects[1] == LOCKED && k.cores == [Runs(1)]
    ensures 1 in k.tasks && k.tasks[1].status == Running
    ensures forall actions, c :: Run(k, actions).Some? ==>
              !Enabled(Run(k, actions).value, Lock(c, 1)) && !Enabled(Run(k, actions).value, Unlock(c, 1))
  {
    OneIsInitial();
    ContenderInterrupted();
    hide Reaches, Initial, Step, Enabled;
    var v0 := WithLock(One(Three(NewTask(Ready, 1, 0), CONTENDER), {0, 1, 2}, Core(2, 0, Entering, false),
                           map[ReadyQ(0, 1) := [1], BlockedQ(0) := [2]]));
    Decision(ONE, Harmless, v0, 0);
    var v1 := WithLock(One(Three(NewTask(Running, 1, 0), CONTENDER), {0, 1, 2}, Runs(1), map[BlockedQ(0) := [2]]));
    Dispatched(ONE, Harmless, At(v0, 0, Deciding(Blocked), false), 0, 1, 1, v1);
    ContenderIsLost();
    hide Lost, Run;
    run, k := MutexHeldUp(v1);
  }

  lemma ContenderIsLost()
    ensures Lost(WithLock(One(Three(NewTask(Running, 1, 0), CONTENDER), {0, 1, 2}, Runs(1), map[BlockedQ(0) := [2]])),
                 {2})
  {
    var v := WithLock(One(Three(NewTask(Running, 1, 0), CONTENDER), {0, 1, 2}, Runs(1), map[BlockedQ(0) := [2]]));
    assert LostTask(v, {2}, 2);
  }

  lemma MutexHeldUp(v: State) returns (run: seq<Action>, k: State)
    requires Reaches(ONE, Harmless, v) && Lost(v, {2}) && 2 in v.tasks && v.tasks[2].queueing == Some(1)
    ensures Run(ONE, run) == Some(k) && All(run, Harmless) && Same(k, v) && Gone(k, 2)
    ensures forall actions, c :: Run(k, actions).Some? ==>
              !Enabled(Run(k, actions).value, Lock(c, 1)) && !Enabled(Run(k, actions).value, Unlock(c, 1))
  {
    hide Run, Lost, Enabled;
    run, k :| Run(ONE, run) == Some(k) && All(run, Harmless) && Same(k, v);
    SameLost(k, v, {2});
    AloneIsGone(k, 2);
    forall actions, c | Run(k, actions).Some?
      ensures !Enabled(Run(k, actions).value, Lock(c, 1)) && !Enabled(Run(k, actions).value, Unlock(c, 1))
    {
      SpinlockForEver(k, {2}, 2, 1, actions, c);
    }
  }
}
