/**
 The scheduler of `src/scheduler/mod.rs`, the semaphore and the recursive mutex as code that changes the kernel's
 state in place.

 Ready queues and wait queues are chains of tasks through the two links that all of them share, with heads, tails
 and bitmaps (`TaskLinks`).  The other lists are kept as they are.  The ghost field `k` is the abstract state: every
 method carries out one locked section, is shown to be one step of `k`, and keeps all chains in order together.
 `Replay` does so for every tame run.
 */
module KernelMachine {
  import opened Kernel
  import opened KernelChains
  import opened KernelCounts
  import opened KernelOrders
  import opened KernelSafety
  import opened KernelTheorems
  import opened KernelRuns
  import opened Options
  import opened Priorities
  import opened Registry
  import opened TaskLinks

  lemma AcquireFacts(k: State, c: nat, o: nat, until: Option<nat>)
    requires Inv(k) && Enabled(k, Acquire(c, o, until))
    ensures o in k.objects && k.objects[o].Semaphore? && HasCore(k, c)
    ensures var n, k' := k.objects[o].count, Step(k, Acquire(c, o, until));
            && Inv(k') && o in k'.objects && k'.objects[o].Semaphore? && k' == AcquireStep(k, c, o, until)
            && k'.objects[o].count == n - if n > 0 then 1 else 0
  {
    StepKeeps(k, Acquire(c, o, until));
    AcquireThrough(k, c, o, until);
    hide Inv, AcquireStep;
  }

  lemma ReleaseFacts(k: State, c: nat, o: nat)
    requires Inv(k) && Enabled(k, Release(c, o))
    ensures o in k.objects && k.objects[o].Semaphore?
    ensures var s, k' := k.objects[o], Step(k, Release(c, o));
            && Inv(k') && o in k'.objects && k'.objects[o].Semaphore? && k'.objects[o].count == s.count + 1
            && k' == WakeWaiter(k.(objects := k.objects[o := s.(count := s.count + 1, released := s.released + 1)]),
                                c, o)
  {
    StepKeeps(k, Release(c, o));
    ReleaseThrough(k, c, o);
    hide Inv, WakeWaiter;
  }

  /** Task ids are 32-bit numbers. */
  const TID_LIMIT := 0x1_0000_0000

  class Machine {
    var tasks: map<Tid, Task>
    var registered: set<Tid>
    var cores: seq<Core>
    var lists: map<QueueId, seq<Tid>>
    const links: Links
    var objects: map<nat, Object>
    var tidCounter: nat
    ghost var k: State

    /** The fields hold the state `k`, and all chains are in order. */
    ghost predicate Shows()
      reads this, links
    {
      && tasks == k.tasks && registered == k.registered && cores == k.cores && objects == k.objects
      && ChainsShow(k, links.lists) && ListsShow(k, lists) && links.Valid()
    }

    ghost predicate Valid()
      reads this, links
    {
      Inv(k) && Shows()
    }

    /** The kernel after boot. */
    constructor (start: State)
      requires Initial(start)
      ensures Valid() && k == start && tidCounter == 0 && fresh(links)
    {
      tasks, registered, cores, objects, lists := start.tasks, start.registered, start.cores, start.objects, map[];
      links := new Links();
      tidCounter, k := 0, start;
      InitialInv(start);
      new;
      forall q ensures Get(links.lists, q) == Linked(k, q) {
      }
    }

    // ----- Small operations -----

    method SetCore(c: nat, x: Core)
      requires Shows() && c < |cores|
      modifies this`cores, this`k
      ensures Shows() && k == old(k).(cores := old(k).cores[c := x])
    {
      SameShow(k, k.(cores := k.cores[c := x]), links.lists, lists);
      cores := cores[c := x];
      k := k.(cores := k.cores[c := x]);
    }

    method SetPhase(c: nat, p: Phase)
      requires Shows() && c < |cores|
      modifies this`cores, this`k
      ensures Shows() && k == Kernel.SetPhase(old(k), c, p)
    {
      SetCore(c, cores[c].(phase := p));
    }

    method SetTask(t: Tid, x: Task)
      requires Shows() && t in tasks
      modifies this`tasks, this`k
      ensures Shows() && k == old(k).(tasks := old(k).tasks[t := x])
    {
      SameShow(k, k.(tasks := k.tasks[t := x]), links.lists, lists);
      tasks := tasks[t := x];
      k := k.(tasks := k.tasks[t := x]);
    }

    method SetList(q: QueueId, s: seq<Tid>)
      requires Shows() && !q.ReadyQ?
      modifies this`lists, this`k
      ensures Shows() && k == old(k).(queues := old(k).queues[q := s])
    {
      PutList(k, links.lists, lists, q, s);
      lists := lists[q := s];
      k := k.(queues := k.queues[q := s]);
    }

    /** `push` onto the ready queue of a core. */
    method PushReady(c: nat, prio: nat, t: Tid)
      requires Shows() && prio < NO_PRIORITIES && !Held(links.lists, t)
      modifies this`k, links
      ensures Shows() && k == old(k).(queues := Append(old(k).queues, ReadyQ(c, prio), t))
    {
      PutReady(k, links.lists, lists, c, prio, Get(k.queues, ReadyQ(c, prio)) + [t]);
      hide ChainsShow, ListsShow;
      links.Push(LinkId(ReadyOf(c), prio), t);
      k := k.(queues := Append(k.queues, ReadyQ(c, prio), t));
    }

    /** `pop_with_prio` on the ready queue of core `c`: the bitmap and the chains give the oldest task of the highest
        level. */
    method PopReady(c: nat, prio: nat) returns (t: Option<Tid>)
      requires Shows()
      modifies this`k, links
      ensures Shows()
      ensures var top := TopReady(old(k).queues, c, NO_PRIORITIES);
              if top >= prio then
                && t == Some(Get(old(k).queues, ReadyQ(c, top))[0])
                && k == old(k).(queues := Delete(old(k).queues, ReadyQ(c, top), 0))
              else t == None && k == old(k)
      ensures forall x :: Held(links.lists, x) ==> Held(old(links.lists), x)
    {
      ghost var before := links.lists;
      t := links.PopWithPrio(ReadyOf(c), prio);
      forall p: nat ensures Get(before, LinkId(ReadyOf(c), p)) == Get(k.queues, ReadyQ(c, p)) {
        assert Get(before, LinkId(ReadyOf(c), p)) == Linked(k, LinkId(ReadyOf(c), p));
      }
      if t.Some? {
        ghost var p: nat :| Takes(before, LinkId(ReadyOf(c), p), prio, t.value, links.lists);
        TopIs(k.queues, c, p);
        PutReady(k, before, lists, c, p, RemoveAt(Get(k.queues, ReadyQ(c, p)), 0));
        DeleteKeeps(before, LinkId(ReadyOf(c), p), 0);
        k := k.(queues := Delete(k.queues, ReadyQ(c, p), 0));
      }
    }

    // ----- The scheduler -----

    /** What happens to the task that was current. */
    method PutAside(c: nat, seen: Status)
      requires Shows() && HasCore(k, c) && tasks[cores[c].current].prio < NO_PRIORITIES
      requires seen == Running ==> !Held(links.lists, cores[c].current)
      modifies this`tasks, this`lists, this`k, links
      ensures Shows() && k == Kernel.PutAside(old(k), c, seen)
    {
      var t := cores[c].current;
      var x := tasks[t];
      if seen == Running {
        SetTask(t, x.(status := Ready));
        PushReady(c, x.prio, t);
      } else if seen == Finished {
        SetTask(t, x.(status := Invalid, inside := None));
        PutList(k, links.lists, lists, FinishedQ(c), []);
        SetList(FinishedQ(c), Get(lists, FinishedQ(c)) + [t]);
      }
    }

    /** The core goes on with task `t` where that was interrupted, or in its own code. */
    method Resume(c: nat, t: Tid)
      requires Shows() && c < |cores| && t in tasks
      modifies this`tasks, this`cores, this`k
      ensures Shows() && k == Kernel.Resume(old(k), c, t)
    {
      ghost var k' := Kernel.Resume(k, c, t);
      SameShow(k, k', links.lists, lists);
      var place := tasks[t].inside;
      tasks := tasks[t := tasks[t].(inside := None)];
      cores := cores[c := cores[c].(current := t, loud := place.Some?,
                                    phase := if place.Some? then place.value else Executing)];
      k := k';
    }

    /** Deals with the task that was current, and makes `t` the current task. */
    method Switch(c: nat, seen: Status, t: Tid)
      requires Shows() && HasCore(k, c) && tasks[cores[c].current].prio < NO_PRIORITIES && t in tasks
      requires seen == Running ==> !Held(links.lists, cores[c].current)
      modifies this`tasks, this`cores, this`lists, this`k, links
      ensures Shows() && k == SwitchTo(Kernel.PutAside(old(k), c, seen), c, t)
    {
      hide ChainsShow, ListsShow, Kernel.PutAside, Kernel.Resume;
      PutAside(c, seen);
      if tasks[t].status != Idle {
        SetTask(t, tasks[t].(status := Running));
      }
      Resume(c, t);
    }

    /** The decision of the scheduler, under the state lock. */
    method Decide(c: nat, expired: bool)
      requires Valid() && Enabled(k, Action.Decide(c, expired))
      modifies this`tasks, this`cores, this`lists, this`k, links
      ensures Valid() && k == Step(old(k), Action.Decide(c, expired)) && c < |cores|
      ensures !GivesWay(old(k), c, old(cores[c].phase.seen), expired) ==> cores[c].current == old(cores[c].current)
      ensures GivesWay(old(k), c, old(cores[c].phase.seen), expired) ==>
                if SomeReady(old(k), c, 0) then FirstReady(old(k), c, cores[c].current)
                else cores[c].current == old(cores[c].idle)
    {
      DecisionExact(k, c, expired);
      DecidedStep(k, Action.Decide(c, expired));
      hide *;
      TakeDecision(c, expired);
    }

    method TakeDecision(c: nat, expired: bool)
      requires Valid() && Enabled(k, Action.Decide(c, expired))
      modifies this`tasks, this`cores, this`lists, this`k, links
      ensures Valid() && k == Step(old(k), Action.Decide(c, expired)) && cores == k.cores
    {
      StepKeeps(k, Action.Decide(c, expired));
      DecideFacts(k, links.lists, c);
      ghost var k0 := k;
      var seen, prio := cores[c].phase.seen, tasks[cores[c].current].prio;
      assert Step(k, Action.Decide(c, expired)) == DecideStep(k, c, seen, expired);
      hide Inv, ChainsShow, ListsShow, Append, Delete, SwitchTo, Kernel.PutAside, Kernel.Resume, Step, Enabled, Held,
        TopReady;
      var newTask: Option<Tid>;
      if seen == Running {
        newTask := PopReady(c, prio + 1);
        if newTask.None? && expired {
          newTask := PopReady(c, prio);
        }
      } else {
        newTask := PopReady(c, 0);
        if newTask.None? && seen != Idle {
          newTask := Some(cores[c].idle);
        }
      }
      if newTask.Some? {
        Switch(c, seen, newTask.value);
      } else {
        Resume(c, cores[c].current);
      }
    }

    /** The start of `cleanup_tasks`: the oldest finished task leaves the list. */
    method CleanupTasks(c: nat)
      requires Valid() && Enabled(k, Cleanup(c))
      modifies this`cores, this`lists, this`k
      ensures Valid() && k == Step(old(k), Cleanup(c))
    {
      StepKeeps(k, Cleanup(c));
      PutList(k, links.lists, lists, FinishedQ(c), []);
      hide Inv, ChainsShow, ListsShow;
      var finished := Get(lists, FinishedQ(c));
      if finished == [] {
        SetPhase(c, Reading);
      } else {
        SetList(FinishedQ(c), RemoveAt(finished, 0));
        SetPhase(c, Cleaning(finished[0]));
      }
    }

    /** The rest of `cleanup_tasks`, up to the point where the joiners of the task are about to be woken. */
    method ForgetTask(c: nat)
      requires Valid() && Enabled(k, Action.Forget(c))
      modifies this`tasks, this`registered, this`cores, this`lists, this`k
      ensures Valid() && k == Step(old(k), Action.Forget(c))
    {
      StepKeeps(k, Action.Forget(c));
      var id := cores[c].phase.id;
      hide Inv, ChainsShow, ListsShow;
      if id in registered {
        Remove(id);
        PutList(k, links.lists, lists, JoinQ(id), []);
        var joiners := Get(lists, JoinQ(id));
        SetList(JoinQ(id), []);
        SetList(DrainQ(c), joiners);
        SetPhase(c, Draining);
      } else {
        SetPhase(c, Reading);
      }
    }

    /** The entry in TASKS is removed, and the task with it. */
    method Remove(id: Tid)
      requires Shows()
      modifies this`tasks, this`registered, this`k
      ensures Shows() && k == old(k).(tasks := old(k).tasks - {id}, registered := old(k).registered - {id})
    {
      SameShow(k, k.(tasks := k.tasks - {id}, registered := k.registered - {id}), links.lists, lists);
      tasks, registered := tasks - {id}, registered - {id};
      k := k.(tasks := k.tasks - {id}, registered := k.registered - {id});
    }

    /** The first half of `wakeup_task` for the task at place `at` of list `q`. */
    method WakeupTask(c: nat, q: QueueId, at: nat)
      requires Shows() && !q.ReadyQ? && at < |Get(k.queues, q)| && Get(k.queues, q)[at] in tasks
      modifies this`tasks, this`lists, this`k
      ensures Shows() && k == WakeFrom(old(k), c, q, at)
    {
      PutList(k, links.lists, lists, q, []);
      hide ChainsShow, ListsShow;
      var t := Get(lists, q)[at];
      SetList(q, RemoveAt(Get(lists, q), at));
      PutList(k, links.lists, lists, PushQ(c), []);
      SetList(PushQ(c), Get(lists, PushQ(c)) + [t]);
      SetTask(t, tasks[t].(status := Ready));
    }

    /** The second half of `wakeup_task`: the push under the state lock of the task's core. */
    method PushWoken(c: nat)
      requires Valid() && Enabled(k, Push(c))
      modifies this`lists, this`k, links
      ensures Valid() && k == Step(old(k), Push(c))
    {
      StepKeeps(k, Push(c));
      WokenFacts(k, links.lists, c);
      PutList(k, links.lists, lists, PushQ(c), []);
      hide Inv, ChainsShow, ListsShow, Held;
      var pending := Get(lists, PushQ(c));
      var t := pending[0];
      SetList(PushQ(c), RemoveAt(pending, 0));
      PushReady(tasks[t].core, tasks[t].prio, t);
    }

    /** One turn of the loop of `wakeup_all`. */
    method DrainNext(c: nat)
      requires Valid() && Enabled(k, Drain(c))
      modifies this`tasks, this`lists, this`cores, this`k
      ensures Valid() && k == Step(old(k), Drain(c))
    {
      StepKeeps(k, Drain(c));
      PutList(k, links.lists, lists, DrainQ(c), []);
      hide Inv, WakeFrom, ChainsShow, ListsShow, Held, Linear, Append, Delete;
      var list := Get(lists, DrainQ(c));
      if list == [] {
        SetPhase(c, Reading);
      } else if list[0] in tasks {
        WakeupTask(c, DrainQ(c), 0);
      }
    }

    /** The unlocked read of the current status. */
    method ReadStatus(c: nat)
      requires Valid() && Enabled(k, Read(c))
      modifies this`cores, this`k
      ensures Valid() && k == Step(old(k), Read(c))
    {
      StepKeeps(k, Read(c));
      hide Inv;
      SetPhase(c, Deciding(tasks[cores[c].current].status));
    }

    method EnterScheduler(c: nat, loud: bool)
      requires Shows() && c < |cores|
      modifies this`cores, this`k
      ensures Shows() && k == Kernel.EnterScheduler(old(k), c, loud)
    {
      SameShow(k, Kernel.EnterScheduler(k, c, loud), links.lists, lists);
      cores := cores[c := cores[c].(phase := Entering, loud := loud)];
      k := Kernel.EnterScheduler(k, c, loud);
    }

    // ----- Tasks -----

    /** `get_tid`: the first id from the counter on, modulo 2^32, that no registered task has. */
    method GetTid(ghost unused: Tid) returns (id: Tid)
      requires tidCounter < TID_LIMIT && unused < TID_LIMIT && unused !in registered
      modifies this`tidCounter
      ensures id < TID_LIMIT && id !in registered && tidCounter == (id + 1) % TID_LIMIT
      ensures forall t :: Between(old(tidCounter), t, id) ==> t in registered
    {
      id := tidCounter;
      tidCounter := (tidCounter + 1) % TID_LIMIT;
      ghost var start := id;
      while id in registered
        invariant id < TID_LIMIT && tidCounter == (id + 1) % TID_LIMIT
        invariant forall t :: Between(start, t, id) ==> t in registered
        decreases if id <= unused then unused - id else unused + TID_LIMIT - id
      {
        ghost var before := id;
        id := tidCounter;
        tidCounter := (tidCounter + 1) % TID_LIMIT;
        assert forall t :: Between(start, t, id) ==> t == before || Between(start, t, before);
      }
    }

    /** `get_tid` and `spawn` up to the push.  `get_tid` looks for a free id in TASKS only, so `first`, the id it
        finds, must not be that of a task that another `spawn` has yet to register. */
    method SpawnNew(c: nat, target: nat, prio: nat, quiet: bool, ghost first: Tid) returns (tid: Tid)
      requires Valid() && tidCounter < TID_LIMIT && first < TID_LIMIT && first !in registered
      requires forall t :: Between(tidCounter, t, first) ==> t in registered
      requires Enabled(k, Action.Spawn(c, target, prio, first, quiet))
      modifies this`tidCounter, this`tasks, this`k, links
      ensures tid == first && Valid() && k == Step(old(k), Action.Spawn(c, target, prio, tid, quiet))
    {
      tid := GetTid(first);
      hide Step, Enabled;
      Spawn(c, target, prio, tid, quiet);
    }

    /** A new task is pushed onto a ready queue. */
    method CreateTask(target: nat, prio: nat, tid: Tid)
      requires Valid() && target < |cores| && prio < NO_PRIORITIES && tid !in tasks
      modifies this`tasks, this`k, links
      ensures Shows() && k == Kernel.CreateTask(old(k), target, prio, tid)
    {
      NewFacts(k, links.lists, tid);
      hide Inv, Held;
      var x := NewTask(Ready, prio, target);
      SameShow(k, k.(tasks := k.tasks[tid := x]), links.lists, lists);
      hide ChainsShow, ListsShow;
      tasks := tasks[tid := x];
      k := k.(tasks := k.tasks[tid := x]);
      PushReady(target, prio, tid);
    }

    /** `spawn`, up to the push onto the ready queue. */
    method Spawn(c: nat, target: nat, prio: nat, tid: Tid, quiet: bool)
      requires Valid() && Enabled(k, Action.Spawn(c, target, prio, tid, quiet))
      modifies this`tasks, this`k, links
      ensures Valid() && k == Step(old(k), Action.Spawn(c, target, prio, tid, quiet)) && tid in tasks
      ensures tasks[tid].core == target && tasks[tid].prio == prio && tid !in registered
    {
      StepKeeps(k, Action.Spawn(c, target, prio, tid, quiet));
      OrderStep(k, Action.Spawn(c, target, prio, tid, quiet));
      hide Inv, ChainsShow, ListsShow;
      CreateTask(target, prio, tid);
      var t := cores[c].current;
      SetTask(t, tasks[t].(spawning := Some(Pending(tid, quiet))));
    }

    method Enter(tid: Tid)
      requires Shows()
      modifies this`registered, this`k
      ensures Shows() && k == old(k).(registered := old(k).registered + {tid})
    {
      SameShow(k, k.(registered := k.registered + {tid}), links.lists, lists);
      registered := registered + {tid};
      k := k.(registered := k.registered + {tid});
    }

    /** The rest of `spawn`: the task is entered in TASKS. */
    method Register(c: nat)
      requires Valid() && Enabled(k, Action.Register(c))
      modifies this`tasks, this`registered, this`k
      ensures Valid() && k == Step(old(k), Action.Register(c))
    {
      StepKeeps(k, Action.Register(c));
      hide Inv, ChainsShow, ListsShow;
      var t := cores[c].current;
      Enter(tasks[t].spawning.value.tid);
      SetTask(t, tasks[t].(spawning := None));
    }

    /** `clone`: the push and the entry in TASKS, under the state lock of the other core. */
    method Clone(c: nat, target: nat, tid: Tid)
      requires Valid() && Enabled(k, Action.Clone(c, target, tid))
      modifies this`tasks, this`registered, this`k, links
      ensures Valid() && k == Step(old(k), Action.Clone(c, target, tid)) && tid in tasks && tid in registered
      ensures tasks[tid].core == target && tasks[tid].prio == old(tasks[cores[c].current]).prio
    {
      StepKeeps(k, Action.Clone(c, target, tid));
      OrderStep(k, Action.Clone(c, target, tid));
      hide Inv, ChainsShow, ListsShow;
      CreateTask(target, tasks[cores[c].current].prio, tid);
      Enter(tid);
    }

    /** `exit`, up to the call of the scheduler. */
    method Exit(c: nat)
      requires Valid() && Enabled(k, Action.Exit(c))
      modifies this`tasks, this`k
      ensures Valid() && k == Step(old(k), Action.Exit(c))
      ensures HasCore(k, c) && tasks[cores[c].current].status == Finished
    {
      StepKeeps(k, Action.Exit(c));
      hide Inv;
      var t := cores[c].current;
      SetTask(t, tasks[t].(status := Finished));
    }

    /** The loop of `add`: the first entry that waits longer. */
    method FindPlace(list: seq<Tid>, until: Option<nat>) returns (at: nat)
      ensures at == DeadlinePosition(tasks, list, until)
    {
      at := 0;
      while at < |list| && !WaitsLonger(tasks, list[at], until)
        invariant 0 <= at <= |list|
        invariant at + DeadlinePosition(tasks, list[at..], until) == DeadlinePosition(tasks, list, until)
      {
        assert list[at..][1..] == list[at + 1..];
        at := at + 1;
      }
    }

    /** `add` for the current task: it becomes blocked and goes to its place in the list. */
    method Block(c: nat, q: QueueId, until: Option<nat>)
      requires Shows() && HasCore(k, c) && !q.ReadyQ?
      modifies this`tasks, this`lists, this`k
      ensures Shows() && k == BlockCurrent(old(k), c, q, until)
    {
      PutList(k, links.lists, lists, q, []);
      hide DeadlinePosition, ChainsShow, ListsShow;
      var t := cores[c].current;
      var list := Get(lists, q);
      var at := FindPlace(list, until);
      SetTask(t, tasks[t].(status := Blocked, deadline := until, retrying := None));
      SetList(q, InsertAt(list, at, t));
    }

    /** `join`, up to the call of the scheduler. */
    method Join(c: nat, tid: Tid) returns (ok: bool)
      requires Valid() && Enabled(k, Action.Join(c, tid))
      modifies this`tasks, this`lists, this`k
      ensures Valid() && k == Step(old(k), Action.Join(c, tid)) && (ok <==> tid in old(registered))
      ensures HasCore(k, c) && tasks[cores[c].current].status == if ok then Blocked else Running
    {
      StepKeeps(k, Action.Join(c, tid));
      OrderStep(k, Action.Join(c, tid));
      hide Inv, BlockCurrent;
      ok := tid in registered;
      if ok {
        Block(c, JoinQ(tid), None);
      }
    }

    /** `sys_usleep`, up to the call of the scheduler. */
    method Sleep(c: nat, until: nat)
      requires Valid() && Enabled(k, Action.Sleep(c, until))
      modifies this`tasks, this`lists, this`k
      ensures Valid() && k == Step(old(k), Action.Sleep(c, until)) && HasCore(k, c)
      ensures tasks[cores[c].current].status == Blocked && tasks[cores[c].current].deadline == Some(until)
    {
      StepKeeps(k, Action.Sleep(c, until));
      OrderStep(k, Action.Sleep(c, until));
      hide Inv, BlockCurrent;
      Block(c, BlockedQ(c), Some(until));
    }

    // ----- The timer interrupt -----

    /** An interrupt inside `scheduler`. */
    method Nest(c: nat, now: nat)
      requires Valid() && HasCore(k, c)
      modifies this`tasks, this`cores, this`k
      ensures Shows() && k == NestStep(old(k), c, now)
    {
      hide Inv, ChainsShow, ListsShow;
      var t := cores[c].current;
      SetTask(t, tasks[t].(inside := Some(cores[c].phase)));
      SetCore(c, cores[c].(phase := Ticking(now), loud := false));
    }

    /** One turn of `handle_waiting_tasks`. */
    method HandleWaitingTask(c: nat)
      requires Valid() && Enabled(k, Expire(c)) && Tame(k, Expire(c))
      modifies this`tasks, this`lists, this`cores, this`k
      ensures Valid() && k == Step(old(k), Expire(c))
    {
      StepKeeps(k, Expire(c));
      PutList(k, links.lists, lists, BlockedQ(c), []);
      hide Inv, WakeFrom, ChainsShow, ListsShow;
      var list, now := Get(lists, BlockedQ(c)), cores[c].phase.now;
      if list != [] && list[0] in tasks && tasks[list[0]].deadline.Some? && tasks[list[0]].deadline.value <= now {
        WakeupTask(c, BlockedQ(c), 0);
      } else {
        EnterScheduler(c, false);
      }
    }

    // ----- Semaphore and mutex -----

    method SetObject(o: nat, x: Object)
      requires Shows()
      modifies this`objects, this`k
      ensures Shows() && k == old(k).(objects := old(k).objects[o := x])
    {
      SameShow(k, k.(objects := k.objects[o := x]), links.lists, lists);
      objects := objects[o := x];
      k := k.(objects := k.objects[o := x]);
    }

    /** The end of a turn of `acquire` for a task that had been woken for the object. */
    method StopRetrying(c: nat)
      requires Shows() && HasCore(k, c)
      modifies this`tasks, this`objects, this`k
      ensures Shows() && k == Kernel.StopRetrying(old(k), c)
    {
      hide ChainsShow, ListsShow;
      var t := cores[c].current;
      var x := tasks[t];
      if x.retrying.Some? && x.retrying.value in objects {
        var o := x.retrying.value;
        SetTask(t, x.(retrying := None));
        SetObject(o, objects[o].(woken := objects[o].woken - {t}));
      }
    }

    /** `push` onto the wait queue of an object. */
    method PushWait(o: nat, prio: nat, t: Tid)
      requires Shows() && prio < NO_PRIORITIES && !Held(links.lists, t)
      modifies this`k, links
      ensures Shows() && k == old(k).(waits := Append(old(k).waits, WaitQ(o, prio), t))
    {
      PutWait(k, links.lists, o, prio, Get(k.waits, WaitQ(o, prio)) + [t]);
      hide ChainsShow;
      links.Push(LinkId(WaitOf(o), prio), t);
      k := k.(waits := Append(k.waits, WaitQ(o, prio), t));
    }

    /** `pop` on the wait queue of an object. */
    method PopWait(o: nat) returns (t: Option<Tid>)
      requires Shows()
      modifies this`k, links
      ensures Shows()
      ensures var top := TopWait(old(k).waits, o, NO_PRIORITIES);
              if top >= 0 then
                && t == Some(Get(old(k).waits, WaitQ(o, top))[0])
                && k == old(k).(waits := Delete(old(k).waits, WaitQ(o, top), 0))
              else t == None && k == old(k)
    {
      ghost var before := links.lists;
      t := links.PopWithPrio(WaitOf(o), 0);
      forall p: nat ensures Get(before, LinkId(WaitOf(o), p)) == Get(k.waits, WaitQ(o, p)) {
        assert Get(before, LinkId(WaitOf(o), p)) == Linked(k, LinkId(WaitOf(o), p));
      }
      if t.Some? {
        ghost var p: nat :| Takes(before, LinkId(WaitOf(o), p), 0, t.value, links.lists);
        TopWaitIs(k.waits, o, p);
        PutWait(k, before, o, p, RemoveAt(Get(k.waits, WaitQ(o, p)), 0));
        k := k.(waits := Delete(k.waits, WaitQ(o, p), 0));
      }
    }

    /** The current task blocks itself inside `acquire`. */
    method BlockInAcquire(c: nat, until: Option<nat>)
      requires Shows() && HasCore(k, c)
      modifies this`tasks, this`lists, this`objects, this`k
      ensures Shows() && k == Kernel.BlockInAcquire(old(k), c, until)
    {
      RetryKeepsCore(k, c);
      hide ChainsShow, ListsShow, Kernel.StopRetrying, BlockCurrent;
      StopRetrying(c);
      Block(c, BlockedQ(c), until);
    }

    /** The current task blocks and joins the wait queue of the semaphore. */
    method WaitFor(c: nat, o: nat, until: Option<nat>)
      requires Valid() && HasCore(k, c) && Current(k, c).status == Running
      modifies this`tasks, this`lists, this`objects, this`k, links
      ensures Shows() && k == Kernel.WaitFor(old(k), c, o, until)
    {
      CurrentFacts(k, links.lists, c);
      var t, prio := cores[c].current, tasks[cores[c].current].prio;
      hide Inv, Held, ChainsShow, ListsShow, Kernel.BlockInAcquire;
      BlockInAcquire(c, until);
      PushWait(o, prio, t);
    }

    /** One turn of the loop of `Semaphore::acquire`: whether the semaphore has been acquired. */
    method SemaphoreAcquire(c: nat, o: nat, until: Option<nat>) returns (ok: bool)
      requires Valid() && Enabled(k, Acquire(c, o, until))
      modifies this`tasks, this`lists, this`objects, this`k, links
      ensures Valid() && k == Step(old(k), Acquire(c, o, until)) && (ok <==> old(objects[o]).count > 0)
      ensures o in objects && objects[o].Semaphore?
      ensures objects[o].count == old(objects[o]).count - if ok then 1 else 0
    {
      AcquireFacts(k, c, o, until);
      hide Inv, Kernel.WaitFor, ChainsShow, ListsShow, Step;
      ok := objects[o].count > 0;
      if ok {
        StopRetrying(c);
        SetObject(o, objects[o].(count := objects[o].count - 1, acquired := objects[o].acquired + 1));
      } else {
        WaitFor(c, o, until);
      }
    }

    /** `Semaphore::try_acquire` */
    method SemaphoreTryAcquire(c: nat, o: nat) returns (ok: bool)
      requires Valid() && Enabled(k, TryAcquire(c, o))
      modifies this`tasks, this`objects, this`k
      ensures Valid() && k == Step(old(k), TryAcquire(c, o)) && (ok <==> old(objects[o]).count > 0)
      ensures o in objects && objects[o].Semaphore?
      ensures objects[o].count == old(objects[o]).count - if ok then 1 else 0
    {
      StepKeeps(k, TryAcquire(c, o));
      AcquireThrough(k, c, o, None);
      hide Inv, Kernel.WaitFor, ChainsShow, ListsShow;
      ok := objects[o].count > 0;
      if ok {
        StopRetrying(c);
        SetObject(o, objects[o].(count := objects[o].count - 1, acquired := objects[o].acquired + 1));
      }
    }

    /** The oldest waiter of the highest priority leaves the wait queue and is woken. */
    method WakeWaiter(c: nat, o: nat)
      requires Shows() && o in objects
      modifies this`tasks, this`lists, this`objects, this`k, links
      ensures Shows() && k == Kernel.WakeWaiter(old(k), c, o)
    {
      hide WakeFrom, TopWait;
      var waiter := PopWait(o);
      if waiter.Some? && waiter.value in tasks {
        var t := waiter.value;
        var q := BlockedQ(tasks[t].core);
        PutList(k, links.lists, lists, q, []);
        hide ChainsShow, ListsShow;
        var at := IndexOf(Get(lists, q), t);
        if at < |Get(lists, q)| {
          WakeKeepsObjects(k, c, q, at);
          WakeupTask(c, q, at);
          SetTask(t, tasks[t].(retrying := Some(o)));
          SetObject(o, objects[o].(woken := objects[o].woken + {t}));
        }
      }
    }

    /** `Semaphore::release` */
    method SemaphoreRelease(c: nat, o: nat)
      requires Valid() && Enabled(k, Release(c, o))
      modifies this`tasks, this`lists, this`objects, this`k, links
      ensures Valid() && k == Step(old(k), Release(c, o))
      ensures o in objects && objects[o].Semaphore? && objects[o].count == old(objects[o]).count + 1
    {
      ReleaseFacts(k, c, o);
      hide Inv, Kernel.WakeWaiter, ChainsShow, ListsShow, Step, Enabled;
      SetObject(o, objects[o].(count := objects[o].count + 1, released := objects[o].released + 1));
      WakeWaiter(c, o);
    }

    /** One turn of the loop of `RecursiveMutex::acquire`: whether the mutex has been acquired.  If not, the task has
        blocked itself and `MutexEnqueue` is next. */
    method MutexAcquire(c: nat, o: nat) returns (ok: bool)
      requires Valid() && Enabled(k, Lock(c, o))
      modifies this`tasks, this`lists, this`objects, this`k, links
      ensures Valid() && k == Step(old(k), Lock(c, o))
      ensures ok <==> old(objects[o]).owner == None || old(objects[o]).owner == Some(old(cores[c].current))
      ensures o in objects && objects[o].Mutex?
      ensures ok ==> objects[o].owner == Some(old(cores[c].current))
      ensures objects[o].depth == if !ok then old(objects[o]).depth
                                  else if old(objects[o]).owner == None then 1
                                  else old(objects[o]).depth + 1
    {
      StepKeeps(k, Lock(c, o));
      LockThrough(k, c, o);
      hide Inv, LockStep, ChainsShow, ListsShow;
      ok := true;
      if objects[o].owner == Some(cores[c].current) {
        TakeMutex(c, o, objects[o].depth + 1);
      } else if objects[o].owner == None {
        TakeMutex(c, o, 1);
      } else {
        BlockForMutex(c, o);
        ok := false;
      }
    }

    /** The current task becomes, or stays, the owner of the mutex. */
    method TakeMutex(c: nat, o: nat, depth: nat)
      requires Shows() && HasCore(k, c) && o in objects && objects[o].Mutex?
      requires objects[o].owner == None || objects[o].owner == Some(cores[c].current)
      requires depth == if objects[o].owner == None then 1 else objects[o].depth + 1
      modifies this`tasks, this`objects, this`k
      ensures Shows() && k == LockStep(old(k), c, o)
    {
      hide ChainsShow, ListsShow;
      var t := cores[c].current;
      StopRetrying(c);
      SetObject(o, objects[o].(owner := Some(t), depth := depth,
                               nesting := objects[o].nesting[t := Nesting(objects[o], t) + 1]));
    }

    /** The branch of `RecursiveMutex::acquire` for a mutex that another task has locked. */
    method BlockForMutex(c: nat, o: nat)
      requires Shows() && HasCore(k, c) && o in objects && objects[o].Mutex? && objects[o].owner.Some?
      requires objects[o].owner != Some(cores[c].current)
      modifies this`tasks, this`lists, this`objects, this`k
      ensures Shows() && k == LockStep(old(k), c, o)
    {
      hide Kernel.BlockInAcquire, ChainsShow, ListsShow;
      var t := cores[c].current;
      BlockInAcquire(c, None);
      SetTask(t, tasks[t].(queueing := Some(o)));
    }

    /** The end of a turn that has not acquired the mutex: the task enters the wait queue. */
    method MutexEnqueue(c: nat)
      requires Valid() && Enabled(k, Enqueue(c))
      modifies this`tasks, this`k, links
      ensures Valid() && k == Step(old(k), Enqueue(c))
    {
      StepKeeps(k, Enqueue(c));
      QueueingFacts(k, links.lists, c);
      hide Inv, Held, ChainsShow, ListsShow;
      var t := cores[c].current;
      PushWait(tasks[t].queueing.value, tasks[t].prio, t);
      SetTask(t, tasks[t].(queueing := None));
    }

    /** `RecursiveMutex::release` by the owner */
    method MutexRelease(c: nat, o: nat)
      requires Valid() && Enabled(k, Unlock(c, o))
      modifies this`tasks, this`lists, this`objects, this`k, links
      ensures Valid() && k == Step(old(k), Unlock(c, o))
      ensures o in objects && objects[o].Mutex? && objects[o].depth == old(objects[o]).depth - 1
      ensures objects[o].owner == if objects[o].depth == 0 then None else Some(old(cores[c].current))
    {
      StepKeeps(k, Unlock(c, o));
      UnlockThrough(k, c, o);
      hide Inv, Kernel.WakeWaiter, ChainsShow, ListsShow;
      var t := cores[c].current;
      var n := if Nesting(objects[o], t) > 0 then Nesting(objects[o], t) - 1 else 0;
      var m := objects[o].(depth := objects[o].depth - 1, nesting := objects[o].nesting[t := n]);
      if m.depth == 0 {
        SetObject(o, m.(owner := None));
        WakeWaiter(c, o);
      } else {
        SetObject(o, m);
      }
    }

    // ----- Whole calls and whole runs -----

    /** `wakeup_all` for the joiners of a finished task. */
    method WakeJoiners(c: nat, ghost start: State, ghost before: seq<Action>) returns (ghost actions: seq<Action>)
      requires Valid() && HasCore(k, c) && Run(start, before) == Some(k) && Get(k.queues, PushQ(c)) == []
      requires cores[c].phase == Draining || cores[c].phase == Reading
      modifies this`tasks, this`lists, this`cores, this`k, links
      ensures Valid() && HasCore(k, c) && Run(start, actions) == Some(k) && Get(k.queues, PushQ(c)) == []
      ensures cores[c].phase == Reading && SamePlaces(old(k), k)
    {
      actions := before;
      hide Inv, Run, Step;
      while cores[c].phase == Draining
        invariant Valid() && HasCore(k, c) && Run(start, actions) == Some(k)
        invariant cores[c].phase == Draining || cores[c].phase == Reading
        invariant Get(k.queues, PushQ(c)) == [] && SamePlaces(old(k), k)
        decreases |Get(k.queues, DrainQ(c))|, cores[c].phase == Draining
      {
        DrainProgress(k, c);
        RunMore(start, actions, k, Drain(c));
        DrainNext(c);
        actions := actions + [Drain(c)];
        if cores[c].phase == Draining {
          RunMore(start, actions, k, Push(c));
          PushProgress(k, c);
          PushWoken(c);
          actions := actions + [Push(c)];
        }
      }
    }

    /** `scheduler` on core `c`, without steps of other cores in between: clean up, wake the joiners of a finished
        task, read the current status and decide.  Afterwards no ready task of the core has a higher priority
        than its current task, and that goes on where it was interrupted or in its own code. */
    method Scheduler(c: nat, expired: bool) returns (ghost actions: seq<Action>)
      requires Valid() && Enabled(k, Cleanup(c)) && Get(k.queues, PushQ(c)) == []
      modifies this`tasks, this`registered, this`lists, this`cores, this`k, links
      ensures Valid() && Run(old(k), actions) == Some(k) && HasCore(k, c) && cores[c].current in old(k).tasks
      ensures cores[c].phase == ResumedPhase(old(k).tasks[cores[c].current])
      ensures forall j :: Current(k, c).prio < j < NO_PRIORITIES ==> Get(k.queues, ReadyQ(c, j)) == []
    {
      hide Inv, Run, Step, DecideStep;
      ghost var start := k;
      CleanupPhase(k, c);
      CleanupTasks(c);
      actions := [Cleanup(c)];
      if cores[c].phase.Cleaning? {
        RunMore(start, actions, k, Action.Forget(c));
        ForgetPhase(k, c);
        ForgetTask(c);
        actions := actions + [Action.Forget(c)];
      }
      actions := WakeJoiners(c, start, actions);
      ReadProgress(k, c, expired);
      RunMore(start, actions, k, Read(c));
      ReadStatus(c);
      actions := actions + [Read(c)];
      RunMore(start, actions, k, Action.Decide(c, expired));
      Decide(c, expired);
      actions := actions + [Action.Decide(c, expired)];
    }

    /** One step of the step system, carried out by the code. */
    method Execute(a: Action)
      requires Valid() && Enabled(k, a) && Tame(k, a)
      modifies this`tasks, this`registered, this`lists, this`cores, this`objects, this`k, links
      ensures Valid() && k == Step(old(k), a)
    {
      StepKeeps(k, a);
      hide Inv, ChainsShow, ListsShow, Held, Linear, BlockCurrent;
      match a
      case Spawn(c, target, prio, tid, quiet) => Spawn(c, target, prio, tid, quiet);
      case Register(c) => Register(c);
      case Clone(c, target, tid) => Clone(c, target, tid);
      case Exit(c) => Exit(c);
      case Yield(c) => EnterScheduler(c, false);
      case Call(c) => EnterScheduler(c, true);
      case Cleanup(c) => CleanupTasks(c);
      case Forget(c) => ForgetTask(c);
      case Drain(c) => DrainNext(c);
      case Push(c) => PushWoken(c);
      case Read(c) => ReadStatus(c);
      case Decide(c, expired) => Decide(c, expired);
      case Join(c, tid) => var _ := Join(c, tid);
      case Sleep(c, until) => Sleep(c, until);
      case Tick(c, now) => SetPhase(c, Ticking(now));
      case Nest(c, now) => Nest(c, now);
      case NestLate(c, now) => Nest(c, now);
      case Expire(c) => HandleWaitingTask(c);
      case Acquire(c, o, until) => var _ := SemaphoreAcquire(c, o, until);
      case TryAcquire(c, o) => var _ := SemaphoreTryAcquire(c, o);
      case Release(c, o) => SemaphoreRelease(c, o);
      case Lock(c, o) => var _ := MutexAcquire(c, o);
      case Enqueue(c) => MutexEnqueue(c);
      case Unlock(c, o) => MutexRelease(c, o);
    }

    /** The code follows every tame run, and the chains of all ready queues and all wait queues, which share the links
        of the tasks, are in order after every step of it. */
    method Replay(actions: seq<Action>)
      requires Valid() && TameRun(k, actions) && Run(k, actions).Some?
      modifies this`tasks, this`registered, this`lists, this`cores, this`objects, this`k, links
      ensures Valid() && Run(old(k), actions) == Some(k)
    {
      hide Inv, Step, Enabled, Tame;
      for i := 0 to |actions|
        invariant Valid() && TameRun(k, actions[i..]) && Run(k, actions[i..]) == Run(old(k), actions)
      {
        assert actions[i] in actions && actions[i..][0] == actions[i] && actions[i..][1..] == actions[i + 1..];
        assert Enabled(k, actions[i]);
        Execute(actions[i]);
      }
    }
  }

  lemma CleanupPhase(k: State, c: nat)
    requires Inv(k) && Enabled(k, Cleanup(c)) && Get(k.queues, PushQ(c)) == []
    ensures var k' := Step(k, Cleanup(c));
            && Run(k, [Cleanup(c)]) == Some(k') && HasCore(k', c) && Get(k'.queues, PushQ(c)) == []
            && (k'.cores[c].phase.Cleaning? || k'.cores[c].phase == Reading) && SamePlaces(k, k')
  {
    StepKeeps(k, Cleanup(c));
    RunMore(k, [], k, Cleanup(c));
    assert [] + [Cleanup(c)] == [Cleanup(c)];
    hide Inv;
  }

  lemma ForgetPhase(k: State, c: nat)
    requires Inv(k) && Enabled(k, Action.Forget(c)) && Get(k.queues, PushQ(c)) == []
    ensures var k' := Step(k, Action.Forget(c));
            && HasCore(k', c) && Get(k'.queues, PushQ(c)) == []
            && (k'.cores[c].phase == Draining || k'.cores[c].phase == Reading) && SamePlaces(k, k')
  {
    StepKeeps(k, Action.Forget(c));
    OfCore(Step(k, Action.Forget(c)), c);
    hide Inv;
  }

  lemma DrainProgress(k: State, c: nat)
    requires Inv(k) && Enabled(k, Drain(c))
    ensures var k' := Step(k, Drain(c));
            && HasCore(k', c) && SamePlaces(k, k')
            && if Get(k.queues, DrainQ(c)) == [] then k'.cores[c].phase == Reading && k'.queues == k.queues
               else && k'.cores[c].phase == Draining && Enabled(k', Push(c))
                    && Get(k'.queues, DrainQ(c)) == Get(k.queues, DrainQ(c))[1..] && |Get(k'.queues, PushQ(c))| == 1
  {
    var list := Get(k.queues, DrainQ(c));
    if list != [] {
      OfQueue(k, DrainQ(c), list[0]);
    }
    hide Inv;
  }

  lemma PushProgress(k: State, c: nat)
    requires Enabled(k, Push(c)) && HasCore(k, c) && |Get(k.queues, PushQ(c))| == 1
    ensures var k' := Step(k, Push(c));
            && k'.cores == k.cores && k'.tasks == k.tasks && Get(k'.queues, PushQ(c)) == []
            && Get(k'.queues, DrainQ(c)) == Get(k.queues, DrainQ(c))
  {
  }

  lemma ReadProgress(k: State, c: nat, expired: bool)
    requires Inv(k) && HasCore(k, c) && k.cores[c].phase == Reading
    ensures Enabled(k, Read(c)) && Enabled(Step(k, Read(c)), Action.Decide(c, expired))
    ensures var k' := Step(Step(k, Read(c)), Action.Decide(c, expired));
            && HasCore(k', c) && k'.cores[c].current in k.tasks
            && k'.cores[c].phase == ResumedPhase(k.tasks[k'.cores[c].current])
            && forall j :: Current(k', c).prio < j < NO_PRIORITIES ==> Get(k'.queues, ReadyQ(c, j)) == []
  {
    var k1 := Step(k, Read(c));
    StepKeeps(k, Read(c));
    StepKeeps(k1, Action.Decide(c, expired));
    DecisionRespectsPriority(k1, c, expired);
    DecideLeaves(k1, c, expired);
    hide Inv, DecideStep;
  }

  /** After a decision the current task goes on where it was interrupted, or in its own code. */
  lemma DecideLeaves(k: State, c: nat, expired: bool)
    requires Inv(k) && Enabled(k, Action.Decide(c, expired))
    ensures var k' := Step(k, Action.Decide(c, expired));
            && HasCore(k', c) && k'.cores[c].current in k.tasks
            && k'.cores[c].phase == ResumedPhase(k.tasks[k'.cores[c].current])
  {
    OfCore(k, c);
    var seen := k.cores[c].phase.seen;
    hide Inv, Choose, PutAside, SwitchTo;
    match Choose(k, c, seen, expired)
    case Stay =>
    case GoIdle => SwitchLeaves(k, k, c, seen, k.cores[c].idle);
    case Dispatch(level) =>
      var t := Get(k.queues, ReadyQ(c, level))[0];
      OfQueue(k, ReadyQ(c, level), t);
      SwitchLeaves(k, k.(queues := Delete(k.queues, ReadyQ(c, level), 0)), c, seen, t);
  }

  lemma SwitchLeaves(k: State, k1: State, c: nat, seen: Status, t: Tid)
    requires HasCore(k, c) && k1 == k.(queues := k1.queues) && t in k.tasks
    requires seen == Finished ==> t != k.cores[c].current
    ensures var k' := SwitchTo(PutAside(k1, c, seen), c, t);
            HasCore(k', c) && k'.cores[c].current == t && k'.cores[c].phase == ResumedPhase(k.tasks[t])
  {
  }

  /** Whoever was interrupted will go on at the same place. */
  ghost predicate SamePlaces(k: State, k': State) {
    forall t :: t in k'.tasks ==> t in k.tasks && k'.tasks[t].inside == k.tasks[t].inside
  }

  lemma TopWaitIs(waits: map<WaitId, seq<Tid>>, o: nat, level: int)
    requires -1 <= level < NO_PRIORITIES && (level >= 0 ==> Get(waits, WaitQ(o, level)) != [])
    requires forall p :: level < p < NO_PRIORITIES ==> Get(waits, WaitQ(o, p)) == []
    ensures TopWait(waits, o, NO_PRIORITIES) == level
  {
  }

  lemma WakeKeepsObjects(k: State, c: nat, q: QueueId, at: nat)
    requires at < |Get(k.queues, q)| && Get(k.queues, q)[at] in k.tasks
    ensures WakeFrom(k, c, q, at).objects == k.objects && WakeFrom(k, c, q, at).tasks.Keys == k.tasks.Keys
  {
  }

  lemma RetryKeepsCore(k: State, c: nat)
    requires HasCore(k, c)
    ensures HasCore(StopRetrying(k, c), c) && StopRetrying(k, c).cores == k.cores
  {
  }

  lemma BlockKeepsWaits(k: State, c: nat, q: QueueId, until: Option<nat>)
    requires HasCore(k, c)
    ensures BlockCurrent(k, c, q, until).waits == k.waits
  {
  }

  /** `t` is met on the way from `start` up to, but not including, `id`. */
  predicate Between(start: Tid, t: Tid, id: Tid) {
    if start <= id then start <= t < id else start <= t < TID_LIMIT || t < id
  }
}
