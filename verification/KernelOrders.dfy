/**
 Tasks against the calls that were made: the core and the priority of a task are those it was created with, and the
 wakeup time of a sleeper is the one it asked for.  Both are computed from the actions of the run.
 */
module KernelOrders {
  import opened Registry
  import opened Kernel
  import opened KernelSafety
  import opened Options

  // ----- What one step does to the tasks -----

  /** No task appears, and core, priority and wakeup time of the tasks stay. */
  predicate SameOrders(k: State, k': State) {
    forall t :: t in k'.tasks ==>
      && t in k.tasks && k'.tasks[t].core == k.tasks[t].core && k'.tasks[t].prio == k.tasks[t].prio
      && k'.tasks[t].deadline == k.tasks[t].deadline
  }

  /** As `SameOrders`, and interrupted calls of the scheduler stay where they are. */
  predicate Kept(k: State, k': State) {
    SameOrders(k, k') && forall t :: t in k'.tasks && t in k.tasks ==> k'.tasks[t].inside == k.tasks[t].inside
  }

  /** As `Kept`, but `t` now waits up to `until`. */
  predicate NowWaits(k: State, k': State, t: Tid, until: Option<nat>) {
    && k'.tasks.Keys == k.tasks.Keys && t in k.tasks && k'.tasks[t].deadline == until && k'.tasks[t].status == Blocked
    && forall x :: x in k.tasks ==>
         && k'.tasks[x].core == k.tasks[x].core && k'.tasks[x].prio == k.tasks[x].prio
         && (x != t ==> k'.tasks[x].deadline == k.tasks[x].deadline) && k'.tasks[x].inside == k.tasks[x].inside
  }

  /** As `Kept`, but `tid` is a new ready task. */
  predicate NowExists(k: State, k': State, tid: Tid, core: nat, prio: nat) {
    && k'.tasks.Keys == k.tasks.Keys + {tid} && tid !in k.tasks
    && k'.tasks[tid].core == core && k'.tasks[tid].prio == prio && k'.tasks[tid].status == Ready
    && k'.tasks[tid].deadline == None && k'.tasks[tid].inside == None
    && forall x :: x in k.tasks ==>
         && k'.tasks[x].core == k.tasks[x].core && k'.tasks[x].prio == k.tasks[x].prio
         && k'.tasks[x].deadline == k.tasks[x].deadline && k'.tasks[x].inside == k.tasks[x].inside
  }

  /** How long the current task of the core waits from now on, if the step is one in which it blocks: forever in `join`
      and for a mutex, and as long as the caller said in `sleep` and for a semaphore. */
  function Waits(k: State, a: Action): Option<Option<nat>> {
    match a
    case Sleep(c, wakeup) => Some(Some(wakeup))
    case Join(c, tid) => if tid in k.registered then Some(None) else None
    case Acquire(c, o, until) =>
      if o in k.objects && k.objects[o].Semaphore? && k.objects[o].count <= 0 then Some(until) else None
    case Lock(c, o) =>
      if && o in k.objects && k.objects[o].Mutex? && c < |k.cores|
         && k.objects[o].owner.Some? && k.objects[o].owner != Some(k.cores[c].current) then Some(None) else None
    case _ => None
  }

  /** What the caller of a step can expect of the tasks: the new task of `spawn` and `clone`, with the priority of the
      caller in `clone`, or the wakeup time of a task that blocks, and nothing else. */
  predicate Ordered(k: State, a: Action, k': State)
    requires Enabled(k, a)
  {
    if a.Spawn? then NowExists(k, k', a.tid, a.target, a.prio)
    else if a.Clone? then NowExists(k, k', a.tid, a.target, k.tasks[k.cores[a.core].current].prio)
    else if Waits(k, a).Some? then NowWaits(k, k', k.cores[a.core].current, Waits(k, a).value)
    else if a.Decide? || a.Nest? || a.NestLate? then SameOrders(k, k')
    else Kept(k, k')
  }

  lemma OrderStep(k: State, a: Action)
    requires Enabled(k, a)
    ensures Ordered(k, a, Step(k, a))
  {
    hide DecideStep, CleanupStep, ForgetStep, DrainStep, PushStep, ExpireStep, BlockCurrent, AcquireStep, ReleaseStep,
      LockStep, UnlockStep, NowWaits, SameOrders, Kept;
    match a
    case Decide(c, expired) => DecideOrders(k, c, k.cores[c].phase.seen, expired);
    case Cleanup(c) => CleanupOrders(k, c, 0);
    case Forget(c) => CleanupOrders(k, c, k.cores[c].phase.id);
    case Drain(c) => WakeupOrders(k, c, 0);
    case Expire(c) => WakeupOrders(k, c, k.cores[c].phase.now);
    case Push(c) => PushOrders(k, c);
    case Join(c, tid) => BlockOrders(k, c, JoinQ(tid), None);
    case Sleep(c, until) => BlockOrders(k, c, BlockedQ(c), Some(until));
    case Acquire(c, o, until) => AcquireOrders(k, c, o, until);
    case TryAcquire(c, o) => AcquireOrders(k, c, o, None);
    case Release(c, o) => ReleaseOrders(k, c, o);
    case Lock(c, o) => LockOrders(k, c, o);
    case Unlock(c, o) => UnlockOrders(k, c, o);
    case _ => OtherOrders(k, a);
  }

  lemma BlockerRuns(k: State, a: Action)
    requires Enabled(k, a)
    ensures Waits(k, a).Some? ==> HasCore(k, a.core) && Current(k, a.core).status == Running
  {
  }

  lemma OtherOrders(k: State, a: Action)
    requires Enabled(k, a)
    ensures var k' := Step(k, a);
            match a
            case Spawn(c, target, prio, tid, quiet) => NowExists(k, k', tid, target, prio)
            case Clone(c, target, tid) => NowExists(k, k', tid, target, k.tasks[k.cores[c].current].prio)
            case Register(_) => Kept(k, k')
            case Exit(_) => Kept(k, k')
            case Yield(_) => Kept(k, k')
            case Call(_) => Kept(k, k')
            case Read(_) => Kept(k, k')
            case Tick(_, _) => Kept(k, k')
            case Nest(_, _) => SameOrders(k, k')
            case NestLate(_, _) => SameOrders(k, k')
            case Enqueue(_) => Kept(k, k')
            case _ => true
  {
    hide DecideStep, CleanupStep, ForgetStep, DrainStep, PushStep, ExpireStep, BlockCurrent, AcquireStep, ReleaseStep,
      LockStep, UnlockStep;
  }

  lemma CleanupOrders(k: State, c: nat, id: Tid)
    requires HasCore(k, c)
    ensures Kept(k, CleanupStep(k, c)) && Kept(k, ForgetStep(k, c, id))
  {
  }

  lemma WakeupOrders(k: State, c: nat, now: nat)
    requires HasCore(k, c)
    ensures Kept(k, DrainStep(k, c)) && Kept(k, ExpireStep(k, c, now))
  {
  }

  lemma PushOrders(k: State, c: nat)
    requires Get(k.queues, PushQ(c)) != [] && Get(k.queues, PushQ(c))[0] in k.tasks
    ensures Kept(k, PushStep(k, c))
  {
  }

  lemma BlockOrders(k: State, c: nat, q: QueueId, until: Option<nat>)
    requires HasCore(k, c)
    ensures NowWaits(k, BlockCurrent(k, c, q, until), k.cores[c].current, until) && Kept(k, k)
  {
  }

  lemma StopOrders(k: State, c: nat)
    requires HasCore(k, c)
    ensures var k1 := StopRetrying(k, c); Kept(k, k1) && k1.tasks.Keys == k.tasks.Keys && k1.cores == k.cores
  {
  }

  lemma BlockInOrders(k: State, c: nat, until: Option<nat>)
    requires HasCore(k, c)
    ensures NowWaits(k, BlockInAcquire(k, c, until), k.cores[c].current, until)
  {
    StopOrders(k, c);
    BlockOrders(StopRetrying(k, c), c, BlockedQ(c), until);
    hide StopRetrying, BlockCurrent;
  }

  lemma AcquireOrders(k: State, c: nat, o: nat, until: Option<nat>)
    requires HasCore(k, c) && o in k.objects && k.objects[o].Semaphore?
    ensures if k.objects[o].count > 0 then Kept(k, AcquireStep(k, c, o, until))
            else NowWaits(k, AcquireStep(k, c, o, until), k.cores[c].current, until) && Kept(k, k)
  {
    StopOrders(k, c);
    BlockInOrders(k, c, until);
    hide StopRetrying, BlockInAcquire;
  }

  lemma WakeOrders(k: State, c: nat, o: nat)
    requires o in k.objects
    ensures Kept(k, WakeWaiter(k, c, o))
  {
  }

  lemma ReleaseOrders(k: State, c: nat, o: nat)
    requires o in k.objects && k.objects[o].Semaphore?
    ensures Kept(k, ReleaseStep(k, c, o))
  {
    var s := k.objects[o];
    WakeOrders(k.(objects := k.objects[o := s.(count := s.count + 1, released := s.released + 1)]), c, o);
    hide WakeWaiter;
  }

  lemma LockOrders(k: State, c: nat, o: nat)
    requires HasCore(k, c) && o in k.objects && k.objects[o].Mutex?
    ensures var t, m := k.cores[c].current, k.objects[o];
            if m.owner == Some(t) || m.owner.None? then Kept(k, LockStep(k, c, o))
            else NowWaits(k, LockStep(k, c, o), t, None)
  {
    StopOrders(k, c);
    BlockInOrders(k, c, None);
    hide StopRetrying, BlockInAcquire;
  }

  lemma UnlockOrders(k: State, c: nat, o: nat)
    requires HasCore(k, c) && o in k.objects && k.objects[o].Mutex? && k.objects[o].depth > 0
    ensures Kept(k, UnlockStep(k, c, o))
  {
    var m := k.objects[o];
    var n := if Nesting(m, k.cores[c].current) > 0 then Nesting(m, k.cores[c].current) - 1 else 0;
    var m1 := m.(depth := m.depth - 1, nesting := m.nesting[k.cores[c].current := n]);
    WakeOrders(k.(objects := k.objects[o := m1.(owner := None)]), c, o);
    hide WakeWaiter;
  }

  lemma DecideOrders(k: State, c: nat, seen: Status, expired: bool)
    requires HasCore(k, c)
    ensures SameOrders(k, DecideStep(k, c, seen, expired))
  {
    hide Choose, PutAside, SwitchTo, Resume, SameOrders;
    match Choose(k, c, seen, expired)
    case Stay => SwitchOrders(k, c, k.cores[c].current);
    case Dispatch(level) =>
      AsideOrders(k.(queues := Delete(k.queues, ReadyQ(c, level), 0)), k, c, seen,
                  Get(k.queues, ReadyQ(c, level))[0]);
    case GoIdle => AsideOrders(k, k, c, seen, k.cores[c].idle);
  }

  lemma SwitchOrders(k: State, c: nat, t: Tid)
    requires c < |k.cores| && t in k.tasks
    ensures SameOrders(k, SwitchTo(k, c, t)) && SameOrders(k, Resume(k, c, t))
  {
  }

  lemma AsideOrders(k1: State, k: State, c: nat, seen: Status, t: Tid)
    requires HasCore(k, c) && k1 == k.(queues := k1.queues)
    ensures var a := PutAside(k1, c, seen); SameOrders(k, if t in a.tasks then SwitchTo(a, c, t) else a)
  {
    var a := PutAside(k1, c, seen);
    assert SameOrders(k, a);
    hide PutAside;
    if t in a.tasks {
      SwitchOrders(a, c, t);
      hide SwitchTo;
    }
  }

  // ----- Births -----

  /** The core and the priority of a task. */
  datatype Birth = Birth(core: nat, prio: nat)

  /** What a step creates: `spawn` as its arguments say, `clone` with the priority of the caller's own birth. */
  function Born(k: State, a: Action, given: map<Tid, Birth>): map<Tid, Birth> {
    match a
    case Spawn(c, target, prio, tid, quiet) => given[tid := Birth(target, prio)]
    case Clone(c, target, tid) =>
      if c < |k.cores| && k.cores[c].current in given then given[tid := Birth(target, given[k.cores[c].current].prio)]
      else given
    case _ => given
  }

  function Births(k: State, actions: seq<Action>, given: map<Tid, Birth>): map<Tid, Birth>
    decreases |actions|
  {
    if actions == [] || !Enabled(k, actions[0]) then given
    else Births(Step(k, actions[0]), actions[1..], Born(k, actions[0], given))
  }

  /** Every task is as it was born. */
  predicate AsBorn(k: State, given: map<Tid, Birth>) {
    forall t :: t in k.tasks ==> t in given && given[t] == Birth(k.tasks[t].core, k.tasks[t].prio)
  }

  lemma BornStep(k: State, a: Action, given: map<Tid, Birth>)
    requires Enabled(k, a) && AsBorn(k, given)
    ensures AsBorn(Step(k, a), Born(k, a, given))
  {
    hide Step, Waits;
    OrderStep(k, a);
  }

  lemma {:induction false} BirthsOverRun(k: State, actions: seq<Action>, given: map<Tid, Birth>)
    requires Run(k, actions).Some? && AsBorn(k, given)
    ensures AsBorn(Run(k, actions).value, Births(k, actions, given))
    decreases |actions|
  {
    if actions != [] {
      BornStep(k, actions[0], given);
      hide Step, AsBorn;
      BirthsOverRun(Step(k, actions[0]), actions[1..], Born(k, actions[0], given));
    }
  }

  /** After boot there are the idle tasks, of the lowest priority. */
  function IdleBirths(k: State): map<Tid, Birth> {
    map t | t in k.tasks :: Birth(k.tasks[t].core, 0)
  }

  /** In every run from boot each task has the core and the priority it was created with, through all its clones. */
  lemma TasksAreAsBorn(start: State, actions: seq<Action>, t: Tid)
    requires Initial(start) && Run(start, actions).Some? && t in Run(start, actions).value.tasks
    ensures var k, births := Run(start, actions).value, Births(start, actions, IdleBirths(start));
            t in births && k.tasks[t].core == births[t].core && k.tasks[t].prio == births[t].prio
  {
    BirthsOverRun(start, actions, IdleBirths(start));
  }

  // ----- Wakeup times -----

  /** When the tasks want to be woken: who blocks in this step says so, a new task does not. */
  function Wished(k: State, a: Action, wishes: map<Tid, Option<nat>>): map<Tid, Option<nat>> {
    match a
    case Spawn(c, target, prio, tid, quiet) => wishes[tid := None]
    case Clone(c, target, tid) => wishes[tid := None]
    case _ => if Waits(k, a).Some? && a.core < |k.cores| then wishes[k.cores[a.core].current := Waits(k, a).value]
              else wishes
  }

  function Wishes(k: State, actions: seq<Action>, wishes: map<Tid, Option<nat>>): map<Tid, Option<nat>>
    decreases |actions|
  {
    if actions == [] || !Enabled(k, actions[0]) then wishes
    else Wishes(Step(k, actions[0]), actions[1..], Wished(k, actions[0], wishes))
  }

  predicate AsWished(k: State, wishes: map<Tid, Option<nat>>) {
    forall t :: t in k.tasks ==> t in wishes && k.tasks[t].deadline == wishes[t]
  }

  lemma WishedStep(k: State, a: Action, wishes: map<Tid, Option<nat>>)
    requires Enabled(k, a) && AsWished(k, wishes)
    ensures AsWished(Step(k, a), Wished(k, a, wishes))
  {
    hide Step, Waits, Enabled;
    OrderStep(k, a);
    BlockerRuns(k, a);
  }

  lemma {:induction false} WishesOverRun(k: State, actions: seq<Action>, wishes: map<Tid, Option<nat>>)
    requires Run(k, actions).Some? && AsWished(k, wishes)
    ensures AsWished(Run(k, actions).value, Wishes(k, actions, wishes))
    decreases |actions|
  {
    if actions != [] {
      WishedStep(k, actions[0], wishes);
      hide Step, AsWished;
      WishesOverRun(Step(k, actions[0]), actions[1..], Wished(k, actions[0], wishes));
    }
  }

  /** In every run from boot the wakeup time of a task is what it asked for when it last blocked. */
  lemma DeadlinesAreAsWished(start: State, actions: seq<Action>, t: Tid)
    requires Initial(start) && Run(start, actions).Some? && t in Run(start, actions).value.tasks
    ensures var k := Run(start, actions).value;
            var wishes := Wishes(start, actions, map x | x in start.tasks :: None);
            t in wishes && k.tasks[t].deadline == wishes[t]
  {
    WishesOverRun(start, actions, map x | x in start.tasks :: None);
  }

  // ----- Interrupted calls -----

  /** Core `c` runs `t` from place `p` of an interrupted call of the scheduler on. */
  predicate GoesOn(k: State, c: nat, t: Tid, p: Phase) {
    c < |k.cores| && k.cores[c].current == t && k.cores[c].phase == p && k.cores[c].loud
  }

  /** An interrupt remembers where it came, and the interrupted call goes on there when its task gets the processor
      again; until then nothing changes the place, unless the task is retired. */
  lemma InterruptedGoesOn(k: State, a: Action, t: Tid)
    requires Inv(k) && Enabled(k, a) && t in k.tasks && t in Step(k, a).tasks
    ensures var x, k', x' := k.tasks[t], Step(k, a), Step(k, a).tasks[t];
            if (a.Nest? || a.NestLate?) && k.cores[a.core].current == t then x'.inside == Some(k.cores[a.core].phase)
            else
              || x'.inside == x.inside
              || (a.Decide? && x.inside.Some? && GoesOn(k', a.core, t, x.inside.value))
              || (a.Decide? && x'.status == Invalid)
  {
    if a.Decide? {
      hide Inv, Step;
      DecideInside(k, a.core, k.cores[a.core].phase.seen, a.expired, t);
      assert Step(k, a) == DecideStep(k, a.core, k.cores[a.core].phase.seen, a.expired) by {
        DecidedStep(k, a);
      }
    } else if a.Nest? || a.NestLate? {
      NestInside(k, a, t);
      hide Inv, Step, Enabled;
    } else {
      hide Inv, Step, Enabled, Waits;
      OrderStep(k, a);
    }
  }

  lemma NestInside(k: State, a: Action, t: Tid)
    requires Enabled(k, a) && (a.Nest? || a.NestLate?) && t in k.tasks
    ensures HasCore(k, a.core) && t in Step(k, a).tasks
    ensures Step(k, a).tasks[t].inside ==
            if k.cores[a.core].current == t then Some(k.cores[a.core].phase) else k.tasks[t].inside
  {
  }

  lemma DecidedStep(k: State, a: Action)
    requires Enabled(k, a) && a.Decide?
    ensures Step(k, a) == DecideStep(k, a.core, k.cores[a.core].phase.seen, a.expired)
  {
  }

  lemma DecideInside(k: State, c: nat, seen: Status, expired: bool, t: Tid)
    requires Inv(k) && HasCore(k, c) && k.cores[c].phase == Deciding(seen) && t in k.tasks
    ensures var x, k' := k.tasks[t], DecideStep(k, c, seen, expired);
            t in k'.tasks ==>
              || k'.tasks[t].inside == x.inside
              || (x.inside.Some? && GoesOn(k', c, t, x.inside.value))
              || k'.tasks[t].status == Invalid
  {
    OfCore(k, c);
    hide Choose, PutAside, SwitchTo;
    match Choose(k, c, seen, expired)
    case Stay =>
    case Dispatch(level) =>
      OfQueue(k, ReadyQ(c, level), Get(k.queues, ReadyQ(c, level))[0]);
      hide Inv;
      AsideInside(k.(queues := Delete(k.queues, ReadyQ(c, level), 0)), k, c, seen,
                  Get(k.queues, ReadyQ(c, level))[0], t);
    case GoIdle => AsideInside(k, k, c, seen, k.cores[c].idle, t);
  }

  lemma AsideInside(k1: State, k: State, c: nat, seen: Status, n: Tid, t: Tid)
    requires HasCore(k, c) && k1 == k.(queues := k1.queues) && t in k.tasks
    requires seen == Finished ==> n != k.cores[c].current
    ensures var a := PutAside(k1, c, seen);
            var x, k' := k.tasks[t], if n in a.tasks then SwitchTo(a, c, n) else a;
            t in k'.tasks ==>
              || k'.tasks[t].inside == x.inside
              || (x.inside.Some? && GoesOn(k', c, t, x.inside.value))
              || k'.tasks[t].status == Invalid
  {
  }
}
