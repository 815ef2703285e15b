/**
 Safety of the kernel over every run: each task's status agrees with where it is, whatever the cores do
 and however their steps interleave.
 */
module KernelSafety {
  import opened Registry
  import opened Kernel
  import opened Options
  import opened Priorities

  // ----- The invariant -----

  /** What being in a queue says about a task. */
  predicate Fits(k: State, q: QueueId, t: Tid) {
    && t in k.tasks
    && match q
       case ReadyQ(c, prio) => k.tasks[t].status == Ready && k.tasks[t].core == c && k.tasks[t].prio == prio
       case PushQ(c) => k.tasks[t].status == Ready && c < |k.cores|
       case BlockedQ(c) => k.tasks[t].status == Blocked && k.tasks[t].core == c
       case JoinQ(id) => k.tasks[t].status == Blocked && id in k.registered && k.tasks[t].deadline == None
       case DrainQ(c) => k.tasks[t].status == Blocked && c < |k.cores|
       case FinishedQ(c) => k.tasks[t].status == Invalid && k.tasks[t].core == c
  }

  ghost predicate QueuesOk(k: State) {
    && Linear(k.queues)
    && (forall q, t :: t in Get(k.queues, q) ==> Fits(k, q, t))
  }

  /** A task in the middle of `spawn` is not blocked or finished, and the new task is not in TASKS yet. */
  predicate SpawnOk(k: State, x: Task) {
    x.spawning.Some? ==>
      && (x.status == Running || x.status == Ready || x.status == Idle)
      && x.spawning.value.tid in k.tasks && x.spawning.value.tid !in k.registered
  }

  /** An interrupted call of the scheduler that had read the status of its task will find it unchanged. */
  predicate InsideOk(x: Task) {
    x.inside.Some? ==>
      match x.inside.value
      case Entering => true
      case Reading => true
      case Cleaning(id) => true
      case Deciding(seen) => FirmStatus(seen) && (x.status == seen || (x.status == Ready && seen == Running))
      case _ => false
  }

  /** Statuses that nobody but the task itself and its scheduler changes. */
  predicate FirmStatus(s: Status) {
    s == Running || s == Finished || s == Idle
  }

  /** The task that an interrupted call of the scheduler was about to clean up. */
  function Cleans(x: Task): Option<Tid> {
    if x.inside.Some? && x.inside.value.Cleaning? then Some(x.inside.value.id) else None
  }

  /** Where a task must be, given its status. */
  ghost predicate TaskOk(k: State, t: Tid)
    requires t in k.tasks
  {
    var x := k.tasks[t];
    && x.core < |k.cores| && x.prio < NO_PRIORITIES && SpawnOk(k, x) && InsideOk(x)
    && match x.status
       case Running => k.cores[x.core].current == t
       case Finished => k.cores[x.core].current == t
       case Idle => k.cores[x.core].idle == t
       case Ready => Held(k.queues, t)
       case Blocked => Held(k.queues, t)
       case Invalid => true
  }

  ghost predicate TasksOk(k: State) {
    && k.registered <= k.tasks.Keys
    && (forall t :: t in k.tasks ==> TaskOk(k, t))
  }

  predicate SpawnsOk(k: State) {
    forall t, u :: t in k.tasks && u in k.tasks && t != u ==> SpawnsApart(k.tasks[t], k.tasks[u])
  }

  /** No two tasks are in the middle of spawning the same task. */
  predicate SpawnsApart(x: Task, y: Task) {
    x.spawning.Some? && y.spawning.Some? ==> x.spawning.value.tid != y.spawning.value.tid
  }

  /** A task whose cleanup was interrupted is retired, has left the list of its core and is not cleaned up by it. */
  predicate CleanerOk(k: State, t: Tid)
    requires t in k.tasks
  {
    Cleans(k.tasks[t]).Some? ==>
      var id, c := Cleans(k.tasks[t]).value, k.tasks[t].core;
      && id in k.tasks && k.tasks[id].status == Invalid && k.tasks[id].core == c
      && id !in Get(k.queues, FinishedQ(c)) && (c < |k.cores| ==> k.cores[c].phase != Cleaning(id))
  }

  /** No two interrupted calls are about to clean up the same task. */
  predicate CleansApart(x: Task, y: Task) {
    Cleans(x).Some? ==> Cleans(x) != Cleans(y)
  }

  predicate CleanersOk(k: State) {
    && (forall t :: t in k.tasks ==> CleanerOk(k, t))
    && (forall t, u :: t in k.tasks && u in k.tasks && t != u ==> CleansApart(k.tasks[t], k.tasks[u]))
  }

  /** No interrupted call is about to clean up the task that a core in phase `p` cleans up. */
  predicate NotCleaned(k: State, p: Phase) {
    p.Cleaning? ==> forall t :: t in k.tasks ==> Cleans(k.tasks[t]) != Some(p.id)
  }

  /** What a core's phase says about its current task. */
  predicate PhaseOk(k: State, c: nat)
    requires HasCore(k, c)
  {
    var status := Current(k, c).status;
    && status != Invalid && (k.cores[c].loud ==> Current(k, c).inside == None)
    && (Get(k.queues, DrainQ(c)) != [] ==> k.cores[c].phase.Draining?)
    && |Get(k.queues, PushQ(c))| <= 1
    && match k.cores[c].phase
       case Executing =>
         Current(k, c).inside == None && (Current(k, c).spawning.Some? ==> status == Running || status == Idle)
       case Ticking(now) => true
       case Entering => Get(k.queues, PushQ(c)) == []
       case Cleaning(id) =>  // a retired task of this core that has left the list
         && Get(k.queues, PushQ(c)) == [] && id in k.tasks && k.tasks[id].status == Invalid && k.tasks[id].core == c
         && id !in Get(k.queues, FinishedQ(c))
       case Draining => true
       case Reading => Get(k.queues, PushQ(c)) == []
       case Deciding(seen) =>
         (seen == status || (seen == Blocked && status == Ready)) && Get(k.queues, PushQ(c)) == []
  }

  predicate CoreOk(k: State, c: nat)
    requires c < |k.cores|
  {
    && HasCore(k, c) && k.tasks[k.cores[c].current].core == c
    && k.cores[c].idle in k.tasks && k.tasks[k.cores[c].idle].status == Idle && k.tasks[k.cores[c].idle].core == c
    && PhaseOk(k, c)
  }

  predicate CoresOk(k: State) {
    forall c :: 0 <= c < |k.cores| ==> CoreOk(k, c)
  }

  /** A waiter of a semaphore or mutex is in the blocked list of its core; only semaphores have timed waits. */
  predicate WaiterFits(k: State, w: WaitId, t: Tid) {
    && t in k.tasks && w.obj in k.objects && w.prio == k.tasks[t].prio
    && (k.objects[w.obj].Mutex? ==> k.tasks[t].deadline == None) && t in Get(k.queues, BlockedQ(k.tasks[t].core))
  }

  /** A task that is about to enter the wait queue of a mutex is in the blocked list of its core already. */
  ghost predicate QueueingFits(k: State, t: Tid)
    requires t in k.tasks
  {
    k.tasks[t].queueing.Some? ==>
      && k.tasks[t].queueing.value in k.objects && k.objects[k.tasks[t].queueing.value].Mutex?
      && k.tasks[t].status == Blocked && k.tasks[t].deadline == None
      && t in Get(k.queues, BlockedQ(k.tasks[t].core)) && !Held(k.waits, t)
  }

  ghost predicate WaitsOk(k: State) {
    && Linear(k.waits)
    && (forall w, t :: t in Get(k.waits, w) ==> WaiterFits(k, w, t))
    && (forall t :: t in k.tasks ==> QueueingFits(k, t))
  }

  predicate RetryOk(k: State, t: Tid)
    requires t in k.tasks
  {
    k.tasks[t].retrying.Some? ==>
      && (k.tasks[t].status == Ready || k.tasks[t].status == Running)
      && k.tasks[t].retrying.value in k.objects && t in k.objects[k.tasks[t].retrying.value].woken
  }

  ghost predicate WokenOk(k: State) {
    && (forall t :: t in k.tasks ==> RetryOk(k, t))
    && (forall o, t :: o in k.objects && t in k.objects[o].woken ==> t in k.tasks && k.tasks[t].retrying == Some(o))
  }

  ghost predicate Inv(k: State) {
    QueuesOk(k) && TasksOk(k) && CoresOk(k) && WaitsOk(k) && WokenOk(k) && SpawnsOk(k) && CleanersOk(k)
  }

  lemma OfTask(k: State, t: Tid)
    requires Inv(k) && t in k.tasks
    ensures TaskOk(k, t) && RetryOk(k, t) && QueueingFits(k, t) && CleanerOk(k, t)
  {
  }

  lemma OfQueue(k: State, q: QueueId, t: Tid)
    requires Inv(k) && t in Get(k.queues, q)
    ensures Fits(k, q, t) && TaskOk(k, t) && RetryOk(k, t) && QueueingFits(k, t)
  {
  }

  lemma OfCore(k: State, c: nat)
    requires Inv(k) && c < |k.cores|
    ensures CoreOk(k, c)
  {
  }

  /** A task that runs its own code, or can be interrupted in `scheduler`, was not interrupted in there before. */
  lemma NotInside(k: State, c: nat)
    requires Inv(k) && HasCore(k, c) && (k.cores[c].phase == Executing || k.cores[c].loud)
    ensures Current(k, c).inside == None
  {
    assert CoreOk(k, c);
  }

  lemma OfState(k: State)
    requires Inv(k)
    ensures QueuesOk(k) && WaitsOk(k) && Linear(k.queues)
  {
  }

  lemma InitialInv(k: State)
    requires Initial(k)
    ensures Inv(k)
  {
  }

  // ----- Moving one task -----

  /** `t` ends up in the queue `to` only (or in none), and no other task moves. */
  ghost predicate Moved(m: map<QueueId, seq<Tid>>, m': map<QueueId, seq<Tid>>, t: Tid, to: Option<QueueId>) {
    && Linear(m')
    && (forall q :: t in Get(m', q) <==> to == Some(q))
    && (forall q, x :: x != t ==> (x in Get(m', q) <==> x in Get(m, q)))
  }

  lemma ShiftMoves(m: map<QueueId, seq<Tid>>, from: QueueId, at: nat, to: QueueId)
    requires Linear(m) && at < |Get(m, from)|
    ensures var t := Get(m, from)[at];
            var m' := Append(Delete(m, from, at), to, t);
            && Moved(m, m', t, Some(to)) && Held(m', t)
            && (forall q :: q != from && q != to ==> Get(m', q) == Get(m, q))
            && (from != to ==> Get(m', from) == RemoveAt(Get(m, from), at) && Get(m', to) == Get(m, to) + [t])
  {
    DeleteKeeps(m, from, at);
    AppendKeeps(Delete(m, from, at), to, Get(m, from)[at]);
    assert Get(m, from)[at] in Get(Append(Delete(m, from, at), to, Get(m, from)[at]), to);
  }

  /** Only `t` changes among the tasks, and it keeps its core and priority. */
  predicate OnlyTask(k: State, k': State, t: Tid) {
    && t in k.tasks && t in k'.tasks && k'.tasks.Keys == k.tasks.Keys
    && (forall x :: x in k.tasks && x != t ==> k'.tasks[x] == k.tasks[x])
    && k'.tasks[t].core == k.tasks[t].core && k'.tasks[t].prio == k.tasks[t].prio
      && k'.tasks[t].spawning == k.tasks[t].spawning
  }

  /** Only the phase of core `c` changes among the cores, and only its own push, drain and finished lists do. */
  ghost predicate OnlyCore(k: State, k': State, c: nat) {
    && |k'.cores| == |k.cores|
    && (forall d :: 0 <= d < |k.cores| ==>
          && k'.cores[d].current == k.cores[d].current && k'.cores[d].idle == k.cores[d].idle
          && (d != c ==> k'.cores[d].phase == k.cores[d].phase && k'.cores[d].loud == k.cores[d].loud))
    && (forall d :: d != c ==> Get(k'.queues, PushQ(d)) == Get(k.queues, PushQ(d)))
    && (forall d :: d != c ==> Get(k'.queues, DrainQ(d)) == Get(k.queues, DrainQ(d)))
    && (forall d :: d != c ==> Get(k'.queues, FinishedQ(d)) == Get(k.queues, FinishedQ(d)))
  }

  /** The status change that other cores can see happening to their current task. */
  predicate QuietStatus(old_: Status, new_: Status) {
    old_ == new_ || (old_ == Blocked && new_ == Ready)
  }

  lemma QueuesMoved(k: State, k': State, t: Tid, to: Option<QueueId>)
    requires QueuesOk(k) && Moved(k.queues, k'.queues, t, to) && OnlyTask(k, k', t)
    requires |k'.cores| == |k.cores| && k.registered <= k'.registered
    requires to.Some? ==> Fits(k', to.value, t)
    ensures QueuesOk(k')
  {
    forall q, x | x in Get(k'.queues, q) ensures Fits(k', q, x) {
      if x != t {
        assert x in Get(k.queues, q);
        assert Fits(k, q, x);
      }
    }
  }

  lemma HeldMoved(m: map<QueueId, seq<Tid>>, m': map<QueueId, seq<Tid>>, t: Tid, to: Option<QueueId>, x: Tid)
    requires Moved(m, m', t, to) && x != t
    ensures Held(m', x) <==> Held(m, x)
  {
    if Held(m, x) {
      var q :| x in Get(m, q);
      assert x in Get(m', q);
    }
    if Held(m', x) {
      var q :| x in Get(m', q);
      assert x in Get(m, q);
    }
  }

  lemma TasksMoved(k: State, k': State, t: Tid, to: Option<QueueId>)
    requires TasksOk(k) && Moved(k.queues, k'.queues, t, to) && OnlyTask(k, k', t)
    requires |k'.cores| == |k.cores| && k'.registered <= k.registered
    requires forall d :: 0 <= d < |k.cores| ==>
               k'.cores[d].current == k.cores[d].current && k'.cores[d].idle == k.cores[d].idle
    requires TaskOk(k', t)
    ensures TasksOk(k')
  {
    forall x | x in k'.tasks ensures TaskOk(k', x) {
      if x != t {
        HeldMoved(k.queues, k'.queues, t, to, x);
        assert TaskOk(k, x);
      }
    }
  }

  lemma SpawnsMoved(k: State, k': State, t: Tid)
    requires SpawnsOk(k) && OnlyTask(k, k', t)
    ensures SpawnsOk(k')
  {
    forall x, y | x in k'.tasks && y in k'.tasks && x != y ensures SpawnsApart(k'.tasks[x], k'.tasks[y]) {
      assert SpawnsApart(k.tasks[x], k.tasks[y]);
    }
  }

  lemma CoresMoved(k: State, k': State, c: nat, t: Tid)
    requires CoresOk(k) && OnlyTask(k, k', t) && OnlyCore(k, k', c) && k'.registered == k.registered
    requires c < |k.cores| ==> CoreOk(k', c)
    requires QuietStatus(k.tasks[t].status, k'.tasks[t].status) || (c < |k.cores| && k.cores[c].current == t)
    requires k'.tasks[t].inside == k.tasks[t].inside
    ensures CoresOk(k')
  {
    forall d | 0 <= d < |k'.cores| ensures CoreOk(k', d) {
      assert CoreOk(k, d);
    }
  }

  lemma WaitsMoved(k: State, k': State, t: Tid, to: Option<QueueId>)
    requires WaitsOk(k) && Moved(k.queues, k'.queues, t, to) && OnlyTask(k, k', t)
    requires k'.waits == k.waits && k'.objects == k.objects && !Held(k.waits, t) && k'.tasks[t].queueing == None
    ensures WaitsOk(k')
  {
    forall w, x | x in Get(k'.waits, w) ensures WaiterFits(k', w, x) {
      assert WaiterFits(k, w, x);
      assert x != t;
    }
    forall x | x in k'.tasks ensures QueueingFits(k', x) {
      assert QueueingFits(k, x);
    }
  }

  lemma CleanersMoved(k: State, k': State, t: Tid, to: Option<QueueId>)
    requires CleanersOk(k) && OnlyTask(k, k', t) && Moved(k.queues, k'.queues, t, to) && |k'.cores| == |k.cores|
    requires Cleans(k'.tasks[t]) == Cleans(k.tasks[t]) || Cleans(k'.tasks[t]) == None
    requires k.tasks[t].status == Invalid ==> k'.tasks[t].status == Invalid && (to.Some? ==> !to.value.FinishedQ?)
    requires forall d :: 0 <= d < |k.cores| ==>
               k'.cores[d].phase == k.cores[d].phase || NotCleaned(k, k'.cores[d].phase)
    ensures CleanersOk(k')
  {
    forall x | x in k'.tasks ensures CleanerOk(k', x) {
      assert CleanerOk(k, x);
    }
    forall x, y | x in k'.tasks && y in k'.tasks && x != y ensures CleansApart(k'.tasks[x], k'.tasks[y]) {
      assert CleansApart(k.tasks[x], k.tasks[y]);
    }
  }

  lemma WokenMoved(k: State, k': State, t: Tid)
    requires WokenOk(k) && OnlyTask(k, k', t) && k'.objects == k.objects
    requires k'.tasks[t].retrying == k.tasks[t].retrying && RetryOk(k', t)
    ensures WokenOk(k')
  {
    forall x | x in k'.tasks ensures RetryOk(k', x) {
      assert RetryOk(k, x);
    }
  }

  /** The common shape of most steps: core `c` moves task `t` to the queue `to` and changes its status. */
  lemma MoveKeeps(k: State, k': State, c: nat, t: Tid, to: Option<QueueId>)
    requires Inv(k) && OnlyTask(k, k', t) && OnlyCore(k, k', c) && Moved(k.queues, k'.queues, t, to)
    requires k'.registered == k.registered && k'.waits == k.waits && k'.objects == k.objects
    requires to.Some? ==> Fits(k', to.value, t)
    requires !Held(k.waits, t)
    requires TaskOk(k', t) && RetryOk(k', t) && k'.tasks[t].retrying == k.tasks[t].retrying
    requires c < |k.cores| ==> CoreOk(k', c)
    requires QuietStatus(k.tasks[t].status, k'.tasks[t].status) || (c < |k.cores| && k.cores[c].current == t)
    requires k'.tasks[t].queueing == None && k'.tasks[t].inside == k.tasks[t].inside
    requires k.tasks[t].status == Invalid ==> k'.tasks[t].status == Invalid && to.None?
    requires c < |k.cores| ==> k'.cores[c].phase == k.cores[c].phase || NotCleaned(k, k'.cores[c].phase)
    ensures Inv(k')
  {
    QueuesMoved(k, k', t, to);
    TasksMoved(k, k', t, to);
    CoresMoved(k, k', c, t);
    WaitsMoved(k, k', t, to);
    WokenMoved(k, k', t);
    SpawnsMoved(k, k', t);
    CleanersMoved(k, k', t, to);
  }

  // ----- Each step keeps the invariant -----

  lemma PhaseKeeps(k: State, c: nat, p: Phase)
    requires Inv(k) && HasCore(k, c) && PhaseOk(SetPhase(k, c, p), c) && NotCleaned(k, p)
    ensures Inv(SetPhase(k, c, p))
    ensures forall loud :: (loud ==> Current(k, c).inside == None) ==>
              Inv(k.(cores := k.cores[c := k.cores[c].(phase := p, loud := loud)]))
  {
    OfCore(k, c);
    assert SetPhase(k, c, p) == k.(cores := k.cores[c := k.cores[c].(phase := p, loud := k.cores[c].loud)]);
    forall loud | loud ==> Current(k, c).inside == None
      ensures Inv(k.(cores := k.cores[c := k.cores[c].(phase := p, loud := loud)]))
    {
      var k' := k.(cores := k.cores[c := k.cores[c].(phase := p, loud := loud)]);
      CoresPhase(k, k', c);
      QueuesSame(k, k');
      TasksSame(k, k');
      CleanersPhase(k, k', c);
      WaitsSame(k, k');
      WokenSame(k, k');
      SpawnsSame(k, k');
      hide QueuesOk, TasksOk, CoresOk, WaitsOk, WokenOk, SpawnsOk, CleanersOk;
    }
  }

  lemma CoresPhase(k: State, k': State, c: nat)
    requires CoresOk(k) && c < |k.cores| == |k'.cores| && k' == k.(cores := k.cores[c := k'.cores[c]]) && CoreOk(k', c)
    ensures CoresOk(k')
  {
    forall d | 0 <= d < |k'.cores| ensures CoreOk(k', d) {
      assert CoreOk(k, d);
    }
  }

  lemma CleanersPhase(k: State, k': State, c: nat)
    requires CleanersOk(k) && c < |k.cores| == |k'.cores| && k' == k.(cores := k.cores[c := k'.cores[c]])
    requires NotCleaned(k, k'.cores[c].phase)
    ensures CleanersOk(k')
  {
    forall t | t in k'.tasks ensures CleanerOk(k', t) {
      assert CleanerOk(k, t);
    }
  }

  // ----- Steps that move nobody -----

  /** Every task keeps what says where it is. */
  predicate SameTasks(k: State, k': State) {
    k'.tasks.Keys == k.tasks.Keys && forall t :: t in k.tasks ==> SamePlace(k.tasks[t], k'.tasks[t])
  }

  predicate SamePlace(x: Task, x': Task) {
    x'.status == x.status && x'.prio == x.prio && x'.core == x.core && x'.deadline == x.deadline
  }

  lemma QueuesSame(k: State, k': State)
    requires QueuesOk(k) && SameTasks(k, k') && k'.queues == k.queues && |k'.cores| == |k.cores|
    requires k.registered <= k'.registered
    ensures QueuesOk(k')
  {
    forall q, t | t in Get(k'.queues, q) ensures Fits(k', q, t) {
      assert Fits(k, q, t) && SamePlace(k.tasks[t], k'.tasks[t]);
    }
  }

  lemma TasksSame(k: State, k': State)
    requires TasksOk(k) && SameTasks(k, k') && k'.queues == k.queues && |k'.cores| == |k.cores|
    requires forall d :: 0 <= d < |k.cores| ==>
               k'.cores[d].current == k.cores[d].current && k'.cores[d].idle == k.cores[d].idle
    requires k'.registered <= k'.tasks.Keys
    requires forall t :: t in k'.tasks ==>
               || (SpawnOk(k', k'.tasks[t]) && InsideOk(k'.tasks[t]))
               || (k'.tasks[t].spawning == k.tasks[t].spawning && k'.tasks[t].inside == k.tasks[t].inside
                   && k'.registered == k.registered)
    ensures TasksOk(k')
  {
    forall t | t in k'.tasks ensures TaskOk(k', t) {
      assert TaskOk(k, t) && SamePlace(k.tasks[t], k'.tasks[t]);
    }
  }

  lemma CoresSame(k: State, k': State, t: Tid)
    requires CoresOk(k) && SameTasks(k, k') && k'.queues == k.queues && k'.cores == k.cores && t in k.tasks
    requires forall x :: x in k.tasks && x != t ==> k'.tasks[x] == k.tasks[x]
    requires k'.tasks[t].spawning.Some? ==>
               k.tasks[t].spawning.Some? || k.tasks[t].status == Running || k.tasks[t].status == Idle
    requires k'.tasks[t].inside == k.tasks[t].inside || k'.tasks[t].inside == None
             || forall d :: 0 <= d < |k.cores| && k.cores[d].current == t ==>
                  k.cores[d].phase != Executing && !k.cores[d].loud
    ensures CoresOk(k')
  {
    assert SamePlace(k.tasks[t], k'.tasks[t]);
    forall d | 0 <= d < |k'.cores| ensures CoreOk(k', d) {
      assert CoreOk(k, d);
    }
  }

  lemma WaitsSame(k: State, k': State)
    requires WaitsOk(k) && SameTasks(k, k') && k'.waits == k.waits && k'.queues == k.queues
    requires forall t :: t in k.tasks ==> k'.tasks[t].queueing == k.tasks[t].queueing
    requires k'.objects.Keys == k.objects.Keys
    requires forall o :: o in k.objects ==> k'.objects[o].Mutex? == k.objects[o].Mutex?
    ensures WaitsOk(k')
  {
    forall w, t | t in Get(k'.waits, w) ensures WaiterFits(k', w, t) {
      assert WaiterFits(k, w, t) && SamePlace(k.tasks[t], k'.tasks[t]);
    }
    forall t | t in k'.tasks ensures QueueingFits(k', t) {
      assert QueueingFits(k, t) && SamePlace(k.tasks[t], k'.tasks[t]);
    }
  }

  lemma WokenSame(k: State, k': State)
    requires WokenOk(k) && SameTasks(k, k') && k'.objects == k.objects
    requires forall t :: t in k.tasks ==> k'.tasks[t].retrying == k.tasks[t].retrying
    ensures WokenOk(k')
  {
    forall t | t in k'.tasks ensures RetryOk(k', t) {
      assert RetryOk(k, t) && SamePlace(k.tasks[t], k'.tasks[t]);
    }
  }

  lemma SpawnsSame(k: State, k': State)
    requires SpawnsOk(k) && k'.tasks.Keys == k.tasks.Keys
    requires forall t :: t in k.tasks ==> k'.tasks[t].spawning == k.tasks[t].spawning
    ensures SpawnsOk(k')
  {
    forall t, u | t in k'.tasks && u in k'.tasks && t != u ensures SpawnsApart(k'.tasks[t], k'.tasks[u]) {
      assert SpawnsApart(k.tasks[t], k.tasks[u]);
    }
  }

  /** A step that only changes the pending spawn of a task, where it was interrupted, or TASKS. */
  lemma MarksKeep(k: State, k': State, t: Tid)
    requires Inv(k) && t in k.tasks && k'.cores == k.cores && k'.queues == k.queues && k'.waits == k.waits
    requires k'.objects == k.objects && k.registered <= k'.registered <= k.tasks.Keys
    requires exists p, n :: k'.tasks == k.tasks[t := k.tasks[t].(spawning := p, inside := n)]
    requires forall x :: x in k'.tasks ==> SpawnOk(k', k'.tasks[x]) && InsideOk(k'.tasks[x])
    requires forall x :: x in k'.tasks && x != t ==> SpawnsApart(k'.tasks[t], k'.tasks[x])
    requires CleanersOk(k')
    requires k'.tasks[t].spawning.Some? ==>
               k.tasks[t].spawning.Some? || k.tasks[t].status == Running || k.tasks[t].status == Idle
    requires k'.tasks[t].inside == k.tasks[t].inside || k'.tasks[t].inside == None
             || forall d :: 0 <= d < |k.cores| && k.cores[d].current == t ==>
                  k.cores[d].phase != Executing && !k.cores[d].loud
    ensures Inv(k')
  {
    hide QueuesOk, TasksOk, CoresOk, WaitsOk, WokenOk, CleanersOk;
    QueuesSame(k, k');
    TasksSame(k, k');
    CoresSame(k, k', t);
    WaitsSame(k, k');
    WokenSame(k, k');
    assert SpawnsOk(k') by {
      forall x, y | x in k'.tasks && y in k'.tasks && x != y ensures SpawnsApart(k'.tasks[x], k'.tasks[y]) {
        assert SpawnsApart(k.tasks[x], k.tasks[y]);
      }
    }
  }

  /** A task that is no longer about to clean up another one, or never was. */
  lemma CleanersSame(k: State, k': State, t: Tid)
    requires CleanersOk(k) && t in k.tasks && k'.cores == k.cores && k'.queues == k.queues
    requires k'.tasks.Keys == k.tasks.Keys && (forall x :: x in k.tasks && x != t ==> k'.tasks[x] == k.tasks[x])
    requires k'.tasks[t].status == k.tasks[t].status && k'.tasks[t].core == k.tasks[t].core
    requires Cleans(k'.tasks[t]) == Cleans(k.tasks[t]) || Cleans(k'.tasks[t]) == None
    ensures CleanersOk(k')
  {
    forall x | x in k'.tasks ensures CleanerOk(k', x) {
      assert CleanerOk(k, x);
    }
    forall x, y | x in k'.tasks && y in k'.tasks && x != y ensures CleansApart(k'.tasks[x], k'.tasks[y]) {
      assert CleansApart(k.tasks[x], k.tasks[y]);
    }
  }

  lemma RegisterKeeps(k: State, c: nat)
    requires Inv(k) && HasCore(k, c) && Current(k, c).spawning.Some?
    ensures Inv(RegisterStep(k, c))
  {
    var t := k.cores[c].current;
    var k' := RegisterStep(k, c);
    assert TaskOk(k, t);
    forall x | x in k'.tasks ensures SpawnOk(k', k'.tasks[x]) && InsideOk(k'.tasks[x]) {
      assert TaskOk(k, x) && (x != t ==> SpawnsApart(k.tasks[t], k.tasks[x]));
    }
    assert k'.tasks == k.tasks[t := k.tasks[t].(spawning := None, inside := k.tasks[t].inside)];
    CleanersSame(k, k', t);
    MarksKeep(k, k', t);
  }

  /** An interrupt in a call of the scheduler that had not read the status of its task, or a firm one. */
  lemma NestKeeps(k: State, c: nat, now: nat)
    requires Inv(k) && (Enabled(k, Nest(c, now)) || Enabled(k, NestLate(c, now)))
    requires k.cores[c].phase.Deciding? ==> FirmStatus(k.cores[c].phase.seen)
    ensures Inv(NestStep(k, c, now))
  {
    var k' := NestStep(k, c, now);
    hide QueuesOk, TasksOk, CoresOk, WaitsOk, WokenOk, SpawnsOk, CleanersOk, SpawnOk, InsideOk;
    NestCores(k, c, now);
    NestTasks(k, c, now);
    NestCleaners(k, c, now);
    RegisteredExist(k);
    QueuesSame(k, k');
    TasksSame(k, k');
    WaitsSame(k, k');
    WokenSame(k, k');
    SpawnsSame(k, k');
  }

  lemma NestCores(k: State, c: nat, now: nat)
    requires CoresOk(k) && HasCore(k, c) && k.cores[c].phase != Draining
    ensures CoresOk(NestStep(k, c, now))
  {
    var k' := NestStep(k, c, now);
    forall d | 0 <= d < |k'.cores| ensures CoreOk(k', d) {
      assert CoreOk(k, d) && CoreOk(k, c);
    }
  }

  lemma NestTasks(k: State, c: nat, now: nat)
    requires Inv(k) && HasCore(k, c) && k.cores[c].phase != Executing && k.cores[c].phase != Draining
    requires !k.cores[c].phase.Ticking? && (k.cores[c].phase.Deciding? ==> FirmStatus(k.cores[c].phase.seen))
    ensures var k' := NestStep(k, c, now);
            forall x :: x in k'.tasks ==> SpawnOk(k', k'.tasks[x]) && InsideOk(k'.tasks[x])
  {
    var k', t := NestStep(k, c, now), k.cores[c].current;
    OfCore(k, c);
    forall x | x in k'.tasks ensures SpawnOk(k', k'.tasks[x]) && InsideOk(k'.tasks[x]) {
      assert TaskOk(k, x);
    }
  }

  lemma NestCleaners(k: State, c: nat, now: nat)
    requires Inv(k) && HasCore(k, c)
    ensures CleanersOk(NestStep(k, c, now))
  {
    var t := k.cores[c].current;
    var k' := NestStep(k, c, now);
    assert CoreOk(k, c);
    forall x | x in k'.tasks ensures CleanerOk(k', x) {
      assert CleanerOk(k, x);
    }
    forall x, y | x in k'.tasks && y in k'.tasks && x != y ensures CleansApart(k'.tasks[x], k'.tasks[y]) {
      assert CleansApart(k.tasks[x], k.tasks[y]) && CleanerOk(k, x) && CleanerOk(k, y);
    }
  }

  lemma NotQueued(k: State, t: Tid)
    requires QueuesOk(k) && WaitsOk(k) && t in k.tasks
    requires k.tasks[t].status == Running || k.tasks[t].status == Finished || k.tasks[t].status == Idle
    ensures !Held(k.queues, t) && !Held(k.waits, t)
  {
    forall q ensures t !in Get(k.queues, q) {
      assert t in Get(k.queues, q) ==> Fits(k, q, t);
    }
    forall w ensures t !in Get(k.waits, w) {
      assert t in Get(k.waits, w) ==> WaiterFits(k, w, t);
    }
  }

  lemma ExitKeeps(k: State, c: nat)
    requires Inv(k) && Working(k, c)
    ensures Inv(SetStatus(k, k.cores[c].current, Finished))
  {
    var t := k.cores[c].current;
    assert CoreOk(k, c) && TaskOk(k, t);
    NotQueued(k, t);
    MoveKeeps(k, SetStatus(k, t, Finished), c, t, None);
  }

  lemma CreateKeeps(k: State, target: nat, prio: nat, tid: Tid)
    requires Inv(k) && target < |k.cores| && prio < NO_PRIORITIES && tid !in k.tasks
    ensures Inv(CreateTask(k, target, prio, tid))
  {
    var k' := CreateTask(k, target, prio, tid);
    CreateTasks(k, target, prio, tid);
    CreateRest(k, target, prio, tid);
    hide QueuesOk, TasksOk, CoresOk, WaitsOk, WokenOk, SpawnsOk, CleanersOk;
  }

  lemma CreateTasks(k: State, target: nat, prio: nat, tid: Tid)
    requires Inv(k) && target < |k.cores| && prio < NO_PRIORITIES && tid !in k.tasks
    ensures QueuesOk(CreateTask(k, target, prio, tid)) && TasksOk(CreateTask(k, target, prio, tid))
  {
    var k' := CreateTask(k, target, prio, tid);
    var q := ReadyQ(target, prio);
    assert !Held(k.queues, tid) by {
      forall p ensures tid !in Get(k.queues, p) {
        assert tid in Get(k.queues, p) ==> Fits(k, p, tid);
      }
    }
    AppendKeeps(k.queues, q, tid);
    forall p, t | t in Get(k'.queues, p) ensures Fits(k', p, t) {
      assert t != tid ==> Fits(k, p, t);
    }
    assert tid in Get(k'.queues, q);
    forall t | t in k'.tasks ensures TaskOk(k', t) {
      if t != tid {
        assert TaskOk(k, t);
        assert Held(k.queues, t) ==> Held(k'.queues, t) by {
          if Held(k.queues, t) {
            var p :| t in Get(k.queues, p);
            assert t in Get(k'.queues, p);
          }
        }
      }
    }
  }

  lemma CreateRest(k: State, target: nat, prio: nat, tid: Tid)
    requires Inv(k) && target < |k.cores| && prio < NO_PRIORITIES && tid !in k.tasks
    ensures var k' := CreateTask(k, target, prio, tid);
            CoresOk(k') && WaitsOk(k') && WokenOk(k') && SpawnsOk(k') && CleanersOk(k')
  {
    var k' := CreateTask(k, target, prio, tid);
    forall d | 0 <= d < |k'.cores| ensures CoreOk(k', d) {
      assert CoreOk(k, d);
    }
    forall w, t | t in Get(k'.waits, w) ensures WaiterFits(k', w, t) {
      assert WaiterFits(k, w, t);
    }
    forall t | t in k'.tasks ensures RetryOk(k', t) && QueueingFits(k', t) && CleanerOk(k', t) {
      assert t != tid ==> RetryOk(k, t) && QueueingFits(k, t) && CleanerOk(k, t);
    }
    forall x, y | x in k'.tasks && y in k'.tasks && x != y
      ensures SpawnsApart(k'.tasks[x], k'.tasks[y]) && CleansApart(k'.tasks[x], k'.tasks[y])
    {
      assert x != tid && y != tid ==> SpawnsApart(k.tasks[x], k.tasks[y]) && CleansApart(k.tasks[x], k.tasks[y]);
    }
  }

  lemma SpawnKeeps(k: State, c: nat, target: nat, prio: nat, tid: Tid, quiet: bool)
    requires Inv(k) && MayCreate(k, c, target, prio, tid)
    ensures Inv(SpawnStep(k, c, target, prio, tid, quiet))
  {
    CreateKeeps(k, target, prio, tid);
    var t := k.cores[c].current;
    var k1 := CreateTask(k, target, prio, tid);
    var k' := SpawnStep(k, c, target, prio, tid, quiet);
    forall x | x in k'.tasks
      ensures SpawnOk(k', k'.tasks[x]) && InsideOk(k'.tasks[x]) && (x != t ==> SpawnsApart(k'.tasks[t], k'.tasks[x]))
    {
      assert x != tid ==> TaskOk(k, x);
    }
    hide Inv;
    assert k'.tasks == k1.tasks[t := k1.tasks[t].(spawning := Some(Pending(tid, quiet)), inside := k1.tasks[t].inside)];
    RegisteredExist(k1);
    CleanersSame(k1, k', t);
    MarksKeep(k1, k', t);
  }

  lemma RegisteredExist(k: State)
    requires Inv(k)
    ensures k.registered <= k.tasks.Keys && CleanersOk(k)
  {
  }

  lemma CloneKeeps(k: State, tid: Tid)
    requires Inv(k) && tid in k.tasks
    requires forall x :: x in k.tasks && k.tasks[x].spawning.Some? ==> k.tasks[x].spawning.value.tid != tid
    ensures Inv(k.(registered := k.registered + {tid}))
  {
    var k' := k.(registered := k.registered + {tid});
    forall x | x in k'.tasks ensures SpawnOk(k', k'.tasks[x]) && InsideOk(k'.tasks[x]) {
      assert TaskOk(k, x);
    }
    assert k'.tasks == k.tasks[tid := k.tasks[tid].(spawning := k.tasks[tid].spawning, inside := k.tasks[tid].inside)];
    CleanersSame(k, k', tid);
    MarksKeep(k, k', tid);
  }

  lemma ReadyNotWaiting(k: State, t: Tid)
    requires QueuesOk(k) && WaitsOk(k) && t in k.tasks && k.tasks[t].status != Blocked
    ensures !Held(k.waits, t)
  {
    forall w ensures t !in Get(k.waits, w) {
      assert t in Get(k.waits, w) ==> WaiterFits(k, w, t);
      assert t in Get(k.queues, BlockedQ(k.tasks[t].core)) ==> Fits(k, BlockedQ(k.tasks[t].core), t);
    }
  }

  lemma PushKeeps(k: State, c: nat)
    requires Inv(k) && Get(k.queues, PushQ(c)) != []
    ensures Get(k.queues, PushQ(c))[0] in k.tasks && Inv(PushStep(k, c))
  {
    hide Inv;
    var t := Get(k.queues, PushQ(c))[0];
    OfQueue(k, PushQ(c), t);
    OfCore(k, c);
    OfState(k);
    ReadyNotWaiting(k, t);
    hide QueuesOk, WaitsOk, Linear;
    assert Get(k.queues, PushQ(c)) == [t];
    PushedKeeps(k, c, t, ReadyQ(k.tasks[t].core, k.tasks[t].prio), PushStep(k, c));
  }

  lemma PushedKeeps(k: State, c: nat, t: Tid, q: QueueId, k': State)
    requires Inv(k) && Get(k.queues, PushQ(c)) == [t] && c < |k.cores| && q.ReadyQ? && Fits(k', q, t)
             && !Held(k.waits, t)
    requires k' == k.(queues := Append(Delete(k.queues, PushQ(c), 0), q, t))
    ensures Inv(k')
  {
    hide Inv;
    OfState(k);
    OfTask(k, t);
    OfCore(k, c);
    hide QueuesOk, WaitsOk;
    ShiftMoves(k.queues, PushQ(c), 0, q);
    hide Linear, Append, Delete, Moved;
    assert RemoveAt([t], 0) == [];
    PushedCores(k, c, t, q, k');
    assert OnlyTask(k, k', t) && TaskOk(k', t);
    hide *;
    MoveKeeps(k, k', c, t, Some(q));
  }

  lemma PushedCores(k: State, c: nat, t: Tid, q: QueueId, k': State)
    requires c < |k.cores| && CoreOk(k, c) && k'.tasks == k.tasks && k'.cores == k.cores && q.ReadyQ?
    requires forall p :: p != PushQ(c) && p != q ==> Get(k'.queues, p) == Get(k.queues, p)
    requires Get(k.queues, PushQ(c)) == [t] && Get(k'.queues, PushQ(c)) == []
    ensures OnlyCore(k, k', c) && CoreOk(k', c)
  {
  }

  /** Making a blocked task ready, as long as no wait queue holds it. */
  lemma WakeKeeps(k: State, c: nat, q: QueueId, at: nat)
    requires Inv(k) && at < |Get(k.queues, q)| && (q.BlockedQ? || q == DrainQ(c))
    requires HasCore(k, c) && Get(k.queues, PushQ(c)) == []
    requires k.cores[c].phase.Executing? || k.cores[c].phase.Draining? || k.cores[c].phase.Ticking?
    requires !Held(k.waits, Get(k.queues, q)[at])
    requires Get(k.queues, q)[at] in k.tasks ==> k.tasks[Get(k.queues, q)[at]].queueing == None
    ensures Get(k.queues, q)[at] in k.tasks && Inv(WakeFrom(k, c, q, at))
  {
    hide Inv, QueuesOk, WaitsOk, Moved, Held, Linear;
    var t := Get(k.queues, q)[at];
    OfQueue(k, q, t);
    OfCore(k, c);
    OfState(k);
    ShiftMoves(k.queues, q, at, PushQ(c));
    hide Append, Delete, RemoveAt, QueueingFits;
    var k' := WakeFrom(k, c, q, at);
    WokenCores(k, c, q, t, k');
    assert OnlyTask(k, k', t) && TaskOk(k', t) && RetryOk(k', t) && Fits(k', PushQ(c), t);
    hide *;
    MoveKeeps(k, k', c, t, Some(PushQ(c)));
  }

  lemma WokenCores(k: State, c: nat, q: QueueId, t: Tid, k': State)
    requires c < |k.cores| && CoreOk(k, c) && Fits(k, q, t) && (q.BlockedQ? || q == DrainQ(c))
    requires k.cores[c].phase.Executing? || k.cores[c].phase.Draining? || k.cores[c].phase.Ticking?
    requires k'.cores == k.cores && k'.tasks == k.tasks[t := k.tasks[t].(status := Ready)]
    requires TaskOk(k, t) && k.tasks[t].queueing == None
    requires Get(k.queues, PushQ(c)) == [] && Get(k'.queues, PushQ(c)) == [t]
    requires Get(k.queues, DrainQ(c)) == [] ==> Get(k'.queues, DrainQ(c)) == []
    requires forall p :: p != q && p != PushQ(c) ==> Get(k'.queues, p) == Get(k.queues, p)
    ensures OnlyCore(k, k', c) && CoreOk(k', c)
  {
  }

  lemma BlockKeeps(k: State, c: nat, q: QueueId, until: Option<nat>)
    requires Inv(k) && Working(k, c)
    requires q == BlockedQ(c) || (q.JoinQ? && q.tid in k.registered && until == None)
    ensures Inv(BlockCurrent(k, c, q, until))
  {
    hide Inv;
    var t := k.cores[c].current;
    OfCore(k, c);
    OfTask(k, t);
    OfState(k);
    NotQueued(k, t);
    InsertKeeps(k.queues, q, DeadlinePosition(k.tasks, Get(k.queues, q), until), t);
    hide QueuesOk, WaitsOk, DeadlinePosition, Insert;
    var k' := BlockCurrent(k, c, q, until);
    assert t in Get(k'.queues, q);
    MoveKeeps(k, k', c, t, Some(q));
  }

  // ----- Semaphores and mutexes -----

  /** A step that leaves tasks, cores and queues alone. */
  lemma SameTasksKeeps(k: State, k': State)
    requires Inv(k) && WaitsOk(k') && WokenOk(k')
    requires k'.tasks == k.tasks && k'.cores == k.cores && k'.queues == k.queues && k'.registered == k.registered
    ensures Inv(k')
  {
    RegisteredExist(k);
    hide QueuesOk, TasksOk, WaitsOk, WokenOk;
    QueuesSame(k, k');
    TasksSame(k, k');
    forall t | t in k'.tasks ensures CleanerOk(k', t) {
      assert CleanerOk(k, t);
    }
    forall d | 0 <= d < |k'.cores| ensures CoreOk(k', d) {
      assert CoreOk(k, d);
    }
  }

  lemma ObjectKeeps(k: State, o: nat, x: Object)
    requires Inv(k) && o in k.objects && x.woken == k.objects[o].woken && (x.Mutex? <==> k.objects[o].Mutex?)
    ensures Inv(k.(objects := k.objects[o := x]))
  {
    var k' := k.(objects := k.objects[o := x]);
    forall w, t | t in Get(k'.waits, w) ensures WaiterFits(k', w, t) {
      assert WaiterFits(k, w, t);
    }
    forall t | t in k'.tasks ensures RetryOk(k', t) && QueueingFits(k', t) {
      assert RetryOk(k, t) && QueueingFits(k, t);
    }
    SameTasksKeeps(k, k');
  }

  /** A step that only changes for which objects tasks wait or have been woken. */
  lemma TagsKeep(k: State, k': State, t: Tid)
    requires Inv(k) && OnlyTask(k, k', t)
    requires k'.tasks[t] == k.tasks[t].(retrying := k'.tasks[t].retrying, queueing := k'.tasks[t].queueing)
    requires k'.cores == k.cores && k'.queues == k.queues && k'.registered == k.registered
    requires WaitsOk(k') && WokenOk(k')
    ensures Inv(k')
  {
    RegisteredExist(k);
    hide QueuesOk, TasksOk, CoresOk, WaitsOk, WokenOk, SpawnsOk, CleanersOk;
    QueuesSame(k, k');
    TasksSame(k, k');
    CoresSame(k, k', t);
    SpawnsSame(k, k');
    CleanersSame(k, k', t);
  }

  /** A step that only changes which object a ready or running task has been woken for. */
  lemma RetryKeeps(k: State, k': State, t: Tid)
    requires Inv(k) && OnlyTask(k, k', t) && k'.tasks[t] == k.tasks[t].(retrying := k'.tasks[t].retrying)
    requires k'.cores == k.cores && k'.queues == k.queues && k'.registered == k.registered && k'.waits == k.waits
    requires k'.objects.Keys == k.objects.Keys && WokenOk(k')
    requires forall o :: o in k.objects ==> k'.objects[o].Mutex? == k.objects[o].Mutex?
    ensures Inv(k')
  {
    WaitsSame(k, k');
    hide Inv, WokenOk, WaitsOk;
    TagsKeep(k, k', t);
  }

  lemma StopRetryingKeeps(k: State, c: nat)
    requires Inv(k) && HasCore(k, c)
    ensures Inv(StopRetrying(k, c))
    ensures StopRetrying(k, c).tasks[k.cores[c].current] == Current(k, c).(retrying := None)
  {
    var t := k.cores[c].current;
    assert RetryOk(k, t);
    if k.tasks[t].retrying.Some? {
      var k' := StopRetrying(k, c);
      forall x | x in k'.tasks ensures RetryOk(k', x) {
        assert RetryOk(k, x);
      }
      assert WokenOk(k');
      RetryKeeps(k, k', t);
    }
  }

  lemma BlockInAcquireKeeps(k: State, c: nat, o: nat, until: Option<nat>)
    requires Inv(k) && MayTry(k, c, o)
    ensures var k', t := BlockInAcquire(k, c, until), k.cores[c].current;
            && Inv(k') && o in k'.objects && k'.objects[o].Mutex? == k.objects[o].Mutex? && t in k'.tasks
            && k'.tasks[t] == k.tasks[t].(status := Blocked, deadline := until, retrying := None)
            && t in Get(k'.queues, BlockedQ(k.tasks[t].core)) && !Held(k'.waits, t)
  {
    var t := k.cores[c].current;
    OfCore(k, c);
    StopRetryingKeeps(k, c);
    var k1 := StopRetrying(k, c);
    assert Working(k1, c) && o in k1.objects;
    hide Inv, StopRetrying;
    BlockKeeps(k1, c, BlockedQ(c), until);
    OfState(k1);
    NotQueued(k1, t);
    InsertKeeps(k1.queues, BlockedQ(c), DeadlinePosition(k1.tasks, Get(k1.queues, BlockedQ(c)), until), t);
  }

  lemma WaitForKeeps(k: State, c: nat, o: nat, until: Option<nat>)
    requires Inv(k) && MayTry(k, c, o) && k.objects[o].Semaphore?
    ensures Inv(WaitFor(k, c, o, until))
  {
    hide Inv, BlockInAcquire;
    BlockInAcquireKeeps(k, c, o, until);
    var k1, t := BlockInAcquire(k, c, until), k.cores[c].current;
    JoinWaitKeeps(k1, WaitQ(o, Current(k, c).prio), t, k1.(waits := Append(k1.waits, WaitQ(o, k.tasks[t].prio), t)));
  }

  lemma JoinWaitKeeps(k: State, w: WaitId, t: Tid, k': State)
    requires Inv(k) && WaiterFits(k, w, t) && !Held(k.waits, t)
    requires k' == k.(waits := Append(k.waits, w, t), tasks := k.tasks[t := k.tasks[t].(queueing := None)])
    ensures Inv(k')
  {
    AppendKeeps(k.waits, w, t);
    forall v, x | x in Get(k'.waits, v) ensures WaiterFits(k', v, x) {
      assert x in Get(k.waits, v) ==> WaiterFits(k, v, x);
    }
    forall x | x in k'.tasks ensures RetryOk(k', x) && QueueingFits(k', x) {
      assert RetryOk(k, x) && QueueingFits(k, x);
    }
    TagsKeep(k, k', t);
  }

  /** The current task is about to enter the wait queue of a mutex. */
  lemma QueueingKeeps(k: State, t: Tid, o: nat)
    requires Inv(k) && t in k.tasks && o in k.objects && k.objects[o].Mutex?
    requires k.tasks[t].status == Blocked && k.tasks[t].deadline == None
    requires t in Get(k.queues, BlockedQ(k.tasks[t].core)) && !Held(k.waits, t)
    ensures Inv(k.(tasks := k.tasks[t := k.tasks[t].(queueing := Some(o))]))
  {
    var k' := k.(tasks := k.tasks[t := k.tasks[t].(queueing := Some(o))]);
    forall v, x | x in Get(k'.waits, v) ensures WaiterFits(k', v, x) {
      assert WaiterFits(k, v, x);
    }
    forall x | x in k'.tasks ensures RetryOk(k', x) && QueueingFits(k', x) {
      assert RetryOk(k, x) && QueueingFits(k, x);
    }
    TagsKeep(k, k', t);
  }

  lemma EnqueueKeeps(k: State, c: nat)
    requires Inv(k) && HasCore(k, c) && Current(k, c).queueing.Some?
    ensures Inv(EnqueueStep(k, c))
  {
    var t := k.cores[c].current;
    OfTask(k, t);
    hide Inv;
    JoinWaitKeeps(k, WaitQ(k.tasks[t].queueing.value, k.tasks[t].prio), t, EnqueueStep(k, c));
  }

  lemma PopWaitKeeps(k: State, w: WaitId)
    requires Inv(k) && Get(k.waits, w) != []
    ensures Inv(k.(waits := Delete(k.waits, w, 0))) && !Held(Delete(k.waits, w, 0), Get(k.waits, w)[0])
  {
    var k' := k.(waits := Delete(k.waits, w, 0));
    DeleteKeeps(k.waits, w, 0);
    forall v, x | x in Get(k'.waits, v) ensures WaiterFits(k', v, x) {
      assert WaiterFits(k, v, x);
    }
    forall x | x in k'.tasks ensures RetryOk(k', x) && QueueingFits(k', x) {
      assert RetryOk(k, x) && QueueingFits(k, x);
    }
    SameTasksKeeps(k, k');
  }

  lemma MarkWokenKeeps(k: State, o: nat, t: Tid)
    requires Inv(k) && o in k.objects && t in k.tasks && k.tasks[t].status == Ready && k.tasks[t].retrying == None
    ensures Inv(k.(tasks := k.tasks[t := k.tasks[t].(retrying := Some(o))],
                   objects := k.objects[o := k.objects[o].(woken := k.objects[o].woken + {t})]))
  {
    var k' := k.(tasks := k.tasks[t := k.tasks[t].(retrying := Some(o))],
                 objects := k.objects[o := k.objects[o].(woken := k.objects[o].woken + {t})]);
    forall x | x in k'.tasks ensures RetryOk(k', x) {
      assert RetryOk(k, x);
    }
    assert WokenOk(k');
    RetryKeeps(k, k', t);
  }

  lemma WakeWaiterKeeps(k: State, c: nat, o: nat)
    requires Inv(k) && Free(k, c) && o in k.objects
    ensures Inv(WakeWaiter(k, c, o))
  {
    var top := TopWait(k.waits, o, NO_PRIORITIES);
    if top >= 0 {
      var w := WaitQ(o, top);
      var t := Get(k.waits, w)[0];
      assert WaiterFits(k, w, t);
      assert Fits(k, BlockedQ(k.tasks[t].core), t) && RetryOk(k, t) && QueueingFits(k, t);
      PopWaitKeeps(k, w);
      var popped := k.(waits := Delete(k.waits, w, 0));
      var q := BlockedQ(k.tasks[t].core);
      var at := IndexOf(Get(k.queues, q), t);
      hide Inv;
      WakeKeeps(popped, c, q, at);
      MarkWokenKeeps(WakeFrom(popped, c, q, at), o, t);
    }
  }

  lemma AcquireKeeps(k: State, c: nat, o: nat, until: Option<nat>)
    requires Inv(k) && MayTry(k, c, o) && k.objects[o].Semaphore?
    ensures Inv(AcquireStep(k, c, o, until))
  {
    if k.objects[o].count > 0 {
      StopRetryingKeeps(k, c);
      var k1 := StopRetrying(k, c);
      hide Inv;
      ObjectKeeps(k1, o, k1.objects[o].(count := k1.objects[o].count - 1, acquired := k1.objects[o].acquired + 1));
    } else {
      WaitForKeeps(k, c, o, until);
    }
  }

  lemma ReleaseKeeps(k: State, c: nat, o: nat)
    requires Inv(k) && Free(k, c) && o in k.objects && k.objects[o].Semaphore?
    ensures Inv(ReleaseStep(k, c, o))
  {
    var s := k.objects[o].(count := k.objects[o].count + 1, released := k.objects[o].released + 1);
    hide Inv;
    ObjectKeeps(k, o, s);
    WakeWaiterKeeps(k.(objects := k.objects[o := s]), c, o);
  }

  lemma LockKeeps(k: State, c: nat, o: nat)
    requires Inv(k) && MayTry(k, c, o) && k.objects[o].Mutex?
    ensures Inv(LockStep(k, c, o))
  {
    var t := k.cores[c].current;
    var m := k.objects[o];
    hide Inv;
    if m.owner == Some(t) || m.owner.None? {
      StopRetryingKeeps(k, c);
      var k1 := StopRetrying(k, c);
      var m1 := k1.objects[o];
      ObjectKeeps(k1, o, m1.(owner := Some(t), depth := if m.owner.None? then 1 else m1.depth + 1,
                             nesting := m1.nesting[t := Nesting(m1, t) + 1]));
    } else {
      BlockInAcquireKeeps(k, c, o, None);
      hide BlockInAcquire;
      QueueingKeeps(BlockInAcquire(k, c, None), t, o);
    }
  }

  lemma UnlockKeeps(k: State, c: nat, o: nat)
    requires Inv(k) && Enabled(k, Unlock(c, o))
    ensures Inv(UnlockStep(k, c, o))
  {
    var t := k.cores[c].current;
    var m := k.objects[o];
    var n := if Nesting(m, t) > 0 then Nesting(m, t) - 1 else 0;
    var m1 := m.(depth := m.depth - 1, nesting := m.nesting[t := n]);
    hide Inv;
    if m1.depth == 0 {
      ObjectKeeps(k, o, m1.(owner := None));
      WakeWaiterKeeps(k.(objects := k.objects[o := m1.(owner := None)]), c, o);
    } else {
      ObjectKeeps(k, o, m1);
    }
  }

  // ----- The decision -----

  /** The invariant without the agreement between the phase of core `c` and the status of its current task. */
  ghost predicate InvBut(k: State, c: nat) {
    && QueuesOk(k) && TasksOk(k) && WaitsOk(k) && WokenOk(k) && SpawnsOk(k) && CleanersOk(k)
    && HasCore(k, c) && k.tasks[k.cores[c].current].core == c
    && k.cores[c].idle in k.tasks && k.tasks[k.cores[c].idle].status == Idle && k.tasks[k.cores[c].idle].core == c
    && Get(k.queues, PushQ(c)) == [] && Get(k.queues, DrainQ(c)) == []
    && (forall d :: 0 <= d < |k.cores| && d != c ==> CoreOk(k, d))
  }

  lemma AsideKeeps(k: State, k': State, c: nat, to: QueueId)
    requires Inv(k) && HasCore(k, c) && k.cores[c].phase.Deciding?
             && (Current(k, c).status == Running || Current(k, c).status == Finished)
    requires OnlyTask(k, k', k.cores[c].current) && k'.queues == Append(k.queues, to, k.cores[c].current)
    requires k'.cores == k.cores && k'.registered == k.registered && k'.waits == k.waits && k'.objects == k.objects
    requires Fits(k', to, k.cores[c].current) && (to.ReadyQ? || to.FinishedQ?)
    requires k'.tasks[k.cores[c].current].retrying == Current(k, c).retrying && RetryOk(k', k.cores[c].current)
    requires InsideOk(k'.tasks[k.cores[c].current]) && SpawnOk(k', k'.tasks[k.cores[c].current])
    requires k'.tasks[k.cores[c].current].queueing == None
    requires var x' := k'.tasks[k.cores[c].current]; Cleans(x') == Cleans(Current(k, c)) || Cleans(x') == None
    ensures InvBut(k', c)
  {
    var t := k.cores[c].current;
    OfCore(k, c);
    OfTask(k, t);
    AsideMoved(k, k', c, to);
    hide Inv, Moved, Linear, RetryOk, QueuesOk, TasksOk, WaitsOk, WokenOk, SpawnsOk, CleanersOk, Held;
    assert TaskOk(k', t) && Get(k'.queues, PushQ(c)) == [] && Get(k'.queues, DrainQ(c)) == [];
    hide TaskOk, Fits, Append, PhaseOk;
    AsideCores(k, k', c, to);
    AsideRest(k, k', t, to);
  }

  lemma AsideMoved(k: State, k': State, c: nat, to: QueueId)
    requires Inv(k) && HasCore(k, c) && (Current(k, c).status == Running || Current(k, c).status == Finished)
    requires k'.queues == Append(k.queues, to, k.cores[c].current)
    ensures var t := k.cores[c].current;
            Moved(k.queues, k'.queues, t, Some(to)) && Held(k'.queues, t) && !Held(k.waits, t)
  {
    var t := k.cores[c].current;
    OfState(k);
    hide Inv;
    NotQueued(k, t);
    AppendKeeps(k.queues, to, t);
    assert t in Get(k'.queues, to);
  }

  lemma AsideRest(k: State, k': State, t: Tid, to: QueueId)
    requires Inv(k) && OnlyTask(k, k', t) && Moved(k.queues, k'.queues, t, Some(to)) && Fits(k', to, t)
    requires k'.cores == k.cores && k'.registered == k.registered && k'.waits == k.waits && k'.objects == k.objects
    requires TaskOk(k', t) && RetryOk(k', t) && k'.tasks[t].retrying == k.tasks[t].retrying && !Held(k.waits, t)
    requires k'.tasks[t].queueing == None && k.tasks[t].status != Invalid
    requires Cleans(k'.tasks[t]) == Cleans(k.tasks[t]) || Cleans(k'.tasks[t]) == None
    ensures QueuesOk(k') && TasksOk(k') && WaitsOk(k') && WokenOk(k') && SpawnsOk(k') && CleanersOk(k')
  {
    hide QueuesOk, TasksOk, CoresOk, WaitsOk, WokenOk, SpawnsOk, CleanersOk, Moved, OnlyTask, TaskOk, RetryOk, Fits;
    CleanersMoved(k, k', t, Some(to));
    QueuesMoved(k, k', t, Some(to));
    TasksMoved(k, k', t, Some(to));
    WaitsMoved(k, k', t, Some(to));
    WokenMoved(k, k', t);
    SpawnsMoved(k, k', t);
  }

  lemma AsideCores(k: State, k': State, c: nat, to: QueueId)
    requires Inv(k) && HasCore(k, c) && Current(k, c).status != Invalid
    requires OnlyTask(k, k', k.cores[c].current) && k'.queues == Append(k.queues, to, k.cores[c].current)
    requires k'.cores == k.cores && Current(k, c).core == c && (to.ReadyQ? || to == FinishedQ(c))
    ensures forall d :: 0 <= d < |k'.cores| && d != c ==> CoreOk(k', d)
  {
    forall d | 0 <= d < |k'.cores| && d != c ensures CoreOk(k', d) {
      OfCore(k, d);
    }
  }

  lemma PutAsideKeeps(k: State, c: nat)
    requires Inv(k) && HasCore(k, c) && k.cores[c].phase.Deciding?
    ensures InvBut(PutAside(k, c, k.cores[c].phase.seen), c)
    ensures var s := Current(PutAside(k, c, k.cores[c].phase.seen), c).status; s != Running && s != Finished
  {
    var seen := k.cores[c].phase.seen;
    OfCore(k, c);
    if seen == Running {
      hide Inv, InvBut;
      PreemptKeeps(k, c);
    } else if seen == Finished {
      hide Inv, InvBut;
      RetireKeeps(k, c);
    }
  }

  lemma PreemptKeeps(k: State, c: nat)
    requires Inv(k) && HasCore(k, c) && k.cores[c].phase == Deciding(Running) && CoreOk(k, c)
    ensures InvBut(PutAside(k, c, Running), c) && Current(PutAside(k, c, Running), c).status == Ready
  {
    var t := k.cores[c].current;
    OfTask(k, t);
    hide Inv, InvBut;
    AsideKeeps(k, PutAside(k, c, Running), c, ReadyQ(c, k.tasks[t].prio));
  }

  lemma RetireKeeps(k: State, c: nat)
    requires Inv(k) && HasCore(k, c) && k.cores[c].phase == Deciding(Finished) && CoreOk(k, c)
    ensures InvBut(PutAside(k, c, Finished), c) && Current(PutAside(k, c, Finished), c).status == Invalid
  {
    var t := k.cores[c].current;
    OfTask(k, t);
    hide Inv, InvBut;
    AsideKeeps(k, PutAside(k, c, Finished), c, FinishedQ(c));
  }

  /** The lists that tell about the phases of the cores. */
  ghost predicate SameLists(k: State, k': State) {
    forall d ::
      && Get(k'.queues, PushQ(d)) == Get(k.queues, PushQ(d)) && Get(k'.queues, DrainQ(d)) == Get(k.queues, DrainQ(d))
      && Get(k'.queues, FinishedQ(d)) == Get(k.queues, FinishedQ(d))
  }

  /** Switching to the task `t`, which leaves the ready queue (or is the idle task). */
  lemma SwitchKeeps(k: State, k': State, c: nat, t: Tid)
    requires InvBut(k, c) && OnlyTask(k, k', t) && Moved(k.queues, k'.queues, t, None)
    requires Current(k, c).status != Running && Current(k, c).status != Finished
    requires k'.tasks[t].status == Running || k'.tasks[t].status == Idle
    requires k.tasks[t].core == c && k'.tasks[t].status == Idle ==> k.cores[c].idle == t
    requires k.tasks[t].core == c && (k.tasks[t].status == Ready || k.tasks[t].status == Idle)
    requires k'.tasks[t].retrying == k.tasks[t].retrying
             && (k.tasks[t].retrying.Some? ==> k'.tasks[t].status == Running)
    requires k'.tasks[t].status == Running ==> k.cores[c].idle != t
    requires |k'.cores| == |k.cores| && k'.cores == k.cores[c := k'.cores[c]]
    requires k'.cores[c].current == t && k'.cores[c].idle == k.cores[c].idle && k'.tasks[t].inside == None
    requires k'.cores[c].phase == ResumedPhase(k.tasks[t]) && k'.tasks[t].queueing == k.tasks[t].queueing
    requires SameLists(k, k')
    requires k'.registered == k.registered && k'.waits == k.waits && k'.objects == k.objects
    ensures Inv(k')
  {
    assert TaskOk(k, t) && RetryOk(k, t) && QueueingFits(k, t);
    ReadyNotWaiting(k, t);
    QueuesMoved(k, k', t, None);
    WaitsMoved(k, k', t, None);
    WokenMoved(k, k', t);
    SpawnsMoved(k, k', t);
    SwitchTasks(k, k', c, t);
    SwitchCores(k, k', c, t);
    SwitchCleaners(k, k', c, t);
    hide QueuesOk, TasksOk, CoresOk, SpawnsOk, WaitsOk, WokenOk, CleanersOk;
  }

  /** Where a task goes on that gets the processor. */
  function ResumedPhase(x: Task): Phase {
    if x.inside.Some? then x.inside.value else Executing
  }

  lemma SwitchCleaners(k: State, k': State, c: nat, t: Tid)
    requires CleanersOk(k) && OnlyTask(k, k', t) && Moved(k.queues, k'.queues, t, None)
    requires c < |k.cores| == |k'.cores| && k'.cores == k.cores[c := k'.cores[c]] && k'.tasks[t].inside == None
    requires k.tasks[t].status != Invalid && k'.cores[c].phase == ResumedPhase(k.tasks[t])
    ensures CleanersOk(k')
  {
    forall x | x in k'.tasks ensures CleanerOk(k', x) {
      assert CleanerOk(k, x) && (x != t ==> CleansApart(k.tasks[x], k.tasks[t]));
    }
    forall x, y | x in k'.tasks && y in k'.tasks && x != y ensures CleansApart(k'.tasks[x], k'.tasks[y]) {
      assert CleansApart(k.tasks[x], k.tasks[y]);
    }
  }

  lemma SwitchTasks(k: State, k': State, c: nat, t: Tid)
    requires InvBut(k, c) && OnlyTask(k, k', t) && Moved(k.queues, k'.queues, t, None)
    requires Current(k, c).status != Running && Current(k, c).status != Finished
    requires k'.tasks[t].status == Running || (k'.tasks[t].status == Idle && k.cores[c].idle == t)
    requires k.tasks[t].core == c && |k'.cores| == |k.cores| && k'.cores == k.cores[c := k'.cores[c]]
    requires k'.cores[c].current == t && k'.cores[c].idle == k.cores[c].idle && k'.tasks[t].inside == None
    requires k'.tasks[t].status == Running ==> k.cores[c].idle != t
    requires k'.registered == k.registered
    ensures TasksOk(k')
  {
    assert TaskOk(k, t);
    forall x | x in k'.tasks ensures TaskOk(k', x) {
      assert TaskOk(k, x);
      if x != t { HeldMoved(k.queues, k'.queues, t, None, x); }
    }
  }

  lemma SwitchCores(k: State, k': State, c: nat, t: Tid)
    requires InvBut(k, c) && OnlyTask(k, k', t)
    requires k'.tasks[t].status == Running || (k'.tasks[t].status == Idle && k.cores[c].idle == t)
    requires k'.tasks[t].status == Running ==> k.cores[c].idle != t
    requires k.tasks[t].core == c && (k.tasks[t].status == Ready || k.tasks[t].status == Idle)
    requires |k'.cores| == |k.cores| && k'.cores == k.cores[c := k'.cores[c]]
    requires k'.cores[c].current == t && k'.cores[c].idle == k.cores[c].idle
    requires k'.cores[c].phase == ResumedPhase(k.tasks[t]) && k'.tasks[t].inside == None
    requires SameLists(k, k')
    ensures CoresOk(k')
  {
    assert TaskOk(k, t) && CleanerOk(k, t);
    forall d | 0 <= d < |k'.cores| ensures CoreOk(k', d) {
      assert d != c ==> CoreOk(k, d);
    }
  }

  /** Popping the new task before or after putting the old one aside makes no difference. */
  lemma DispatchQueues(k: State, c: nat, q: QueueId)
    requires HasCore(k, c) && k.cores[c].phase.Deciding? && Get(k.queues, q) != []
    ensures var seen := k.cores[c].phase.seen;
            var a := PutAside(k, c, seen);
            var b := PutAside(k.(queues := Delete(k.queues, q, 0)), c, seen);
            && Get(a.queues, q) != [] && Get(a.queues, q)[0] == Get(k.queues, q)[0]
            && b == a.(queues := Delete(a.queues, q, 0))
  {
    PopPushCommute(k.queues, q, ReadyQ(c, Current(k, c).prio), k.cores[c].current);
    PopPushCommute(k.queues, q, FinishedQ(c), k.cores[c].current);
  }

  lemma DispatchKeeps(k: State, c: nat, level: nat)
    requires Inv(k) && HasCore(k, c) && k.cores[c].phase.Deciding? && Get(k.queues, ReadyQ(c, level)) != []
    ensures Inv(DispatchStep(k, c, k.cores[c].phase.seen, level))
  {
    hide Inv, PutAside;
    var q := ReadyQ(c, level);
    PutAsideKeeps(k, c);
    DispatchQueues(k, c, q);
    SwitchReadyKeeps(PutAside(k, c, k.cores[c].phase.seen), c, q);
  }

  /** Switching to the first task of a ready queue. */
  lemma SwitchReadyKeeps(a: State, c: nat, q: QueueId)
    requires InvBut(a, c) && q.ReadyQ? && q.core == c && Get(a.queues, q) != []
    requires Current(a, c).status != Running && Current(a, c).status != Finished
    ensures Get(a.queues, q)[0] in a.tasks
    ensures Inv(SwitchTo(a.(queues := Delete(a.queues, q, 0)), c, Get(a.queues, q)[0]))
  {
    var t := Get(a.queues, q)[0];
    InvButFacts(a, c, q);
    DeleteKeeps(a.queues, q, 0);
    hide InvBut, Delete, Inv, TaskOk, Fits, Linear, Held, SwitchTo;
    var b := a.(queues := Delete(a.queues, q, 0));
    assert Moved(a.queues, b.queues, t, None);
    assert SameLists(a, b);
    hide Moved;
    SwitchShape(a, b, c, t);
    assert SameLists(a, SwitchTo(b, c, t));
    hide *;
    SwitchKeeps(a, SwitchTo(b, c, t), c, t);
  }

  lemma InvButFacts(a: State, c: nat, q: QueueId)
    requires InvBut(a, c) && q.ReadyQ? && q.core == c && Get(a.queues, q) != []
    ensures var t := Get(a.queues, q)[0];
            && t in a.tasks && a.tasks[t].status == Ready && a.tasks[t].core == c && a.cores[c].idle != t
            && c < |a.cores| && Linear(a.queues)
  {
    var t := Get(a.queues, q)[0];
    assert Fits(a, q, t) && TaskOk(a, t);
  }

  lemma SwitchShape(a: State, b: State, c: nat, t: Tid)
    requires c < |a.cores| && t in a.tasks && b == a.(queues := b.queues) && a.tasks[t].status == Ready
    ensures var k' := SwitchTo(b, c, t);
            && OnlyTask(a, k', t) && k'.tasks[t].status == Running && k'.tasks[t].retrying == a.tasks[t].retrying
            && k'.tasks[t].inside == None && k'.tasks[t].queueing == a.tasks[t].queueing
            && |k'.cores| == |a.cores| && k'.cores == a.cores[c := k'.cores[c]]
            && k'.cores[c].current == t && k'.cores[c].idle == a.cores[c].idle
            && k'.cores[c].phase == ResumedPhase(a.tasks[t])
            && k'.queues == b.queues && k'.registered == a.registered && k'.waits == a.waits && k'.objects == a.objects
  {
  }

  lemma PopPushCommute(m: map<QueueId, seq<Tid>>, from: QueueId, to: QueueId, t: Tid)
    requires Get(m, from) != []
    ensures Get(Append(m, to, t), from) != [] && Get(Append(m, to, t), from)[0] == Get(m, from)[0]
    ensures Append(Delete(m, from, 0), to, t) == Delete(Append(m, to, t), from, 0)
  {
    if from == to {
      var s := Get(m, from);
      assert RemoveAt(s, 0) + [t] == RemoveAt(s + [t], 0);
    }
  }

  lemma GoIdleKeeps(k: State, c: nat)
    requires Inv(k) && HasCore(k, c) && k.cores[c].phase.Deciding?
    ensures Inv(IdleStep(k, c, k.cores[c].phase.seen))
  {
    hide Inv, PutAside;
    PutAsideKeeps(k, c);
    IdleSwitchKeeps(PutAside(k, c, k.cores[c].phase.seen), c);
  }

  lemma IdleSwitchKeeps(a: State, c: nat)
    requires InvBut(a, c) && Current(a, c).status != Running && Current(a, c).status != Finished
    ensures Inv(SwitchTo(a, c, a.cores[c].idle))
  {
    var t := a.cores[c].idle;
    assert TaskOk(a, t);
    NotQueued(a, t);
    assert Moved(a.queues, a.queues, t, None);
    hide Moved, InvBut, QueuesOk, TasksOk, WaitsOk, WokenOk, SpawnsOk, CleanersOk, Linear, Held;
    SwitchKeeps(a, SwitchTo(a, c, t), c, t);
  }

  lemma StayKeeps(k: State, c: nat)
    requires Inv(k) && HasCore(k, c) && k.cores[c].phase.Deciding?
             && (k.cores[c].phase.seen == Running || k.cores[c].phase.seen == Idle)
    ensures Inv(Resume(k, c, k.cores[c].current))
  {
    var t := k.cores[c].current;
    var k1 := k.(tasks := k.tasks[t := k.tasks[t].(inside := None)]);
    var p := ResumedPhase(k.tasks[t]);
    OfCore(k, c);
    OfTask(k, t);
    StopNesting(k, t);
    hide Inv;
    PhaseKeeps(k1, c, p);
    assert Resume(k, c, t) == k1.(cores := k1.cores[c := k1.cores[c].(phase := p, loud := k.tasks[t].inside.Some?)]);
  }

  /** An interrupted call of the scheduler goes on. */
  lemma StopNesting(k: State, t: Tid)
    requires Inv(k) && t in k.tasks
    ensures var k1 := k.(tasks := k.tasks[t := k.tasks[t].(inside := None)]);
            Inv(k1) && NotCleaned(k1, ResumedPhase(k.tasks[t]))
  {
    var k1 := k.(tasks := k.tasks[t := k.tasks[t].(inside := None)]);
    var p := ResumedPhase(k.tasks[t]);
    forall x | x in k1.tasks
      ensures SpawnOk(k1, k1.tasks[x]) && InsideOk(k1.tasks[x]) && (x != t ==> SpawnsApart(k1.tasks[t], k1.tasks[x]))
    {
      assert TaskOk(k, x) && (x != t ==> SpawnsApart(k.tasks[t], k.tasks[x]));
    }
    forall x | x in k1.tasks && p.Cleaning? ensures Cleans(k1.tasks[x]) != Some(p.id) {
      assert x != t ==> CleansApart(k.tasks[t], k.tasks[x]);
    }
    RegisteredExist(k);
    CleanersSame(k, k1, t);
    assert k1.tasks == k.tasks[t := k.tasks[t].(spawning := k.tasks[t].spawning, inside := None)];
    hide Inv, CleanersOk;
    MarksKeep(k, k1, t);
  }

  lemma DecideKeeps(k: State, c: nat, expired: bool)
    requires Inv(k) && HasCore(k, c) && k.cores[c].phase.Deciding?
    ensures Inv(DecideStep(k, c, k.cores[c].phase.seen, expired))
  {
    hide Choose;
    hide DispatchStep;
    hide IdleStep;
    match Choose(k, c, k.cores[c].phase.seen, expired)
    case Stay =>
      StayKeeps(k, c);
    case Dispatch(level) =>
      DispatchKeeps(k, c, level);
    case GoIdle =>
      GoIdleKeeps(k, c);
  }

  // ----- Cleanup, draining and the timer -----

  lemma ForgetKeeps(k: State, id: Tid)
    requires Inv(k) && id in k.tasks && k.tasks[id].status == Invalid && !Held(k.queues, id) && id !in k.registered
    requires forall d :: 0 <= d < |k.cores| ==> k.cores[d].phase != Cleaning(id)
    requires forall x :: x in k.tasks && k.tasks[x].spawning.Some? ==> k.tasks[x].spawning.value.tid != id
    requires NotCleaned(k, Cleaning(id))
    ensures Inv(k.(tasks := k.tasks - {id}))
  {
    ForgetTasks(k, id);
    ForgetRest(k, id);
    hide QueuesOk, TasksOk, CoresOk, WaitsOk, WokenOk, SpawnsOk, CleanersOk;
  }

  lemma ForgetTasks(k: State, id: Tid)
    requires QueuesOk(k) && TasksOk(k) && CoresOk(k) && id in k.tasks && k.tasks[id].status == Invalid
    requires !Held(k.queues, id) && id !in k.registered
    requires forall d :: 0 <= d < |k.cores| ==> k.cores[d].phase != Cleaning(id)
    requires forall x :: x in k.tasks && k.tasks[x].spawning.Some? ==> k.tasks[x].spawning.value.tid != id
    ensures var k' := k.(tasks := k.tasks - {id}); QueuesOk(k') && TasksOk(k') && CoresOk(k')
  {
    var k' := k.(tasks := k.tasks - {id});
    forall q, t | t in Get(k'.queues, q) ensures Fits(k', q, t) {
      assert Fits(k, q, t);
    }
    forall t | t in k'.tasks ensures TaskOk(k', t) {
      assert TaskOk(k, t);
    }
    forall d | 0 <= d < |k'.cores| ensures CoreOk(k', d) {
      assert CoreOk(k, d);
    }
  }

  lemma ForgetRest(k: State, id: Tid)
    requires Inv(k) && id in k.tasks && k.tasks[id].status == Invalid && NotCleaned(k, Cleaning(id))
    ensures var k' := k.(tasks := k.tasks - {id}); WaitsOk(k') && WokenOk(k') && SpawnsOk(k') && CleanersOk(k')
  {
    OfTask(k, id);
    OfState(k);
    ReadyNotWaiting(k, id);
    hide TasksOk, CoresOk, QueuesOk;
    ForgetWaits(k, id);
    var k' := k.(tasks := k.tasks - {id});
    assert RetryOk(k, id);
    ForgetWoken(k, k', id);
    hide WokenOk;
    forall t | t in k'.tasks ensures CleanerOk(k', t) {
      assert CleanerOk(k, t);
    }
  }

  lemma ForgetWaits(k: State, id: Tid)
    requires WaitsOk(k) && id in k.tasks && !Held(k.waits, id)
    ensures WaitsOk(k.(tasks := k.tasks - {id}))
  {
    var k' := k.(tasks := k.tasks - {id});
    forall t | t in k'.tasks ensures QueueingFits(k', t) {
      assert QueueingFits(k, t);
    }
    forall w, t | t in Get(k'.waits, w) ensures WaiterFits(k', w, t) {
      assert WaiterFits(k, w, t) && t != id;
    }
  }

  lemma ForgetWoken(k: State, k': State, id: Tid)
    requires WokenOk(k) && id in k.tasks && k.tasks[id].retrying == None && k'.objects == k.objects
    requires forall t :: t in k'.tasks <==> t in k.tasks && t != id
    requires forall t :: t in k'.tasks ==> k'.tasks[t] == k.tasks[t]
    ensures WokenOk(k')
  {
    forall t | t in k'.tasks ensures RetryOk(k', t) {
      assert RetryOk(k, t);
    }
  }

  lemma TransferHeld(m: map<QueueId, seq<Tid>>, from: QueueId, to: QueueId, t: Tid)
    requires Linear(m) && from != to && Get(m, to) == []
    ensures Held(Transfer(m, from, to), t) <==> Held(m, t)
  {
    TransferKeeps(m, from, to);
    var m' := Transfer(m, from, to);
    if Held(m, t) {
      var q :| t in Get(m, q);
      assert t in Get(m', if q == from then to else q);
    }
    if Held(m', t) {
      var q :| t in Get(m', q);
      assert t in Get(m, if q == to then from else q);
    }
  }

  /** The joiners of `id` move to the drain queue of core `c` in one piece. */
  ghost predicate Taking(k: State, c: nat, id: Tid, k': State) {
    && c < |k.cores| && Linear(k'.queues)
    && k' == k.(registered := k.registered - {id}, queues := k'.queues,
                cores := k.cores[c := k.cores[c].(phase := Draining)])
    && (forall q :: Get(k'.queues, q) ==
                    if q == DrainQ(c) then Get(k.queues, JoinQ(id)) else if q == JoinQ(id) then []
                      else Get(k.queues, q))
    && (forall t :: Held(k'.queues, t) <==> Held(k.queues, t))
  }

  lemma TakingQueues(k: State, c: nat, id: Tid, k': State)
    requires QueuesOk(k) && Taking(k, c, id, k') && Get(k.queues, DrainQ(c)) == []
    ensures QueuesOk(k')
  {
    forall q, t | t in Get(k'.queues, q) ensures Fits(k', q, t) {
      assert Fits(k, if q == DrainQ(c) then JoinQ(id) else q, t);
    }
  }

  lemma TakingTasks(k: State, c: nat, id: Tid, k': State)
    requires TasksOk(k) && Taking(k, c, id, k')
    ensures TasksOk(k')
  {
    forall t | t in k'.tasks ensures TaskOk(k', t) {
      assert TaskOk(k, t);
    }
  }

  lemma TakingCores(k: State, c: nat, id: Tid, k': State)
    requires CoresOk(k) && Taking(k, c, id, k') && k.cores[c].phase.Cleaning?
    ensures CoresOk(k')
  {
    forall d | 0 <= d < |k'.cores| ensures CoreOk(k', d) {
      assert CoreOk(k, d);
    }
  }

  lemma TakingWaits(k: State, c: nat, id: Tid, k': State)
    requires WaitsOk(k) && WokenOk(k) && CleanersOk(k) && Taking(k, c, id, k')
    ensures WaitsOk(k') && WokenOk(k') && CleanersOk(k')
  {
    forall t | t in k'.tasks ensures RetryOk(k', t) && QueueingFits(k', t) && CleanerOk(k', t) {
      assert RetryOk(k, t) && QueueingFits(k, t) && CleanerOk(k, t);
    }
    forall w, t | t in Get(k'.waits, w) ensures WaiterFits(k', w, t) {
      assert WaiterFits(k, w, t);
    }
  }

  lemma TransferJoiners(k: State, c: nat, id: Tid)
    requires Inv(k) && HasCore(k, c) && k.cores[c].phase.Cleaning?
    ensures Inv(SetPhase(k.(registered := k.registered - {id},
                            queues := Transfer(k.queues, JoinQ(id), DrainQ(c))), c, Draining))
    ensures forall t :: Held(Transfer(k.queues, JoinQ(id), DrainQ(c)), t) <==> Held(k.queues, t)
  {
    OfCore(k, c);
    TransferKeeps(k.queues, JoinQ(id), DrainQ(c));
    var k' := SetPhase(k.(registered := k.registered - {id},
                          queues := Transfer(k.queues, JoinQ(id), DrainQ(c))), c, Draining);
    forall t ensures Held(k'.queues, t) <==> Held(k.queues, t) {
      TransferHeld(k.queues, JoinQ(id), DrainQ(c), t);
    }
    assert Taking(k, c, id, k');
    hide Taking, QueuesOk, TasksOk, CoresOk, WaitsOk, WokenOk, SpawnsOk, CleanersOk, Transfer;
    TakingQueues(k, c, id, k');
    TakingTasks(k, c, id, k');
    TakingCores(k, c, id, k');
    TakingWaits(k, c, id, k');
    assert SpawnsOk(k') by { SameSpawns(k, k'); }
  }

  lemma SameSpawns(k: State, k': State)
    requires SpawnsOk(k) && k'.tasks == k.tasks
    ensures SpawnsOk(k')
  {
  }

  lemma CleanupKeeps(k: State, c: nat)
    requires Inv(k) && HasCore(k, c) && k.cores[c].phase == Entering
    ensures Inv(CleanupStep(k, c))
  {
    assert CoreOk(k, c);
    var finished := Get(k.queues, FinishedQ(c));
    if finished == [] {
      PhaseKeeps(k, c, Reading);
    } else {
      var id := finished[0];
      var k' := CleanupStep(k, c);
      assert Fits(k, FinishedQ(c), id) && TaskOk(k, id) && RetryOk(k, id) && QueueingFits(k, id);
      DeleteKeeps(k.queues, FinishedQ(c), 0);
      ReadyNotWaiting(k, id);
      forall x | x in k.tasks ensures Cleans(k.tasks[x]) != Some(id) {
        assert CleanerOk(k, x);
      }
      MoveKeeps(k, k', c, id, None);
    }
  }

  /** What is known of a task that is being cleaned up. */
  lemma CleaningFacts(k: State, c: nat)
    requires Inv(k) && HasCore(k, c) && k.cores[c].phase.Cleaning?
    ensures var id := k.cores[c].phase.id;
            && id in k.tasks && k.tasks[id].status == Invalid && !Held(k.queues, id)
            && (forall d :: 0 <= d < |k.cores| && d != c ==> k.cores[d].phase != Cleaning(id))
            && NotCleaned(k, Cleaning(id))
            && (id in k.registered ==>
                  forall x :: x in k.tasks && k.tasks[x].spawning.Some? ==> k.tasks[x].spawning.value.tid != id)
  {
    var id := k.cores[c].phase.id;
    assert CoreOk(k, c);
    forall q ensures id !in Get(k.queues, q) {
      assert id in Get(k.queues, q) ==> Fits(k, q, id);
    }
    forall d | 0 <= d < |k.cores| && d != c ensures k.cores[d].phase != Cleaning(id) {
      assert CoreOk(k, d);
    }
    forall x | x in k.tasks ensures Cleans(k.tasks[x]) != Some(id) {
      assert CleanerOk(k, x);
    }
    forall x | x in k.tasks && k.tasks[x].spawning.Some? && id in k.registered
      ensures k.tasks[x].spawning.value.tid != id
    {
      assert TaskOk(k, x);
    }
  }

  lemma ForgetStepKeeps(k: State, c: nat)
    requires Inv(k) && HasCore(k, c) && k.cores[c].phase.Cleaning?
    ensures Inv(ForgetStep(k, c, k.cores[c].phase.id))
  {
    var id := k.cores[c].phase.id;
    hide Inv;
    CleaningFacts(k, c);
    OfCore(k, c);
    if id in k.registered {
      TransferJoiners(k, c, id);
      var drained := SetPhase(k.(registered := k.registered - {id},
                                 queues := Transfer(k.queues, JoinQ(id), DrainQ(c))), c, Draining);
      ForgetKeeps(drained, id);
    } else {
      PhaseKeeps(k, c, Reading);
    }
  }

  lemma DrainKeeps(k: State, c: nat)
    requires Inv(k) && Enabled(k, Drain(c))
    ensures Inv(DrainStep(k, c))
  {
    assert CoreOk(k, c);
    var list := Get(k.queues, DrainQ(c));
    if list == [] {
      PhaseKeeps(k, c, Reading);
    } else {
      assert Fits(k, DrainQ(c), list[0]) && QueueingFits(k, list[0]);
      NotInBlockedList(k, DrainQ(c), list[0]);
      WakeKeeps(k, c, DrainQ(c), 0);
    }
  }

  lemma NotInBlockedList(k: State, q: QueueId, t: Tid)
    requires QueuesOk(k) && WaitsOk(k) && t in Get(k.queues, q) && !q.BlockedQ?
    ensures !Held(k.waits, t)
  {
    forall w ensures t !in Get(k.waits, w) {
      assert t in Get(k.waits, w) ==> WaiterFits(k, w, t);
    }
  }

  lemma ExpireKeeps(k: State, c: nat)
    requires Inv(k) && Enabled(k, Expire(c)) && Tame(k, Expire(c))
    ensures Inv(ExpireStep(k, c, k.cores[c].phase.now))
  {
    assert CoreOk(k, c);
    var list := Get(k.queues, BlockedQ(c));
    if Due(k, c) {
      assert QueueingFits(k, list[0]);
      WakeKeeps(k, c, BlockedQ(c), 0);
    } else {
      PhaseKeeps(k, c, Entering);
    }
  }

  // ----- Every step, every run -----

  /** The timer handler of core `c` is about to wake a task. */
  predicate Due(k: State, c: nat)
    requires HasCore(k, c) && k.cores[c].phase.Ticking?
  {
    var list := Get(k.queues, BlockedQ(c));
    list != [] && list[0] in k.tasks && k.tasks[list[0]].deadline.Some?
    && k.tasks[list[0]].deadline.value <= k.cores[c].phase.now
  }

  /** All steps but two: the timer handler wakes a task that is still in the wait queue of a semaphore, and an interrupt
      comes after the scheduler has read that its task is blocked, or has just been woken, and before it decides. */
  ghost predicate Tame(k: State, a: Action)
    requires Enabled(k, a)
  {
    match a
    case Expire(c) => Due(k, c) ==> !Held(k.waits, Get(k.queues, BlockedQ(c))[0])
    case NestLate(c, now) => k.cores[c].phase.Deciding? ==> FirmStatus(k.cores[c].phase.seen)
    case _ => true
  }

  lemma EnterKeeps(k: State, c: nat, loud: bool)
    requires Inv(k) && Free(k, c)
    ensures Inv(EnterScheduler(k, c, loud)) && forall now :: Inv(SetPhase(k, c, Ticking(now)))
  {
    hide Inv;
    OfCore(k, c);
    assert Current(k, c).inside == None;
    PhaseKeeps(k, c, Entering);
    forall now ensures Inv(SetPhase(k, c, Ticking(now))) {
      PhaseKeeps(k, c, Ticking(now));
    }
  }

  lemma ReadKeeps(k: State, c: nat)
    requires Inv(k) && HasCore(k, c) && k.cores[c].phase == Reading
    ensures Inv(SetPhase(k, c, Deciding(Current(k, c).status)))
  {
    hide Inv;
    OfCore(k, c);
    PhaseKeeps(k, c, Deciding(Current(k, c).status));
  }

  lemma CloneStepKeeps(k: State, c: nat, target: nat, tid: Tid)
    requires Inv(k) && Enabled(k, Clone(c, target, tid))
    ensures Inv(Step(k, Clone(c, target, tid)))
  {
    CreateKeeps(k, target, Current(k, c).prio, tid);
    forall x | x in k.tasks && k.tasks[x].spawning.Some? ensures k.tasks[x].spawning.value.tid != tid {
      OfTask(k, x);
    }
    hide Inv;
    CloneKeeps(CreateTask(k, target, Current(k, c).prio, tid), tid);
  }

  lemma StepKeeps(k: State, a: Action)
    requires Inv(k) && Enabled(k, a) && Tame(k, a)
    ensures Inv(Step(k, a))
  {
    hide Inv;
    match a
    case Spawn(c, target, prio, tid, quiet) => SpawnKeeps(k, c, target, prio, tid, quiet);
    case Register(c) => RegisterKeeps(k, c);
    case Clone(c, target, tid) => CloneStepKeeps(k, c, target, tid);
    case Exit(c) => ExitKeeps(k, c);
    case Yield(c) => EnterKeeps(k, c, false);
    case Call(c) => EnterKeeps(k, c, true);
    case Cleanup(c) => CleanupKeeps(k, c);
    case Forget(c) => ForgetStepKeeps(k, c);
    case Drain(c) => DrainKeeps(k, c);
    case Push(c) => PushKeeps(k, c);
    case Read(c) => ReadKeeps(k, c);
    case Decide(c, expired) => DecideKeeps(k, c, expired);
    case Join(c, tid) => if tid in k.registered { BlockKeeps(k, c, JoinQ(tid), None); }
    case Sleep(c, wakeup) => BlockKeeps(k, c, BlockedQ(c), Some(wakeup));
    case Tick(c, now) => EnterKeeps(k, c, false);
    case Nest(c, now) => NestKeeps(k, c, now);
    case NestLate(c, now) => NestKeeps(k, c, now);
    case Expire(c) => ExpireKeeps(k, c);
    case Acquire(c, o, until) => AcquireKeeps(k, c, o, until);
    case TryAcquire(c, o) => if k.objects[o].count > 0 { AcquireKeeps(k, c, o, None); }
    case Release(c, o) => ReleaseKeeps(k, c, o);
    case Lock(c, o) => LockKeeps(k, c, o);
    case Enqueue(c) => EnqueueKeeps(k, c);
    case Unlock(c, o) => UnlockKeeps(k, c, o);
  }

  /** Every step of the run is tame in the state in which it is made. */
  ghost predicate TameRun(k: State, actions: seq<Action>)
    decreases |actions|
  {
    actions != [] && Enabled(k, actions[0]) ==>
      Tame(k, actions[0]) && TameRun(Step(k, actions[0]), actions[1..])
  }

  lemma {:induction false} RunKeeps(k: State, actions: seq<Action>)
    requires Inv(k) && TameRun(k, actions) && Run(k, actions).Some?
    ensures Inv(Run(k, actions).value)
    decreases |actions|
  {
    if actions != [] {
      StepKeeps(k, actions[0]);
      hide Inv, Step, Enabled, Tame;
      RunKeeps(Step(k, actions[0]), actions[1..]);
    }
  }
}
