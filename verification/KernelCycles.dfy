/**
 When exactly tasks are lost.  A task that cannot go on waits for another one: in `join`, for a mutex, or for the
 cleanup that the other was about to make when an interrupt came.  In every state of a tame run a task is lost exactly
 if the chain of tasks that starts with it runs into a cycle, or ends with a task that nobody will clean up or that was
 interrupted while it held the spinlock of a mutex.
 */
module KernelCycles {
  import opened Registry
  import opened Kernel
  import opened KernelSafety
  import opened KernelJoin
  import opened KernelSync
  import opened KernelGone
  import opened Options
  import opened Priorities

  // ----- Chains -----

  /** Mutex `o` stays as it is until `y` has gone on. */
  predicate Blocks(k: State, o: nat, y: Tid) {
    && o in k.objects && k.objects[o].Mutex?
    && (k.objects[o].owner == Some(y) || (y in k.tasks && k.tasks[y].queueing == Some(o)))
  }

  /** Task `x` cannot go on before `y` has. */
  ghost predicate WaitsFor(k: State, x: Tid, y: Tid) {
    || x in Get(k.queues, JoinQ(y))
    || (exists w :: x in Get(k.waits, w) && Blocks(k, w.obj, y))
    || (y in k.tasks && Cleans(k.tasks[y]) == Some(x))
  }

  /** Nobody will clean up the task, or it was interrupted on the way into the wait queue of a mutex. */
  predicate DeadEnd(k: State, x: Tid) {
    x in k.tasks && (!WillBeCleaned(k, x) || Stranded(k, x))
  }

  predicate Stranded(k: State, x: Tid) {
    && x in k.tasks && k.tasks[x].queueing.Some?
    && forall c :: 0 <= c < |k.cores| && k.cores[c].current == x ==> k.cores[c].phase != Executing
  }

  ghost predicate Chain(k: State, path: seq<Tid>) {
    path != [] && forall i, j :: 0 <= i < |path| && 0 <= j < |path| && j == i + 1 ==> WaitsFor(k, path[i], path[j])
  }

  /** The last task of the path was met before. */
  predicate Closes(path: seq<Tid>) {
    path != [] && path[|path| - 1] in path[..|path| - 1]
  }

  /** The chain of tasks that starts with `t` runs into a cycle. */
  ghost predicate Cyclic(k: State, t: Tid) {
    exists path :: Chain(k, path) && path[0] == t && Closes(path)
  }

  /** It does, or comes to a dead end. */
  ghost predicate Doomed(k: State, t: Tid) {
    exists path :: Chain(k, path) && path[0] == t && (Closes(path) || DeadEnd(k, path[|path| - 1]))
  }

  /** A task that waits without a deadline in the blocked list of a core waits for an object, or is about to. */
  ghost predicate Accounted(k: State) {
    forall c, t :: t in Get(k.queues, BlockedQ(c)) && t in k.tasks && k.tasks[t].deadline == None ==> Listed(k, t)
  }

  ghost predicate Listed(k: State, t: Tid)
    requires t in k.tasks
  {
    Held(k.waits, t) || k.tasks[t].queueing.Some?
  }

  // ----- A chain that cannot go on is lost -----

  /** What `LostCore` says of one member. */
  predicate Off(k: State, x: Tid, c: nat)
    requires c < |k.cores|
  {
    && k.cores[c].idle != x && k.cores[c].phase != Cleaning(x)
    && (k.cores[c].current == x ==>
          && x in k.tasks && k.tasks[x].status == Blocked
          && (k.cores[c].phase.Deciding? ==> k.cores[c].phase.seen == Blocked)
          && (k.cores[c].phase == Executing ==> k.tasks[x].queueing == None))
  }

  lemma OffBlocked(k: State, x: Tid, c: nat)
    requires Inv(k) && x in k.tasks && c < |k.cores| && k.tasks[x].status == Blocked
    requires k.cores[c].current == x && k.cores[c].phase == Executing ==> k.tasks[x].queueing == None
    ensures Off(k, x, c)
  {
    assert CoreOk(k, c);
  }

  lemma OffInvalid(k: State, x: Tid, c: nat)
    requires Inv(k) && x in k.tasks && c < |k.cores| && k.tasks[x].status == Invalid && k.cores[c].phase != Cleaning(x)
    ensures Off(k, x, c)
  {
    assert CoreOk(k, c);
  }

  /** Only one list holds the task. */
  lemma OnlyList(k: State, s: set<Tid>, x: Tid, q: QueueId)
    requires Linear(k.queues) && x in k.tasks && x in Get(k.queues, q) && LostIn(k, s, x, q)
    ensures forall p :: x in Get(k.queues, p) ==> LostIn(k, s, x, p)
  {
  }

  /** Nobody is about to clean up a task that has not exited. */
  lemma NotRetired(k: State, x: Tid)
    requires Inv(k) && x in k.tasks && k.tasks[x].status != Invalid
    ensures forall y :: y in k.tasks ==> Cleans(k.tasks[y]) != Some(x)
  {
    forall y | y in k.tasks ensures Cleans(k.tasks[y]) != Some(x) {
      assert CleanerOk(k, y);
    }
  }

  lemma JoinerIsLost(k: State, s: set<Tid>, x: Tid, y: Tid)
    requires Inv(k) && x in Get(k.queues, JoinQ(y)) && y in s
    ensures LostTask(k, s, x) && forall c :: 0 <= c < |k.cores| ==> Off(k, x, c)
  {
    OfQueue(k, JoinQ(y), x);
    OfState(k);
    OnlyList(k, s, x, JoinQ(y));
    NotInBlockedList(k, JoinQ(y), x);
    NotRetired(k, x);
    hide Inv;
    assert k.tasks[x].queueing == None;
    forall c | 0 <= c < |k.cores| ensures Off(k, x, c) {
      OffBlocked(k, x, c);
    }
  }

  lemma WaiterIsLost(k: State, s: set<Tid>, x: Tid, w: WaitId, y: Tid)
    requires Inv(k) && x in Get(k.waits, w) && Blocks(k, w.obj, y) && y in s
    ensures LostTask(k, s, x) && forall c :: 0 <= c < |k.cores| ==> Off(k, x, c)
  {
    OfState(k);
    assert WaiterFits(k, w, x);
    var q := BlockedQ(k.tasks[x].core);
    OfQueue(k, q, x);
    OnlyList(k, s, x, q);
    NotRetired(k, x);
    assert HeldUp(k, s, w.obj);
    assert k.tasks[x].queueing == None;
    forall v | x in Get(k.waits, v) ensures HeldUp(k, s, v.obj) {
      assert v == w;
    }
    forall c | 0 <= c < |k.cores| ensures Off(k, x, c) {
      OffBlocked(k, x, c);
    }
  }

  lemma RetiredIsLost(k: State, s: set<Tid>, x: Tid)
    requires Inv(k) && x in k.tasks && k.tasks[x].status == Invalid && x !in Get(k.queues, FinishedQ(k.tasks[x].core))
    requires CleaningOn(k, k.tasks[x].core) != Some(x)
    requires forall y :: y in k.tasks && Cleans(k.tasks[y]) == Some(x) ==> y in s
    ensures LostTask(k, s, x) && forall c :: 0 <= c < |k.cores| ==> Off(k, x, c)
  {
    hide Inv;
    OfState(k);
    ReadyNotWaiting(k, x);
    forall q ensures x !in Get(k.queues, q) {
      assert x in Get(k.queues, q) ==> Fits(k, q, x);
    }
    hide QueuesOk, WaitsOk, Linear;
    forall c | 0 <= c < |k.cores| ensures Off(k, x, c) {
      OfCore(k, c);
      OffInvalid(k, x, c);
    }
  }

  lemma CleanedIsLost(k: State, s: set<Tid>, x: Tid, y: Tid)
    requires Inv(k) && y in k.tasks && Cleans(k.tasks[y]) == Some(x) && y in s
    ensures LostTask(k, s, x) && forall c :: 0 <= c < |k.cores| ==> Off(k, x, c)
  {
    OfTask(k, y);
    forall z | z in k.tasks && Cleans(k.tasks[z]) == Some(x) ensures z == y {
      assert z != y ==> CleansApart(k.tasks[y], k.tasks[z]);
    }
    hide Inv;
    RetiredIsLost(k, s, x);
  }

  lemma StrandedIsLost(k: State, s: set<Tid>, x: Tid)
    requires Inv(k) && Stranded(k, x)
    ensures LostTask(k, s, x) && forall c :: 0 <= c < |k.cores| ==> Off(k, x, c)
  {
    OfState(k);
    OfTask(k, x);
    OnlyList(k, s, x, BlockedQ(k.tasks[x].core));
    NotRetired(k, x);
    hide Inv;
    forall c | 0 <= c < |k.cores| ensures Off(k, x, c) {
      OffBlocked(k, x, c);
    }
  }

  /** Whoever waits for a member, or is a dead end, may be a member. */
  lemma MemberIsLost(k: State, s: set<Tid>, x: Tid)
    requires Inv(k) && (DeadEnd(k, x) || exists y :: y in s && WaitsFor(k, x, y))
    ensures LostTask(k, s, x) && forall c :: 0 <= c < |k.cores| ==> Off(k, x, c)
  {
    hide Inv;
    if DeadEnd(k, x) {
      if Stranded(k, x) {
        StrandedIsLost(k, s, x);
      } else {
        RetiredIsLost(k, s, x);
      }
    } else {
      var y :| y in s && WaitsFor(k, x, y);
      if x in Get(k.queues, JoinQ(y)) {
        JoinerIsLost(k, s, x, y);
      } else if y in k.tasks && Cleans(k.tasks[y]) == Some(x) {
        CleanedIsLost(k, s, x, y);
      } else {
        var w :| x in Get(k.waits, w) && Blocks(k, w.obj, y);
        WaiterIsLost(k, s, x, w, y);
      }
    }
  }

  lemma MembersAreLost(k: State, s: set<Tid>)
    requires Inv(k)
    requires forall x :: x in s ==> DeadEnd(k, x) || exists y :: y in s && WaitsFor(k, x, y)
    ensures Lost(k, s)
  {
    hide Inv, DeadEnd, WaitsFor, LostTask;
    forall x | x in s ensures LostTask(k, s, x) && forall c :: 0 <= c < |k.cores| ==> Off(k, x, c) {
      MemberIsLost(k, s, x);
    }
    forall c | 0 <= c < |k.cores| ensures LostCore(k, s, c) {
      assert forall x :: x in s ==> Off(k, x, c);
    }
  }

  lemma DoomedIsGone(k: State, t: Tid)
    requires Inv(k) && Doomed(k, t)
    ensures Gone(k, t)
  {
    hide Inv, DeadEnd, WaitsFor;
    var path :| Chain(k, path) && path[0] == t && (Closes(path) || DeadEnd(k, path[|path| - 1]));
    var s := set x | x in path;
    forall x | x in s ensures DeadEnd(k, x) || exists y :: y in s && WaitsFor(k, x, y) {
      var i :| 0 <= i < |path| && path[i] == x;
      if i < |path| - 1 {
        assert WaitsFor(k, path[i], path[i + 1]) && path[i + 1] in s;
      } else if Closes(path) {
        var j :| 0 <= j < |path| - 1 && path[j] == x;
        assert WaitsFor(k, path[j], path[j + 1]) && path[j + 1] in s;
      }
    }
    MembersAreLost(k, s);
    assert t in s;
  }

  // ----- A lost task is on such a chain -----

  lemma NextBlocked(k: State, s: set<Tid>, x: Tid)
    requires Inv(k) && Accounted(k) && Lost(k, s) && x in s && x in k.tasks && k.tasks[x].status == Blocked
    ensures DeadEnd(k, x) || exists y :: y in s && WaitsFor(k, x, y)
  {
    OfTask(k, x);
    assert LostTask(k, s, x);
    var q :| x in Get(k.queues, q);
    assert LostIn(k, s, x, q);
    hide Inv;
    if q.JoinQ? {
      assert WaitsFor(k, x, q.tid);
    } else if k.tasks[x].queueing.Some? {
      forall c | 0 <= c < |k.cores| && k.cores[c].current == x ensures k.cores[c].phase != Executing {
        assert LostCore(k, s, c);
      }
      assert Stranded(k, x);
    } else {
      assert Listed(k, x);
      var w :| x in Get(k.waits, w);
      assert HeldUp(k, s, w.obj);
      var y :| y in s && Blocks(k, w.obj, y);
      assert WaitsFor(k, x, y);
    }
  }

  lemma NextInvalid(k: State, s: set<Tid>, x: Tid)
    requires Inv(k) && Lost(k, s) && x in s && x in k.tasks && k.tasks[x].status == Invalid
    ensures DeadEnd(k, x) || exists y :: y in s && WaitsFor(k, x, y)
  {
    assert LostTask(k, s, x);
    OfTask(k, x);
    if WillBeCleaned(k, x) {
      assert x in Get(k.queues, FinishedQ(k.tasks[x].core)) ==> LostIn(k, s, x, FinishedQ(k.tasks[x].core));
      assert LostCore(k, s, k.tasks[x].core);
      assert CleanedLater(k, x);
      var y :| y in k.tasks && Cleans(k.tasks[y]) == Some(x);
      assert WaitsFor(k, x, y);
    }
  }

  lemma NextMember(k: State, s: set<Tid>, x: Tid)
    requires Inv(k) && Accounted(k) && Lost(k, s) && x in s
    ensures DeadEnd(k, x) || exists y :: y in s && WaitsFor(k, x, y)
  {
    assert LostTask(k, s, x);
    OfTask(k, x);
    assert LostCore(k, s, k.tasks[x].core);
    if k.tasks[x].status == Blocked {
      NextBlocked(k, s, x);
    } else if k.tasks[x].status == Invalid {
      NextInvalid(k, s, x);
    }
  }

  lemma ChainGoesOn(k: State, path: seq<Tid>, y: Tid)
    requires Chain(k, path) && WaitsFor(k, path[|path| - 1], y)
    ensures Chain(k, path + [y])
  {
    hide WaitsFor;
  }

  /** A path of members that does not meet any of them twice goes on to a dead end, or to one that it has met. */
  lemma GoOn(k: State, s: set<Tid>, path: seq<Tid>) returns (more: seq<Tid>)
    requires Inv(k) && Accounted(k) && Lost(k, s) && Chain(k, path) && forall x :: x in path ==> x in s
    ensures Chain(k, more) && more[0] == path[0] && (Closes(more) || DeadEnd(k, more[|more| - 1]))
    decreases s - set x | x in path
  {
    hide Inv, Accounted, Lost, WaitsFor, DeadEnd;
    var last := path[|path| - 1];
    NextMember(k, s, last);
    if DeadEnd(k, last) {
      more := path;
    } else {
      var y :| y in s && WaitsFor(k, last, y);
      ChainGoesOn(k, path, y);
      more := path + [y];
      assert more[..|more| - 1] == path;
      if y !in path {
        assert y in s - (set x | x in path) && y !in s - (set x | x in more);
        more := GoOn(k, s, more);
      }
    }
  }

  /** A task is lost exactly if its chain runs into a cycle or comes to a dead end. */
  lemma LostExactly(k: State, t: Tid)
    requires Inv(k) && Accounted(k)
    ensures Gone(k, t) <==> Doomed(k, t)
  {
    if Doomed(k, t) {
      DoomedIsGone(k, t);
    }
    if Gone(k, t) {
      var s :| t in s && Lost(k, s);
      assert Chain(k, [t]);
      var path := GoOn(k, s, [t]);
      assert path[0] == t;
    }
  }

  // ----- Untimed waits are accounted for in every run -----

  /** Blocked lists and wait queues stay as they are. */
  ghost predicate SameStay(k: State, k': State) {
    && (forall c :: Get(k'.queues, BlockedQ(c)) == Get(k.queues, BlockedQ(c))) && k'.waits == k.waits
    && (forall t :: t in k'.tasks && t in k.tasks ==>
          k'.tasks[t].deadline == k.tasks[t].deadline && k'.tasks[t].queueing == k.tasks[t].queueing)
  }

  lemma StayAccounted(k: State, k': State)
    requires Inv(k) && Accounted(k) && SameStay(k, k')
    ensures Accounted(k')
  {
    forall c, t | t in Get(k'.queues, BlockedQ(c)) && t in k'.tasks && k'.tasks[t].deadline == None
      ensures Listed(k', t)
    {
      assert t in Get(k.queues, BlockedQ(c)) && Fits(k, BlockedQ(c), t);
      assert Listed(k, t);
    }
  }

  lemma StayTrans(k: State, k1: State, k2: State)
    requires SameStay(k, k1) && SameStay(k1, k2) && k.tasks.Keys == k1.tasks.Keys
    ensures SameStay(k, k2)
  {
  }

  lemma SwitchStays(k: State, c: nat, t: Tid)
    requires c < |k.cores| && t in k.tasks
    ensures SameStay(k, SwitchTo(k, c, t)) && SameStay(k, Resume(k, c, t))
  {
  }

  lemma AsideStays(k: State, c: nat, seen: Status)
    requires HasCore(k, c)
    ensures SameStay(k, PutAside(k, c, seen))
  {
  }

  lemma GoStays(k: State, k1: State, c: nat, seen: Status, t: Tid)
    requires HasCore(k, c) && k1 == k.(queues := k1.queues) && SameStay(k, k1)
    ensures var a := PutAside(k1, c, seen); SameStay(k, if t in a.tasks then SwitchTo(a, c, t) else a)
  {
    hide SameStay, SwitchTo;
    AsideStays(k1, c, seen);
    var a := PutAside(k1, c, seen);
    hide PutAside;
    StayTrans(k, k1, a);
    if t in a.tasks {
      SwitchStays(a, c, t);
      StayTrans(k, a, SwitchTo(a, c, t));
    }
  }

  lemma DecideStays(k: State, c: nat, seen: Status, expired: bool)
    requires HasCore(k, c)
    ensures SameStay(k, DecideStep(k, c, seen, expired))
  {
    hide Choose, PutAside, SwitchTo, Resume;
    match Choose(k, c, seen, expired)
    case Stay => SwitchStays(k, c, k.cores[c].current);
    case GoIdle => GoStays(k, k, c, seen, k.cores[c].idle);
    case Dispatch(level) =>
      GoStays(k, k.(queues := Delete(k.queues, ReadyQ(c, level), 0)), c, seen, Get(k.queues, ReadyQ(c, level))[0]);
  }

  lemma CleanupStays(k: State, c: nat, id: Tid)
    requires HasCore(k, c)
    ensures SameStay(k, CleanupStep(k, c)) && SameStay(k, ForgetStep(k, c, id))
  {
  }

  lemma CreateStays(k: State, c: nat, target: nat, prio: nat, tid: Tid, quiet: bool)
    requires HasCore(k, c) && tid !in k.tasks
    ensures SameStay(k, CreateTask(k, target, prio, tid)) && SameStay(k, SpawnStep(k, c, target, prio, tid, quiet))
  {
  }

  lemma PushStays(k: State, c: nat)
    requires Get(k.queues, PushQ(c)) != [] && Get(k.queues, PushQ(c))[0] in k.tasks
    ensures SameStay(k, PushStep(k, c))
  {
  }

  lemma DrainStays(k: State, c: nat)
    requires HasCore(k, c)
    ensures SameStay(k, DrainStep(k, c))
  {
  }

  /** Steps that touch neither blocked lists nor wait queues. */
  predicate Aside(a: Action) {
    !a.Join? && !a.Sleep? && !a.Expire? && !a.Acquire? && !a.TryAcquire? && !a.Release? && !a.Lock? && !a.Enqueue?
    && !a.Unlock?
  }

  lemma OthersStay(k: State, a: Action)
    requires Enabled(k, a) && Aside(a)
    ensures SameStay(k, Step(k, a))
  {
    hide DecideStep, CleanupStep, ForgetStep, DrainStep, PushStep, SpawnStep, CreateTask;
    match a
    case Decide(c, expired) => DecideStays(k, c, k.cores[c].phase.seen, expired);
    case Spawn(c, target, prio, tid, quiet) => CreateStays(k, c, target, prio, tid, quiet);
    case Clone(c, target, tid) => CreateStays(k, c, target, Current(k, c).prio, tid, false);
    case Cleanup(c) => CleanupStays(k, c, 0);
    case Forget(c) => CleanupStays(k, c, k.cores[c].phase.id);
    case Drain(c) => DrainStays(k, c);
    case Push(c) => PushStays(k, c);
    case Register(c) =>
    case Exit(c) =>
    case Yield(c) =>
    case Call(c) =>
    case Read(c) =>
    case Tick(c, now) =>
    case Nest(c, now) =>
    case NestLate(c, now) =>
  }

  /** The current task enters a blocked list, with a deadline or not for good. */
  lemma BlockAccounts(k: State, c: nat, q: QueueId, until: Option<nat>)
    requires Inv(k) && Accounted(k) && Working(k, c) && (q.JoinQ? || (q == BlockedQ(c) && until.Some?))
    ensures Accounted(BlockCurrent(k, c, q, until))
  {
    OfState(k);
    hide Inv;
    var t := k.cores[c].current;
    NotQueued(k, t);
    var k' := BlockCurrent(k, c, q, until);
    InsertKeeps(k.queues, q, DeadlinePosition(k.tasks, Get(k.queues, q), until), t);
    forall d, x | x in Get(k'.queues, BlockedQ(d)) && x in k'.tasks && k'.tasks[x].deadline == None
      ensures Listed(k', x)
    {
      assert x in Get(k.queues, BlockedQ(d)) && x != t;
      assert Listed(k, x);
    }
  }

  /** It enters the blocked list of the core, and is accounted for afterwards. */
  lemma BlockedAccounts(k: State, c: nat, o: nat, until: Option<nat>, k': State)
    requires Inv(k) && Accounted(k) && MayTry(k, c, o)
    requires k'.queues == BlockInAcquire(k, c, until).queues && k.cores[c].current in k'.tasks
    requires Listed(k', k.cores[c].current) && (forall x :: Held(k.waits, x) ==> Held(k'.waits, x))
    requires forall x :: x in k'.tasks && x != k.cores[c].current ==> x in k.tasks && k'.tasks[x] == k.tasks[x]
    ensures Accounted(k')
  {
    OfState(k);
    OfCore(k, c);
    hide Inv;
    var t := k.cores[c].current;
    NotQueued(k, t);
    var k1 := StopRetrying(k, c);
    assert k1.queues == k.queues;
    InsertKeeps(k.queues, BlockedQ(c), DeadlinePosition(k1.tasks, Get(k.queues, BlockedQ(c)), until), t);
    forall d, x | x in Get(k'.queues, BlockedQ(d)) && x in k'.tasks && k'.tasks[x].deadline == None
      ensures Listed(k', x)
    {
      if x != t {
        assert x in Get(k.queues, BlockedQ(d)) && Listed(k, x);
      }
    }
  }

  lemma BlockedTasks(k: State, c: nat, until: Option<nat>)
    requires HasCore(k, c)
    ensures var k', t := BlockInAcquire(k, c, until), k.cores[c].current;
            && t in k'.tasks && k'.tasks.Keys == k.tasks.Keys && k'.waits == k.waits
            && forall x :: x in k.tasks && x != t ==> k'.tasks[x] == k.tasks[x]
  {
  }

  lemma HeldAppended(m: map<WaitId, seq<Tid>>, w: WaitId, t: Tid)
    ensures Held(Append(m, w, t), t) && forall x :: Held(m, x) ==> Held(Append(m, w, t), x)
  {
    var m' := Append(m, w, t);
    assert t in Get(m', w);
    forall x | Held(m, x) ensures Held(m', x) {
      var v :| x in Get(m, v);
      assert x in Get(m', v);
    }
  }

  lemma AcquireAccounts(k: State, c: nat, o: nat, until: Option<nat>)
    requires Inv(k) && Accounted(k) && MayTry(k, c, o) && k.objects[o].Semaphore?
    ensures Accounted(AcquireStep(k, c, o, until))
  {
    hide Accounted;
    if k.objects[o].count > 0 {
      assert SameStay(k, AcquireStep(k, c, o, until));
      StayAccounted(k, AcquireStep(k, c, o, until));
    } else {
      BlockedTasks(k, c, until);
      HeldAppended(k.waits, WaitQ(o, Current(k, c).prio), k.cores[c].current);
      hide Inv, BlockInAcquire;
      BlockedAccounts(k, c, o, until, WaitFor(k, c, o, until));
    }
  }

  lemma LockAccounts(k: State, c: nat, o: nat)
    requires Inv(k) && Accounted(k) && MayTry(k, c, o) && k.objects[o].Mutex?
    ensures Accounted(LockStep(k, c, o))
  {
    hide Accounted;
    var t, m := k.cores[c].current, k.objects[o];
    if m.owner == Some(t) || m.owner.None? {
      assert SameStay(k, LockStep(k, c, o));
      StayAccounted(k, LockStep(k, c, o));
    } else {
      BlockedTasks(k, c, None);
      hide Inv, BlockInAcquire;
      BlockedAccounts(k, c, o, None, LockStep(k, c, o));
    }
  }

  lemma EnqueueAccounts(k: State, c: nat)
    requires Accounted(k) && HasCore(k, c) && Current(k, c).queueing.Some?
    ensures Accounted(EnqueueStep(k, c))
  {
    var t, k' := k.cores[c].current, EnqueueStep(k, c);
    HeldAppended(k.waits, WaitQ(k.tasks[t].queueing.value, k.tasks[t].prio), t);
    forall d, x | x in Get(k'.queues, BlockedQ(d)) && x in k'.tasks && k'.tasks[x].deadline == None
      ensures Listed(k', x)
    {
      assert Listed(k, x);
    }
  }

  /** A task leaves the blocked list, and perhaps a wait queue. */
  lemma WakeAccounts(k: State, c: nat, q: QueueId, at: nat, k': State)
    requires Inv(k) && Accounted(k) && at < |Get(k.queues, q)| && q.BlockedQ?
    requires k'.queues == Append(Delete(k.queues, q, at), PushQ(c), Get(k.queues, q)[at])
    requires forall x :: x in k'.tasks && x != Get(k.queues, q)[at] ==> x in k.tasks && k'.tasks[x] == k.tasks[x]
    requires forall x :: Held(k.waits, x) && x != Get(k.queues, q)[at] ==> Held(k'.waits, x)
    ensures Accounted(k')
  {
    OfState(k);
    hide Inv;
    ShiftMoves(k.queues, q, at, PushQ(c));
    forall d, x | x in Get(k'.queues, BlockedQ(d)) && x in k'.tasks && k'.tasks[x].deadline == None
      ensures Listed(k', x)
    {
      assert x != Get(k.queues, q)[at] && x in Get(k.queues, BlockedQ(d)) && Listed(k, x);
    }
  }

  lemma HeldDeleted(m: map<WaitId, seq<Tid>>, w: WaitId, x: Tid)
    requires Get(m, w) != [] && Held(m, x) && x != Get(m, w)[0]
    ensures Held(Delete(m, w, 0), x)
  {
    var v :| x in Get(m, v);
    assert Get(m, w) == [Get(m, w)[0]] + RemoveAt(Get(m, w), 0);
    assert x in Get(Delete(m, w, 0), v);
  }

  lemma WaiterAccounts(k: State, c: nat, o: nat)
    requires Inv(k) && Accounted(k) && o in k.objects
    ensures Accounted(WakeWaiter(k, c, o))
  {
    var top := TopWait(k.waits, o, NO_PRIORITIES);
    if top >= 0 {
      var w := WaitQ(o, top);
      var t := Get(k.waits, w)[0];
      assert WaiterFits(k, w, t);
      forall x | Held(k.waits, x) && x != t ensures Held(Delete(k.waits, w, 0), x) {
        HeldDeleted(k.waits, w, x);
      }
      hide Inv, Accounted, TopWait;
      var q := BlockedQ(k.tasks[t].core);
      WakeAccounts(k, c, q, IndexOf(Get(k.queues, q), t), WakeWaiter(k, c, o));
    }
  }

  lemma ObjectAccounts(k: State, o: nat, x: Object)
    requires Accounted(k)
    ensures Accounted(k.(objects := k.objects[o := x]))
  {
    var k' := k.(objects := k.objects[o := x]);
    forall c, t | t in Get(k'.queues, BlockedQ(c)) && t in k'.tasks && k'.tasks[t].deadline == None
      ensures Listed(k', t)
    {
      assert Listed(k, t);
    }
  }

  lemma ReleaseAccounts(k: State, c: nat, o: nat)
    requires Inv(k) && Accounted(k) && o in k.objects && k.objects[o].Semaphore?
    ensures Accounted(ReleaseStep(k, c, o))
  {
    hide Inv, Accounted, WakeWaiter;
    var x := k.objects[o].(count := k.objects[o].count + 1, released := k.objects[o].released + 1);
    ObjectKeeps(k, o, x);
    ObjectAccounts(k, o, x);
    WaiterAccounts(k.(objects := k.objects[o := x]), c, o);
  }

  lemma UnlockAccounts(k: State, c: nat, o: nat)
    requires Inv(k) && Accounted(k) && Enabled(k, Unlock(c, o))
    ensures Accounted(UnlockStep(k, c, o))
  {
    hide Inv, Accounted, WakeWaiter;
    var t, m := k.cores[c].current, k.objects[o];
    var n := if Nesting(m, t) > 0 then Nesting(m, t) - 1 else 0;
    var m1 := m.(depth := m.depth - 1, nesting := m.nesting[t := n]);
    if m1.depth == 0 {
      ObjectKeeps(k, o, m1.(owner := None));
      ObjectAccounts(k, o, m1.(owner := None));
      WaiterAccounts(k.(objects := k.objects[o := m1.(owner := None)]), c, o);
    } else {
      ObjectAccounts(k, o, m1);
    }
  }

  lemma ExpireAccounts(k: State, c: nat)
    requires Inv(k) && Accounted(k) && HasCore(k, c) && k.cores[c].phase.Ticking?
    ensures Accounted(ExpireStep(k, c, k.cores[c].phase.now))
  {
    var k' := ExpireStep(k, c, k.cores[c].phase.now);
    if Due(k, c) {
      hide Inv, Accounted;
      WakeAccounts(k, c, BlockedQ(c), 0, k');
    } else {
      assert SameStay(k, k');
      StayAccounted(k, k');
    }
  }

  lemma StepAccounts(k: State, a: Action)
    requires Inv(k) && Accounted(k) && Enabled(k, a)
    ensures Accounted(Step(k, a))
  {
    hide Inv, Accounted;
    if Aside(a) {
      OthersStay(k, a);
      hide Step;
      StayAccounted(k, Step(k, a));
    } else {
      hide BlockCurrent, AcquireStep, ReleaseStep, LockStep, EnqueueStep, UnlockStep, ExpireStep;
      match a
      case Join(c, tid) => BlockAccounts(k, c, JoinQ(tid), None);
      case Sleep(c, until) => BlockAccounts(k, c, BlockedQ(c), Some(until));
      case Expire(c) => ExpireAccounts(k, c);
      case Acquire(c, o, until) => AcquireAccounts(k, c, o, until);
      case TryAcquire(c, o) => AcquireAccounts(k, c, o, None);
      case Release(c, o) => ReleaseAccounts(k, c, o);
      case Lock(c, o) => LockAccounts(k, c, o);
      case Enqueue(c) => EnqueueAccounts(k, c);
      case Unlock(c, o) => UnlockAccounts(k, c, o);
    }
  }

  lemma {:induction false} RunAccounts(k: State, actions: seq<Action>)
    requires Inv(k) && Accounted(k) && TameRun(k, actions) && Run(k, actions).Some?
    ensures Inv(Run(k, actions).value) && Accounted(Run(k, actions).value)
    decreases |actions|
  {
    hide Inv, Accounted, Step, Enabled, Tame;
    if actions != [] {
      StepKeeps(k, actions[0]);
      StepAccounts(k, actions[0]);
      RunAccounts(Step(k, actions[0]), actions[1..]);
    }
  }

  /** In every state of a tame run a task is lost exactly if its chain runs into a cycle or comes to a dead end. */
  lemma LostInRuns(start: State, actions: seq<Action>, t: Tid)
    requires Initial(start) && TameRun(start, actions) && Run(start, actions).Some?
    ensures var k := Run(start, actions).value; Gone(k, t) <==> Doomed(k, t)
  {
    InitialInv(start);
    assert Accounted(start);
    hide Inv, Accounted, Initial, Gone, Doomed;
    RunAccounts(start, actions);
    LostExactly(Run(start, actions).value, t);
  }

  // ----- Runs without dead ends -----

  /** As `Kind`, and no interrupt comes while a task holds the spinlock of a mutex and has blocked itself. */
  predicate Orderly(k: State, a: Action)
    requires Enabled(k, a)
  {
    Kind(k, a) && (a.Tick? ==> Current(k, a.core).queueing == None)
  }

  ghost predicate OrderlyRun(k: State, actions: seq<Action>)
    decreases |actions|
  {
    actions != [] && Enabled(k, actions[0]) ==>
      Orderly(k, actions[0]) && OrderlyRun(Step(k, actions[0]), actions[1..])
  }

  /** Whoever is about to enter the wait queue of a mutex has the processor and goes on. */
  predicate QueueingNow(k: State) {
    forall t :: t in k.tasks && k.tasks[t].queueing.Some? ==> GoesOn(k, t)
  }

  predicate GoesOn(k: State, t: Tid)
    requires t in k.tasks
  {
    var c := k.tasks[t].core;
    c < |k.cores| && k.cores[c].current == t && k.cores[c].phase == Executing
  }

  lemma CoresElsewhere(k: State, a: Action)
    requires Enabled(k, a)
    ensures Elsewhere(k, Step(k, a), a.core)
  {
    hide DecideStep, CreateTask, SpawnStep, BlockCurrent, AcquireStep, ReleaseStep, LockStep, UnlockStep, PushStep;
    hide CleanupStep, ForgetStep, DrainStep, ExpireStep, NestStep, EnqueueStep;
    match a
    case Cleanup(c) => CleanupElsewhere(k, c, 0);
    case Forget(c) => CleanupElsewhere(k, c, k.cores[c].phase.id);
    case Drain(c) => WakeupElsewhere(k, c, 0);
    case Expire(c) => WakeupElsewhere(k, c, k.cores[c].phase.now);
    case Nest(c, now) => WakeupElsewhere(k, c, now);
    case NestLate(c, now) => WakeupElsewhere(k, c, now);
    case Enqueue(c) => EnqueueElsewhere(k, c);
    case Decide(c, expired) => DecideElsewhere(k, c, k.cores[c].phase.seen, expired);
    case Spawn(c, target, prio, tid, quiet) => CreateElsewhere(k, c, target, prio, tid, quiet);
    case Clone(c, target, tid) => CreateElsewhere(k, c, target, Current(k, c).prio, tid, false);
    case Join(c, tid) => BlockElsewhere(k, c, JoinQ(tid), None);
    case Sleep(c, until) => BlockElsewhere(k, c, BlockedQ(c), Some(until));
    case Acquire(c, o, until) => ObjectsElsewhere(k, c, o, until);
    case TryAcquire(c, o) => ObjectsElsewhere(k, c, o, None);
    case Release(c, o) => ObjectsElsewhere(k, c, o, None);
    case Lock(c, o) => ObjectsElsewhere(k, c, o, None);
    case Unlock(c, o) => ObjectsElsewhere(k, c, o, None);
    case Push(c) => PushElsewhere(k, c);
    case _ =>
  }

  lemma DecideElsewhere(k: State, c: nat, seen: Status, expired: bool)
    requires HasCore(k, c)
    ensures Elsewhere(k, DecideStep(k, c, seen, expired), c)
  {
    hide Choose, PutAside;
    match Choose(k, c, seen, expired)
    case Stay =>
    case GoIdle =>
    case Dispatch(level) =>
  }

  /** Only core `c` changes. */
  predicate Elsewhere(k: State, k': State, c: nat) {
    |k'.cores| == |k.cores| && forall d :: 0 <= d < |k.cores| && d != c ==> k'.cores[d] == k.cores[d]
  }

  lemma CleanupElsewhere(k: State, c: nat, id: Tid)
    requires HasCore(k, c)
    ensures Elsewhere(k, CleanupStep(k, c), c) && Elsewhere(k, ForgetStep(k, c, id), c)
  {
  }

  lemma WakeupElsewhere(k: State, c: nat, now: nat)
    requires HasCore(k, c)
    ensures Elsewhere(k, DrainStep(k, c), c) && Elsewhere(k, ExpireStep(k, c, now), c)
    ensures Elsewhere(k, NestStep(k, c, now), c)
  {
  }

  lemma EnqueueElsewhere(k: State, c: nat)
    requires HasCore(k, c) && Current(k, c).queueing.Some?
    ensures EnqueueStep(k, c).cores == k.cores
  {
  }

  lemma CreateElsewhere(k: State, c: nat, target: nat, prio: nat, tid: Tid, quiet: bool)
    requires HasCore(k, c) && tid !in k.tasks
    ensures CreateTask(k, target, prio, tid).cores == k.cores
    ensures SpawnStep(k, c, target, prio, tid, quiet).cores == k.cores
  {
  }

  lemma BlockElsewhere(k: State, c: nat, q: QueueId, until: Option<nat>)
    requires HasCore(k, c)
    ensures BlockCurrent(k, c, q, until).cores == k.cores
  {
  }

  lemma PushElsewhere(k: State, c: nat)
    requires Get(k.queues, PushQ(c)) != [] && Get(k.queues, PushQ(c))[0] in k.tasks
    ensures PushStep(k, c).cores == k.cores
  {
  }

  lemma ObjectsElsewhere(k: State, c: nat, o: nat, until: Option<nat>)
    requires HasCore(k, c) && o in k.objects
    ensures k.objects[o].Semaphore? ==> AcquireStep(k, c, o, until).cores == ReleaseStep(k, c, o).cores == k.cores
    ensures k.objects[o].Mutex? ==> LockStep(k, c, o).cores == k.cores
    ensures k.objects[o].Mutex? && k.objects[o].depth > 0 ==> UnlockStep(k, c, o).cores == k.cores
  {
    hide BlockInAcquire;
  }

  /** A task that holds the spinlock of a mutex does nothing but go on, if no interrupt comes. */
  lemma HolderGoesOn(k: State, a: Action)
    requires Inv(k) && Enabled(k, a) && !a.Tick? && HasCore(k, a.core)
    requires k.cores[a.core].phase == Executing && Current(k, a.core).queueing.Some?
    ensures Step(k, a).cores == k.cores
  {
    hide Step;
    HolderActs(k, a);
    if a.Push? {
      PushElsewhere(k, a.core);
    }
    assert Step(k, a) == if a.Push? then PushStep(k, a.core) else EnqueueStep(k, a.core) by { HolderStep(k, a); }
  }

  lemma HolderActs(k: State, a: Action)
    requires Inv(k) && Enabled(k, a) && !a.Tick? && HasCore(k, a.core)
    requires k.cores[a.core].phase == Executing && Current(k, a.core).queueing.Some?
    ensures a.Push? || a.Enqueue?
  {
    OfTask(k, k.cores[a.core].current);
    assert Current(k, a.core).spawning == None && !Own(k, a.core);
    hide Inv, TaskOk, RetryOk, QueueingFits, CleanerOk, Busy, Own;
  }

  lemma HolderStep(k: State, a: Action)
    requires Enabled(k, a) && (a.Push? || a.Enqueue?)
    ensures Step(k, a) == if a.Push? then PushStep(k, a.core) else EnqueueStep(k, a.core)
  {
  }

  /** Who may hold the spinlock of a mutex after a step. */
  predicate Holders(k: State, a: Action, k': State) {
    forall t :: t in k'.tasks && k'.tasks[t].queueing.Some? ==>
      || (t in k.tasks && k.tasks[t].queueing.Some? && k'.tasks[t].core == k.tasks[t].core)
      || (a.Lock? && HasCore(k, a.core) && t == k.cores[a.core].current && k'.tasks[t].core == Current(k, a.core).core)
  }

  lemma LockHolders(k: State, c: nat, o: nat)
    requires Inv(k) && MayTry(k, c, o) && k.objects[o].Mutex?
    ensures Holders(k, Lock(c, o), LockStep(k, c, o)) && LockStep(k, c, o).cores == k.cores
  {
    hide Inv;
    var t, m := k.cores[c].current, k.objects[o];
    if m.owner == Some(t) || m.owner.None? {
    } else {
      BlockedTasks(k, c, None);
      assert BlockInAcquire(k, c, None).tasks[t].core == k.tasks[t].core;
      hide BlockInAcquire;
    }
  }

  lemma StepHolders(k: State, a: Action)
    requires Inv(k) && Enabled(k, a)
    ensures Holders(k, a, Step(k, a))
  {
    hide Inv, AcquireStep, ReleaseStep, LockStep, UnlockStep, DecideStep, CleanupStep, ForgetStep, DrainStep;
    hide ExpireStep, PushStep, SpawnStep, CreateTask, NestStep, BlockCurrent, RegisterStep;
    match a
    case Acquire(c, o, until) => AcquireHolders(k, c, o, until);
    case TryAcquire(c, o) => AcquireHolders(k, c, o, None);
    case Release(c, o) => ReleaseHolders(k, c, o);
    case Lock(c, o) => LockHolders(k, c, o);
    case Unlock(c, o) => UnlockHolders(k, c, o);
    case Enqueue(c) =>
    case _ =>
      OtherStepsKeepObjects(k, a);
      hide Step;
  }

  lemma AcquireHolders(k: State, c: nat, o: nat, until: Option<nat>)
    requires Inv(k) && MayTry(k, c, o) && k.objects[o].Semaphore?
    ensures SameQueueing(k, AcquireStep(k, c, o, until))
  {
    hide Inv, StopRetrying, BlockInAcquire;
    StopRetryingObjects(k, c, o);
    WaitForObjects(k, c, o, until);
  }

  lemma ReleaseHolders(k: State, c: nat, o: nat)
    requires Inv(k) && o in k.objects && k.objects[o].Semaphore?
    ensures SameQueueing(k, ReleaseStep(k, c, o))
  {
    hide Inv, WakeWaiter;
    var x := k.objects[o].(count := k.objects[o].count + 1, released := k.objects[o].released + 1);
    ObjectKeeps(k, o, x);
    WakeWaiterObjects(k.(objects := k.objects[o := x]), c, o);
  }

  lemma UnlockHolders(k: State, c: nat, o: nat)
    requires Inv(k) && Enabled(k, Unlock(c, o))
    ensures SameQueueing(k, UnlockStep(k, c, o))
  {
    hide Inv, WakeWaiter;
    var t, m := k.cores[c].current, k.objects[o];
    var n := if Nesting(m, t) > 0 then Nesting(m, t) - 1 else 0;
    var m1 := m.(depth := m.depth - 1, nesting := m.nesting[t := n], owner := None);
    ObjectKeeps(k, o, m1);
    WakeWaiterObjects(k.(objects := k.objects[o := m1]), c, o);
  }

  lemma StepQueueing(k: State, a: Action)
    requires Inv(k) && QueueingNow(k) && Enabled(k, a) && (a.Tick? ==> Current(k, a.core).queueing == None)
    ensures QueueingNow(Step(k, a))
  {
    hide Step, Inv;
    var k' := Step(k, a);
    StepHolders(k, a);
    CoresElsewhere(k, a);
    forall t | t in k'.tasks && k'.tasks[t].queueing.Some? ensures GoesOn(k', t) {
      if t in k.tasks && k.tasks[t].queueing.Some? && k'.tasks[t].core == k.tasks[t].core {
        assert GoesOn(k, t);
        if k.tasks[t].core == a.core {
          HolderGoesOn(k, a);
        }
      } else {
        LockGoesOn(k, a);
      }
    }
  }

  lemma LockGoesOn(k: State, a: Action)
    requires Inv(k) && Enabled(k, a) && a.Lock?
    ensures Current(k, a.core).core == a.core && k.cores[a.core].phase == Executing && Step(k, a).cores == k.cores
  {
    OfCore(k, a.core);
    hide Inv;
    LockHolders(k, a.core, a.obj);
    hide LockStep;
  }

  lemma {:induction false} RunQueueing(k: State, actions: seq<Action>)
    requires Inv(k) && QueueingNow(k) && TameRun(k, actions) && OrderlyRun(k, actions) && Run(k, actions).Some?
    ensures QueueingNow(Run(k, actions).value) && KindRun(k, actions)
    decreases |actions|
  {
    hide Inv, QueueingNow, Step, Enabled, Tame;
    if actions != [] {
      StepKeeps(k, actions[0]);
      StepQueueing(k, actions[0]);
      hide Kind;
      RunQueueing(Step(k, actions[0]), actions[1..]);
    }
  }

  lemma NoDeadEnd(k: State, t: Tid)
    requires JoinInv(k) && QueueingNow(k)
    ensures !DeadEnd(k, t)
  {
    if t in k.tasks {
      assert WillBeCleaned(k, t);
      if k.tasks[t].queueing.Some? {
        assert GoesOn(k, t);
      }
    }
  }

  /** In an orderly run tasks are lost in cycles of waits only. */
  lemma LostOnlyInCycles(start: State, actions: seq<Action>, t: Tid)
    requires Initial(start) && TameRun(start, actions) && OrderlyRun(start, actions) && Run(start, actions).Some?
    ensures var k := Run(start, actions).value; Gone(k, t) <==> Cyclic(k, t)
  {
    var k := Run(start, actions).value;
    LostInRuns(start, actions, t);
    InitialInv(start);
    assert QueueingNow(start) && JoinInv(start);
    hide Inv, Initial, Gone, QueueingNow, JoinInv, TameRun, OrderlyRun, KindRun, Run, DeadEnd, Chain;
    RunQueueing(start, actions);
    RunJoin(start, actions);
    forall x ensures !DeadEnd(k, x) {
      NoDeadEnd(k, x);
    }
  }
}
