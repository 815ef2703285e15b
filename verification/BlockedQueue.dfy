/**
 The list of blocked tasks of `src/scheduler/task.rs`, ordered by wakeup time, and the one-shot timer of the
 core that works on it.
 */
module BlockedQueue {
  import opened Options

  datatype Status = Running | Ready | Blocked

  datatype Reason = Custom | Timer | All

  /** `BlockedTask` */
  datatype Waiter = Waiter(task: nat, time: Option<nat>)

  datatype Wakeup = Wakeup(task: nat, reason: Reason)

  // ----- Order -----

  /** A waiter with time `x` may stand before one with time `y`: waiters without a time come last. */
  predicate NotAfter(x: Option<nat>, y: Option<nat>) {
    y.None? || (x.Some? && x.value <= y.value)
  }

  predicate Sorted(ws: seq<Waiter>) {
    forall i, j :: 0 <= i < j < |ws| ==> NotAfter(ws[i].time, ws[j].time)
  }

  predicate NoDup(ws: seq<Waiter>) {
    forall i, j :: 0 <= i < j < |ws| ==> ws[i].task != ws[j].task
  }

  /** `w` goes to place `k`: behind every waiter that is not later, so that ties are first come. */
  predicate Place(ws: seq<Waiter>, w: Waiter, k: nat) {
    && k <= |ws|
    && (forall i :: 0 <= i < k ==> NotAfter(ws[i].time, w.time))
    && (forall i :: k <= i < |ws| ==> !NotAfter(ws[i].time, w.time))
  }

  lemma PlaceUnique(ws: seq<Waiter>, w: Waiter, k: nat, m: nat)
    requires Place(ws, w, k) && Place(ws, w, m)
    ensures k == m
  {
    var i := if k < m then k else m;
    assert i < |ws| ==> (NotAfter(ws[i].time, w.time) <==> i < k) && (NotAfter(ws[i].time, w.time) <==> i < m);
  }

  /** If the first waiter has a wakeup time, the timer is set to it. */
  predicate TimerArmed(ws: seq<Waiter>, timer: Option<nat>) {
    ws != [] && ws[0].time.Some? ==> timer == ws[0].time
  }

  /** The wakeup time has come. */
  predicate Elapsed(w: Waiter, now: nat) {
    w.time.Some? && w.time.value <= now
  }

  /** How many waiters at the front have elapsed. */
  function Due(ws: seq<Waiter>, now: nat): (n: nat)
    ensures n <= |ws| && (forall i :: 0 <= i < n ==> Elapsed(ws[i], now)) && (n < |ws| ==> !Elapsed(ws[n], now))
  {
    if ws == [] || !Elapsed(ws[0], now) then 0 else 1 + Due(ws[1..], now)
  }

  /** In a sorted list the elapsed waiters are those at the front. */
  lemma DueIsAll(ws: seq<Waiter>, now: nat, i: nat)
    requires Sorted(ws) && i < |ws|
    ensures Elapsed(ws[i], now) <==> i < Due(ws, now)
  {
    var n := Due(ws, now);
    if n < i {
      assert NotAfter(ws[n].time, ws[i].time);
    }
  }

  /** The wakeups of a list of waiters, in order. */
  function Wakeups(ws: seq<Waiter>, reason: Reason): (r: seq<Wakeup>)
    ensures |r| == |ws| && forall i :: 0 <= i < |ws| ==> r[i] == Wakeup(ws[i].task, reason)
  {
    seq(|ws|, i requires 0 <= i < |ws| => Wakeup(ws[i].task, reason))
  }

  lemma WakeupsGrow(ws: seq<Waiter>, n: nat, reason: Reason)
    requires n < |ws|
    ensures Wakeups(ws[..n + 1], reason) == Wakeups(ws[..n], reason) + [Wakeup(ws[n].task, reason)]
  {
  }

  function FindTask(ws: seq<Waiter>, task: nat): (k: nat)
    ensures k <= |ws| && (k < |ws| ==> ws[k].task == task) && (forall i :: 0 <= i < k ==> ws[i].task != task)
  {
    if ws == [] || ws[0].task == task then 0 else 1 + FindTask(ws[1..], task)
  }

  // ----- The queue -----

  /** A core with its one-shot timer; the timer is masked when it is `None`. */
  class Core {
    var timer: Option<nat>

    constructor ()
      ensures timer == None
    {
      timer := None;
    }
  }

  class BlockedTaskQueue {
    var list: seq<Waiter>
    var status: map<nat, Status>
    var woken: seq<Wakeup>   // tasks pushed to a ready queue, in order

    ghost predicate Valid()
      reads this
    {
      && Sorted(list) && NoDup(list)
      && (forall i :: 0 <= i < |list| ==> list[i].task in status && status[list[i].task] == Blocked)
    }

    constructor (status: map<nat, Status>)
      ensures Valid() && list == [] && this.status == status && woken == []
    {
      list, this.status, woken := [], status, [];
    }

    /** `wakeup_task` */
    method WakeupTask(task: nat, reason: Reason)
      requires task in status && status[task] == Blocked
      modifies this`status, this`woken
      ensures status == old(status)[task := Ready] && woken == old(woken) + [Wakeup(task, reason)]
    {
      status := status[task := Ready];
      woken := woken + [Wakeup(task, reason)];
    }

    method Append(w: Waiter) returns (ghost k: nat)
      requires Sorted(list) && NoDup(list) && Place(list, w, |list|) && forall i :: 0 <= i < |list| ==>
               list[i].task != w.task
      modifies this`list
      ensures k == |old(list)| && list == old(list)[..k] + [w] + old(list)[k..] && Sorted(list) && NoDup(list)
    {
      k := |list|;
      InsertedOk(list, w, k);
      assert list + [w] == list[..k] + [w] + list[k..];
      list := list + [w];
    }

    /** Blocks a running task.  The list stays sorted, ties are first come, and if the task becomes the first one
        the timer of the core is set to its wakeup time. */
    method Add(core: Core, task: nat, time: Option<nat>) returns (ghost k: nat)
      requires Valid() && task in status && status[task] == Running
      modifies this`list, this`status, core
      ensures Valid() && Place(old(list), Waiter(task, time), k)
      ensures list == old(list)[..k] + [Waiter(task, time)] + old(list)[k..]
      ensures status == old(status)[task := Blocked]
      ensures core.timer == if k == 0 && time.Some? then time else old(core.timer)
      ensures old(TimerArmed(list, core.timer)) ==> TimerArmed(list, core.timer)
    {
      status := status[task := Blocked];
      var w := Waiter(task, time);
      if time.Some? {
        var first := true;
        var i := 0;
        while i < |list|
          invariant 0 <= i <= |list| && list == old(list) && core.timer == old(core.timer)
          invariant first <==> i == 0
          invariant forall j :: 0 <= j < i ==> NotAfter(list[j].time, time)
        {
          if list[i].time.None? || time.value < list[i].time.value {
            SortedPlace(list, w, i);
            InsertedOk(list, w, i);
            list := list[..i] + [w] + list[i..];
            if first {
              core.timer := time;
            }
            return i;
          }
          first := false;
          i := i + 1;
        }
        SortedPlace(list, w, |list|);
        k := Append(w);
        if first {
          core.timer := time;
        }
      } else {
        k := Append(w);
      }
    }

    /** The first `n` of the waiters `ws` have been woken, the others are still in the list. */
    ghost predicate Drained(ws: seq<Waiter>, st: map<nat, Status>, wk: seq<Wakeup>, n: nat, reason: Reason)
      reads this
    {
      && n <= |ws| && list == ws[n..] && woken == wk + Wakeups(ws[..n], reason)
      && status == WithReady(st, ws[..n])
    }

    /** One round of the loops below: the first waiter is removed and woken. */
    method WakeupFirst(ghost ws: seq<Waiter>, ghost st: map<nat, Status>, ghost wk: seq<Wakeup>, ghost n: nat,
                       reason: Reason)
      requires Valid() && n < |ws| && Drained(ws, st, wk, n, reason)
      modifies this
      ensures Valid() && Drained(ws, st, wk, n + 1, reason)
    {
      var w := list[0];
      list := list[1..];
      WakeupTask(w.task, reason);
      WakeupsGrow(ws, n, reason);
      assert ws[..n + 1] == ws[..n] + [ws[n]];
      assert list == ws[n + 1..];
    }

    /** Wakes all tasks, in the order of the list. */
    method WakeupAll()
      requires Valid()
      modifies this
      ensures Valid() && Drained(old(list), old(status), old(woken), |old(list)|, All)
    {
      ghost var n := 0;
      while list != []
        invariant Valid() && Drained(old(list), old(status), old(woken), n, All)
        decreases |list|
      {
        WakeupFirst(old(list), old(status), old(woken), n, All);
        n := n + 1;
      }
    }

    /** Wakes exactly the tasks whose wakeup time has come, and sets the timer for the first of the others. */
    method HandleWaitingTasks(core: Core, now: nat)
      requires Valid()
      modifies this, core
      ensures Valid() && Drained(old(list), old(status), old(woken), Due(old(list), now), Timer)
      ensures TimerArmed(list, core.timer)
    {
      ghost var n := 0;
      while list != []
        invariant Valid() && n <= Due(old(list), now) && Drained(old(list), old(status), old(woken), n, Timer)
        decreases |list|
      {
        if list[0].time.None? || now < list[0].time.value {
          core.timer := list[0].time;
          return;
        }
        assert Elapsed(old(list)[n], now);
        WakeupFirst(old(list), old(status), old(woken), n, Timer);
        n := n + 1;
      }
    }

    /** Wakes one task if it is in the list.  The core that calls sets its own timer for the second waiter if the
        first one is woken. */
    method CustomWakeup(core: Core, task: nat)
      requires Valid()
      modifies this, core
      ensures Valid()
      ensures var k := FindTask(old(list), task);
              && list == (if k < |old(list)| then old(list)[..k] + old(list)[k + 1..] else old(list))
              && status == (if k < |old(list)| then old(status)[task := Ready] else old(status))
              && woken == (if k < |old(list)| then old(woken) + [Wakeup(task, Custom)] else old(woken))
      ensures core.timer == TimerAfterWakeup(old(list), task, old(core.timer))
      ensures old(TimerArmed(list, core.timer)) ==> TimerArmed(list, core.timer)
    {
      var first := true;
      var i := 0;
      while i < |list|
        invariant 0 <= i <= |list| && list == old(list) && core.timer == old(core.timer)
        invariant status == old(status) && woken == old(woken)
        invariant first <==> i == 0
        invariant forall j :: 0 <= j < i ==> list[j].task != task
      {
        if list[i].task == task {
          var next := if i + 1 < |list| then Some(list[i + 1]) else None;
          RemovedOk(list, i);
          list := list[..i] + list[i + 1..];
          WakeupTask(task, Custom);
          if first && next.Some? {
            core.timer := next.value.time;
          }
          return;
        }
        first := false;
        i := i + 1;
      }
    }
  }

  /** Statuses after the tasks of `ws` have become ready. */
  function WithReady(st: map<nat, Status>, ws: seq<Waiter>): map<nat, Status> {
    if ws == [] then st else WithReady(st, ws[..|ws| - 1])[ws[|ws| - 1].task := Ready]
  }

  lemma {:induction false} WithReadyAt(st: map<nat, Status>, ws: seq<Waiter>, t: nat)
    ensures t in WithReady(st, ws) <==> t in st || exists i :: 0 <= i < |ws| && ws[i].task == t
    ensures (exists i :: 0 <= i < |ws| && ws[i].task == t) ==> WithReady(st, ws)[t] == Ready
    ensures t in st && !(exists i :: 0 <= i < |ws| && ws[i].task == t) ==> WithReady(st, ws)[t] == st[t]
  {
    if ws != [] {
      var n := |ws| - 1;
      var front := ws[..n];
      WithReadyAt(st, front, t);
      assert forall i :: 0 <= i < n ==> front[i] == ws[i];
    }
  }

  // ----- The timer of another core -----

  /** What `custom_wakeup` leaves in the timer of the core that calls it. */
  function TimerAfterWakeup(ws: seq<Waiter>, task: nat, timer: Option<nat>): Option<nat> {
    if |ws| > 1 && ws[0].task == task then ws[1].time else timer
  }

  /** A core wakes task `k` of another core's list.  It keeps its own timer armed exactly if `k` is not the first or
      the only task there, or the core has no timed waiter itself, or the other list goes on with the same wakeup
      time.  The core that owns the list keeps its timer armed exactly if `k` is not the first or the only task, or
      the list goes on without a wakeup time, or with the one the timer is set to. */
  lemma RemoteWakeupTimer(mine: seq<Waiter>, timer: Option<nat>, theirs: seq<Waiter>, theirTimer: Option<nat>, k: nat)
    requires TimerArmed(mine, timer) && TimerArmed(theirs, theirTimer) && NoDup(theirs) && k < |theirs|
    ensures TimerArmed(mine, TimerAfterWakeup(theirs, theirs[k].task, timer)) <==>
            k > 0 || |theirs| == 1 || mine == [] || mine[0].time.None? || theirs[1].time == mine[0].time
    ensures TimerArmed(theirs[..k] + theirs[k + 1..], theirTimer) <==>
            k > 0 || |theirs| == 1 || theirs[1].time.None? || theirs[1].time == theirTimer
  {
    var rest := theirs[..k] + theirs[k + 1..];
    assert rest != [] ==> rest[0] == if k > 0 then theirs[0] else theirs[1];
  }

  /** The first of two timed waiters is woken from another core, whose own waiter is due at 10.  That core's timer
      now fires at 30, and the timer of the list's core still fires at 20, when nobody is due. */
  lemma RemoteWakeupExample()
    ensures var mine, theirs := [Waiter(1, Some(10))], [Waiter(2, Some(20)), Waiter(3, Some(30))];
            && TimerArmed(mine, Some(10)) && TimerArmed(theirs, Some(20)) && Sorted(theirs) && NoDup(theirs)
            && TimerAfterWakeup(theirs, 2, Some(10)) == Some(30) && !TimerArmed(mine, Some(30))
            && !TimerArmed(theirs[1..], Some(20)) && Due(theirs[1..], 20) == 0
  {
    var theirs := [Waiter(2, Some(20)), Waiter(3, Some(30))];
    RemoteWakeupTimer([Waiter(1, Some(10))], Some(10), theirs, Some(20), 0);
    assert theirs[..0] + theirs[1..] == theirs[1..];
  }

  lemma SortedPlace(ws: seq<Waiter>, w: Waiter, k: nat)
    requires Sorted(ws) && k <= |ws| && w.time.Some?
    requires forall i :: 0 <= i < k ==> NotAfter(ws[i].time, w.time)
    requires k < |ws| ==> ws[k].time.None? || w.time.value < ws[k].time.value
    ensures Place(ws, w, k)
  {
    forall i | k <= i < |ws| ensures !NotAfter(ws[i].time, w.time) {
      if k < i {
        assert NotAfter(ws[k].time, ws[i].time);
      }
    }
  }

  lemma InsertedOk(ws: seq<Waiter>, w: Waiter, k: nat)
    requires Sorted(ws) && NoDup(ws) && Place(ws, w, k) && forall i :: 0 <= i < |ws| ==> ws[i].task != w.task
    ensures Sorted(ws[..k] + [w] + ws[k..]) && NoDup(ws[..k] + [w] + ws[k..])
  {
    var r := ws[..k] + [w] + ws[k..];
    assert forall i :: 0 <= i < |r| ==> r[i] == if i < k then ws[i] else if i == k then w else ws[i - 1];
  }

  lemma RemovedOk(ws: seq<Waiter>, k: nat)
    requires Sorted(ws) && NoDup(ws) && k < |ws|
    ensures Sorted(ws[..k] + ws[k + 1..]) && NoDup(ws[..k] + ws[k + 1..])
    ensures var r := ws[..k] + ws[k + 1..]; forall i :: 0 <= i < |r| ==> r[i].task != ws[k].task
  {
    var r := ws[..k] + ws[k + 1..];
    assert forall i :: 0 <= i < |r| ==> r[i] == if i < k then ws[i] else ws[i + 1];
  }
}
