/**
 The ticket lock of `src/synch/spinlock.rs` as a system of atomic steps.  Counters are taken modulo `m`, which is
 2^64 in the kernel.
 */
module TicketLock {
  import opened Alignment
  import opened Registry

  /** `line` records who has taken a ticket and not yet released the lock, in order of arrival; `arrived` and
      `entered` record all arrivals and entries so far. */
  datatype Lock = Lock(
    queue: nat, dequeue: nat, ticket: map<nat, nat>, inside: set<nat>,
    line: seq<nat>, arrived: seq<nat>, entered: seq<nat>)

  const NEW := Lock(0, 1, map[], {}, [], [], [])

  datatype Action =
    | Take(who: nat)      // `queue.fetch_add(1) + 1`
    | Enter(who: nat)     // the wait loop finds `dequeue` equal to the ticket
    | Release(who: nat)   // `dequeue.fetch_add(1)`

  predicate Enabled(s: Lock, a: Action) {
    match a
    case Take(t) => t !in s.ticket
    case Enter(t) => t in s.ticket && t !in s.inside && s.ticket[t] == s.dequeue
    case Release(t) => t in s.inside
  }

  /** A counter after `fetch_add(1)`. */
  function Successor(n: nat, m: nat): nat
    requires m > 1
  {
    (n + 1) % m
  }

  function Step(s: Lock, a: Action, m: nat): Lock
    requires m > 1 && Enabled(s, a)
  {
    match a
    case Take(t) =>
      s.(queue := Successor(s.queue, m), ticket := s.ticket[t := Successor(s.queue, m)],
         line := s.line + [t], arrived := s.arrived + [t])
    case Enter(t) =>
      s.(inside := s.inside + {t}, entered := s.entered + [t])
    case Release(t) =>
      s.(dequeue := Successor(s.dequeue, m), ticket := s.ticket - {t}, inside := s.inside - {t},
         line := if s.line != [] && s.line[0] == t then s.line[1..] else s.line)
  }

  // ----- The invariant -----

  /** The ticket of place `i` in line while `d` is called. */
  function Turn(d: nat, i: nat, m: nat): nat
    requires m > 1
  {
    (d + i) % m
  }

  /** Tickets count up from `dequeue` along the line. */
  ghost predicate Numbered(s: Lock, m: nat)
    requires m > 1
  {
    && s.dequeue < m && s.queue == Turn(s.dequeue, |s.line| + (m - 1), m)
    && (forall t :: t in s.ticket <==> t in s.line) && NoDup(s.line)
    && (forall i :: 0 <= i < |s.line| ==> s.ticket[s.line[i]] == Turn(s.dequeue, i, m))
  }

  /** Only the first in line is inside, and those who have entered are the first to have arrived. */
  ghost predicate InOrder(s: Lock) {
    && (forall t :: t in s.inside ==> s.line != [] && t == s.line[0])
    && s.entered + (if s.inside == {} then s.line else s.line[1..]) == s.arrived
  }

  ghost predicate Inv(s: Lock, m: nat)
    requires m > 1
  {
    Numbered(s, m) && InOrder(s) && |s.line| <= m
  }

  lemma NewInv(m: nat)
    requires m > 1
    ensures Inv(NEW, m)
  {
    DivUnique(m, m, 1, 0);
  }

  lemma ModStep(a: nat, m: nat)
    requires m > 1
    ensures (a % m + 1) % m == (a + 1) % m
  {
    var q, r := a / m, a % m;
    assert a == q * m + r;
    if r + 1 == m {
      assert a + 1 == (q + 1) * m;
      DivUnique(a + 1, m, q + 1, 0);
    } else {
      DivUnique(a + 1, m, q, r + 1);
    }
  }

  /** Two places in line have the same ticket exactly if they are a multiple of `m` apart. */
  lemma SameTicket(d: nat, i: nat, m: nat)
    requires m > 1 && d < m && i <= m
    ensures Turn(d, i, m) == d <==> i == 0 || i == m
  {
    if d + i < m {
      DivUnique(d + i, m, 0, d + i);
    } else {
      DivUnique(d + i, m, 1, d + i - m);
    }
  }

  // ----- Steps -----

  lemma TakeNumbered(s: Lock, t: nat, m: nat)
    requires m > 1 && Numbered(s, m) && t !in s.ticket
    ensures Numbered(Step(s, Take(t), m), m)
  {
    hide Turn, Successor;
    var n := |s.line|;
    var s' := Step(s, Take(t), m);
    NextTicket(s.dequeue, n, m);
    assert forall i :: 0 <= i < n ==> s'.line[i] == s.line[i] && s.line[i] in s.ticket;
  }

  lemma NextTicket(d: nat, n: nat, m: nat)
    requires m > 1
    ensures Successor(Turn(d, n + (m - 1), m), m) == Turn(d, n, m) == Turn(d, n + 1 + (m - 1), m)
  {
    ModStep(d + n + (m - 1), m);
    AddModulus(d + n, m);
  }

  /** Who finds its ticket called is the first in line, as long as no more than `m` are waiting. */
  lemma EnterIsFirst(s: Lock, t: nat, m: nat)
    requires m > 1 && Inv(s, m) && Enabled(s, Enter(t))
    ensures s.line != [] && t == s.line[0] && s.inside == {}
  {
    var i :| 0 <= i < |s.line| && s.line[i] == t;
    SameTicket(s.dequeue, i, m);
    assert forall u :: u in s.inside ==> u == t;
  }

  lemma ReleaseNumbered(s: Lock, t: nat, m: nat)
    requires m > 1 && Numbered(s, m) && s.line != [] && s.line[0] == t && t in s.inside
    ensures Numbered(Step(s, Release(t), m), m)
  {
    var s' := Step(s, Release(t), m);
    hide Turn, Successor;
    var n := |s.line|;
    ReleaseNumbers(s.dequeue, n, m);
    assert s'.line == s.line[1..];
    forall i | 0 <= i < n - 1 ensures s'.ticket[s'.line[i]] == Turn(s'.dequeue, i, m) {
      assert s'.line[i] == s.line[i + 1];
      ModShift(s.dequeue, i, m);
    }
  }

  lemma ReleaseInOrder(s: Lock, t: nat, m: nat)
    requires m > 1 && InOrder(s) && t in s.inside
    ensures InOrder(Step(s, Release(t), m))
  {
    assert s.inside == {t} && s.line[0] == t;
    assert Step(s, Release(t), m).inside == {};
  }

  lemma ModShift(d: nat, i: nat, m: nat)
    requires m > 1 && d < m
    ensures Turn(Successor(d, m), i, m) == Turn(d, i + 1, m)
  {
    if d + 1 == m {
      DivUnique(d + 1, m, 1, 0);
      AddModulus(i, m);
    } else {
      DivUnique(d + 1, m, 0, d + 1);
    }
  }

  lemma ReleaseNumbers(d: nat, n: nat, m: nat)
    requires m > 1 && d < m && n > 0
    ensures Turn(d, n + (m - 1), m) == Turn(Successor(d, m), n - 1 + (m - 1), m) && Successor(d, m) < m
  {
    ModShift(d, n - 1 + (m - 1), m);
  }

  /** Every step keeps the invariant while at most `m` compete for the lock. */
  lemma StepKeeps(s: Lock, a: Action, m: nat)
    requires m > 1 && Inv(s, m) && Enabled(s, a) && |Step(s, a, m).line| <= m
    ensures Inv(Step(s, a, m), m)
  {
    match a {
      case Take(t) => TakeKeeps(s, t, m);
      case Enter(t) => EnterKeeps(s, t, m);
      case Release(t) =>
        ReleaseNumbered(s, t, m);
        ReleaseInOrder(s, t, m);
        hide Numbered, InOrder;
    }
  }

  lemma TakeKeeps(s: Lock, t: nat, m: nat)
    requires m > 1 && Numbered(s, m) && InOrder(s) && t !in s.ticket
    ensures Numbered(Step(s, Take(t), m), m) && InOrder(Step(s, Take(t), m))
  {
    TakeNumbered(s, t, m);
    hide Numbered;
    var rest := if s.inside == {} then s.line else s.line[1..];
    assert s.inside != {} ==> s.line != [];
    assert s.entered + (rest + [t]) == s.arrived + [t];
  }

  lemma EnterKeeps(s: Lock, t: nat, m: nat)
    requires m > 1 && Inv(s, m) && Enabled(s, Enter(t))
    ensures Numbered(Step(s, Enter(t), m), m) && InOrder(Step(s, Enter(t), m))
  {
    EnterIsFirst(s, t, m);
    var s' := Step(s, Enter(t), m);
    hide Turn, Successor;
    assert Numbered(s', m);
    hide Numbered;
    assert s.line == [t] + s.line[1..];
    assert s'.inside != {} by { assert t in s'.inside; }
  }

  // ----- Runs -----

  /** `s'` is reached from `s` by the actions, with at most `m` competing at any time. */
  ghost predicate Run(s: Lock, actions: seq<Action>, m: nat, s': Lock)
    requires m > 1
    decreases |actions|
  {
    if actions == [] then s' == s
    else
      && Enabled(s, actions[0]) && |Step(s, actions[0], m).line| <= m
      && Run(Step(s, actions[0], m), actions[1..], m, s')
  }

  lemma {:induction false} RunKeeps(s: Lock, actions: seq<Action>, m: nat, s': Lock)
    requires m > 1 && Inv(s, m) && Run(s, actions, m, s')
    ensures Inv(s', m)
    decreases |actions|
  {
    if actions != [] {
      StepKeeps(s, actions[0], m);
      hide Inv;
      RunKeeps(Step(s, actions[0], m), actions[1..], m, s');
    }
  }

  /** Mutual exclusion and first come, first served, over every run from a new lock. */
  lemma ExclusiveAndFair(actions: seq<Action>, m: nat, s: Lock)
    requires m > 1 && Run(NEW, actions, m, s)
    ensures forall t, u :: t in s.inside && u in s.inside ==> t == u
    ensures s.entered <= s.arrived
  {
    NewInv(m);
    RunKeeps(NEW, actions, m, s);
  }

  // ----- Too many competitors -----

  /** A second competitor finds its ticket called exactly if more than `m` compete. */
  lemma SecondCallIff(s: Lock, m: nat)
    requires m > 1 && Numbered(s, m)
    ensures (exists i :: 0 < i < |s.line| && s.ticket[s.line[i]] == s.dequeue) <==> |s.line| > m
  {
    if |s.line| > m {
      SameTicket(s.dequeue, m, m);
      assert s.ticket[s.line[m]] == s.dequeue;
    } else {
      forall i | 0 < i < |s.line| ensures s.ticket[s.line[i]] != s.dequeue {
        SameTicket(s.dequeue, i, m);
      }
    }
  }

  /** The lock after competitors 0 through `n - 1` have taken a ticket. */
  function Crowd(n: nat, m: nat): (s: Lock)
    requires m > 1
    ensures forall t :: t in s.ticket <==> 0 <= t < n
    ensures |s.line| == n && (forall i :: 0 <= i < n ==> s.line[i] == i) && s.inside == {} && s.dequeue == 1
  {
    if n == 0 then NEW else Step(Crowd(n - 1, m), Take(n - 1), m)
  }

  lemma {:induction false} CrowdNumbered(n: nat, m: nat)
    requires m > 1
    ensures Numbered(Crowd(n, m), m)
  {
    if n == 0 {
      NewInv(m);
    } else {
      CrowdNumbered(n - 1, m);
      TakeNumbered(Crowd(n - 1, m), n - 1, m);
    }
  }

  /** With `m + 1` competitors two are inside at the same time. */
  lemma CrowdIsNotExclusive(m: nat)
    requires m > 1
    ensures var s := Crowd(m + 1, m);
            && Enabled(s, Enter(0)) && Enabled(Step(s, Enter(0), m), Enter(m))
            && Step(Step(s, Enter(0), m), Enter(m), m).inside == {0, m}
  {
    CrowdNumbered(m + 1, m);
    var s := Crowd(m + 1, m);
    SameTicket(1, 0, m);
    SameTicket(1, m, m);
    assert s.line[0] == 0 && s.line[m] == m;
    assert s.ticket[0] == 1 && s.ticket[m] == 1;
  }
}
