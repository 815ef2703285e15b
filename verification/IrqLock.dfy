/**
 The interrupt-saving lock of `src/synch/spinlock.rs`: a ticket lock whose holder keeps the interrupt flag of its
 core in the lock.  Cores take atomic steps in any order; counters are taken modulo `m`.
 */
module IrqLock {
  import opened Registry
  import opened TicketLock

  /** Where a core is in `obtain_lock` or `drop`.  `was` is the interrupt flag it came with, `restore` what it
      found in the lock. */
  datatype Phase =
    | Idle
    | Disabled(was: bool)
    | Waiting(was: bool)
    | Entered(was: bool)
    | Holding(was: bool)
    | Swapped(was: bool, restore: bool)
    | Released(was: bool, restore: bool)

  datatype Core = Core(enabled: bool, phase: Phase)

  datatype State = State(lock: Lock, irq: bool, cores: map<nat, Core>)

  datatype Move = Disable | TakeTicket | EnterLock | Store | Swap | Unlock | Restore

  predicate CanMove(s: State, c: nat, a: Move) {
    c in s.cores &&
    var p := s.cores[c].phase;
    match a
    case Disable => p.Idle?
    case TakeTicket => p.Disabled? && c !in s.lock.ticket
    case EnterLock => p.Waiting? && Enabled(s.lock, Enter(c))
    case Store => p.Entered?
    case Swap => p.Holding?
    case Unlock => p.Swapped? && c in s.lock.inside
    case Restore => p.Released?
  }

  function MoveStep(s: State, c: nat, a: Move, m: nat): State
    requires m > 1 && CanMove(s, c, a)
  {
    var core := s.cores[c];
    var p := core.phase;
    match a
    case Disable => s.(cores := s.cores[c := Core(false, Disabled(core.enabled))])
    case TakeTicket => s.(lock := Step(s.lock, Take(c), m), cores := s.cores[c := core.(phase := Waiting(p.was))])
    case EnterLock => s.(lock := Step(s.lock, Enter(c), m), cores := s.cores[c := core.(phase := Entered(p.was))])
    case Store => s.(irq := p.was, cores := s.cores[c := core.(phase := Holding(p.was))])
    case Swap => s.(irq := false, cores := s.cores[c := core.(phase := Swapped(p.was, s.irq))])
    case Unlock =>
      s.(lock := Step(s.lock, Release(c), m), cores := s.cores[c := core.(phase := Released(p.was, p.restore))])
    case Restore => s.(cores := s.cores[c := Core(core.enabled || p.restore, Idle)])
  }

  // ----- The invariant -----

  predicate Inside(p: Phase) {
    p.Entered? || p.Holding? || p.Swapped?
  }

  ghost predicate CoreOk(s: State, c: nat)
    requires c in s.cores
  {
    var core := s.cores[c];
    && (c in s.lock.ticket <==> core.phase.Waiting? || Inside(core.phase))
    && (c in s.lock.inside <==> Inside(core.phase))
    && (!core.phase.Idle? ==> !core.enabled)
    && (core.phase.Holding? ==> s.irq == core.phase.was)
    && (core.phase.Swapped? || core.phase.Released? ==> core.phase.restore == core.phase.was)
  }

  /** The lock keeps a flag only for a holder that came with interrupts on. */
  predicate FlagOk(s: State) {
    s.irq ==> exists c :: c in s.cores && s.cores[c].phase == Holding(true)
  }

  ghost predicate LockOk(s: State, m: nat) {
    && m > 1 && |s.cores| <= m && Inv(s.lock, m) && FlagOk(s)
    && (forall c :: c in s.lock.ticket ==> c in s.cores)
    && (forall c :: c in s.cores ==> CoreOk(s, c))
  }

  /** A line without repetition is no longer than the set it is drawn from. */
  lemma {:induction false} LineFits(line: seq<nat>, all: set<nat>)
    requires NoDup(line) && forall t :: t in line ==> t in all
    ensures |line| <= |all|
  {
    if line != [] {
      var t := line[0];
      assert forall i :: 1 <= i < |line| ==> line[i] != t;
      LineFits(line[1..], all - {t});
    }
  }

  /** A core that is inside is alone there. */
  lemma OneInside(s: State, c: nat, d: nat, m: nat)
    requires LockOk(s, m) && c in s.cores && d in s.cores && Inside(s.cores[c].phase) && Inside(s.cores[d].phase)
    ensures c == d
  {
    assert CoreOk(s, c) && CoreOk(s, d);
  }

  lemma LockKept(s: State, c: nat, a: Move, m: nat)
    requires LockOk(s, m) && CanMove(s, c, a)
    ensures var s' := MoveStep(s, c, a, m);
            |s'.cores| <= m && Inv(s'.lock, m) && forall d :: d in s'.lock.ticket ==> d in s'.cores
  {
    var s' := MoveStep(s, c, a, m);
    assert s'.cores.Keys == s.cores.Keys;
    assert |s.cores| == |s.cores.Keys|;
    assert |s'.cores| == |s'.cores.Keys|;
    var action := match a case TakeTicket => Take(c) case EnterLock => Enter(c) case _ => Release(c);
    if a.TakeTicket? || a.EnterLock? || a.Unlock? {
      assert Enabled(s.lock, action) && s'.lock == Step(s.lock, action, m);
      LineFitsCores(s, action, m);
      hide Inv;
      StepKeeps(s.lock, action, m);
    }
  }

  lemma LineFitsCores(s: State, action: Action, m: nat)
    requires LockOk(s, m) && Enabled(s.lock, action) && action.who in s.cores
    ensures |Step(s.lock, action, m).line| <= m
  {
    hide Turn, Successor;
    if action.Take? {
      TakeNumbered(s.lock, action.who, m);
      LineFits(Step(s.lock, action, m).line, s.cores.Keys);
      assert |s.cores| == |s.cores.Keys|;
    }
  }

  lemma MoverKept(s: State, c: nat, a: Move, m: nat)
    requires LockOk(s, m) && CanMove(s, c, a)
    ensures CoreOk(MoveStep(s, c, a, m), c)
  {
    assert CoreOk(s, c);
    hide Inv, LockOk;
  }

  lemma OtherKept(s: State, c: nat, a: Move, m: nat, d: nat)
    requires LockOk(s, m) && CanMove(s, c, a) && d in s.cores && d != c
    ensures CoreOk(MoveStep(s, c, a, m), d)
  {
    assert CoreOk(s, c) && CoreOk(s, d);
    assert !(Inside(s.cores[c].phase) && Inside(s.cores[d].phase)) by {
      if Inside(s.cores[c].phase) && Inside(s.cores[d].phase) {
        OneInside(s, c, d, m);
      }
    }
    hide Inv, LockOk;
  }

  lemma FlagKeeps(s: State, c: nat, a: Move, m: nat)
    requires LockOk(s, m) && CanMove(s, c, a)
    ensures FlagOk(MoveStep(s, c, a, m))
  {
    var s' := MoveStep(s, c, a, m);
    hide Inv;
    if a.Store? && s'.irq {
      assert s'.cores[c].phase == Holding(true);
    } else if s'.irq {
      var d :| d in s.cores && s.cores[d].phase == Holding(true);
      assert s'.cores[d].phase == Holding(true);
    }
  }

  /** Every step keeps the invariant. */
  lemma MoveKeeps(s: State, c: nat, a: Move, m: nat)
    requires LockOk(s, m) && CanMove(s, c, a)
    ensures LockOk(MoveStep(s, c, a, m), m)
  {
    LockKept(s, c, a, m);
    FlagKeeps(s, c, a, m);
    var s' := MoveStep(s, c, a, m);
    assert s'.cores.Keys == s.cores.Keys;
    forall d | d in s'.cores ensures CoreOk(s', d) {
      if d == c {
        MoverKept(s, c, a, m);
      } else {
        OtherKept(s, c, a, m, d);
      }
    }
  }

  // ----- Runs -----

  predicate Fresh(s: State, m: nat) {
    m > 1 && |s.cores| <= m && s.lock == NEW && !s.irq && forall c :: c in s.cores ==> s.cores[c].phase == Idle
  }

  ghost predicate Reaches(s: State, moves: seq<(nat, Move)>, m: nat, s': State)
    requires m > 1
    decreases |moves|
  {
    if moves == [] then s' == s
    else CanMove(s, moves[0].0, moves[0].1) && Reaches(MoveStep(s, moves[0].0, moves[0].1, m), moves[1..], m, s')
  }

  lemma {:induction false} ReachesKeeps(s: State, moves: seq<(nat, Move)>, m: nat, s': State)
    requires LockOk(s, m) && Reaches(s, moves, m, s')
    ensures LockOk(s', m)
    decreases |moves|
  {
    if moves != [] {
      MoveKeeps(s, moves[0].0, moves[0].1, m);
      hide LockOk;
      ReachesKeeps(MoveStep(s, moves[0].0, moves[0].1, m), moves[1..], m, s');
    }
  }

  /** Over every run of at most `m` cores: one core at a time is inside, it has interrupts off from before it
      queues until after it has released the lock, and it leaves with the flag it came with; the lock keeps no flag
      unless its holder came with interrupts on. */
  lemma HolderRestoresItsFlag(s0: State, moves: seq<(nat, Move)>, m: nat, s: State)
    requires Fresh(s0, m) && Reaches(s0, moves, m, s)
    ensures forall c, d :: c in s.cores && d in s.cores && Inside(s.cores[c].phase) && Inside(s.cores[d].phase) ==>
            c == d
    ensures forall c :: c in s.cores && !s.cores[c].phase.Idle? ==> !s.cores[c].enabled
    ensures forall c :: CanMove(s, c, Restore) ==>
              MoveStep(s, c, Restore, m).cores[c] == Core(s.cores[c].phase.was, Idle)
    ensures s.irq ==> exists c :: c in s.cores && s.cores[c].phase == Holding(true)
  {
    NewInv(m);
    assert forall c :: c in s0.cores ==> CoreOk(s0, c);
    ReachesKeeps(s0, moves, m, s);
    forall c, d | c in s.cores && d in s.cores && Inside(s.cores[c].phase) && Inside(s.cores[d].phase) ensures c == d {
      OneInside(s, c, d, m);
    }
    assert forall c :: c in s.cores ==> CoreOk(s, c);
  }

  // ----- Several locks on one core -----

  /** The flag of a core and the locks that it holds, with the flags saved in them, in order of acquisition. */
  datatype Nest = Nest(enabled: bool, saved: seq<bool>)

  function Obtain(n: Nest): Nest {
    Nest(false, n.saved + [n.enabled])
  }

  /** Drops the lock at place `k`. */
  function Drop(n: Nest, k: nat): Nest
    requires k < |n.saved|
  {
    Nest(n.enabled || n.saved[k], n.saved[..k] + n.saved[k + 1..])
  }

  /** What one core and one lock of the step system amount to: the lock counts from the moment interrupts are
      switched off for it until the flag is restored. */
  function Project(core: Core): Nest {
    Nest(core.enabled,
         if core.phase.Idle? then []
         else if core.phase.Swapped? || core.phase.Released? then [core.phase.restore]
         else [core.phase.was])
  }

  /** Of the steps of the lock only the first and the last change the projection, and only for the core that takes
      them: they are `Obtain` and `Drop`. */
  lemma MoveProjects(s: State, c: nat, a: Move, m: nat, d: nat)
    requires LockOk(s, m) && CanMove(s, c, a) && d in s.cores
    ensures var n := Project(s.cores[d]);
            d in MoveStep(s, c, a, m).cores
            && Project(MoveStep(s, c, a, m).cores[d]) ==
               (if d == c && a.Disable? then Obtain(n) else if d == c && a.Restore? then Drop(n, 0) else n)
  {
    assert CoreOk(s, c);
    hide LockOk, Inv;
  }

  /** The flag is on, or some lock keeps it. */
  predicate FlagKept(n: Nest) {
    n.enabled || true in n.saved
  }

  datatype Call = Lock | Drop(place: nat)

  function DoCall(n: Nest, call: Call): Nest {
    match call
    case Lock => Obtain(n)
    case Drop(k) => if k < |n.saved| then Drop(n, k) else n
  }

  function Calls(n: Nest, calls: seq<Call>): Nest
    decreases |calls|
  {
    if calls == [] then n else Calls(DoCall(n, calls[0]), calls[1..])
  }

  /** Locks may be dropped in any order: the flag that was on before is on after the last drop. */
  lemma {:induction false} FlagSurvives(n: Nest, calls: seq<Call>)
    ensures FlagKept(Calls(n, calls)) == FlagKept(n)
    ensures Calls(n, calls).saved == [] ==> Calls(n, calls).enabled == FlagKept(n)
    decreases |calls|
  {
    if calls != [] {
      var next := DoCall(n, calls[0]);
      if calls[0].Lock? {
        assert next.saved[|n.saved|] == n.enabled;
        assert forall i :: 0 <= i < |n.saved| ==> next.saved[i] == n.saved[i];
      } else if calls[0].place < |n.saved| {
        var k := calls[0].place;
        assert n.saved == n.saved[..k] + [n.saved[k]] + n.saved[k + 1..];
      }
      FlagSurvives(next, calls[1..]);
    }
  }

  /** Interrupts are off while a lock is held, and only the outermost lock keeps a flag that was on. */
  predicate Quiet(n: Nest) {
    n.saved != [] ==> !n.enabled && forall i :: 0 < i < |n.saved| ==> !n.saved[i]
  }

  lemma ObtainQuiet(n: Nest)
    requires Quiet(n)
    ensures Quiet(Obtain(n))
  {
  }

  /** Dropping a lock leaves interrupts off while others are held, exactly if it is not the outermost lock, or
      the only one, or interrupts were off before it was obtained. */
  lemma DropQuietIff(n: Nest, k: nat)
    requires Quiet(n) && k < |n.saved|
    ensures Quiet(Drop(n, k)) <==> k > 0 || |n.saved| == 1 || !n.saved[0]
  {
    var n' := Drop(n, k);
    assert forall i :: 0 <= i < |n'.saved| ==> n'.saved[i] == if i < k then n.saved[i] else n.saved[i + 1];
  }

  /** Two locks obtained with interrupts on, and the first of them dropped: interrupts are on while the second is
      held. */
  lemma DropFirstExample()
    ensures var n := Obtain(Obtain(Nest(true, [])));
            Quiet(n) && n.saved == [true, false] && Drop(n, 0).saved == [false] && Drop(n, 0).enabled
  {
    var n := Obtain(Obtain(Nest(true, [])));
    assert n.saved == [true, false];
    DropQuietIff(n, 0);
  }

  /** Every drop is of the lock that was obtained last. */
  predicate Nested(n: Nest, calls: seq<Call>)
    decreases |calls|
  {
    calls == [] ||
    ((calls[0].Drop? ==> calls[0].place + 1 == |n.saved|) && Nested(DoCall(n, calls[0]), calls[1..]))
  }

  /** Under nested use interrupts stay off while the core holds any lock. */
  lemma {:induction false} NestedIsQuiet(n: Nest, calls: seq<Call>)
    requires Quiet(n) && Nested(n, calls)
    ensures Quiet(Calls(n, calls))
    decreases |calls|
  {
    if calls != [] {
      if calls[0].Lock? {
        ObtainQuiet(n);
      } else {
        DropQuietIff(n, calls[0].place);
      }
      hide Quiet;
      NestedIsQuiet(DoCall(n, calls[0]), calls[1..]);
    }
  }
}
