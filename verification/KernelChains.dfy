/**
 The queues of the step system that are chains of tasks: which chain stands for which queue, and why a task that is
 pushed is in no chain at that moment.
 */
module KernelChains {
  import opened Kernel
  import opened KernelSafety
  import opened Priorities
  import opened Registry
  import opened TaskLinks

  /** The queue that the chain `q` stands for. */
  function Linked(k: State, q: LinkId): seq<Tid> {
    match q.owner
    case ReadyOf(c) => Get(k.queues, ReadyQ(c, q.prio))
    case WaitOf(o) => Get(k.waits, WaitQ(o, q.prio))
  }

  ghost predicate ChainsShow(k: State, chains: Lists) {
    forall q :: Get(chains, q) == Linked(k, q)
  }

  /** The lists that are not chains of tasks. */
  ghost predicate ListsShow(k: State, lists: map<QueueId, seq<Tid>>) {
    forall q: QueueId :: !q.ReadyQ? ==> Get(lists, q) == Get(k.queues, q)
  }

  lemma PutReady(k: State, chains: Lists, lists: map<QueueId, seq<Tid>>, c: nat, p: nat, s: seq<Tid>)
    requires ChainsShow(k, chains) && ListsShow(k, lists)
    ensures Get(chains, LinkId(ReadyOf(c), p)) == Get(k.queues, ReadyQ(c, p))
    ensures ChainsShow(k.(queues := k.queues[ReadyQ(c, p) := s]), chains[LinkId(ReadyOf(c), p) := s])
    ensures ListsShow(k.(queues := k.queues[ReadyQ(c, p) := s]), lists)
  {
    var k', chains' := k.(queues := k.queues[ReadyQ(c, p) := s]), chains[LinkId(ReadyOf(c), p) := s];
    forall q ensures Get(chains', q) == Linked(k', q) {
      assert Get(chains, q) == Linked(k, q);
    }
    assert Get(chains, LinkId(ReadyOf(c), p)) == Linked(k, LinkId(ReadyOf(c), p));
  }

  lemma PutWait(k: State, chains: Lists, o: nat, p: nat, s: seq<Tid>)
    requires ChainsShow(k, chains)
    ensures Get(chains, LinkId(WaitOf(o), p)) == Get(k.waits, WaitQ(o, p))
    ensures ChainsShow(k.(waits := k.waits[WaitQ(o, p) := s]), chains[LinkId(WaitOf(o), p) := s])
  {
    var k', chains' := k.(waits := k.waits[WaitQ(o, p) := s]), chains[LinkId(WaitOf(o), p) := s];
    forall q ensures Get(chains', q) == Linked(k', q) {
      assert Get(chains, q) == Linked(k, q);
    }
    assert Get(chains, LinkId(WaitOf(o), p)) == Linked(k, LinkId(WaitOf(o), p));
  }

  lemma PutList(k: State, chains: Lists, lists: map<QueueId, seq<Tid>>, q: QueueId, s: seq<Tid>)
    requires ChainsShow(k, chains) && ListsShow(k, lists) && !q.ReadyQ?
    ensures Get(lists, q) == Get(k.queues, q)
    ensures ChainsShow(k.(queues := k.queues[q := s]), chains)
            && ListsShow(k.(queues := k.queues[q := s]), lists[q := s])
  {
    var k', lists' := k.(queues := k.queues[q := s]), lists[q := s];
    forall p ensures Get(chains, p) == Linked(k', p) {
      assert Get(chains, p) == Linked(k, p);
    }
    forall p: QueueId | !p.ReadyQ? ensures Get(lists', p) == Get(k'.queues, p) {
      assert Get(lists, p) == Get(k.queues, p);
    }
  }

  /** Changes outside the queues. */
  lemma SameShow(k: State, k': State, chains: Lists, lists: map<QueueId, seq<Tid>>)
    requires ChainsShow(k, chains) && ListsShow(k, lists) && k'.queues == k.queues && k'.waits == k.waits
    ensures ChainsShow(k', chains) && ListsShow(k', lists)
  {
    forall q ensures Get(chains, q) == Linked(k', q) {
      assert Get(chains, q) == Linked(k, q);
    }
  }

  /** A task in no ready queue and no wait queue is in no chain. */
  lemma NotChained(k: State, chains: Lists, t: Tid)
    requires ChainsShow(k, chains) && !Held(k.waits, t)
    requires forall c, p :: t !in Get(k.queues, ReadyQ(c, p))
    ensures !Held(chains, t)
  {
    forall q ensures t !in Get(chains, q) {
      assert Get(chains, q) == Linked(k, q);
    }
  }

  /** A running task is in no chain. */
  lemma CurrentFacts(k: State, chains: Lists, c: nat)
    requires Inv(k) && ChainsShow(k, chains) && HasCore(k, c) && Current(k, c).status == Running
    ensures Current(k, c).prio < NO_PRIORITIES && !Held(chains, k.cores[c].current)
  {
    hide Inv;
    var t := k.cores[c].current;
    OfTask(k, t);
    OfState(k);
    NotQueued(k, t);
    NotChained(k, chains, t);
  }

  /** Nor is a task that has blocked itself and is about to enter the wait queue of a mutex. */
  lemma QueueingFacts(k: State, chains: Lists, c: nat)
    requires Inv(k) && ChainsShow(k, chains) && HasCore(k, c) && Current(k, c).queueing.Some?
    ensures Current(k, c).prio < NO_PRIORITIES && !Held(chains, k.cores[c].current)
  {
    hide Inv;
    var t := k.cores[c].current;
    OfTask(k, t);
    OfState(k);
    forall d, p ensures t !in Get(k.queues, ReadyQ(d, p)) {
      assert t in Get(k.queues, ReadyQ(d, p)) ==> Fits(k, ReadyQ(d, p), t);
    }
    NotChained(k, chains, t);
  }

  /** A woken task is in no chain. */
  lemma WokenFacts(k: State, chains: Lists, c: nat)
    requires Inv(k) && ChainsShow(k, chains) && Enabled(k, Push(c))
    ensures var t := Get(k.queues, PushQ(c))[0]; k.tasks[t].prio < NO_PRIORITIES && !Held(chains, t)
  {
    hide Inv;
    var t := Get(k.queues, PushQ(c))[0];
    OfQueue(k, PushQ(c), t);
    OfState(k);
    ReadyNotWaiting(k, t);
    NotChained(k, chains, t);
  }

  /** Nor is a task that does not exist yet. */
  lemma NewFacts(k: State, chains: Lists, t: Tid)
    requires Inv(k) && ChainsShow(k, chains) && t !in k.tasks
    ensures !Held(chains, t)
  {
    hide Inv;
    OfState(k);
    forall w ensures t !in Get(k.waits, w) {
      assert t in Get(k.waits, w) ==> WaiterFits(k, w, t);
    }
    forall c, p ensures t !in Get(k.queues, ReadyQ(c, p)) {
      assert t in Get(k.queues, ReadyQ(c, p)) ==> Fits(k, ReadyQ(c, p), t);
    }
    NotChained(k, chains, t);
  }

  /** What the decision relies on. */
  lemma DecideFacts(k: State, chains: Lists, c: nat)
    requires Inv(k) && ChainsShow(k, chains) && HasCore(k, c) && k.cores[c].phase.Deciding?
    ensures k.cores[c].idle in k.tasks && Current(k, c).prio < NO_PRIORITIES
    ensures k.cores[c].phase.seen == Running ==> !Held(chains, k.cores[c].current)
    ensures forall p :: Get(k.queues, ReadyQ(c, p)) != [] ==> Get(k.queues, ReadyQ(c, p))[0] in k.tasks
  {
    hide Inv;
    var t := k.cores[c].current;
    OfCore(k, c);
    OfTask(k, t);
    OfState(k);
    if k.cores[c].phase.seen == Running {
      NotQueued(k, t);
      NotChained(k, chains, t);
    }
    forall p | Get(k.queues, ReadyQ(c, p)) != [] ensures Get(k.queues, ReadyQ(c, p))[0] in k.tasks {
      OfQueue(k, ReadyQ(c, p), Get(k.queues, ReadyQ(c, p))[0]);
    }
  }
}
