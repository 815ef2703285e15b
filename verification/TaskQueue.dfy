/**
 The priority queue of `src/scheduler/task.rs`: 31 queues that link tasks through the tasks themselves, and a
 bitmap of the queues that are not empty.
 */
module TaskQueue {
  import opened Options
  import opened Priorities
  import opened Registry

  class Task {
    const prio: nat
    var next: Task?
    var prev: Task?

    constructor (prio: nat)
      ensures this.prio == prio && next == null && prev == null
    {
      this.prio, next, prev := prio, null, null;
    }
  }

  ghost function First(ts: seq<Task>): Task? {
    if ts == [] then null else ts[0]
  }

  ghost function Last(ts: seq<Task>): Task? {
    if ts == [] then null else ts[|ts| - 1]
  }

  ghost predicate Linked(ts: seq<Task>)
    reads ts
  {
    && (forall i, j :: 0 <= i < |ts| && 0 <= j < |ts| && j == i + 1 ==> ts[i].next == ts[j] && ts[j].prev == ts[i])
    && (ts != [] ==> ts[0].prev == null && ts[|ts| - 1].next == null)
  }

  /** Where a task is in a queue, or the length of the queue. */
  ghost function Position(ts: seq<Task>, t: Task): (k: nat)
    ensures t in ts ==> k < |ts| && ts[k] == t
    ensures t !in ts ==> k == |ts|
  {
    if ts == [] || ts[0] == t then 0 else 1 + Position(ts[1..], t)
  }

  ghost function Removed(ts: seq<Task>, t: Task): seq<Task> {
    if t in ts then RemoveAt(ts, Position(ts, t)) else ts
  }

  /** `QueueHead` with the operations of one queue. */
  class QueueHead {
    var head: Task?
    var tail: Task?
    ghost var tasks: seq<Task>

    /** What can be reached from `head` is `tasks`. */
    ghost predicate Chain()
      reads this, tasks
    {
      NoDup(tasks) && head == First(tasks) && Linked(tasks)
    }

    ghost predicate TailAgrees()
      reads this
    {
      tail == Last(tasks)
    }

    /** If `tail` is not the last task, it is a task that has left the queue. */
    ghost predicate TailOk()
      reads this
    {
      TailAgrees() || (tail != null && tail !in tasks)
    }

    constructor ()
      ensures Chain() && TailAgrees() && tasks == []
    {
      head, tail, tasks := null, null, [];
    }

    /** `push` for one queue: the task becomes part of the queue exactly if `tail` is its last task. */
    method Append(task: Task)
      requires Chain() && TailOk() && task !in tasks
      modifies this, task, tail
      ensures Chain() && TailOk() && tail == task && (old(TailAgrees()) ==> TailAgrees())
      ensures tasks == if old(TailAgrees()) then old(tasks) + [task] else old(tasks)
    {
      ghost var agrees := TailAgrees();
      if tail == null {
        head := task;
        task.next := null;
        task.prev := null;
      } else {
        tail.next := task;
        task.next := null;
        task.prev := tail;
      }
      tail := task;
      if agrees {
        tasks := tasks + [task];
      }
    }

    /** `pop_from_queue` for one queue. */
    method RemoveHead() returns (t: Task?)
      requires Chain() && TailOk()
      modifies this, tasks
      ensures Chain() && TailOk()
      ensures old(tasks) == [] ==> t == null && tasks == [] && tail == old(tail)
      ensures old(tasks) != [] ==> t == old(tasks)[0] && tasks == old(tasks)[1..] && t.next == null && t.prev == null
      ensures old(tasks) != [] && tasks == [] ==> TailAgrees()
      ensures tasks != [] ==> tail == old(tail)
    {
      if head == null {
        return null;
      }
      var h := head;
      var newHead := h.next;
      assert |tasks| > 1 ==> newHead == tasks[1];
      if newHead != null {
        newHead.prev := null;
      }
      h.next := null;
      h.prev := null;
      head := newHead;
      tasks := tasks[1..];
      if head == null {
        tail := null;
      }
      t := h;
    }

    /** `remove` for one queue: deletes the task from the chain, and leaves `tail` alone. */
    method Unlink(task: Task)
      requires Chain() && TailOk()
      modifies this, tasks
      ensures Chain() && TailOk() && tail == old(tail) && tasks == Removed(old(tasks), task)
      ensures old(TailAgrees()) ==> (TailAgrees() <==> task != old(tail))
    {
      ghost var k := Position(tasks, task);
      var curr := head;
      ghost var n := 0;
      while curr != null && curr != task
        invariant 0 <= n <= k && curr == if n < |tasks| then tasks[n] else null
        decreases |tasks| - n
      {
        assert n + 1 < |tasks| ==> tasks[n].next == tasks[n + 1];
        curr := curr.next;
        n := n + 1;
      }
      if curr != null {
        UnlinkFound(task, k);
      }
    }

    method UnlinkFound(task: Task, ghost k: nat)
      requires Chain() && k < |tasks| && tasks[k] == task
      modifies this, tasks
      ensures Chain() && tail == old(tail) && tasks == RemoveAt(old(tasks), k)
    {
      var p, q := task.prev, task.next;
      assert p == if k == 0 then null else tasks[k - 1];
      assert q == if k == |tasks| - 1 then null else tasks[k + 1];
      if p != null {
        p.next := q;
      }
      if q != null {
        q.prev := p;
      }
      if head == task {
        head := task.next;
      }
      tasks := RemoveAt(tasks, k);
      assert forall i :: 0 <= i < |tasks| ==> tasks[i] == if i < k then old(tasks)[i] else old(tasks)[i + 1];
    }
  }

  /** After the removal of its last task a queue loses the next task that is pushed. */
  method RemovedTailLosesTask(a: Task, b: Task) returns (q: QueueHead)
    modifies a, b
    ensures fresh(q) && q.Chain() && q.tasks == [] && q.head == null && q.tail == b
  {
    q := new QueueHead();
    q.Append(a);
    q.Unlink(a);
    q.Append(b);
  }

  // ----- All queues -----

  /** `msb`: the highest set bit. */
  function Msb(bits: seq<bool>): (r: Option<nat>)
    ensures r.None? <==> forall i :: 0 <= i < |bits| ==> !bits[i]
    ensures r.Some? ==> r.value < |bits| && bits[r.value] && forall i :: r.value < i < |bits| ==> !bits[i]
  {
    if bits == [] then None
    else if bits[|bits| - 1] then Some(|bits| - 1)
    else Msb(bits[..|bits| - 1])
  }

  class PriorityTaskQueue {
    const queues: seq<QueueHead>
    var bitmap: seq<bool>       // 64 bits
    ghost var repr: set<Task>   // every task that is or was in a queue

    ghost predicate Distinct() {
      |queues| == NO_PRIORITIES && forall i, j :: 0 <= i < j < |queues| ==> queues[i] != queues[j]
    }

    /** Queue `i` holds tasks of priority `i`, and its bit is set if it holds any. */
    ghost predicate QueueOk(i: nat)
      requires i < |queues|
      reads this, queues, repr
    {
      && |bitmap| == 64 && i < 64 && (forall t :: t in queues[i].tasks ==> t in repr && t.prio == i)
      && (queues[i].tail != null ==> queues[i].tail in repr && queues[i].tail.prio == i)
      && queues[i].Chain() && queues[i].TailOk() && (queues[i].tasks != [] ==> bitmap[i])
    }

    ghost predicate Valid()
      reads this, queues, repr
    {
      && Distinct() && |bitmap| == 64
      && (forall i :: 0 <= i < |queues| ==> QueueOk(i))
      && (forall i :: NO_PRIORITIES <= i < 64 ==> !bitmap[i])
    }

    /** A bit is set only if the queue holds tasks. */
    ghost predicate BitsExact()
      requires Distinct()
      reads this, queues
    {
      |bitmap| == 64 && forall i :: 0 <= i < NO_PRIORITIES && bitmap[i] ==> queues[i].tasks != []
    }

    /** The highest set bit is that of an empty queue. */
    ghost predicate Stuck()
      requires Distinct()
      reads this, queues
    {
      |bitmap| == 64 && var m := Msb(bitmap); m.Some? && m.value < NO_PRIORITIES && queues[m.value].tasks == []
    }

    /** The tasks of priority `i`, oldest first. */
    ghost function Tasks(i: nat): seq<Task>
      requires i < |queues|
      reads queues
    {
      queues[i].tasks
    }

    constructor ()
      ensures Valid() && BitsExact() && repr == {} && fresh(queues)
      ensures forall i :: 0 <= i < NO_PRIORITIES ==> !bitmap[i] && Tasks(i) == [] && queues[i].TailAgrees()
    {
      bitmap := seq(64, i => false);
      repr := {};
      var qs: seq<QueueHead> := [];
      while |qs| < NO_PRIORITIES
        invariant |qs| <= NO_PRIORITIES
        invariant forall i :: 0 <= i < |qs| ==> fresh(qs[i]) && qs[i].Chain() && qs[i].tasks == [] && qs[i].TailAgrees()
        invariant forall i, j :: 0 <= i < j < |qs| ==> qs[i] != qs[j]
      {
        var q := new QueueHead();
        qs := qs + [q];
      }
      queues := qs;
    }

    /** A queue is in order if neither its tasks nor its bit were touched. */
    twostate lemma QueueKept(j: nat)
      requires j < |queues| && old(QueueOk(j)) && unchanged(queues[j]) && old(repr) <= repr
      requires |bitmap| == 64 && bitmap[j] == old(bitmap[j])
      requires forall t :: t in old(queues[j].tasks) ==> t.next == old(t.next) && t.prev == old(t.prev)
      ensures QueueOk(j)
    {
      var ts := queues[j].tasks;
      forall i | 0 <= i < |ts| ensures ts[i].next == old(ts[i].next) && ts[i].prev == old(ts[i].prev) {
        assert ts[i] in old(queues[j].tasks);
      }
    }

    lemma BitsTell()
      requires Valid()
      ensures forall j :: 0 <= j < NO_PRIORITIES ==> (Tasks(j) != [] ==> bitmap[j])
      ensures forall j, t :: 0 <= j < NO_PRIORITIES && t in Tasks(j) ==> t.prio == j
      ensures |bitmap| == 64 && forall j :: NO_PRIORITIES <= j < 64 ==> !bitmap[j]
    {
      forall j | 0 <= j < NO_PRIORITIES
        ensures (Tasks(j) != [] ==> bitmap[j]) && forall t :: t in Tasks(j) ==> t.prio == j
      {
        assert QueueOk(j);
      }
    }

    /** The task becomes part of its queue exactly if the tail of that was right.  If it was not and the queue is
        empty, the bit stays set for a queue without tasks. */
    method Push(task: Task)
      requires Valid() && task.prio < NO_PRIORITIES
      requires forall i :: 0 <= i < NO_PRIORITIES ==> task !in Tasks(i)
      modifies this, queues, repr, task
      ensures Valid() && repr == old(repr) + {task}
      ensures Tasks(task.prio) == old(Tasks(task.prio)) + if old(queues[task.prio].TailAgrees()) then [task] else []
      ensures old(queues[task.prio].TailAgrees()) ==> queues[task.prio].TailAgrees()
      ensures bitmap == old(bitmap)[task.prio := true]
      ensures forall i :: 0 <= i < NO_PRIORITIES && i != task.prio ==>
                Tasks(i) == old(Tasks(i)) && queues[i].TailAgrees() == old(queues[i].TailAgrees())
      ensures old(BitsExact()) ==>
                (BitsExact() <==> old(queues[task.prio].TailAgrees() || queues[task.prio].tasks != []))
    {
      var i := task.prio;
      assert QueueOk(i) && task !in Tasks(i);
      bitmap := bitmap[i := true];
      queues[i].Append(task);
      repr := repr + {task};
      forall j | 0 <= j < NO_PRIORITIES && j != i ensures QueueOk(j) {
        assert task !in old(Tasks(j)) && old(QueueOk(j));
        QueueKept(j);
      }
    }

    method PopFromQueue(i: nat) returns (t: Task?)
      requires Valid() && i < NO_PRIORITIES
      modifies this, queues, repr
      ensures Valid() && repr == old(repr)
      ensures old(Tasks(i)) == [] ==> t == null && Tasks(i) == [] && bitmap == old(bitmap)
      ensures old(Tasks(i)) != [] ==> t == old(Tasks(i))[0] && Tasks(i) == old(Tasks(i))[1..]
      ensures old(queues[i].TailAgrees()) ==> queues[i].TailAgrees()
      ensures forall j :: 0 <= j < NO_PRIORITIES && j != i ==>
                Tasks(j) == old(Tasks(j)) && queues[j].TailAgrees() == old(queues[j].TailAgrees())
      ensures old(BitsExact()) ==> BitsExact()
    {
      assert QueueOk(i);
      t := queues[i].RemoveHead();
      if t != null && queues[i].head == null {
        bitmap := bitmap[i := false];
      }
      forall j | 0 <= j < NO_PRIORITIES && j != i ensures QueueOk(j) {
        QueueKept(j);
      }
    }

    /** The oldest task of the highest priority, if that is at least `prio` and the bits are exact.  Nothing, for ever
        after, if the highest bit is that of an empty queue. */
    method PopWithPrio(prio: nat) returns (t: Task?)
      requires Valid()
      modifies this, queues, repr
      ensures Valid() && repr == old(repr) && (old(BitsExact()) ==> BitsExact())
      ensures t == null ==> forall j :: 0 <= j < NO_PRIORITIES ==> Tasks(j) == old(Tasks(j))
      ensures t == null && old(BitsExact()) ==> forall j :: prio <= j < NO_PRIORITIES ==> Tasks(j) == []
      ensures t != null ==>
                var p := t.prio;
                && prio <= p < NO_PRIORITIES && old(Tasks(p)) == [t] + Tasks(p)
                && (forall j :: p < j < NO_PRIORITIES ==> old(Tasks(j)) == [])
                && (forall j :: 0 <= j < NO_PRIORITIES && j != p ==> Tasks(j) == old(Tasks(j)))
      ensures old(Stuck()) ==> t == null && Stuck()
      ensures forall j :: 0 <= j < NO_PRIORITIES && old(queues[j].TailAgrees()) ==> queues[j].TailAgrees()
    {
      BitsTell();
      var m := Msb(bitmap);
      if m.Some? && m.value >= prio {
        t := PopFromQueue(m.value);
      } else {
        t := null;
      }
    }

    method Pop() returns (t: Task?)
      requires Valid()
      modifies this, queues, repr
      ensures Valid() && repr == old(repr) && (old(BitsExact()) ==> BitsExact())
      ensures t == null ==> forall j :: 0 <= j < NO_PRIORITIES ==> Tasks(j) == old(Tasks(j))
      ensures t == null && old(BitsExact()) ==> forall j :: 0 <= j < NO_PRIORITIES ==> Tasks(j) == []
      ensures t != null ==>
                var p := t.prio;
                && p < NO_PRIORITIES && old(Tasks(p)) == [t] + Tasks(p)
                && (forall j :: p < j < NO_PRIORITIES ==> old(Tasks(j)) == [])
                && (forall j :: 0 <= j < NO_PRIORITIES && j != p ==> Tasks(j) == old(Tasks(j)))
      ensures old(Stuck()) ==> t == null && Stuck()
      ensures forall j :: 0 <= j < NO_PRIORITIES && old(queues[j].TailAgrees()) ==> queues[j].TailAgrees()
    {
      BitsTell();
      var m := Msb(bitmap);
      if m.Some? {
        t := PopFromQueue(m.value);
      } else {
        t := null;
      }
    }

    /** Deletes exactly this task.  The tail of its queue is right afterwards exactly if the task was not the last. */
    method Remove(task: Task)
      requires Valid() && task.prio < NO_PRIORITIES
      modifies this, queues, repr
      ensures Valid() && repr == old(repr) && Tasks(task.prio) == Removed(old(Tasks(task.prio)), task)
      ensures old(queues[task.prio].TailAgrees()) ==>
                (queues[task.prio].TailAgrees() <==> task != Last(old(Tasks(task.prio))))
      ensures forall i :: 0 <= i < NO_PRIORITIES && i != task.prio ==>
                Tasks(i) == old(Tasks(i)) && queues[i].TailAgrees() == old(queues[i].TailAgrees())
      ensures forall i :: 0 <= i < 64 && i != task.prio ==> bitmap[i] == old(bitmap[i])
      ensures old(BitsExact()) ==> BitsExact()
    {
      var i := task.prio;
      assert QueueOk(i);
      var first := queues[i].head == task;
      queues[i].Unlink(task);
      if first && queues[i].head == null {
        bitmap := bitmap[i := false];
      }
      forall j | 0 <= j < NO_PRIORITIES && j != i ensures QueueOk(j) {
        QueueKept(j);
      }
    }
  }

  /** A waiter comes and gives up, and another of the same priority comes: the second is lost, and its bit hides
      whatever waits at lower priorities from every `pop`. */
  method RemovedTailHidesTasks(q: PriorityTaskQueue, a: Task, b: Task)
    requires q.Valid() && a.prio == b.prio < NO_PRIORITIES && q.Tasks(a.prio) == [] && q.queues[a.prio].TailAgrees()
    requires forall i :: 0 <= i < NO_PRIORITIES ==> a !in q.Tasks(i) && b !in q.Tasks(i)
    requires forall i :: a.prio < i < 64 ==> !q.bitmap[i]
    modifies q, q.queues, q.repr, a, b
    ensures q.Valid() && q.Stuck()
    ensures forall i :: 0 <= i < NO_PRIORITIES ==> q.Tasks(i) == old(q.Tasks(i))
  {
    hide QueueHead.Chain, PriorityTaskQueue.QueueOk, PriorityTaskQueue.BitsExact;
    q.Push(a);
    assert Removed([a], a) == [];
    q.Remove(a);
    q.Push(b);
    assert q.bitmap[a.prio];
  }
}
