/**
 The doubly linked list of `src/collections/doublylinkedlist.rs`: it refines a sequence of nodes.
 */
module DoublyLinkedList {
  import opened Registry

  class Node<T> {
    var value: T
    var prev: Node?<T>
    var next: Node?<T>

    constructor (value: T)
      ensures this.value == value && prev == null && next == null
    {
      this.value := value;
      prev := null;
      next := null;
    }
  }

  ghost function First<T>(nodes: seq<Node<T>>): Node?<T> {
    if nodes == [] then null else nodes[0]
  }

  ghost function Last<T>(nodes: seq<Node<T>>): Node?<T> {
    if nodes == [] then null else nodes[|nodes| - 1]
  }

  /** The links of every node lead to its neighbours in `nodes`, and to null at both ends. */
  ghost predicate Linked<T>(nodes: seq<Node<T>>)
    reads nodes
  {
    && (forall i, j :: 0 <= i < |nodes| && 0 <= j < |nodes| && j == i + 1 ==>
          nodes[i].next == nodes[j] && nodes[j].prev == nodes[i])
    && (nodes != [] ==> nodes[0].prev == null && nodes[|nodes| - 1].next == null)
  }

  lemma SliceStep<T>(s: seq<T>, k: nat)
    requires k < |s|
    ensures s[k..][..0] + s[k..][1..] == s[k + 1..] == s[k..][1..] && s[..k] + [s[k]] == s[..k + 1] && s[k..][0] == s[k]
  {
  }

  lemma InsertedAt<T>(nodes: seq<Node<T>>, k: nat, node: Node<T>)
    requires NoDup(nodes) && k <= |nodes| && node !in nodes
    ensures var s := nodes[..k] + [node] + nodes[k..];
            && NoDup(s) && |s| == |nodes| + 1
            && forall i :: 0 <= i < |s| ==> s[i] == if i < k then nodes[i] else if i == k then node else nodes[i - 1]
  {
  }

  class List<T> {
    var head: Node?<T>
    var tail: Node?<T>
    ghost var nodes: seq<Node<T>>
    ghost var repr: set<Node<T>>   // every node that is or was in the list

    /** `prev`, `next`, `head` and `tail` agree with the sequence `nodes`. */
    ghost predicate Valid()
      reads this, repr
    {
      (forall i :: 0 <= i < |nodes| ==> nodes[i] in repr) &&
      NoDup(nodes) && head == First(nodes) && tail == Last(nodes) && Linked(nodes)
    }

    constructor ()
      ensures Valid() && nodes == [] && repr == {}
    {
      head := null;
      tail := null;
      nodes := [];
      repr := {};
    }

    method Push(node: Node<T>)
      requires Valid() && node !in nodes && node.prev == null && node.next == null
      modifies this, node, repr
      ensures Valid() && nodes == old(nodes) + [node] && repr == old(repr) + {node}
      ensures forall n :: n in repr ==> n.value == old(n.value)
    {
      if tail != null {
        tail.next := node;
        node.prev := tail;
      } else {
        head := node;
      }
      tail := node;
      nodes := nodes + [node];
      repr := repr + {node};
    }

    method InsertBefore(newNode: Node<T>, node: Node<T>, ghost k: nat)
      requires Valid() && newNode !in nodes && newNode.prev == null && newNode.next == null
      requires k < |nodes| && nodes[k] == node
      modifies this, newNode, repr
      ensures Valid() && nodes == old(nodes)[..k] + [newNode] + old(nodes)[k..] && repr == old(repr) + {newNode}
      ensures forall n :: n in repr ==> n.value == old(n.value)
    {
      var p := node.prev;
      assert if k == 0 then p == null else p == nodes[k - 1];
      if p != null {
        p.next := newNode;
        newNode.prev := p;
      } else {
        head := newNode;
      }
      newNode.next := node;
      node.prev := newNode;
      ghost var ns := nodes;
      nodes := ns[..k] + [newNode] + ns[k..];
      repr := repr + {newNode};
      InsertedAt(ns, k, newNode);
      forall i, j | 0 <= i < |nodes| && 0 <= j < |nodes| && j == i + 1
        ensures nodes[i].next == nodes[j] && nodes[j].prev == nodes[i]
      {
        if j < k {
          assert old(ns[i].next == ns[j] && ns[j].prev == ns[i]);
        } else if i > k {
          assert old(ns[i - 1].next == ns[j - 1] && ns[j - 1].prev == ns[i - 1]);
        }
      }
    }

    method InsertAfter(newNode: Node<T>, node: Node<T>, ghost k: nat)
      requires Valid() && newNode !in nodes && newNode.prev == null && newNode.next == null
      requires k < |nodes| && nodes[k] == node
      modifies this, newNode, repr
      ensures Valid() && nodes == old(nodes)[..k + 1] + [newNode] + old(nodes)[k + 1..] && repr == old(repr) + {newNode}
      ensures forall n :: n in repr ==> n.value == old(n.value)
    {
      var q := node.next;
      assert if k == |nodes| - 1 then q == null else q == nodes[k + 1];
      if q != null {
        q.prev := newNode;
        newNode.next := q;
      } else {
        tail := newNode;
      }
      newNode.prev := node;
      node.next := newNode;
      ghost var ns := nodes;
      nodes := ns[..k + 1] + [newNode] + ns[k + 1..];
      repr := repr + {newNode};
      InsertedAt(ns, k + 1, newNode);
      forall i, j | 0 <= i < |nodes| && 0 <= j < |nodes| && j == i + 1
        ensures nodes[i].next == nodes[j] && nodes[j].prev == nodes[i]
      {
        if j < k + 1 {
          assert old(ns[i].next == ns[j] && ns[j].prev == ns[i]);
        } else if i > k + 1 {
          assert old(ns[i - 1].next == ns[j - 1] && ns[j - 1].prev == ns[i - 1]);
        }
      }
    }

    method Remove(node: Node<T>, ghost k: nat)
      requires Valid() && k < |nodes| && nodes[k] == node
      modifies this, repr
      ensures Valid() && nodes == old(nodes)[..k] + old(nodes)[k + 1..] && repr == old(repr)
      ensures node.prev == null && node.next == null
      ensures forall n :: n in repr ==> n.value == old(n.value)
    {
      var p, q := node.prev, node.next;
      assert if k == 0 then p == null else p == nodes[k - 1];
      assert if k == |nodes| - 1 then q == null else q == nodes[k + 1];
      node.prev := null;
      node.next := null;
      if p != null {
        p.next := q;
      } else {
        head := q;
      }
      if q != null {
        q.prev := p;
      } else {
        tail := p;
      }
      ghost var ns := nodes;
      RemoveAtKeeps(ns, k);
      nodes := RemoveAt(ns, k);
      assert forall i :: 0 <= i < |nodes| ==> nodes[i] == if i < k then ns[i] else ns[i + 1];
      forall i, j | 0 <= i < |nodes| && 0 <= j < |nodes| && j == i + 1
        ensures nodes[i].next == nodes[j] && nodes[j].prev == nodes[i]
      {
        if j < k {
          assert old(ns[i].next == ns[j] && ns[j].prev == ns[i]);
        } else if i >= k {
          assert old(ns[i + 1].next == ns[j + 1] && ns[j + 1].prev == ns[i + 1]);
        }
      }
    }

    /** `Iter::next`: where the iterator stands after it has yielded `node`. */
    method Advance(node: Node<T>, ghost k: nat) returns (current: Node?<T>)
      requires Valid() && k < |nodes| && nodes[k] == node
      ensures current == First(nodes[k + 1..])
    {
      current := node.next;
      assert k + 1 < |nodes| ==> nodes[k].next == nodes[k + 1];
    }

    /** The loop of `wakeup_all`: removing each node that the iterator yields.  The iterator has moved on
        before the node is unlinked, so every node is visited exactly once and in order. */
    method RemoveEach() returns (visited: seq<Node<T>>)
      requires Valid()
      modifies this, repr
      ensures Valid() && nodes == [] && visited == old(nodes) && repr == old(repr)
      ensures forall n :: n in repr ==> n.value == old(n.value)
    {
      hide Linked;
      hide NoDup;
      visited := [];
      var current := head;
      while current != null
        invariant Valid() && current == First(nodes) && repr == old(repr)
        invariant forall n :: n in repr ==> n.value == old(n.value)
        invariant |visited| <= |old(nodes)| && visited == old(nodes)[..|visited|] && nodes == old(nodes)[|visited|..]
        decreases |nodes|
      {
        var node := current;
        SliceStep(old(nodes), |visited|);
        current := Advance(node, 0);
        Remove(node, 0);
        visited := visited + [node];
      }
    }
  }
}
