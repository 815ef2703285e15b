/**
 Families of queues.  A map from queue names to sequences holds every queue of one kind; a name that is
 not in the map stands for an empty queue.  `Linear` says that nothing is queued twice anywhere.
 */
module Registry {

  function Get<Q, T>(m: map<Q, seq<T>>, q: Q): seq<T> {
    if q in m then m[q] else []
  }

  predicate NoDup<T(==)>(s: seq<T>) {
    forall i, j :: 0 <= i < j < |s| ==> s[i] != s[j]
  }

  ghost predicate Linear<Q(!new), T(!new)>(m: map<Q, seq<T>>) {
    && (forall q :: NoDup(Get(m, q)))
    && (forall p, q, t :: t in Get(m, p) && t in Get(m, q) ==> p == q)
  }

  ghost predicate Held<Q(!new), T>(m: map<Q, seq<T>>, t: T) {
    exists q :: t in Get(m, q)
  }

  function InsertAt<T>(s: seq<T>, at: nat, t: T): seq<T>
    requires at <= |s|
  {
    s[..at] + [t] + s[at..]
  }

  function RemoveAt<T>(s: seq<T>, at: nat): seq<T>
    requires at < |s|
  {
    s[..at] + s[at + 1..]
  }

  function Insert<Q, T>(m: map<Q, seq<T>>, q: Q, at: nat, t: T): map<Q, seq<T>>
    requires at <= |Get(m, q)|
  {
    m[q := InsertAt(Get(m, q), at, t)]
  }

  function Append<Q, T>(m: map<Q, seq<T>>, q: Q, t: T): map<Q, seq<T>> {
    m[q := Get(m, q) + [t]]
  }

  function Delete<Q, T>(m: map<Q, seq<T>>, q: Q, at: nat): map<Q, seq<T>>
    requires at < |Get(m, q)|
  {
    m[q := RemoveAt(Get(m, q), at)]
  }

  /** Moves the whole queue `from` into the empty queue `to`. */
  function Transfer<Q, T>(m: map<Q, seq<T>>, from: Q, to: Q): map<Q, seq<T>> {
    m[from := []][to := Get(m, from)]
  }

  function IndexOf<T(==)>(s: seq<T>, t: T): (i: nat)
    ensures i <= |s|
    ensures i < |s| ==> s[i] == t
    ensures i < |s| <==> t in s
  {
    if s == [] || s[0] == t then 0 else 1 + IndexOf(s[1..], t)
  }

  lemma InsertAtKeeps<T>(s: seq<T>, at: nat, t: T)
    requires at <= |s|
    ensures forall x :: x in InsertAt(s, at, t) <==> x in s || x == t
    ensures NoDup(s) && t !in s ==> NoDup(InsertAt(s, at, t))
  {
    var r := InsertAt(s, at, t);
    assert s == s[..at] + s[at..];
    assert forall i :: 0 <= i < |r| ==> r[i] == if i < at then s[i] else if i == at then t else s[i - 1];
    if t !in s {
      assert forall i :: 0 <= i < |s| ==> s[i] != t;
    }
  }

  lemma RemoveAtKeeps<T>(s: seq<T>, at: nat)
    requires at < |s| && NoDup(s)
    ensures forall x :: x in RemoveAt(s, at) <==> x in s && x != s[at]
    ensures NoDup(RemoveAt(s, at))
  {
    var r := RemoveAt(s, at);
    assert forall i :: 0 <= i < |r| ==> r[i] == if i < at then s[i] else s[i + 1];
    forall x | x in s && x != s[at] ensures x in r {
      var i :| 0 <= i < |s| && s[i] == x;
      assert r[if i < at then i else i - 1] == x;
    }
  }

  lemma InsertKeeps<Q(!new), T(!new)>(m: map<Q, seq<T>>, q: Q, at: nat, t: T)
    requires Linear(m) && at <= |Get(m, q)| && !Held(m, t)
    ensures Linear(Insert(m, q, at, t))
    ensures forall p, x :: x in Get(Insert(m, q, at, t), p) <==> x in Get(m, p) || (p == q && x == t)
    ensures forall p :: p != q ==> Get(Insert(m, q, at, t), p) == Get(m, p)
  {
    var m' := Insert(m, q, at, t);
    assert Get(m', q) == InsertAt(Get(m, q), at, t);
    assert forall p :: p != q ==> Get(m', p) == Get(m, p);
    assert t !in Get(m, q);
    InsertAtKeeps(Get(m, q), at, t);
  }

  lemma AppendKeeps<Q(!new), T(!new)>(m: map<Q, seq<T>>, q: Q, t: T)
    requires Linear(m) && !Held(m, t)
    ensures Linear(Append(m, q, t))
    ensures forall p, x :: x in Get(Append(m, q, t), p) <==> x in Get(m, p) || (p == q && x == t)
    ensures forall p :: p != q ==> Get(Append(m, q, t), p) == Get(m, p)
  {
    assert InsertAt(Get(m, q), |Get(m, q)|, t) == Get(m, q) + [t];
    InsertKeeps(m, q, |Get(m, q)|, t);
  }

  lemma DeleteKeeps<Q(!new), T(!new)>(m: map<Q, seq<T>>, q: Q, at: nat)
    requires Linear(m) && at < |Get(m, q)|
    ensures Linear(Delete(m, q, at))
    ensures forall p, x :: x in Get(Delete(m, q, at), p) <==> x in Get(m, p) && x != Get(m, q)[at]
    ensures forall p :: p != q ==> Get(Delete(m, q, at), p) == Get(m, p)
    ensures !Held(Delete(m, q, at), Get(m, q)[at])
  {
    var m' := Delete(m, q, at);
    assert Get(m', q) == RemoveAt(Get(m, q), at);
    assert forall p :: p != q ==> Get(m', p) == Get(m, p);
    assert Get(m, q)[at] in Get(m, q);
    RemoveAtKeeps(Get(m, q), at);
  }

  lemma TransferKeeps<Q(!new), T(!new)>(m: map<Q, seq<T>>, from: Q, to: Q)
    requires Linear(m) && from != to && Get(m, to) == []
    ensures Linear(Transfer(m, from, to))
    ensures forall p :: Get(Transfer(m, from, to), p)
                     == if p == to then Get(m, from) else if p == from then [] else Get(m, p)
  {
    var m' := Transfer(m, from, to);
    forall p ensures Get(m', p) == if p == to then Get(m, from) else if p == from then [] else Get(m, p) {
    }
    forall p ensures NoDup(Get(m', p)) {
      assert NoDup(Get(m, if p == to then from else p));
    }
    forall p, q, t | t in Get(m', p) && t in Get(m', q) ensures p == q {
      assert t in Get(m, if p == to then from else p) && t in Get(m, if q == to then from else q);
    }
  }
}
