/** Option values, the count of everything held in a table of queues, lists without repetitions, and notices. */
module Collections {

  datatype Option<+T> = None | Some(value: T)

  function Get<K, V>(m: map<K, V>, k: K): Option<V> {
    if k in m then Some(m[k]) else None
  }

  ghost function PickKey<K(!new), V>(m: map<K, V>): (k: K)
    requires m.Keys != {}
    ensures k in m
  {
    var k :| k in m.Keys; k
  }

  /** How often `v` occurs in a queue. */
  function Times<V(==)>(q: seq<V>, v: V): nat {
    if q == [] then 0 else Times(q[..|q| - 1], v) + if q[|q| - 1] == v then 1 else 0
  }

  lemma TimesAppend<V>(q: seq<V>, x: V, v: V)
    ensures Times(q + [x], v) == Times(q, v) + if x == v then 1 else 0
  {
    assert (q + [x])[..|q|] == q;
  }

  lemma {:induction false} TimesConcat<V>(p: seq<V>, q: seq<V>, v: V)
    ensures Times(p + q, v) == Times(p, v) + Times(q, v)
  {
    if q == [] {
      assert p + q == p;
    } else {
      assert p + q == (p + q[..|q| - 1]) + [q[|q| - 1]];
      TimesAppend(p + q[..|q| - 1], q[|q| - 1], v);
      TimesConcat(p, q[..|q| - 1], v);
    }
  }

  lemma {:induction false} TimesIn<V>(q: seq<V>, v: V)
    ensures Times(q, v) > 0 <==> v in q
  {
    if q != [] {
      TimesIn(q[..|q| - 1], v);
      assert q == q[..|q| - 1] + [q[|q| - 1]];
    }
  }

  /** How often `v` occurs in all the queues of a table together. */
  ghost function Waiting<K(!new), V(!new)>(m: map<K, seq<V>>, v: V): nat
    decreases |m|
  {
    if m.Keys == {} then 0 else var k := PickKey(m); Shrinks(m, k); Times(m[k], v) + Waiting(m - {k}, v)
  }

  function Queue<K, V>(m: map<K, seq<V>>, k: K): seq<V> {
    if k in m then m[k] else []
  }

  lemma Shrinks<K, V>(m: map<K, V>, k: K)
    requires k in m
    ensures |m - {k}| < |m|
  {
    assert m.Keys == (m - {k}).Keys + {k};
  }

  lemma {:induction false} WaitingRemoveKey<K(!new), V(!new)>(m: map<K, seq<V>>, k: K, v: V)
    requires k in m
    ensures Waiting(m, v) == Times(m[k], v) + Waiting(m - {k}, v)
    decreases |m|
  {
    var p := PickKey(m);
    assert Waiting(m, v) == Times(m[p], v) + Waiting(m - {p}, v);
    if p != k {
      Shrinks(m, p);
      Shrinks(m, k);
      WaitingRemoveKey(m - {p}, k, v);
      WaitingRemoveKey(m - {k}, p, v);
      assert m - {p} - {k} == m - {k} - {p};
    }
  }

  /** Removing a queue takes exactly its elements away. */
  lemma WaitingRemove<K(!new), V(!new)>(m: map<K, seq<V>>, k: K, v: V)
    ensures Waiting(m, v) == Times(Queue(m, k), v) + Waiting(m - {k}, v)
  {
    if k in m {
      WaitingRemoveKey(m, k, v);
    } else {
      assert m - {k} == m;
    }
  }

  /** Appending to one queue, made empty first if it is missing. */
  function Enqueue<K, V>(m: map<K, seq<V>>, k: K, v: V): map<K, seq<V>> {
    m[k := Queue(m, k) + [v]]
  }

  lemma WaitingEnqueue<K(!new), V(!new)>(m: map<K, seq<V>>, k: K, x: V, v: V)
    ensures Waiting(Enqueue(m, k, x), v) == Waiting(m, v) + if x == v then 1 else 0
  {
    var n := Enqueue(m, k, x);
    WaitingRemove(m, k, v);
    WaitingRemove(n, k, v);
    assert n - {k} == m - {k};
    TimesAppend(Queue(m, k), x, v);
  }

  lemma {:induction false} WaitingZero<K(!new), V(!new)>(m: map<K, seq<V>>, v: V)
    requires forall k :: k in m ==> v !in m[k]
    ensures Waiting(m, v) == 0
    decreases |m|
  {
    if m.Keys != {} {
      TimesIn(m[PickKey(m)], v);
      Shrinks(m, PickKey(m));
      WaitingZero(m - {PickKey(m)}, v);
    }
  }

  // ----- lists without repetitions -----

  ghost predicate Distinct<T>(q: seq<T>) { forall i, j :: 0 <= i < j < |q| ==> q[i] != q[j] }

  /** The list without the first occurrence of `x`. */
  function Without<T(==)>(q: seq<T>, x: T): seq<T> {
    if q == [] then [] else if q[0] == x then q[1..] else [q[0]] + Without(q[1..], x)
  }

  function Elems<T(==)>(q: seq<T>): set<T> { set x | x in q }

  lemma DistinctTail<T>(q: seq<T>)
    requires q != [] && Distinct(q)
    ensures Distinct(q[1..]) && q[0] !in q[1..]
  {
    assert forall i :: 0 <= i < |q| - 1 ==> q[1..][i] == q[i + 1];
  }

  lemma {:induction false} WithoutKeeps<T>(q: seq<T>, x: T)
    requires Distinct(q)
    ensures Distinct(Without(q, x)) && forall y :: y in Without(q, x) <==> y in q && y != x
  {
    if q != [] {
      DistinctTail(q);
      WithoutKeeps(q[1..], x);
      assert q == [q[0]] + q[1..];
    }
  }

  // ----- notices of things coming and going -----

  datatype Notice = Appeared(name: string) | Gone(name: string)

  /** Whether the last notice about a name said that it is there. */
  function Known(log: seq<Notice>, name: string): bool {
    if log == [] then false
    else if log[|log| - 1].name == name then log[|log| - 1].Appeared?
    else Known(log[..|log| - 1], name)
  }

  predicate Alternates(log: seq<Notice>, name: string) {
    log == [] ||
    var p, s := log[..|log| - 1], log[|log| - 1];
    Alternates(p, name) && (s.name == name ==> (s.Appeared? <==> !Known(p, name)))
  }

  lemma NoticeKeeps(log: seq<Notice>, s: Notice, name: string)
    requires Alternates(log, name) && (s.name == name ==> (s.Appeared? <==> !Known(log, name)))
    ensures Alternates(log + [s], name) && (Known(log + [s], name) <==> if s.name == name then s.Appeared? else Known(log, name))
  {
    assert (log + [s])[..|log|] == log;
  }
}
