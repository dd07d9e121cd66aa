/** The lock table of lockStore.go, for every key the queue of ids that asked for it, owner first, and
    what its queues are in terms of the history of calls alone. */
module LockStore {
  import opened Collections

  type Queues<K, ID> = map<K, seq<ID>>

  datatype Call<K, ID> = Lock(key: K, id: ID) | Unlock(key: K, id: ID)

  datatype Owner<ID> = Nobody | Is(id: ID)

  function Queue<K, ID>(m: Queues<K, ID>, key: K): seq<ID> {
    if key in m then m[key] else []
  }

  function Filter<V>(elems: seq<V>, keepWhenTrue: V -> bool): seq<V> {
    if elems == [] then []
    else
      var rest := Filter(elems[..|elems| - 1], keepWhenTrue);
      var last := elems[|elems| - 1];
      if keepWhenTrue(last) then rest + [last] else rest
  }

  function Without<ID(==)>(q: seq<ID>, id: ID): seq<ID> {
    Filter(q, elem => id != elem)
  }

  function Perform<K(==), ID(==)>(m: Queues<K, ID>, c: Call<K, ID>): Queues<K, ID> {
    match c
    case Lock(key, id) => if id in Queue(m, key) then m else m[key := Queue(m, key) + [id]]
    case Unlock(key, id) =>
      var q := Without(Queue(m, key), id);
      if q == [] then m - {key} else m[key := q]
  }

  /** The table after a history of calls on an empty store. */
  function Table<K(==), ID(==)>(calls: seq<Call<K, ID>>): Queues<K, ID> {
    if calls == [] then map[] else Perform(Table(calls[..|calls| - 1]), calls[|calls| - 1])
  }

  // ----- the imperative store --------------------------------------------------

  method Exists<A>(elems: seq<A>, holds: A -> bool) returns (r: bool)
    ensures r <==> exists k :: 0 <= k < |elems| && holds(elems[k])
  {
    for i := 0 to |elems|
      invariant forall k :: 0 <= k < i ==> !holds(elems[k])
    {
      if holds(elems[i]) {
        return true;
      }
    }
    r := false;
  }

  method FilterLoop<V>(elems: seq<V>, keepWhenTrue: V -> bool) returns (result: seq<V>)
    ensures result == Filter(elems, keepWhenTrue)
  {
    result := [];
    for i := 0 to |elems|
      invariant result == Filter(elems[..i], keepWhenTrue)
    {
      assert elems[..i + 1][..i] == elems[..i];
      if keepWhenTrue(elems[i]) {
        result := result + [elems[i]];
      }
    }
    assert elems[..|elems|] == elems;
  }

  class Store<K(==, !new), ID(==, !new)> {
    var m: Queues<K, ID>
    /** The calls made so far. */
    ghost var calls: seq<Call<K, ID>>

    ghost predicate Valid()
      reads this
    {
      m == Table(calls)
    }

    constructor ()
      ensures Valid() && calls == []
    {
      m, calls := map[], [];
    }

    method Put(key: K, val: ID)
      modifies `m
      ensures m == old(m)[key := Queue(old(m), key) + [val]]
    {
      var q := if key in m then m[key] else [];
      m := m[key := q + [val]];
    }

    method CleanEmpty(key: K)
      modifies `m
      ensures m == if key in old(m) && old(m)[key] == [] then old(m) - {key} else old(m)
    {
      if key in m && |m[key]| == 0 {
        m := m - {key};
      }
    }

    method FilterKey(key: K, keepWhenTrue: ID -> bool)
      modifies `m
      ensures var q := Filter(Queue(old(m), key), keepWhenTrue);
        m == if q == [] then old(m) - {key} else old(m)[key := q]
    {
      var q := FilterLoop(if key in m then m[key] else [], keepWhenTrue);
      m := m[key := q];
      CleanEmpty(key);
    }

    method LockKey(key: K, id: ID)
      requires Valid()
      modifies `m, `calls
      ensures Valid() && calls == old(calls) + [Lock(key, id)]
    {
      var present := Exists(if key in m then m[key] else [], elem => id == elem);
      if !present {
        Put(key, id);
      }
      calls := calls + [Lock(key, id)];
      assert calls[..|calls| - 1] == old(calls);
    }

    method UnlockKey(key: K, id: ID)
      requires Valid()
      modifies `m, `calls
      ensures Valid() && calls == old(calls) + [Unlock(key, id)]
    {
      FilterKey(key, elem => id != elem);
      calls := calls + [Unlock(key, id)];
      assert calls[..|calls| - 1] == old(calls);
    }

    method GetLockOwner(key: K) returns (owner: Owner<ID>)
      requires Valid()
      ensures owner.Is? <==> exists id :: Waits(calls, key, id)
      ensures owner.Is? ==> Waits(calls, key, owner.id)
      ensures owner.Is? ==> forall id, i, j :: Asked(calls, key, owner.id, i) && Asked(calls, key, id, j) ==> i <= j
    {
      QueueIsHistory(calls, key);
      if key in m {
        owner := Is(m[key][0]);
        assert owner.id in Queue(m, key);
        HeadAskedFirst(calls, key);
      } else {
        owner := Nobody;
      }
    }
  }

  // ----- what a queue is -------------------------------------------------------

  /** No Unlock of id at or after position i. */
  ghost predicate Keeps<K, ID>(calls: seq<Call<K, ID>>, key: K, id: ID, i: nat) {
    forall j :: i <= j < |calls| ==> calls[j] != Unlock(key, id)
  }

  /** id asked for the key and has not unlocked it since. */
  ghost predicate Waits<K(!new), ID(!new)>(calls: seq<Call<K, ID>>, key: K, id: ID) {
    exists i: nat :: i < |calls| && calls[i] == Lock(key, id) && Keeps(calls, key, id, i)
  }

  /** Position i holds the first Lock of id since its last Unlock. */
  ghost predicate Asked<K(!new), ID(!new)>(calls: seq<Call<K, ID>>, key: K, id: ID, i: nat) {
    && i < |calls| && calls[i] == Lock(key, id) && Keeps(calls, key, id, i)
    && forall j: nat :: j < i && calls[j] == Lock(key, id) ==> !Keeps(calls, key, id, j)
  }

  /** The queue of a key: exactly the waiting ids, each once, by when they asked;
      and a key without waiting ids is not in the table at all. */
  ghost predicate IsHistory<K(!new), ID(!new)>(calls: seq<Call<K, ID>>, key: K, m: Queues<K, ID>) {
    var q := Queue(m, key);
    && Distinct(q)
    && (forall id :: id in q <==> Waits(calls, key, id))
    && (forall a, b, i, j :: 0 <= a < b < |q| && Asked(calls, key, q[a], i) && Asked(calls, key, q[b], j) ==> i < j)
    && (key in m ==> q != [])
  }

  /** One more call: who waits, and since which position. */
  lemma OneMore<K(!new), ID(!new)>(calls: seq<Call<K, ID>>, key: K, id: ID)
    requires calls != []
    ensures var n := |calls| - 1;
      var pre, c := calls[..n], calls[n];
      && (Waits(calls, key, id) <==> c == Lock(key, id) || (Waits(pre, key, id) && c != Unlock(key, id)))
      && (forall i: nat :: Asked(calls, key, id, i) <==>
            if c == Lock(key, id) && !Waits(pre, key, id) then i == n
            else c != Unlock(key, id) && Asked(pre, key, id, i))
  {
    var n := |calls| - 1;
    var pre, c := calls[..n], calls[n];
    forall i: nat | i <= n ensures Keeps(calls, key, id, i) <==> Keeps(pre, key, id, i) && c != Unlock(key, id) {
      if Keeps(calls, key, id, i) {
        forall j | i <= j < n ensures pre[j] != Unlock(key, id) { assert pre[j] == calls[j]; }
      }
    }
    if c == Lock(key, id) {
      assert Keeps(calls, key, id, n);
    }
    if Waits(pre, key, id) {
      var i: nat :| i < n && pre[i] == Lock(key, id) && Keeps(pre, key, id, i);
      assert calls[i] == Lock(key, id);
    }
  }

  /** x stands before y in q. */
  ghost predicate Before<ID>(q: seq<ID>, x: ID, y: ID) {
    exists a, b :: 0 <= a < b < |q| && q[a] == x && q[b] == y
  }

  ghost predicate KeepsOrder<ID>(q: seq<ID>, r: seq<ID>) {
    forall a, b :: 0 <= a < b < |r| ==> Before(q, r[a], r[b])
  }

  lemma {:induction false} FilterMember<ID>(q: seq<ID>, keep: ID -> bool, x: ID)
    ensures x in Filter(q, keep) <==> x in q && keep(x)
  {
    if q != [] {
      FilterMember(q[..|q| - 1], keep, x);
      assert q == q[..|q| - 1] + [q[|q| - 1]];
    }
  }

  lemma {:induction false} FilterOrder<ID>(q: seq<ID>, keep: ID -> bool)
    ensures Distinct(q) ==> Distinct(Filter(q, keep))
    ensures KeepsOrder(q, Filter(q, keep))
  {
    if q != [] {
      var n := |q| - 1;
      var p, r := q[..n], Filter(q, keep);
      var r' := Filter(p, keep);
      FilterOrder(p, keep);
      forall a, b | 0 <= a < b < |r| ensures Before(q, r[a], r[b]) {
        if b < |r'| {
          assert Before(p, r'[a], r'[b]);
          var i, j :| 0 <= i < j < n && p[i] == r'[a] && p[j] == r'[b];
          assert q[i] == r[a] && q[j] == r[b];
        } else {
          FilterMember(p, keep, r'[a]);
          var i :| 0 <= i < |p| && p[i] == r'[a];
          assert q[i] == r[a] && q[n] == r[b];
        }
      }
    }
  }

  lemma HeadAskedFirst<K(!new), ID(!new)>(calls: seq<Call<K, ID>>, key: K)
    requires IsHistory(calls, key, Table(calls)) && key in Table(calls)
    ensures var q := Queue(Table(calls), key);
      q != [] && forall id, i, j :: Asked(calls, key, q[0], i) && Asked(calls, key, id, j) ==> i <= j
  {
    var q := Queue(Table(calls), key);
    forall id, i, j | Asked(calls, key, q[0], i) && Asked(calls, key, id, j) ensures i <= j {
      assert Waits(calls, key, id);
      assert id in q;
      var b :| 0 <= b < |q| && q[b] == id;
    }
  }

  lemma HistoryAfterLock<K(!new), ID(!new)>(calls: seq<Call<K, ID>>, key: K, pre: seq<Call<K, ID>>)
    requires calls != [] && pre == calls[..|calls| - 1] && calls[|calls| - 1].Lock?
    requires IsHistory(pre, key, Table(pre))
    ensures IsHistory(calls, key, Table(calls))
  {
    var c := calls[|calls| - 1];
    var q, q' := Queue(Table(pre), key), Queue(Table(calls), key);
    forall id ensures id in q' <==> Waits(calls, key, id) {
      OneMore(calls, key, id);
    }
    forall a, b, i, j | 0 <= a < b < |q'| && Asked(calls, key, q'[a], i) && Asked(calls, key, q'[b], j) ensures i < j {
      OneMore(calls, key, q'[a]);
      OneMore(calls, key, q'[b]);
      assert q'[a] == q[a] && q[a] in q;
      if b < |q| {
        assert q'[b] == q[b];
      }
    }
  }

  lemma HistoryAfterUnlock<K(!new), ID(!new)>(calls: seq<Call<K, ID>>, key: K, pre: seq<Call<K, ID>>)
    requires calls != [] && pre == calls[..|calls| - 1] && calls[|calls| - 1].Unlock?
    requires IsHistory(pre, key, Table(pre))
    ensures IsHistory(calls, key, Table(calls))
  {
    var c := calls[|calls| - 1];
    var q, q' := Queue(Table(pre), key), Queue(Table(calls), key);
    FilterOrder(q, elem => c.id != elem);
    forall id ensures id in q' <==> Waits(calls, key, id) {
      FilterMember(q, elem => c.id != elem, id);
      OneMore(calls, key, id);
    }
    forall a, b, i, j | 0 <= a < b < |q'| && Asked(calls, key, q'[a], i) && Asked(calls, key, q'[b], j) ensures i < j {
      OneMore(calls, key, q'[a]);
      OneMore(calls, key, q'[b]);
      if c.key == key {
        assert Before(q, q'[a], q'[b]);
      }
    }
  }

  /** After any history of Lock and Unlock calls every queue is what the history says. */
  lemma {:induction false} QueueIsHistory<K(!new), ID(!new)>(calls: seq<Call<K, ID>>, key: K)
    ensures IsHistory(calls, key, Table(calls))
  {
    if calls != [] {
      var pre := calls[..|calls| - 1];
      QueueIsHistory(pre, key);
      if calls[|calls| - 1].Lock? {
        HistoryAfterLock(calls, key, pre);
      } else {
        HistoryAfterUnlock(calls, key, pre);
      }
    }
  }
}
