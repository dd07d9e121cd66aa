/** Facts about sequences, sets and numbers that several models use. */
module Collections {
  function Min(x: int, y: int): int { if x <= y then x else y }

  function Max(x: int, y: int): int { if x <= y then y else x }

  ghost predicate Distinct<T>(s: seq<T>) {
    forall i, j :: 0 <= i < j < |s| ==> s[i] != s[j]
  }

  lemma {:induction false} DistinctOnce<T>(q: seq<T>, k: nat)
    requires Distinct(q) && k < |q|
    ensures multiset(q)[q[k]] == 1
  {
    var n := |q| - 1;
    assert q == q[..n] + [q[n]];
    if k < n {
      DistinctOnce(q[..n], k);
    } else {
      assert q[n] !in q[..n];
    }
  }

  lemma Member<T>(q: seq<T>, x: T) returns (k: nat)
    requires x in q
    ensures k < |q| && q[k] == x
  {
    k :| k < |q| && q[k] == x;
  }

  ghost function Pick<T>(s: set<T>): (k: T)
    requires |s| > 0
    ensures k in s
  {
    var k :| k in s; k
  }

  lemma SubsetSize<T>(a: set<T>, b: set<T>)
    requires a <= b
    ensures |a| <= |b|
    ensures a != b ==> |a| < |b|
  {
    assert b == a + (b - a);
  }
}
