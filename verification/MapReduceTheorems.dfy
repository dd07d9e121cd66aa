/** What every MapReduce run guarantees: the barrier, conservation of files, and the
    same output as the sequential program. */
module MapReduceTheorems {
  import opened Collections
  import opened FileNames
  import opened MapReduceJobs
  import opened Coordinator
  import opened MapReduceRun

  /** Each task is handed out at most once, a reduce task only after every map task
      completed, and from then on reduce task r's list holds the file of every map
      task for r exactly once and nothing else. */
  lemma Barrier(p: Problem, states: seq<System>, steps: seq<Step>, i: nat, r: nat)
    requires p.n > 0 && Run(p, states, steps) && i < |states| && r < p.n
    ensures var y := states[i];
      && Distinct(y.handed) && |y.jobs.reduceTasks| == p.n
      && ((ReduceTask, r) in y.handed ==> AllCompleted(y.jobs.mapTasks))
      && (AllCompleted(y.jobs.mapTasks) ==>
            |y.jobs.reduceTasks[r].files| == |p.files| &&
            forall m: nat :: m < |p.files| ==> multiset(y.jobs.reduceTasks[r].files)[FileName(m, r)] == 1)
  {
    RunInv(p, states, steps, i);
    var y := states[i];
    assert ReduceTaskOk(p, y, r);
    if AllCompleted(y.jobs.mapTasks) {
      FinishedIsAll(p, y);
      FinishedSize(y.finished, |p.files|);
      var files := y.jobs.reduceTasks[r].files;
      forall a, b | 0 <= a < b < |files| ensures files[a] != files[b] {
        if files[a] == files[b] { NamesDiffer(y.finished[a], r, y.finished[b], r); }
      }
      forall m: nat | m < |p.files| ensures multiset(files)[FileName(m, r)] == 1 {
        assert Has(y.finished, m);
        var k :| 0 <= k < |y.finished| && y.finished[k] == m;
        DistinctOnce(files, k);
      }
    }
  }

  ghost predicate Has(q: seq<nat>, m: nat) {
    exists k :: 0 <= k < |q| && q[k] == m
  }

  /** q holds exactly the numbers below n. */
  ghost predicate Fills(q: seq<nat>, n: nat) {
    (forall k :: 0 <= k < |q| ==> q[k] < n) && forall m: nat :: m < n ==> Has(q, m)
  }

  lemma FinishedIsAll(p: Problem, y: System)
    requires Inv(p, y) && AllCompleted(y.jobs.mapTasks)
    ensures Fills(y.finished, |p.files|)
  {
    forall m: nat | m < |p.files| ensures Has(y.finished, m) {
      assert MapTaskOk(p, y, m);
      var k := Member(y.finished, m);
    }
  }

  function Upto(n: nat): (q: seq<nat>)
    ensures |q| == n && forall k :: 0 <= k < n ==> q[k] == k
  {
    seq(n, i => i)
  }

  lemma CountOfFull(q: seq<nat>, n: nat, x: nat)
    requires Distinct(q) && Fills(q, n)
    ensures multiset(q)[x] == if x < n then 1 else 0
  {
    if x < n {
      assert Has(q, x);
      var k :| 0 <= k < |q| && q[k] == x;
      DistinctOnce(q, k);
    } else {
      assert x !in q;
    }
  }

  lemma FillsPermutes(q: seq<nat>, n: nat)
    requires Distinct(q) && Fills(q, n)
    ensures multiset(q) == multiset(Upto(n))
  {
    forall m: nat | m < n ensures Has(Upto(n), m) { assert Upto(n)[m] == m; }
    forall x: nat ensures multiset(q)[x] == multiset(Upto(n))[x] {
      CountOfFull(q, n, x);
      CountOfFull(Upto(n), n, x);
    }
  }

  lemma FinishedSize(q: seq<nat>, n: nat)
    requires Distinct(q) && Fills(q, n)
    ensures |q| == n
  {
    FillsPermutes(q, n);
    assert |multiset(q)| == |multiset(Upto(n))|;
  }

  /** No worker ever fails to open a file it was given, and no report names a task or
      a file the coordinator cannot place. */
  lemma NothingIsMissing(p: Problem, states: seq<System>, steps: seq<Step>, i: nat, w: nat)
    requires p.n > 0 && Run(p, states, steps) && i < |states|
    ensures var y := states[i];
      match JobOf(y, w)
      case Reducing(_, files) => forall k :: 0 <= k < |files| ==> files[k] in y.disk
      case Mapped(m) => Reportable(y.jobs, MapTask, m, Names(m, p.n))
      case Wrote(r) => Reportable(y.jobs, ReduceTask, r, [])
      case _ => true
  {
    RunInv(p, states, steps, i);
    var y := states[i];
    assert WorkerOk(p, y, w);
    match JobOf(y, w)
    case Reducing(r, files) =>
      assert ReduceTaskOk(p, y, r);
      forall k | 0 <= k < |y.finished| ensures OnDisk(p, y, y.finished[k]) { assert MapTaskOk(p, y, y.finished[k]); }
      ReadGathers(p, y, y.finished, r, files);
    case Mapped(m) => NamesFilable(m, p.n, p.n);
    case _ =>
  }

  // ----- the output ------------------------------------------------------------

  function PairsOf(p: Problem, order: seq<nat>): seq<KeyValue>
    requires Valid(p, order)
  {
    if order == [] then [] else PairsOf(p, order[..|order| - 1]) + Pairs(p, order[|order| - 1])
  }

  /** What bucket r gathers is bucket r of all pairs gathered. */
  lemma {:induction false} GatheredIsBucket(p: Problem, order: seq<nat>, r: nat)
    requires p.n > 0 && Valid(p, order)
    ensures Gathered(p, order, r) == Bucket(PairsOf(p, order), p.hash, p.n, r)
  {
    if order != [] {
      var n := |order| - 1;
      GatheredIsBucket(p, order[..n], r);
      BucketJoins(PairsOf(p, order[..n]), Pairs(p, order[n]), p.hash, p.n, r);
    }
  }

  lemma WithoutShape(order: seq<nat>, k: nat)
    requires k < |order| - 1
    ensures var rest := order[..k] + order[k + 1..];
      var n := |order| - 1;
      rest[..n - 1] == order[..n][..k] + order[..n][k + 1..] && rest[n - 1] == order[n]
  {
  }

  /** Taking task order[k] out takes its pairs out. */
  lemma {:induction false} PairsWithout(p: Problem, order: seq<nat>, k: nat)
    requires Valid(p, order) && k < |order|
    ensures Valid(p, order[..k] + order[k + 1..])
    ensures multiset(PairsOf(p, order)) ==
            multiset(PairsOf(p, order[..k] + order[k + 1..])) + multiset(Pairs(p, order[k]))
  {
    var n := |order| - 1;
    PairsLast(p, order);
    if k == n {
      assert order[..k] + order[k + 1..] == order[..n];
    } else {
      PairsWithout(p, order[..n], k);
      PairsShift(p, order, k);
      var fewer := PairsOf(p, order[..n][..k] + order[..n][k + 1..]);
      SumSwap(multiset(fewer), multiset(Pairs(p, order[k])), multiset(Pairs(p, order[n])));
    }
  }

  lemma PairsShift(p: Problem, order: seq<nat>, k: nat)
    requires Valid(p, order) && k < |order| - 1
    ensures var n := |order| - 1;
      var rest, fewer := order[..k] + order[k + 1..], order[..n][..k] + order[..n][k + 1..];
      && Valid(p, rest) && Valid(p, fewer) && order[..n][k] == order[k]
      && multiset(PairsOf(p, rest)) == multiset(PairsOf(p, fewer)) + multiset(Pairs(p, order[n]))
  {
    WithoutShape(order, k);
    PairsLast(p, order[..k] + order[k + 1..]);
  }

  lemma SumSwap<T>(a: multiset<T>, b: multiset<T>, c: multiset<T>)
    ensures (a + b) + c == (a + c) + b
  {
  }

  lemma PairsLast(p: Problem, order: seq<nat>)
    requires Valid(p, order) && order != []
    ensures multiset(PairsOf(p, order)) ==
            multiset(PairsOf(p, order[..|order| - 1])) + multiset(Pairs(p, order[|order| - 1]))
  {
  }

  lemma Without(b: seq<nat>, k: nat)
    requires k < |b|
    ensures multiset(b[..k] + b[k + 1..]) == multiset(b) - multiset{b[k]}
  {
    assert b == b[..k] + [b[k]] + b[k + 1..];
  }

  /** The last element of a, found in its permutation b and taken out of both. */
  lemma TakeOut(a: seq<nat>, b: seq<nat>) returns (k: nat)
    requires multiset(a) == multiset(b) && |a| > 0
    ensures k < |b| && b[k] == a[|a| - 1]
    ensures multiset(a[..|a| - 1]) == multiset(b[..k] + b[k + 1..])
  {
    var n := |a| - 1;
    assert a[n] in multiset(b);
    k := Member(b, a[n]);
    Without(b, k);
    Without(a, n);
    assert a[..n] + a[n + 1..] == a[..n];
  }

  /** The order of the tasks only permutes the pairs. */
  lemma {:induction false} PairsPermute(p: Problem, a: seq<nat>, b: seq<nat>)
    requires Valid(p, a) && Valid(p, b) && multiset(a) == multiset(b)
    ensures multiset(PairsOf(p, a)) == multiset(PairsOf(p, b))
    decreases |a|
  {
    if a == [] {
      assert |multiset(b)| == 0;
    } else {
      var k := TakeOut(a, b);
      PairsWithout(p, b, k);
      PairsPermute(p, a[..|a| - 1], b[..k] + b[k + 1..]);
    }
  }

  function Inputs(p: Problem): seq<(string, string)> {
    seq(|p.files|, i requires 0 <= i < |p.files| => (p.files[i], p.content(p.files[i])))
  }

  lemma {:induction false} CollectedIsPairs(p: Problem, n: nat)
    requires n <= |p.files|
    ensures Valid(p, Upto(n)) && Collected(Inputs(p)[..n], p.mapf) == PairsOf(p, Upto(n))
  {
    if n > 0 {
      CollectedIsPairs(p, n - 1);
      assert Inputs(p)[..n][..n - 1] == Inputs(p)[..n - 1];
      assert Upto(n)[..n - 1] == Upto(n - 1);
    }
  }

  /** The lines of mr-out-0 .. mr-out-(k-1). */
  function AllLines(outs: map<nat, seq<Line>>, k: nat): seq<Line>
    requires forall r: nat :: r < k ==> r in outs
  {
    if k == 0 then [] else AllLines(outs, k - 1) + outs[k - 1]
  }

  /** The entries of m whose key hashes below k. */
  function Below(m: map<string, string>, hash: string -> nat, n: nat, k: nat): map<string, string>
    requires n > 0
  {
    map key | key in m && hash(key) % n < k :: m[key]
  }

  lemma PrintsJoin(a: seq<Line>, b: seq<Line>, m: map<string, string>, m': map<string, string>)
    requires Prints(a, m) && Prints(b, m') && m.Keys !! m'.Keys
    ensures Prints(a + b, m + m')
  {
    forall k | k in m + m' ensures HasLine(a + b, k) {
      if k in m' {
        assert HasLine(b, k);
        var i :| 0 <= i < |b| && b[i].key == k;
        assert (a + b)[|a| + i].key == k;
      } else {
        assert HasLine(a, k);
        var i :| 0 <= i < |a| && a[i].key == k;
        assert (a + b)[i].key == k;
      }
    }
  }

  lemma BelowNext(m: map<string, string>, hash: string -> nat, n: nat, k: nat)
    requires n > 0
    ensures Below(m, hash, n, k).Keys !! HashedTo(m, hash, n, k).Keys
    ensures Below(m, hash, n, k + 1) == Below(m, hash, n, k) + HashedTo(m, hash, n, k)
  {
  }

  lemma NextOutput(p: Problem, outs: map<nat, seq<Line>>, m: map<string, string>, k: nat)
    requires p.n > 0 && forall r: nat :: r <= k ==> r in outs
    requires Prints(AllLines(outs, k), Below(m, p.hash, p.n, k))
    requires Prints(outs[k], HashedTo(m, p.hash, p.n, k))
    ensures Prints(AllLines(outs, k + 1), Below(m, p.hash, p.n, k + 1))
  {
    BelowNext(m, p.hash, p.n, k);
    PrintsJoin(AllLines(outs, k), outs[k], Below(m, p.hash, p.n, k), HashedTo(m, p.hash, p.n, k));
  }

  /** Each output prints its own bucket. */
  ghost predicate BucketsPrinted(p: Problem, outs: map<nat, seq<Line>>, kvs: seq<KeyValue>, k: nat)
    requires p.n > 0
  {
    forall r: nat :: r < k ==> r in outs && Prints(outs[r], Reduced(Bucket(kvs, p.hash, p.n, r), p.reducef))
  }

  lemma OutputHashed(p: Problem, outs: map<nat, seq<Line>>, kvs: seq<KeyValue>, r: nat)
    requires p.n > 0 && OrderFree(p.reducef) && BucketsPrinted(p, outs, kvs, r + 1)
    ensures r in outs && Prints(outs[r], HashedTo(Reduced(kvs, p.reducef), p.hash, p.n, r))
  {
    BucketReduces(kvs, p.hash, p.n, r, p.reducef);
  }

  lemma NothingPrinted(outs: map<nat, seq<Line>>, m: map<string, string>, hash: string -> nat, n: nat)
    requires n > 0
    ensures Prints(AllLines(outs, 0), Below(m, hash, n, 0))
  {
    assert Below(m, hash, n, 0) == map[];
  }

  /** The first k outputs together print the entries whose key hashes below k. */
  ghost predicate Joined(p: Problem, outs: map<nat, seq<Line>>, kvs: seq<KeyValue>, k: nat)
    requires p.n > 0 && BucketsPrinted(p, outs, kvs, k)
  {
    Prints(AllLines(outs, k), Below(Reduced(kvs, p.reducef), p.hash, p.n, k))
  }

  lemma FewerPrinted(p: Problem, outs: map<nat, seq<Line>>, kvs: seq<KeyValue>, k: nat, j: nat)
    requires p.n > 0 && BucketsPrinted(p, outs, kvs, k) && j <= k
    ensures BucketsPrinted(p, outs, kvs, j)
  {
  }

  lemma OneMoreOutput(p: Problem, outs: map<nat, seq<Line>>, kvs: seq<KeyValue>, k: nat)
    requires p.n > 0 && OrderFree(p.reducef) && BucketsPrinted(p, outs, kvs, k + 1)
    requires BucketsPrinted(p, outs, kvs, k) && Joined(p, outs, kvs, k)
    ensures Joined(p, outs, kvs, k + 1)
  {
    OutputHashed(p, outs, kvs, k);
    NextOutput(p, outs, Reduced(kvs, p.reducef), k);
  }

  lemma {:induction false} OutputsJoin(p: Problem, outs: map<nat, seq<Line>>, kvs: seq<KeyValue>, k: nat)
    requires p.n > 0 && OrderFree(p.reducef) && BucketsPrinted(p, outs, kvs, k)
    ensures Joined(p, outs, kvs, k)
  {
    if k == 0 {
      NothingPrinted(outs, Reduced(kvs, p.reducef), p.hash, p.n);
    } else {
      var j: nat := k - 1;
      FewerPrinted(p, outs, kvs, k, j);
      OutputsJoin(p, outs, kvs, j);
      assert j + 1 == k;
      OneMoreOutput(p, outs, kvs, j);
    }
  }

  /** Two files that print the same entries hold the same lines. */
  lemma PrintsOnce(lines: seq<Line>, m: map<string, string>, line: Line)
    requires Prints(lines, m)
    ensures multiset(lines)[line] == if line.key in m && m[line.key] == line.output then 1 else 0
  {
    if line.key in m && m[line.key] == line.output {
      assert HasLine(lines, line.key);
      var i :| 0 <= i < |lines| && lines[i].key == line.key;
      assert lines[i] == line;
      DistinctOnce(lines, i);
    } else {
      assert line !in lines;
    }
  }

  /** The reduce outputs of a finished job print the reduction of all pairs. */
  lemma OutputIsReduction(p: Problem, y: System)
    requires Inv(p, y) && Finished(y.jobs) && OrderFree(p.reducef)
    ensures (forall r: nat :: r < p.n ==> r in y.outs)
    ensures Prints(AllLines(y.outs, p.n), Reduced(Collected(Inputs(p), p.mapf), p.reducef))
  {
    var kvs := PairsOf(p, y.finished);
    forall r: nat | r < p.n ensures r in y.outs && Prints(y.outs[r], Reduced(Bucket(kvs, p.hash, p.n, r), p.reducef)) {
      assert ReduceTaskOk(p, y, r);
      GatheredIsBucket(p, y.finished, r);
    }
    OutputsJoin(p, y.outs, kvs, p.n);
    FinishedIsAll(p, y);
    FillsPermutes(y.finished, |p.files|);
    CollectedIsPairs(p, |p.files|);
    assert Inputs(p)[..|p.files|] == Inputs(p);
    PairsPermute(p, y.finished, Upto(|p.files|));
    ReducedIgnoresOrder(kvs, Collected(Inputs(p), p.mapf), p.reducef);
    var m := Reduced(kvs, p.reducef);
    assert Below(m, p.hash, p.n, p.n) == m;
  }

  /** Distributed equals sequential: once Done() is true the mr-out files together
      hold exactly the lines the sequential program prints (`sorted` and `lines` are
      what `Sequential` returns), each key once, for every map function, every reduce
      function that ignores the order of its values and every run. */
  lemma DistributedEqualsSequential(p: Problem, states: seq<System>, steps: seq<Step>, i: nat, sorted: seq<KeyValue>,
      lines: seq<Line>)
    requires p.n > 0 && OrderFree(p.reducef) && Run(p, states, steps) && i < |states| && Finished(states[i].jobs)
    requires multiset(sorted) == multiset(Collected(Inputs(p), p.mapf)) && Prints(lines, Reduced(sorted, p.reducef))
    ensures (forall r: nat :: r < p.n ==> r in states[i].outs)
    ensures multiset(AllLines(states[i].outs, p.n)) == multiset(lines)
    ensures forall a, b :: 0 <= a < b < |AllLines(states[i].outs, p.n)| ==>
      AllLines(states[i].outs, p.n)[a].key != AllLines(states[i].outs, p.n)[b].key
  {
    RunInv(p, states, steps, i);
    OutputIsReduction(p, states[i]);
    ReducedIgnoresOrder(sorted, Collected(Inputs(p), p.mapf), p.reducef);
    var m := Reduced(sorted, p.reducef);
    var all := AllLines(states[i].outs, p.n);
    forall line ensures multiset(all)[line] == multiset(lines)[line] {
      PrintsOnce(all, m, line);
      PrintsOnce(lines, m, line);
    }
  }
}
