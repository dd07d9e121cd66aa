/** What map, reduce and sequential jobs compute (worker.go, mrsequential.go). A file is the sequence of
    pairs or lines written to it; `hash` stands for ihash, `mapf` and `reducef` for the plugin. */
module MapReduceJobs {
  import opened FileNames

  datatype KeyValue = KeyValue(key: string, value: string)

  datatype Line = Line(key: string, output: string)

  type Mapf = (string, string) -> seq<KeyValue>

  type Reducef = (string, seq<string>) -> string

  // ----- the result ------------------------------------------------------------

  /** The values of one key, in order. */
  function Values(kvs: seq<KeyValue>, key: string): seq<string> {
    if kvs == [] then []
    else
      var rest := Values(kvs[..|kvs| - 1], key);
      var last := kvs[|kvs| - 1];
      if last.key == key then rest + [last.value] else rest
  }

  function Keys(kvs: seq<KeyValue>): set<string> {
    set i: nat | i < |kvs| :: kvs[i].key
  }

  /** Reduce applied once to every key with all its values. */
  function Reduced(kvs: seq<KeyValue>, reducef: Reducef): map<string, string> {
    map k | k in Keys(kvs) :: reducef(k, Values(kvs, k))
  }

  /** `lines` prints exactly the entries of m, one line per key, in some order. */
  ghost predicate Prints(lines: seq<Line>, m: map<string, string>) {
    && (forall i, j :: 0 <= i < j < |lines| ==> lines[i].key != lines[j].key)
    && (forall i :: 0 <= i < |lines| ==> lines[i].key in m && lines[i].output == m[lines[i].key])
    && (forall k | k in m :: HasLine(lines, k))
  }

  ghost predicate HasLine(lines: seq<Line>, key: string) {
    exists i :: 0 <= i < |lines| && lines[i].key == key
  }

  /** reducef ignores the order of its values. */
  ghost predicate OrderFree(reducef: Reducef) {
    forall k, vs, ws :: multiset(vs) == multiset(ws) ==> reducef(k, vs) == reducef(k, ws)
  }

  lemma {:induction false} ValuesCount(kvs: seq<KeyValue>, key: string, value: string)
    ensures multiset(Values(kvs, key))[value] == multiset(kvs)[KeyValue(key, value)]
  {
    if kvs != [] {
      ValuesCount(kvs[..|kvs| - 1], key, value);
      assert kvs == kvs[..|kvs| - 1] + [kvs[|kvs| - 1]];
    }
  }

  /** The values of a key depend on the order of the pairs only in their order. */
  lemma SameValues(a: seq<KeyValue>, b: seq<KeyValue>, key: string)
    requires forall v :: multiset(a)[KeyValue(key, v)] == multiset(b)[KeyValue(key, v)]
    ensures multiset(Values(a, key)) == multiset(Values(b, key))
  {
    forall v ensures multiset(Values(a, key))[v] == multiset(Values(b, key))[v] {
      ValuesCount(a, key, v);
      ValuesCount(b, key, v);
    }
  }

  lemma KeyMember(kvs: seq<KeyValue>, key: string)
    ensures key in Keys(kvs) <==> exists v :: KeyValue(key, v) in multiset(kvs)
  {
    if key in Keys(kvs) {
      var i: nat :| i < |kvs| && kvs[i].key == key;
      assert kvs[i] == KeyValue(key, kvs[i].value);
      assert kvs[i] in kvs;
    }
    if v :| KeyValue(key, v) in multiset(kvs) {
      assert KeyValue(key, v) in kvs;
    }
  }

  lemma ReducedIgnoresOrder(a: seq<KeyValue>, b: seq<KeyValue>, reducef: Reducef)
    requires multiset(a) == multiset(b) && OrderFree(reducef)
    ensures Reduced(a, reducef) == Reduced(b, reducef)
  {
    forall k ensures k in Keys(a) <==> k in Keys(b) {
      KeyMember(a, k);
      KeyMember(b, k);
    }
    forall k | k in Keys(a) ensures reducef(k, Values(a, k)) == reducef(k, Values(b, k)) {
      SameValues(a, b, k);
    }
  }

  // ----- map -------------------------------------------------------------------

  /** The pairs of bucket r out of n. */
  function Bucket(kvs: seq<KeyValue>, hash: string -> nat, n: nat, r: nat): seq<KeyValue>
    requires n > 0
  {
    if kvs == [] then []
    else
      var rest := Bucket(kvs[..|kvs| - 1], hash, n, r);
      var last := kvs[|kvs| - 1];
      if hash(last.key) % n == r then rest + [last] else rest
  }

  /** The files of map task `taskIndex` and their names. */
  method DoMap(taskIndex: nat, filename: string, content: string, mapf: Mapf, hash: string -> nat, nReduce: nat)
    returns (files: seq<seq<KeyValue>>, names: seq<string>)
    requires nReduce > 0
    ensures |files| == |names| == nReduce
    ensures forall r :: 0 <= r < nReduce ==> files[r] == Bucket(mapf(filename, content), hash, nReduce, r)
    ensures forall r :: 0 <= r < nReduce ==> names[r] == FileName(taskIndex, r)
    ensures forall r :: 0 <= r < nReduce ==> ExtractReduceTaskIndex(names[r]) == Some(r)
  {
    var kva := mapf(filename, content);
    files := [];
    for i := 0 to nReduce
      invariant |files| == i
      invariant forall r :: 0 <= r < i ==> files[r] == Bucket(kva, hash, nReduce, r)
    {
      var file: seq<KeyValue> := [];
      for j := 0 to |kva|
        invariant file == Bucket(kva[..j], hash, nReduce, i)
      {
        assert kva[..j + 1][..j] == kva[..j];
        if hash(kva[j].key) % nReduce == i {
          file := file + [kva[j]];
        }
      }
      assert kva[..|kva|] == kva;
      files := files + [file];
    }
    names := [];
    for i := 0 to nReduce
      invariant |names| == i
      invariant forall r :: 0 <= r < i ==> names[r] == FileName(taskIndex, r)
      invariant forall r :: 0 <= r < i ==> ExtractReduceTaskIndex(names[r]) == Some(r)
    {
      NameRoundTrip(taskIndex, i);
      names := names + [FileName(taskIndex, i)];
    }
  }

  lemma {:induction false} BucketCount(kvs: seq<KeyValue>, hash: string -> nat, n: nat, r: nat, kv: KeyValue)
    requires n > 0
    ensures multiset(Bucket(kvs, hash, n, r))[kv] == if hash(kv.key) % n == r then multiset(kvs)[kv] else 0
  {
    if kvs != [] {
      BucketCount(kvs[..|kvs| - 1], hash, n, r, kv);
      assert kvs == kvs[..|kvs| - 1] + [kvs[|kvs| - 1]];
    }
  }

  /** Buckets of two batches of pairs join up. */
  lemma {:induction false} BucketJoins(a: seq<KeyValue>, b: seq<KeyValue>, hash: string -> nat, n: nat, r: nat)
    requires n > 0
    ensures Bucket(a + b, hash, n, r) == Bucket(a, hash, n, r) + Bucket(b, hash, n, r)
  {
    if b == [] {
      assert a + b == a;
    } else {
      BucketJoins(a, b[..|b| - 1], hash, n, r);
      assert (a + b)[..|a + b| - 1] == a + b[..|b| - 1];
    }
  }

  /** The entries of m whose key hashes to r. */
  function HashedTo(m: map<string, string>, hash: string -> nat, n: nat, r: nat): map<string, string>
    requires n > 0
  {
    map k | k in m && hash(k) % n == r :: m[k]
  }

  /** Reducing bucket r is reducing everything, restricted to the keys that hash to r. */
  lemma BucketReduces(kvs: seq<KeyValue>, hash: string -> nat, n: nat, r: nat, reducef: Reducef)
    requires n > 0 && OrderFree(reducef)
    ensures Reduced(Bucket(kvs, hash, n, r), reducef) == HashedTo(Reduced(kvs, reducef), hash, n, r)
  {
    var b := Bucket(kvs, hash, n, r);
    forall k, v ensures multiset(b)[KeyValue(k, v)] == if hash(k) % n == r then multiset(kvs)[KeyValue(k, v)] else 0 {
      BucketCount(kvs, hash, n, r, KeyValue(k, v));
    }
    forall k ensures k in Keys(b) <==> k in Keys(kvs) && hash(k) % n == r {
      KeyMember(b, k);
      KeyMember(kvs, k);
    }
    forall k | k in Keys(b) ensures reducef(k, Values(b, k)) == reducef(k, Values(kvs, k)) {
      SameValues(b, kvs, k);
    }
  }

  // ----- reduce ----------------------------------------------------------------

  function Concat(files: seq<seq<KeyValue>>): seq<KeyValue> {
    if files == [] then [] else Concat(files[..|files| - 1]) + files[|files| - 1]
  }

  /** kvMap after reading kvs: every key with its values in reading order. */
  ghost predicate Groups(kvMap: map<string, seq<string>>, kvs: seq<KeyValue>) {
    kvMap.Keys == Keys(kvs) && forall k | k in kvMap :: kvMap[k] == Values(kvs, k)
  }

  lemma KeysNext(kvs: seq<KeyValue>, kv: KeyValue)
    ensures Keys(kvs + [kv]) == Keys(kvs) + {kv.key}
  {
    var next := kvs + [kv];
    forall k ensures k in Keys(next) <==> k in Keys(kvs) + {kv.key} {
      if k in Keys(next) {
        var i: nat :| i < |next| && next[i].key == k;
        if i < |kvs| { assert kvs[i].key == k; }
      }
      if k in Keys(kvs) {
        var i: nat :| i < |kvs| && kvs[i].key == k;
        assert next[i].key == k;
      }
      if k == kv.key { assert next[|kvs|].key == k; }
    }
  }

  lemma GroupsNext(kvMap: map<string, seq<string>>, kvs: seq<KeyValue>, kv: KeyValue)
    requires Groups(kvMap, kvs)
    ensures Groups(kvMap[kv.key := (if kv.key in kvMap then kvMap[kv.key] else []) + [kv.value]], kvs + [kv])
  {
    var next := kvs + [kv];
    assert next[..|kvs|] == kvs;
    KeysNext(kvs, kv);
    if kv.key !in kvMap {
      AbsentKey(kvs, kv.key);
    }
  }

  lemma {:induction false} AbsentKey(kvs: seq<KeyValue>, key: string)
    requires key !in Keys(kvs)
    ensures Values(kvs, key) == []
  {
    if kvs != [] {
      var p := kvs[..|kvs| - 1];
      assert forall i: nat | i < |p| :: p[i] == kvs[i];
      AbsentKey(p, key);
    }
  }

  method DoReduce(files: seq<seq<KeyValue>>, reducef: Reducef) returns (lines: seq<Line>)
    ensures Prints(lines, Reduced(Concat(files), reducef))
  {
    var kvMap: map<string, seq<string>> := map[];
    for f := 0 to |files|
      invariant Groups(kvMap, Concat(files[..f]))
    {
      var file := files[f];
      ghost var before := Concat(files[..f]);
      assert file[..0] == [];
      assert before + [] == before;
      for j := 0 to |file|
        invariant Groups(kvMap, before + file[..j])
      {
        var kv := file[j];
        GroupsNext(kvMap, before + file[..j], kv);
        assert before + file[..j] + [kv] == before + file[..j + 1];
        kvMap := kvMap[kv.key := (if kv.key in kvMap then kvMap[kv.key] else []) + [kv.value]];
      }
      assert file[..|file|] == file;
      assert files[..f + 1][..f] == files[..f];
    }
    assert files[..|files|] == files;
    lines := WriteLines(kvMap, Concat(files), reducef);
  }

  /** The loop over kvMap, in whatever order the map is walked. */
  method WriteLines(kvMap: map<string, seq<string>>, ghost kvs: seq<KeyValue>, reducef: Reducef)
      returns (lines: seq<Line>)
    requires Groups(kvMap, kvs)
    ensures Prints(lines, Reduced(kvs, reducef))
  {
    lines := [];
    var left := kvMap.Keys;
    while left != {}
      invariant left <= kvMap.Keys
      invariant forall i :: 0 <= i < |lines| ==> lines[i].key in kvMap && lines[i].key !in left
      invariant forall i :: 0 <= i < |lines| ==> lines[i].output == reducef(lines[i].key, kvMap[lines[i].key])
      invariant forall i, j :: 0 <= i < j < |lines| ==> lines[i].key != lines[j].key
      invariant forall k | k in kvMap && k !in left :: HasLine(lines, k)
      decreases left
    {
      var key :| key in left;
      ghost var was := lines;
      lines := lines + [Line(key, reducef(key, kvMap[key]))];
      left := left - {key};
      forall k | k in kvMap && k !in left ensures HasLine(lines, k) {
        if k == key {
          assert lines[|was|].key == key;
        } else {
          assert HasLine(was, k);
          var i :| 0 <= i < |was| && was[i].key == k;
          assert lines[i].key == k;
        }
      }
    }
  }

  // ----- the sequential program ------------------------------------------------

  /** Go's order on strings. */
  predicate LessEq(a: string, b: string) {
    a == "" || (b != "" && (a[0] < b[0] || (a[0] == b[0] && LessEq(a[1..], b[1..]))))
  }

  ghost predicate DiffersAt(a: string, b: string, k: nat) {
    k < |a| && k < |b| && a[..k] == b[..k] && a[k] < b[k]
  }

  lemma FirstSame(a: string, b: string, k: nat)
    requires DiffersAt(a, b, k)
    ensures k > 0 ==> a[0] == b[0]
  {
    assert k > 0 ==> a[..k][0] == b[..k][0];
  }

  /** It is the lexical order: a begins b, or the first difference decides. */
  lemma {:induction false} LessEqIsLexical(a: string, b: string)
    ensures LessEq(a, b) <==> a <= b || exists k: nat :: DiffersAt(a, b, k)
  {
    if a != "" && b != "" {
      LessEqIsLexical(a[1..], b[1..]);
      assert a == [a[0]] + a[1..] && b == [b[0]] + b[1..];
      if a[0] == b[0] {
        if k: nat :| DiffersAt(a[1..], b[1..], k) {
          assert a[..k + 1] == [a[0]] + a[1..][..k] && b[..k + 1] == [b[0]] + b[1..][..k];
          assert DiffersAt(a, b, k + 1);
        }
        if k: nat :| DiffersAt(a, b, k) {
          assert a[1..][..k - 1] == a[..k][1..] && b[1..][..k - 1] == b[..k][1..];
          assert DiffersAt(a[1..], b[1..], k - 1);
        }
      } else {
        assert a[0] < b[0] ==> DiffersAt(a, b, 0);
        forall k: nat | DiffersAt(a, b, k) ensures k == 0 { FirstSame(a, b, k); }
      }
    }
  }

  lemma {:induction false} LessEqTotal(a: string, b: string)
    ensures LessEq(a, b) || LessEq(b, a)
  {
    if a != "" && b != "" && a[0] == b[0] {
      LessEqTotal(a[1..], b[1..]);
    }
  }

  lemma {:induction false} LessEqTrans(a: string, b: string, c: string)
    requires LessEq(a, b) && LessEq(b, c)
    ensures LessEq(a, c)
  {
    if a != "" && a[0] == b[0] && b[0] == c[0] {
      LessEqTrans(a[1..], b[1..], c[1..]);
    }
  }

  lemma {:induction false} LessEqAnti(a: string, b: string)
    requires LessEq(a, b) && LessEq(b, a)
    ensures a == b
  {
    if a != "" && b != "" {
      LessEqAnti(a[1..], b[1..]);
      assert a == [a[0]] + a[1..] && b == [b[0]] + b[1..];
    }
  }

  ghost predicate SortedByKey(kvs: seq<KeyValue>) {
    forall i, j :: 0 <= i < j < |kvs| ==> LessEq(kvs[i].key, kvs[j].key)
  }

  /** `sort.Sort(ByKey(intermediate))`, here by insertion. */
  method SortByKey(kvs: seq<KeyValue>) returns (sorted: seq<KeyValue>)
    ensures SortedByKey(sorted) && multiset(sorted) == multiset(kvs)
  {
    sorted := [];
    for n := 0 to |kvs|
      invariant SortedByKey(sorted) && multiset(sorted) == multiset(kvs[..n])
    {
      assert kvs[..n + 1] == kvs[..n] + [kvs[n]];
      sorted := Insert(sorted, kvs[n]);
    }
    assert kvs[..|kvs|] == kvs;
  }

  method Insert(sorted: seq<KeyValue>, kv: KeyValue) returns (r: seq<KeyValue>)
    requires SortedByKey(sorted)
    ensures SortedByKey(r) && multiset(r) == multiset(sorted + [kv])
  {
    var p: nat := |sorted|;
    while p > 0 && !LessEq(sorted[p - 1].key, kv.key)
      invariant p <= |sorted|
      invariant forall i :: p <= i < |sorted| ==> LessEq(kv.key, sorted[i].key)
    {
      LessEqTotal(sorted[p - 1].key, kv.key);
      p := p - 1;
    }
    InsertSorted(sorted, p, kv);
    assert sorted == sorted[..p] + sorted[p..];
    r := sorted[..p] + [kv] + sorted[p..];
  }

  lemma InsertSorted(sorted: seq<KeyValue>, p: nat, kv: KeyValue)
    requires SortedByKey(sorted) && p <= |sorted|
    requires p > 0 ==> LessEq(sorted[p - 1].key, kv.key)
    requires forall i :: p <= i < |sorted| ==> LessEq(kv.key, sorted[i].key)
    ensures SortedByKey(sorted[..p] + [kv] + sorted[p..])
  {
    forall i | 0 <= i < p ensures LessEq(sorted[i].key, kv.key) {
      if i < p - 1 { LessEqTrans(sorted[i].key, sorted[p - 1].key, kv.key); }
    }
  }

  /** main of mrsequential.go: collect, sort, and one line per run of equal keys. */
  method Sequential(inputs: seq<(string, string)>, mapf: Mapf, reducef: Reducef)
    returns (sorted: seq<KeyValue>, lines: seq<Line>)
    ensures multiset(sorted) == multiset(Collected(inputs, mapf)) && SortedByKey(sorted)
    ensures Prints(lines, Reduced(sorted, reducef))
    ensures forall i, j :: 0 <= i < j < |lines| ==> LessEq(lines[i].key, lines[j].key)
  {
    var intermediate: seq<KeyValue> := [];
    for n := 0 to |inputs|
      invariant intermediate == Collected(inputs[..n], mapf)
    {
      assert inputs[..n + 1][..n] == inputs[..n];
      intermediate := intermediate + mapf(inputs[n].0, inputs[n].1);
    }
    assert inputs[..|inputs|] == inputs;
    sorted := SortByKey(intermediate);
    lines := GroupRuns(sorted, reducef);
  }

  /** All pairs the map function emits, input after input. */
  function Collected(inputs: seq<(string, string)>, mapf: Mapf): seq<KeyValue> {
    if inputs == [] then []
    else Collected(inputs[..|inputs| - 1], mapf) + mapf(inputs[|inputs| - 1].0, inputs[|inputs| - 1].1)
  }

  /** lines covers the runs of s[..i]: its keys are those of s[..i], strictly ascending. */
  ghost predicate Covers(lines: seq<Line>, s: seq<KeyValue>, i: nat, reducef: Reducef)
    requires i <= |s|
  {
    && (forall a, b :: 0 <= a < b < |lines| ==> LessEq(lines[a].key, lines[b].key) && lines[a].key != lines[b].key)
    && (forall a :: 0 <= a < |lines| ==>
          lines[a].key in Keys(s[..i]) && lines[a].output == reducef(lines[a].key, Values(s, lines[a].key)))
    && (forall k: nat :: k < i ==> HasLine(lines, s[k].key))
    && Separated(s, i)
  }

  /** Positions i..j-1 are one run of equal keys. */
  ghost predicate IsRun(s: seq<KeyValue>, i: nat, j: nat) {
    i < j <= |s| && (forall k :: i <= k < j ==> s[k].key == s[i].key) && (j < |s| ==> s[j].key != s[i].key)
  }

  method GroupRuns(s: seq<KeyValue>, reducef: Reducef) returns (lines: seq<Line>)
    requires SortedByKey(s)
    ensures Prints(lines, Reduced(s, reducef))
    ensures forall i, j :: 0 <= i < j < |lines| ==> LessEq(lines[i].key, lines[j].key)
  {
    lines := [];
    var i := 0;
    while i < |s|
      invariant i <= |s| && Covers(lines, s, i, reducef)
    {
      var j := i + 1;
      while j < |s| && s[j].key == s[i].key
        invariant i < j <= |s| && forall k :: i <= k < j ==> s[k].key == s[i].key
      {
        j := j + 1;
      }
      var values: seq<string> := [];
      for k := i to j
        invariant |values| == k - i && forall l :: 0 <= l < |values| ==> values[l] == s[i + l].value
      {
        values := values + [s[k].value];
      }
      RunValues(s, i, j, values);
      CoversNext(lines, s, i, j, reducef);
      lines := lines + [Line(s[i].key, reducef(s[i].key, values))];
      i := j;
    }
    assert s[..|s|] == s;
  }

  /** In a sorted sequence the elements after a run have other keys. */
  lemma RunEnds(s: seq<KeyValue>, i: nat, j: nat, l: nat)
    requires SortedByKey(s) && IsRun(s, i, j) && j <= l < |s|
    ensures s[l].key != s[i].key
  {
    if s[l].key == s[i].key && l > j {
      LessEqAnti(s[i].key, s[j].key);
    }
  }

  lemma {:induction false} ValuesOfRun(s: seq<KeyValue>, key: string, i: nat, j: nat, n: nat)
    requires i <= j <= n <= |s|
    requires forall k :: 0 <= k < n ==> (s[k].key == key <==> i <= k < j)
    ensures Values(s[..n], key) == seq(j - i, l requires 0 <= l < j - i => s[i + l].value)
  {
    if n > 0 {
      assert s[..n][..n - 1] == s[..n - 1];
      if n == j && i < j {
        ValuesOfRun(s, key, i, j - 1, n - 1);
      } else if n == j {
        ValuesOfRun(s, key, 0, 0, n - 1);
      } else {
        ValuesOfRun(s, key, i, j, n - 1);
      }
    }
  }

  /** No key before i occurs from i on. */
  ghost predicate Separated(s: seq<KeyValue>, i: nat) {
    forall k: nat, l: nat :: k < i <= l < |s| ==> s[k].key != s[l].key
  }

  lemma RunIsAll(s: seq<KeyValue>, i: nat, j: nat, k: nat)
    requires SortedByKey(s) && IsRun(s, i, j) && Separated(s, i) && k < |s|
    ensures s[k].key == s[i].key <==> i <= k < j
  {
    if k >= j { RunEnds(s, i, j, k); }
  }

  lemma RunValues(s: seq<KeyValue>, i: nat, j: nat, values: seq<string>)
    requires SortedByKey(s) && IsRun(s, i, j) && Separated(s, i)
    requires |values| == j - i && forall l :: 0 <= l < |values| ==> values[l] == s[i + l].value
    ensures values == Values(s, s[i].key)
  {
    forall k | 0 <= k < |s| ensures s[k].key == s[i].key <==> i <= k < j {
      RunIsAll(s, i, j, k);
    }
    ValuesOfRun(s, s[i].key, i, j, |s|);
    assert s[..|s|] == s;
  }

  lemma CoversNext(lines: seq<Line>, s: seq<KeyValue>, i: nat, j: nat, reducef: Reducef)
    requires SortedByKey(s) && IsRun(s, i, j) && Covers(lines, s, i, reducef)
    ensures Covers(lines + [Line(s[i].key, reducef(s[i].key, Values(s, s[i].key)))], s, j, reducef)
  {
    var line := Line(s[i].key, reducef(s[i].key, Values(s, s[i].key)));
    var now := lines + [line];
    assert Keys(s[..i]) <= Keys(s[..j]) by {
      assert forall k: nat | k < i :: s[..i][k] == s[..j][k];
    }
    assert line.key in Keys(s[..j]) by { assert s[..j][i].key == line.key; }
    forall a | 0 <= a < |lines| ensures LessEq(lines[a].key, line.key) && lines[a].key != line.key {
      var k: nat :| k < |s[..i]| && s[..i][k].key == lines[a].key;
      assert s[k].key == lines[a].key;
    }
    forall k: nat | k < j ensures HasLine(now, s[k].key) {
      if k < i {
        assert HasLine(lines, s[k].key);
        var a :| 0 <= a < |lines| && lines[a].key == s[k].key;
        assert now[a].key == s[k].key;
      } else {
        assert now[|lines|].key == s[k].key;
      }
    }
    forall k: nat, l: nat | k < j <= l < |s| ensures s[k].key != s[l].key {
      if k >= i { RunEnds(s, i, j, l); }
    }
  }
}
