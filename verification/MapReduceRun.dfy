/** A whole MapReduce job: one coordinator and any number of workers that request,
    execute and report tasks in any order, stop at any time, or lose a report.

    The invariant ties the coordinator's task lists to the files on disk and to what each
    worker is doing: a task in progress has one worker at most, a completed map task has
    all its files, and a reduce task's list is filed in the order of the reports. */
module MapReduceRun {
  import opened Collections
  import opened FileNames
  import opened MapReduceJobs
  import opened Coordinator

  datatype Problem = Problem(
    files: seq<string>, content: string -> string, mapf: Mapf, reducef: Reducef, hash: string -> nat, n: nat)

  datatype Job =
    | Idle
    | Mapping(m: nat, file: string, n: nat)
    | Mapped(m: nat)
    | Reducing(r: nat, files: seq<string>)
    | Wrote(r: nat)
    | Gone

  /** `disk` holds the intermediate files, `outs` the mr-out files. `finished` (the map
      tasks in reporting order) and `handed` (the assignments) are history. */
  datatype System = System(
    jobs: Jobs, workers: map<nat, Job>, disk: map<string, seq<KeyValue>>, outs: map<nat, seq<Line>>,
    finished: seq<nat>, handed: seq<(Kind, nat)>)

  datatype Step =
    | Ask(w: nat, now: int)
    | Map(w: nat)
    | Reduce(w: nat, lines: seq<Line>)
    | Tell(w: nat)
    | Lose(w: nat)

  function Init(p: Problem): System {
    System(Make(p.files, p.n), map[], map[], map[], [], [])
  }

  function JobOf(y: System, w: nat): Job {
    if w in y.workers then y.workers[w] else Idle
  }

  function Names(m: nat, n: nat): seq<string> {
    seq(n, i requires 0 <= i < n => FileName(m, i))
  }

  function Read(disk: map<string, seq<KeyValue>>, names: seq<string>): seq<seq<KeyValue>>
    requires forall k :: 0 <= k < |names| ==> names[k] in disk
  {
    seq(|names|, k requires 0 <= k < |names| => disk[names[k]])
  }

  /** The pairs of map task m, and its share of bucket r. */
  function Pairs(p: Problem, m: nat): seq<KeyValue>
    requires m < |p.files|
  {
    p.mapf(p.files[m], p.content(p.files[m]))
  }

  function Share(p: Problem, m: nat, r: nat): seq<KeyValue>
    requires m < |p.files| && p.n > 0
  {
    Bucket(Pairs(p, m), p.hash, p.n, r)
  }

  ghost predicate Enabled(p: Problem, y: System, step: Step) {
    match step
    case Ask(w, _) => JobOf(y, w).Idle?
    case Map(w) => JobOf(y, w).Mapping? && JobOf(y, w).n > 0
    case Reduce(w, lines) =>
      && JobOf(y, w).Reducing?
      && (forall k :: 0 <= k < |JobOf(y, w).files| ==> JobOf(y, w).files[k] in y.disk)
      // any order in which the result map may be walked
      && Prints(lines, Reduced(Concat(Read(y.disk, JobOf(y, w).files)), p.reducef))
    case Tell(w) =>
      match JobOf(y, w) {
        case Mapped(m) => Reportable(y.jobs, MapTask, m, Names(m, p.n))
        case Wrote(r) => Reportable(y.jobs, ReduceTask, r, [])
        case _ => false
      }
    case Lose(w) => JobOf(y, w).Mapped? || JobOf(y, w).Wrote?
  }

  function Take(reply: Reply): Job {
    match reply.kind
    case MapTask => if reply.files != [] then Mapping(reply.index, reply.files[0], reply.nReduce) else Idle
    case ReduceTask => if reply.files != [] then Reducing(reply.index, reply.files) else Idle
    case AllDone => Gone
    case SleepABit => Idle
  }

  /** The first k files doMap writes, by name. */
  function MapFiles(p: Problem, job: Job, k: nat): map<string, seq<KeyValue>>
    requires job.Mapping? && job.n > 0
  {
    if k == 0 then map[]
    else
      var bucket := Bucket(p.mapf(job.file, p.content(job.file)), p.hash, job.n, k - 1);
      MapFiles(p, job, k - 1)[FileName(job.m, k - 1) := bucket]
  }

  ghost function Do(p: Problem, y: System, step: Step): System
    requires Enabled(p, y, step)
  {
    match step
    case Ask(w, now) =>
      var (jobs, reply) := Request(y.jobs, now);
      y.(jobs := jobs, workers := y.workers[w := Take(reply)],
         handed := if reply.kind == AllDone then y.handed else y.handed + [(reply.kind, reply.index)])
    case Map(w) =>
      y.(workers := y.workers[w := Mapped(JobOf(y, w).m)], disk := y.disk + MapFiles(p, JobOf(y, w), JobOf(y, w).n))
    case Reduce(w, lines) =>
      y.(workers := y.workers[w := Wrote(JobOf(y, w).r)], outs := y.outs[JobOf(y, w).r := lines])
    case Tell(w) =>
      (match JobOf(y, w)
       case Mapped(m) =>
         var (jobs, done) := Report(y.jobs, MapTask, m, Names(m, p.n));
         y.(jobs := jobs, workers := y.workers[w := if done then Gone else Idle],
            finished := if done then y.finished else y.finished + [m])
       case Wrote(r) =>
         var (jobs, done) := Report(y.jobs, ReduceTask, r, []);
         y.(jobs := jobs, workers := y.workers[w := if done then Gone else Idle])
       case _ => y)
    case Lose(w) => y.(workers := y.workers[w := Idle])
  }

  ghost predicate Run(p: Problem, states: seq<System>, steps: seq<Step>) {
    && |states| == |steps| + 1 && states[0] == Init(p)
    && forall i :: 0 <= i < |steps| ==> Enabled(p, states[i], steps[i]) && states[i + 1] == Do(p, states[i], steps[i])
  }

  // ----- invariant -------------------------------------------------------------

  ghost predicate OnDisk(p: Problem, y: System, m: nat)
    requires m < |p.files| && p.n > 0
  {
    forall r: nat {:trigger FileName(m, r)} :: r < p.n ==>
      FileName(m, r) in y.disk && y.disk[FileName(m, r)] == Share(p, m, r)
  }

  ghost predicate MapTaskOk(p: Problem, y: System, m: nat)
    requires m < |p.files| && p.n > 0 && |y.jobs.mapTasks| == |p.files|
  {
    && y.jobs.mapTasks[m].files == [p.files[m]]
    && (y.jobs.mapTasks[m].status == Completed <==> m in y.finished)
    && (m in y.finished ==> OnDisk(p, y, m))
  }

  /** All shares of bucket r in reporting order. */
  function Gathered(p: Problem, order: seq<nat>, r: nat): seq<KeyValue>
    requires p.n > 0 && forall k :: 0 <= k < |order| ==> order[k] < |p.files|
  {
    if order == [] then []
    else Gathered(p, order[..|order| - 1], r) + Share(p, order[|order| - 1], r)
  }

  ghost predicate Valid(p: Problem, order: seq<nat>) {
    forall k :: 0 <= k < |order| ==> order[k] < |p.files|
  }

  ghost predicate OutOk(p: Problem, y: System, r: nat)
    requires p.n > 0 && Valid(p, y.finished)
  {
    r in y.outs && Prints(y.outs[r], Reduced(Gathered(p, y.finished, r), p.reducef))
  }

  ghost predicate ReduceTaskOk(p: Problem, y: System, r: nat)
    requires p.n > 0 && Valid(p, y.finished) && r < |y.jobs.reduceTasks|
  {
    var t := y.jobs.reduceTasks[r];
    && t.files == seq(|y.finished|, k requires 0 <= k < |y.finished| => FileName(y.finished[k], r))
    && (t.status != Unassigned ==> AllCompleted(y.jobs.mapTasks))
    && (t.status == Completed ==> OutOk(p, y, r))
  }

  ghost predicate WorkerOk(p: Problem, y: System, w: nat)
    requires p.n > 0 && |y.jobs.mapTasks| == |p.files| && |y.jobs.reduceTasks| == p.n && Valid(p, y.finished)
  {
    match JobOf(y, w)
    case Mapping(m, file, n) =>
      m < |p.files| && y.jobs.mapTasks[m].status == InProgress && file == p.files[m] && n == p.n
    case Mapped(m) => m < |p.files| && y.jobs.mapTasks[m].status == InProgress && OnDisk(p, y, m)
    case Reducing(r, files) =>
      r < p.n && y.jobs.reduceTasks[r].status == InProgress && files == y.jobs.reduceTasks[r].files
    case Wrote(r) => r < p.n && y.jobs.reduceTasks[r].status == InProgress && OutOk(p, y, r)
    case _ => true
  }

  /** The task a worker holds. */
  function Holds(job: Job): Option<(Kind, nat)> {
    match job
    case Mapping(m, _, _) => Some((MapTask, m))
    case Mapped(m) => Some((MapTask, m))
    case Reducing(r, _) => Some((ReduceTask, r))
    case Wrote(r) => Some((ReduceTask, r))
    case _ => None
  }

  ghost predicate Exclusive(y: System) {
    forall v: nat, w: nat :: v != w && Holds(JobOf(y, v)).Some? ==> Holds(JobOf(y, v)) != Holds(JobOf(y, w))
  }

  /** What was handed out is no longer unassigned. */
  ghost predicate HandedOk(y: System) {
    && Distinct(y.handed)
    && (forall i: nat :: (MapTask, i) in y.handed ==> i < |y.jobs.mapTasks| && y.jobs.mapTasks[i].status != Unassigned)
    && (forall i: nat :: (ReduceTask, i) in y.handed ==>
          i < |y.jobs.reduceTasks| && y.jobs.reduceTasks[i].status != Unassigned)
  }

  ghost predicate Inv(p: Problem, y: System) {
    && p.n > 0 && |y.jobs.mapTasks| == |p.files| && |y.jobs.reduceTasks| == p.n && y.jobs.nReduce == p.n
    && Valid(p, y.finished) && Distinct(y.finished)
    && (forall m: nat {:trigger MapTaskOk(p, y, m)} :: m < |p.files| ==> MapTaskOk(p, y, m))
    && (forall r: nat {:trigger ReduceTaskOk(p, y, r)} :: r < p.n ==> ReduceTaskOk(p, y, r))
    && (forall w: nat {:trigger WorkerOk(p, y, w)} :: WorkerOk(p, y, w))
    && Exclusive(y) && HandedOk(y)
  }

  lemma InitInv(p: Problem)
    requires p.n > 0
    ensures Inv(p, Init(p))
  {
  }

  /** Worker w changed its job but holds nothing new. */
  lemma ExclusiveKeeps(y: System, z: System, w: nat)
    requires Exclusive(y) && forall v: nat :: v != w ==> JobOf(z, v) == JobOf(y, v)
    requires Holds(JobOf(z, w)).Some? ==> Holds(JobOf(z, w)) == Holds(JobOf(y, w))
    ensures Exclusive(z)
  {
    forall u: nat, v: nat | u != v && Holds(JobOf(z, u)).Some? ensures Holds(JobOf(z, u)) != Holds(JobOf(z, v)) {
      assert Holds(JobOf(y, u)).Some? ==> Holds(JobOf(y, u)) != Holds(JobOf(y, v));
    }
  }

  lemma LoseInv(p: Problem, y: System, step: Step)
    requires Inv(p, y) && Enabled(p, y, step) && step.Lose?
    ensures Inv(p, Do(p, y, step))
  {
    var z := Do(p, y, step);
    forall m: nat | m < |p.files| ensures MapTaskOk(p, z, m) { assert MapTaskOk(p, y, m); }
    forall r: nat | r < p.n ensures ReduceTaskOk(p, z, r) { assert ReduceTaskOk(p, y, r); }
    forall w: nat ensures WorkerOk(p, z, w) { assert WorkerOk(p, y, w); }
    ExclusiveKeeps(y, z, step.w);
  }

  lemma AskWorkers(p: Problem, y: System, step: Step)
    requires Inv(p, y) && Enabled(p, y, step) && step.Ask?
    ensures Exclusive(Do(p, y, step)) && HandedOk(Do(p, y, step))
  {
    var z := Do(p, y, step);
    var reply := Request(y.jobs, step.now).1;
    if Holds(JobOf(z, step.w)).None? {
      ExclusiveKeeps(y, z, step.w);
    } else {
      forall u: nat, v: nat | u != v && Holds(JobOf(z, u)).Some? ensures Holds(JobOf(z, u)) != Holds(JobOf(z, v)) {
        assert WorkerOk(p, y, u) && WorkerOk(p, y, v);
        assert Holds(JobOf(y, u)).Some? ==> Holds(JobOf(y, u)) != Holds(JobOf(y, v));
      }
    }
  }

  lemma AskInv(p: Problem, y: System, step: Step)
    requires Inv(p, y) && Enabled(p, y, step) && step.Ask?
    ensures Inv(p, Do(p, y, step))
  {
    var z := Do(p, y, step);
    var reply := Request(y.jobs, step.now).1;
    forall m: nat | m < |p.files| ensures MapTaskOk(p, z, m) { assert MapTaskOk(p, y, m); }
    forall r: nat | r < p.n ensures ReduceTaskOk(p, z, r) { assert ReduceTaskOk(p, y, r); }
    forall w: nat ensures WorkerOk(p, z, w) {
      assert WorkerOk(p, y, w);
      if w == step.w && reply.kind == MapTask { assert MapTaskOk(p, y, reply.index); }
    }
    AskWorkers(p, y, step);
  }

  lemma {:induction false} MapFilesAt(p: Problem, job: Job, k: nat, i: nat)
    requires job.Mapping? && job.n > 0 && i < k
    ensures FileName(job.m, i) in MapFiles(p, job, k)
    ensures MapFiles(p, job, k)[FileName(job.m, i)] == Bucket(p.mapf(job.file, p.content(job.file)), p.hash, job.n, i)
  {
    if i < k - 1 {
      MapFilesAt(p, job, k - 1, i);
      if FileName(job.m, i) == FileName(job.m, k - 1) { NamesDiffer(job.m, i, job.m, k - 1); }
    }
  }

  lemma {:induction false} MapFilesElse(p: Problem, job: Job, k: nat, m: nat, i: nat)
    requires job.Mapping? && job.n > 0 && m != job.m
    ensures FileName(m, i) !in MapFiles(p, job, k)
  {
    if k > 0 {
      MapFilesElse(p, job, k - 1, m, i);
      if FileName(m, i) == FileName(job.m, k - 1) { NamesDiffer(m, i, job.m, k - 1); }
    }
  }

  /** doMap's files are task m's shares, and no other task's files. */
  lemma MapWrites(p: Problem, y: System, z: System, job: Job, m: nat)
    requires p.n > 0 && job.Mapping? && job.m < |p.files| && job.file == p.files[job.m] && job.n == p.n && m < |p.files|
    requires z.disk == y.disk + MapFiles(p, job, job.n) && (m == job.m || OnDisk(p, y, m))
    ensures OnDisk(p, z, m)
  {
    forall r: nat | r < p.n ensures FileName(m, r) in z.disk && z.disk[FileName(m, r)] == Share(p, m, r) {
      if m == job.m { MapFilesAt(p, job, job.n, r); } else { MapFilesElse(p, job, job.n, m, r); }
    }
  }

  lemma MapInv(p: Problem, y: System, step: Step)
    requires Inv(p, y) && Enabled(p, y, step) && step.Map?
    ensures Inv(p, Do(p, y, step))
  {
    var z := Do(p, y, step);
    var job := JobOf(y, step.w);
    assert WorkerOk(p, y, step.w);
    forall m: nat {:trigger OnDisk(p, z, m)} | m < |p.files| && (m == job.m || OnDisk(p, y, m))
      ensures OnDisk(p, z, m)
    {
      MapWrites(p, y, z, job, m);
    }
    forall m: nat | m < |p.files| ensures MapTaskOk(p, z, m) { assert MapTaskOk(p, y, m); }
    forall r: nat | r < p.n ensures ReduceTaskOk(p, z, r) { assert ReduceTaskOk(p, y, r); }
    forall w: nat ensures WorkerOk(p, z, w) { assert WorkerOk(p, y, w); }
    ExclusiveKeeps(y, z, step.w);
  }

  /** The files a reduce worker reads are the gathered shares of its bucket. */
  lemma {:induction false} ReadGathers(p: Problem, y: System, order: seq<nat>, r: nat, names: seq<string>)
    requires p.n > 0 && r < p.n && Valid(p, order) && forall k :: 0 <= k < |order| ==> OnDisk(p, y, order[k])
    requires |names| == |order| && forall k :: 0 <= k < |order| ==> names[k] == FileName(order[k], r)
    ensures (forall k :: 0 <= k < |names| ==> names[k] in y.disk)
    ensures Concat(Read(y.disk, names)) == Gathered(p, order, r)
  {
    if order != [] {
      var n := |order| - 1;
      ReadGathers(p, y, order[..n], r, names[..n]);
      assert OnDisk(p, y, order[n]);
      assert names[n] in y.disk;
      assert Read(y.disk, names)[..n] == Read(y.disk, names[..n]);
    }
  }

  lemma ReduceWorkers(p: Problem, y: System, step: Step)
    requires Inv(p, y) && Enabled(p, y, step) && step.Reduce?
    ensures var r := JobOf(y, step.w).r; r < p.n && OutOk(p, Do(p, y, step), r)
    ensures forall w: nat {:trigger WorkerOk(p, Do(p, y, step), w)} :: WorkerOk(p, Do(p, y, step), w)
  {
    var z := Do(p, y, step);
    var r0 := JobOf(y, step.w).r;
    assert WorkerOk(p, y, step.w) && ReduceTaskOk(p, y, r0);
    forall k | 0 <= k < |y.finished| ensures OnDisk(p, y, y.finished[k]) { assert MapTaskOk(p, y, y.finished[k]); }
    ReadGathers(p, y, y.finished, r0, JobOf(y, step.w).files);
    assert OutOk(p, z, r0);
    forall w: nat ensures WorkerOk(p, z, w) {
      assert WorkerOk(p, y, w);
      if w != step.w { assert Holds(JobOf(y, step.w)) != Holds(JobOf(y, w)); }
    }
  }

  lemma ReduceInv(p: Problem, y: System, step: Step)
    requires Inv(p, y) && Enabled(p, y, step) && step.Reduce?
    ensures Inv(p, Do(p, y, step))
  {
    var z := Do(p, y, step);
    ReduceWorkers(p, y, step);
    forall m: nat | m < |p.files| ensures MapTaskOk(p, z, m) { assert MapTaskOk(p, y, m); }
    forall r: nat | r < p.n ensures ReduceTaskOk(p, z, r) { assert ReduceTaskOk(p, y, r); }
    ExclusiveKeeps(y, z, step.w);
  }

  // ----- reports ---------------------------------------------------------------

  lemma {:induction false} NamesFilable(m: nat, k: nat, n: nat)
    requires k <= n
    ensures AllFilable(Names(m, k), n)
  {
    if k > 0 {
      NamesFilable(m, k - 1, n);
      NameRoundTrip(m, k - 1);
      assert Names(m, k)[..k - 1] == Names(m, k - 1);
    }
  }

  /** Filing task m's names appends one name to every reduce task and changes nothing else. */
  lemma {:induction false} FilingNames(tasks: seq<Task>, m: nat, k: nat)
    requires k <= |tasks|
    ensures var after := FileUnder(tasks, Names(m, k));
      forall r: nat :: r < |tasks| ==>
        after[r] == if r < k then tasks[r].(files := tasks[r].files + [FileName(m, r)]) else tasks[r]
  {
    if k > 0 {
      var before := Names(m, k - 1);
      assert Names(m, k) == before + [FileName(m, k - 1)];
      FilingNames(tasks, m, k - 1);
      FilesAt(FileUnder(tasks, before), m, k - 1);
      FileUnderNext(tasks, before, FileName(m, k - 1));
    }
  }

  lemma FilesAt(tasks: seq<Task>, m: nat, r: nat)
    requires r < |tasks|
    ensures Filable(FileName(m, r), |tasks|)
    ensures FileOne(tasks, FileName(m, r)) == tasks[r := tasks[r].(files := tasks[r].files + [FileName(m, r)])]
  {
    NameRoundTrip(m, r);
  }

  lemma TellMapTasks(p: Problem, y: System, step: Step)
    requires Inv(p, y) && Enabled(p, y, step) && step.Tell? && JobOf(y, step.w).Mapped?
    ensures var z := Do(p, y, step);
      var m := JobOf(y, step.w).m;
      && m < |p.files| && m !in y.finished && !AllCompleted(y.jobs.mapTasks)
      && z.finished == y.finished + [m] && z.disk == y.disk && z.outs == y.outs && z.handed == y.handed
      && z.workers == y.workers[step.w := Idle]
      && z.jobs.mapTasks == y.jobs.mapTasks[m := y.jobs.mapTasks[m].(status := Completed)]
      && |z.jobs.reduceTasks| == p.n && z.jobs.nReduce == p.n
      && forall r: nat :: r < p.n ==>
           z.jobs.reduceTasks[r] == y.jobs.reduceTasks[r].(files := y.jobs.reduceTasks[r].files + [FileName(m, r)])
  {
    var m := JobOf(y, step.w).m;
    assert WorkerOk(p, y, step.w) && MapTaskOk(p, y, m);
    FilingNames(y.jobs.reduceTasks, m, p.n);
  }

  lemma TellMapWorkers(p: Problem, y: System, step: Step)
    requires Inv(p, y) && Enabled(p, y, step) && step.Tell? && JobOf(y, step.w).Mapped?
    ensures forall w: nat {:trigger WorkerOk(p, Do(p, y, step), w)} :: WorkerOk(p, Do(p, y, step), w)
  {
    var z := Do(p, y, step);
    TellMapTasks(p, y, step);
    forall r: nat | r < p.n ensures y.jobs.reduceTasks[r].status == Unassigned { assert ReduceTaskOk(p, y, r); }
    forall w: nat ensures WorkerOk(p, z, w) {
      assert WorkerOk(p, y, w);
      if w != step.w { assert Holds(JobOf(y, step.w)) != Holds(JobOf(y, w)); }
    }
  }

  lemma TellMapReduces(p: Problem, y: System, step: Step)
    requires Inv(p, y) && Enabled(p, y, step) && step.Tell? && JobOf(y, step.w).Mapped?
    ensures forall r: nat {:trigger ReduceTaskOk(p, Do(p, y, step), r)} | r < p.n :: ReduceTaskOk(p, Do(p, y, step), r)
  {
    TellMapTasks(p, y, step);
    forall r: nat | r < p.n ensures ReduceTaskOk(p, Do(p, y, step), r) { assert ReduceTaskOk(p, y, r); }
  }

  lemma TellMapInv(p: Problem, y: System, step: Step)
    requires Inv(p, y) && Enabled(p, y, step) && step.Tell? && JobOf(y, step.w).Mapped?
    ensures Inv(p, Do(p, y, step))
  {
    var z := Do(p, y, step);
    TellMapTasks(p, y, step);
    TellMapReduces(p, y, step);
    TellMapWorkers(p, y, step);
    assert WorkerOk(p, y, step.w);
    forall m: nat | m < |p.files| ensures MapTaskOk(p, z, m) { assert MapTaskOk(p, y, m); }
    ExclusiveKeeps(y, z, step.w);
  }

  lemma TellReduceInv(p: Problem, y: System, step: Step)
    requires Inv(p, y) && Enabled(p, y, step) && step.Tell? && JobOf(y, step.w).Wrote?
    ensures Inv(p, Do(p, y, step))
  {
    var z := Do(p, y, step);
    assert WorkerOk(p, y, step.w);
    forall m: nat | m < |p.files| ensures MapTaskOk(p, z, m) { assert MapTaskOk(p, y, m); }
    forall r: nat | r < p.n ensures ReduceTaskOk(p, z, r) { assert ReduceTaskOk(p, y, r); }
    forall w: nat ensures WorkerOk(p, z, w) {
      assert WorkerOk(p, y, w);
      if w != step.w { assert Holds(JobOf(y, step.w)) != Holds(JobOf(y, w)); }
    }
    ExclusiveKeeps(y, z, step.w);
  }

  lemma {:induction false} RunInv(p: Problem, states: seq<System>, steps: seq<Step>, i: nat)
    requires p.n > 0 && Run(p, states, steps) && i < |states|
    ensures Inv(p, states[i])
  {
    if i == 0 {
      InitInv(p);
    } else {
      RunInv(p, states, steps, i - 1);
      var y, step := states[i - 1], steps[i - 1];
      match step
      case Ask(_, _) => AskInv(p, y, step);
      case Map(_) => MapInv(p, y, step);
      case Reduce(_, _) => ReduceInv(p, y, step);
      case Tell(w) => if JobOf(y, w).Mapped? { TellMapInv(p, y, step); } else { TellReduceInv(p, y, step); }
      case Lose(_) => LoseInv(p, y, step);
    }
  }
}
