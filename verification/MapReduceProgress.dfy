/** What a worker that asks for a task gets, and which jobs can be brought to an end. */
module MapReduceProgress {
  import opened Collections
  import opened FileNames
  import opened MapReduceJobs
  import opened Coordinator
  import opened MapReduceRun
  import opened MapReduceTheorems

  // ----- what a request gets ---------------------------------------------------

  ghost predicate NeverStarted(tasks: seq<Task>) {
    forall i :: 0 <= i < |tasks| && tasks[i].status == Unassigned ==> tasks[i].startTime == 0
  }

  lemma FreshStays(p: Problem, y: System, step: Step)
    requires Inv(p, y) && Enabled(p, y, step) && NeverStarted(y.jobs.mapTasks) && NeverStarted(y.jobs.reduceTasks)
    ensures NeverStarted(Do(p, y, step).jobs.mapTasks) && NeverStarted(Do(p, y, step).jobs.reduceTasks)
  {
    if step.Tell? {
      assert WorkerOk(p, y, step.w);
      if JobOf(y, step.w).Mapped? { TellMapTasks(p, y, step); }
    }
  }

  /** A task that nobody works on has never been started. */
  lemma {:induction false} UnassignedIsFresh(p: Problem, states: seq<System>, steps: seq<Step>, i: nat)
    requires p.n > 0 && Run(p, states, steps) && i < |states|
    ensures NeverStarted(states[i].jobs.mapTasks) && NeverStarted(states[i].jobs.reduceTasks)
  {
    if i > 0 {
      UnassignedIsFresh(p, states, steps, i - 1);
      RunInv(p, states, steps, i - 1);
      FreshStays(p, states[i - 1], steps[i - 1]);
    }
  }

  /** The first task of the list that nobody has taken. */
  ghost predicate IsFirst(tasks: seq<Task>, t: nat) {
    t < |tasks| && tasks[t].status == Unassigned && forall k :: 0 <= k < t ==> tasks[k].status != Unassigned
  }

  ghost predicate AllTaken(tasks: seq<Task>) {
    forall k :: 0 <= k < |tasks| ==> tasks[k].status != Unassigned
  }

  /** The list that is being worked on. */
  function Open(jobs: Jobs): seq<Task> {
    if AllCompleted(jobs.mapTasks) then jobs.reduceTasks else jobs.mapTasks
  }

  lemma AskGives(p: Problem, y: System, w: nat, now: int)
    requires Inv(p, y) && NeverStarted(y.jobs.mapTasks) && NeverStarted(y.jobs.reduceTasks)
    requires JobOf(y, w).Idle? && now > 10
    ensures Given(p, y, w, now, Do(p, y, Ask(w, now)))
  {
    var open := Open(y.jobs);
    var i := FirstFree(open, now);
    assert i < |open| ==> IsNext(open, now, i);
    forall t: nat | IsFirst(open, t) ensures t == i {
      assert open[t].startTime == 0;
    }
    if i < |open| {
      assert IsFirst(open, i);
      if AllCompleted(y.jobs.mapTasks) {
        assert ReduceTaskOk(p, y, i);
        FinishedIsAll(p, y);
        assert |p.files| > 0 ==> Has(y.finished, 0);
      } else {
        assert MapTaskOk(p, y, i);
      }
    } else {
      assert AllTaken(open);
    }
  }

  /** While a map task is not completed the worker gets the first map task that nobody has
      taken, after that the first such reduce task with its files; it is told to leave exactly
      if there is none. */
  ghost predicate Given(p: Problem, y: System, w: nat, now: int, z: System) {
    var maps := !AllCompleted(y.jobs.mapTasks);
    var open := Open(y.jobs);
    && (forall t: nat :: IsFirst(open, t) ==>
          var taken := open[t := Task(open[t].files, InProgress, now)];
          && z.jobs == (if maps then y.jobs.(mapTasks := taken) else y.jobs.(reduceTasks := taken))
          && (maps ==> t < |p.files| && JobOf(z, w) == Mapping(t, p.files[t], p.n))
          && (!maps && |p.files| > 0 ==> JobOf(z, w) == Reducing(t, open[t].files)))
    && (AllTaken(open) <==> JobOf(z, w) == Gone)
    && (AllTaken(open) ==> z.jobs == y.jobs)
    && z == y.(jobs := z.jobs, workers := y.workers[w := JobOf(z, w)], handed := z.handed)
  }

  /** In every run, ten seconds after the zero time or later, a request is answered like that. */
  lemma RequestIsServed(p: Problem, states: seq<System>, steps: seq<Step>, i: nat)
    requires p.n > 0 && Run(p, states, steps) && i < |steps| && steps[i].Ask? && steps[i].now > 10
    ensures Given(p, states[i], steps[i].w, steps[i].now, states[i + 1])
  {
    RunInv(p, states, steps, i);
    UnassignedIsFresh(p, states, steps, i);
    AskGives(p, states[i], steps[i].w, steps[i].now);
  }

  // ----- jobs that can finish --------------------------------------------------

  ghost predicate Ends(p: Problem, states: seq<System>, steps: seq<Step>, y: System) {
    Run(p, states, steps) && states[|steps|] == y
  }

  ghost predicate Reachable(p: Problem, y: System) {
    exists states, steps :: Ends(p, states, steps, y)
  }

  lemma ReachedIsGood(p: Problem, y: System)
    requires p.n > 0 && Reachable(p, y)
    ensures Inv(p, y) && NeverStarted(y.jobs.mapTasks) && NeverStarted(y.jobs.reduceTasks)
  {
    var states, steps :| Ends(p, states, steps, y);
    RunInv(p, states, steps, |steps|);
    UnassignedIsFresh(p, states, steps, |steps|);
  }

  lemma Then(p: Problem, y: System, step: Step)
    requires Reachable(p, y) && Enabled(p, y, step)
    ensures Reachable(p, Do(p, y, step))
  {
    var states, steps :| Ends(p, states, steps, y);
    assert Ends(p, states + [Do(p, y, step)], steps + [step], Do(p, y, step));
  }

  /** The first m map tasks and r reduce tasks are completed, the others untouched. */
  ghost predicate Stage(p: Problem, y: System, m: nat, r: nat) {
    && p.n > 0 && Reachable(p, y) && JobOf(y, 0).Idle?
    && |y.jobs.mapTasks| == |p.files| && |y.jobs.reduceTasks| == p.n
    && (forall k :: 0 <= k < |p.files| ==> y.jobs.mapTasks[k].status == if k < m then Completed else Unassigned)
    && (forall k :: 0 <= k < p.n ==> y.jobs.reduceTasks[k].status == if k < r then Completed else Unassigned)
  }

  /** The worker has asked for map task m. */
  lemma MapAsked(p: Problem, y: System, m: nat) returns (a: System)
    requires Stage(p, y, m, 0) && m < |p.files|
    ensures Reachable(p, a) && JobOf(a, 0) == Mapping(m, p.files[m], p.n)
    ensures a.jobs == y.jobs.(mapTasks := y.jobs.mapTasks[m := Task(y.jobs.mapTasks[m].files, InProgress, 11)])
  {
    ReachedIsGood(p, y);
    assert y.jobs.mapTasks[m].status == Unassigned;
    assert Open(y.jobs) == y.jobs.mapTasks && IsFirst(Open(y.jobs), m);
    AskGives(p, y, 0, 11);
    Then(p, y, Ask(0, 11));
    a := Do(p, y, Ask(0, 11));
  }

  /** And executes and reports it. */
  lemma MapTold(p: Problem, a: System, m: nat) returns (z: System)
    requires p.n > 0 && Reachable(p, a) && m < |p.files| && JobOf(a, 0) == Mapping(m, p.files[m], p.n)
    ensures Reachable(p, z) && JobOf(z, 0).Idle? && m < |a.jobs.mapTasks|
    ensures z.jobs.mapTasks == a.jobs.mapTasks[m := a.jobs.mapTasks[m].(status := Completed)]
    ensures |z.jobs.reduceTasks| == |a.jobs.reduceTasks| == p.n
    ensures forall r :: 0 <= r < p.n ==> z.jobs.reduceTasks[r].status == a.jobs.reduceTasks[r].status
  {
    var b := Do(p, a, Map(0));
    Then(p, a, Map(0));
    ReachedIsGood(p, b);
    NamesFilable(m, p.n, p.n);
    assert WorkerOk(p, b, 0);
    TellMapTasks(p, b, Tell(0));
    Then(p, b, Tell(0));
    z := Do(p, b, Tell(0));
  }

  lemma MapOne(p: Problem, y: System, m: nat) returns (z: System)
    requires Stage(p, y, m, 0) && m < |p.files|
    ensures Stage(p, z, m + 1, 0)
  {
    var a := MapAsked(p, y, m);
    z := MapTold(p, a, m);
  }

  lemma {:induction false} PrintsExists(m: map<string, string>) returns (lines: seq<Line>)
    ensures Prints(lines, m)
    decreases m.Keys
  {
    if k :| k in m {
      var rest := PrintsExists(m - {k});
      lines := rest + [Line(k, m[k])];
      forall j | j in m ensures HasLine(lines, j) {
        if j == k { assert lines[|rest|].key == k; } else {
          assert HasLine(rest, j);
          var i :| 0 <= i < |rest| && rest[i].key == j;
          assert lines[i].key == j;
        }
      }
    } else {
      lines := [];
    }
  }

  /** The worker has asked for reduce task r. */
  lemma ReduceAsked(p: Problem, y: System, r: nat) returns (a: System)
    requires Stage(p, y, |p.files|, r) && r < p.n && |p.files| > 0
    ensures Reachable(p, a) && JobOf(a, 0).Reducing? && JobOf(a, 0).r == r
    ensures a.jobs == y.jobs.(reduceTasks := y.jobs.reduceTasks[r := Task(y.jobs.reduceTasks[r].files, InProgress, 11)])
  {
    ReachedIsGood(p, y);
    assert y.jobs.reduceTasks[r].status == Unassigned;
    assert Open(y.jobs) == y.jobs.reduceTasks && IsFirst(Open(y.jobs), r);
    AskGives(p, y, 0, 11);
    Then(p, y, Ask(0, 11));
    a := Do(p, y, Ask(0, 11));
  }

  lemma ReduceOne(p: Problem, y: System, r: nat) returns (z: System)
    requires Stage(p, y, |p.files|, r) && r < p.n && |p.files| > 0
    ensures Stage(p, z, |p.files|, r + 1)
  {
    var a := ReduceAsked(p, y, r);
    var states, steps :| Ends(p, states, steps, a);
    NothingIsMissing(p, states, steps, |steps|, 0);
    var lines := PrintsExists(Reduced(Concat(Read(a.disk, JobOf(a, 0).files)), p.reducef));
    var b := Do(p, a, Reduce(0, lines));
    Then(p, a, Reduce(0, lines));
    assert b.jobs.reduceTasks[r].status == InProgress;
    z := Do(p, b, Tell(0));
    Then(p, b, Tell(0));
  }

  lemma {:induction false} StageReached(p: Problem, m: nat, r: nat) returns (z: System)
    requires p.n > 0 && m <= |p.files| && r <= p.n && (r > 0 ==> m == |p.files| > 0)
    ensures Stage(p, z, m, r)
    decreases m + r
  {
    if r > 0 {
      var y := StageReached(p, m, r - 1);
      z := ReduceOne(p, y, r - 1);
    } else if m > 0 {
      var y := StageReached(p, m - 1, 0);
      z := MapOne(p, y, m - 1);
    } else {
      z := Init(p);
      assert Ends(p, [z], [], z);
    }
  }

  /** Without inputs the reduce tasks have no files, and the workers drop them. */
  ghost predicate Empty(y: System) {
    && (forall w: nat :: JobOf(y, w).Idle? || JobOf(y, w).Gone?)
    && forall k :: 0 <= k < |y.jobs.reduceTasks| ==>
         y.jobs.reduceTasks[k].status != Completed && y.jobs.reduceTasks[k].files == []
  }

  lemma {:induction false} StaysEmpty(p: Problem, states: seq<System>, steps: seq<Step>, i: nat)
    requires p.n > 0 && |p.files| == 0 && Run(p, states, steps) && i < |states|
    ensures Empty(states[i]) && |states[i].jobs.reduceTasks| == p.n && states[i].jobs.mapTasks == []
  {
    if i > 0 {
      StaysEmpty(p, states, steps, i - 1);
      RunInv(p, states, steps, i);
      assert Enabled(p, states[i - 1], steps[i - 1]);
      forall w: nat ensures JobOf(states[i], w).Idle? || JobOf(states[i], w).Gone? {
        assert JobOf(states[i - 1], w).Idle? || JobOf(states[i - 1], w).Gone?;
      }
    }
  }

  /** Done() can become true, already with a single worker, if and only if the job has an
      input file. */
  lemma CanFinishIff(p: Problem)
    requires p.n > 0
    ensures |p.files| > 0 <==> exists y :: Reachable(p, y) && Finished(y.jobs)
  {
    if |p.files| > 0 {
      var y := StageReached(p, |p.files|, p.n);
      assert Finished(y.jobs);
    } else if y :| Reachable(p, y) && Finished(y.jobs) {
      var states, steps :| Ends(p, states, steps, y);
      StaysEmpty(p, states, steps, |steps|);
      assert y.jobs.reduceTasks[0].status != Completed;
    }
  }
}
