/** The coordinator of coordinator.go. RPC handlers run under `c.mu`, so each is one
    step; the class updates its task lists in place and is proved against functions
    on the value `Jobs`. */
module Coordinator {
  import opened FileNames

  datatype Status = Unassigned | InProgress | Completed

  datatype Task = Task(files: seq<string>, status: Status, startTime: int)

  datatype Jobs = Jobs(mapTasks: seq<Task>, reduceTasks: seq<Task>, nReduce: nat)

  datatype Kind = MapTask | ReduceTask | AllDone | SleepABit

  datatype Reply = Reply(kind: Kind, index: nat, files: seq<string>, nReduce: nat)

  predicate AllCompleted(tasks: seq<Task>) {
    forall i :: 0 <= i < |tasks| ==> tasks[i].status == Completed
  }

  predicate Assignable(t: Task, now: int) {
    t.status == Unassigned && t.startTime < now - 10
  }

  /** Task i is the first one unassigned that was not started in the last ten seconds. */
  predicate IsNext(tasks: seq<Task>, now: int, i: int) {
    && 0 <= i < |tasks| && tasks[i].status == Unassigned && tasks[i].startTime + 10 < now
    && forall k :: 0 <= k < i ==> tasks[k].status != Unassigned || tasks[k].startTime + 10 >= now
  }

  /** The first assignable task, or the number of tasks. */
  function FirstFree(tasks: seq<Task>, now: int): (r: nat)
    ensures r <= |tasks|
    ensures r < |tasks| ==> IsNext(tasks, now, r)
    ensures forall k :: 0 <= k < r ==> tasks[k].status != Unassigned || tasks[k].startTime + 10 >= now
  {
    if tasks == [] then 0 else if Assignable(tasks[0], now) then 0 else 1 + FirstFree(tasks[1..], now)
  }

  function Assign(t: Task, now: int): Task {
    t.(status := InProgress, startTime := now)
  }

  /** Which task a request gets: while maps are open only a map task, then only a
      reduce task, else AllDone (never SleepABit, which line 109 overwrites). */
  function Request(c: Jobs, now: int): (Jobs, Reply) {
    if !AllCompleted(c.mapTasks) then
      var i := FirstFree(c.mapTasks, now);
      if i < |c.mapTasks| then
        (c.(mapTasks := c.mapTasks[i := Assign(c.mapTasks[i], now)]),
         Reply(MapTask, i, c.mapTasks[i].files, c.nReduce))
      else (c, Reply(AllDone, 0, [], 0))
    else
      var i := FirstFree(c.reduceTasks, now);
      if !AllCompleted(c.reduceTasks) && i < |c.reduceTasks| then
        (c.(reduceTasks := c.reduceTasks[i := Assign(c.reduceTasks[i], now)]),
         Reply(ReduceTask, i, c.reduceTasks[i].files, c.nReduce))
      else (c, Reply(AllDone, 0, [], 0))
  }

  /** A name the coordinator can file: it parses and its reduce index exists. */
  predicate Filable(name: string, n: nat) {
    var r := ExtractReduceTaskIndex(name);
    r.Some? && 0 <= r.value < n
  }

  /** Append a name to the reduce task its second number says. */
  function FileOne(reduceTasks: seq<Task>, name: string): (r: seq<Task>)
    ensures |r| == |reduceTasks|
  {
    if !Filable(name, |reduceTasks|) then reduceTasks
    else
      var i := ExtractReduceTaskIndex(name).value;
      reduceTasks[i := reduceTasks[i].(files := reduceTasks[i].files + [name])]
  }

  predicate AllFilable(names: seq<string>, n: nat) {
    names == [] || (AllFilable(names[..|names| - 1], n) && Filable(names[|names| - 1], n))
  }

  function FileUnder(reduceTasks: seq<Task>, names: seq<string>): (r: seq<Task>)
    ensures |r| == |reduceTasks|
  {
    if names == [] then reduceTasks
    else FileOne(FileUnder(reduceTasks, names[..|names| - 1]), names[|names| - 1])
  }

  /** Filing one more name. */
  lemma FileUnderNext(reduceTasks: seq<Task>, names: seq<string>, name: string)
    ensures FileUnder(reduceTasks, names + [name]) == FileOne(FileUnder(reduceTasks, names), name)
  {
    assert (names + [name])[..|names|] == names;
  }

  lemma {:induction false} FilableFewer(names: seq<string>, k: nat, n: nat)
    requires AllFilable(names, n) && k <= |names|
    ensures AllFilable(names[..k], n)
    ensures k < |names| ==> Filable(names[k], n)
    decreases |names|
  {
    if k == |names| {
      assert names[..k] == names;
    } else {
      FilableFewer(names[..|names| - 1], k, n);
      assert names[..|names| - 1][..k] == names[..k];
    }
  }

  /** The coordinator survives the report: its task index exists and its names can be
      filed. Otherwise the source stops, by an index panic or by log.Fatalf. */
  predicate Reportable(c: Jobs, kind: Kind, index: int, names: seq<string>) {
    && (kind == MapTask ==> 0 <= index < |c.mapTasks| && AllFilable(names, |c.reduceTasks|))
    && (kind == ReduceTask ==> 0 <= index < |c.reduceTasks|)
  }

  function Finished(c: Jobs): bool {
    AllCompleted(c.mapTasks) && AllCompleted(c.reduceTasks)
  }

  /** The new jobs and whether the worker is told that all is done. */
  function Report(c: Jobs, kind: Kind, index: int, names: seq<string>): (Jobs, bool)
    requires Finished(c) || Reportable(c, kind, index, names)
  {
    if Finished(c) then (c, true)
    else match kind
      case MapTask =>
        (c.(mapTasks := c.mapTasks[index := c.mapTasks[index].(status := Completed)],
            reduceTasks := FileUnder(c.reduceTasks, names)), false)
      case ReduceTask =>
        (c.(reduceTasks := c.reduceTasks[index := c.reduceTasks[index].(status := Completed)]), false)
      case _ => (c, false)
  }

  function Make(files: seq<string>, nReduce: nat): Jobs {
    Jobs(seq(|files|, i requires 0 <= i < |files| => Task([files[i]], Unassigned, 0)),
         seq(nReduce, i => Task([], Unassigned, 0)), nReduce)
  }

  class CoordinatorServer {
    var mapTasks: seq<Task>
    var reduceTasks: seq<Task>
    var nReduce: nat
    var mapDone: bool

    function State(): Jobs
      reads this
    {
      Jobs(mapTasks, reduceTasks, nReduce)
    }

    constructor (files: seq<string>, nReduce: nat)
      ensures State() == Make(files, nReduce)
    {
      var m := seq(|files|, i requires 0 <= i < |files| => Task([], Unassigned, 0));
      for i := 0 to |files|
        invariant |m| == |files|
        invariant forall k :: 0 <= k < i ==> m[k] == Task([files[k]], Unassigned, 0)
      {
        m := m[i := Task([files[i]], Unassigned, 0)];
      }
      mapTasks := m;
      reduceTasks := seq(nReduce, i => Task([], Unassigned, 0));
      this.nReduce := nReduce;
      mapDone := false;
    }

    method AllTasksDone(tasks: seq<Task>) returns (r: bool)
      ensures r == AllCompleted(tasks)
    {
      for i := 0 to |tasks|
        invariant forall k :: 0 <= k < i ==> tasks[k].status == Completed
      {
        if tasks[i].status != Completed {
          return false;
        }
      }
      r := true;
    }

    method Done() returns (r: bool)
      ensures r == Finished(State())
    {
      var maps := AllTasksDone(mapTasks);
      if !maps {
        return false;
      }
      r := AllTasksDone(reduceTasks);
    }

    method FindFree(tasks: seq<Task>, now: int) returns (i: nat)
      ensures i == FirstFree(tasks, now)
      ensures IsNext(tasks, now, i) || (i == |tasks| && forall k :: !IsNext(tasks, now, k))
    {
      i := 0;
      while i < |tasks| && !(tasks[i].status == Unassigned && tasks[i].startTime < now - 10)
        invariant i <= |tasks|
        invariant FirstFree(tasks, now) == i + FirstFree(tasks[i..], now)
      {
        assert tasks[i..][1..] == tasks[i + 1..];
        i := i + 1;
      }
    }

    /** The reply hands out the next task of the list, which is now in progress, with its files,
        or says AllDone when there is none. */
    ghost predicate HandsOut(before: seq<Task>, after: seq<Task>, now: int, kind: Kind, reply: Reply)
      reads this
    {
      && (forall i :: IsNext(before, now, i) ==>
            && reply == Reply(kind, i, before[i].files, nReduce)
            && after == before[i := Task(before[i].files, InProgress, now)])
      && ((forall i :: !IsNext(before, now, i)) ==> reply.kind == AllDone && after == before)
    }

    method RequestTask(now: int) returns (reply: Reply)
      modifies `mapTasks, `reduceTasks, `mapDone
      ensures (State(), reply) == Request(old(State()), now)
      ensures mapDone == (old(mapDone) || AllCompleted(mapTasks))
      ensures nReduce == old(nReduce)
      ensures old(!AllCompleted(mapTasks)) ==> HandsOut(old(mapTasks), mapTasks, now, MapTask, reply)
      ensures old(AllCompleted(mapTasks)) ==> HandsOut(old(reduceTasks), reduceTasks, now, ReduceTask, reply)
      ensures old(!AllCompleted(mapTasks)) ==> reduceTasks == old(reduceTasks)
      ensures old(AllCompleted(mapTasks)) ==> mapTasks == old(mapTasks)
    {
      reply := Reply(MapTask, 0, [], 0);
      var maps := AllTasksDone(mapTasks);
      if !maps {
        var i := FindFree(mapTasks, now);
        if i < |mapTasks| {
          reply := Reply(MapTask, i, mapTasks[i].files, nReduce);
          mapTasks := mapTasks[i := mapTasks[i].(status := InProgress, startTime := now)];
          assert mapTasks[i].status != Completed;
          return;
        }
        reply := reply.(kind := SleepABit);
      }
      maps := AllTasksDone(mapTasks);
      if maps && !mapDone {
        mapDone := true;
      }
      var reduces := AllTasksDone(reduceTasks);
      if maps && !reduces {
        reply := reply.(kind := ReduceTask);
        var i := FindFree(reduceTasks, now);
        if i < |reduceTasks| {
          reply := Reply(ReduceTask, i, reduceTasks[i].files, nReduce);
          reduceTasks := reduceTasks[i := reduceTasks[i].(status := InProgress, startTime := now)];
          return;
        }
        reply := reply.(kind := SleepABit);
      }
      reply := reply.(kind := AllDone);
    }

    /** The loop over the reported names; it stops the process at one it cannot file. */
    method FileAll(names: seq<string>) returns (ok: bool)
      modifies `reduceTasks
      ensures ok <==> AllFilable(names, |old(reduceTasks)|)
      ensures ok ==> reduceTasks == FileUnder(old(reduceTasks), names)
    {
      for k := 0 to |names|
        invariant |reduceTasks| == |old(reduceTasks)|
        invariant AllFilable(names[..k], |reduceTasks|)
        invariant reduceTasks == FileUnder(old(reduceTasks), names[..k])
      {
        ok := FileNext(names[k]);
        if !ok {
          if AllFilable(names, |reduceTasks|) { FilableFewer(names, k, |reduceTasks|); }
          return false;
        }
        assert names[..k + 1][..k] == names[..k];
      }
      assert names[..|names|] == names;
      ok := true;
    }

    method FileNext(name: string) returns (ok: bool)
      modifies `reduceTasks
      ensures ok <==> Filable(name, |old(reduceTasks)|)
      ensures reduceTasks == if ok then FileOne(old(reduceTasks), name) else old(reduceTasks)
    {
      var r := ExtractReduceTaskIndex(name);
      if r.None? || r.value < 0 || r.value >= |reduceTasks| {
        return false;
      }
      var i := r.value;
      reduceTasks := reduceTasks[i := reduceTasks[i].(files := reduceTasks[i].files + [name])];
      ok := true;
    }

    /** `stops`: the process ends here, by an index out of range or an unreadable name. */
    method ReportTaskDone(kind: Kind, index: int, names: seq<string>)
      returns (allDone: bool, error: bool, stops: bool)
      modifies `mapTasks, `reduceTasks
      ensures stops <==> !old(Finished(State())) && !old(Reportable(State(), kind, index, names))
      ensures !stops ==> (State(), allDone) == Report(old(State()), kind, index, names)
      ensures error <==> !old(Finished(State())) && kind != MapTask && kind != ReduceTask
      ensures allDone <==> old(AllCompleted(mapTasks) && AllCompleted(reduceTasks))
      ensures allDone || error ==> mapTasks == old(mapTasks) && reduceTasks == old(reduceTasks)
      ensures !stops && !allDone && kind == MapTask ==>
        && 0 <= index < |old(mapTasks)| && |reduceTasks| == |old(reduceTasks)|
        && mapTasks == old(mapTasks)[index := old(mapTasks)[index].(status := Completed)]
      ensures !stops && !allDone && kind == ReduceTask ==>
        && 0 <= index < |old(reduceTasks)| && mapTasks == old(mapTasks)
        && reduceTasks == old(reduceTasks)[index := old(reduceTasks)[index].(status := Completed)]
    {
      allDone, error, stops := false, false, false;
      var done := Done();
      if done {
        allDone := true;
        return;
      }
      if kind == MapTask {
        if !(0 <= index < |mapTasks|) {
          stops := true;
          return;
        }
        mapTasks := mapTasks[index := mapTasks[index].(status := Completed)];
        var ok := FileAll(names);
        stops := !ok;
      } else if kind == ReduceTask {
        if !(0 <= index < |reduceTasks|) {
          stops := true;
          return;
        }
        reduceTasks := reduceTasks[index := reduceTasks[index].(status := Completed)];
      } else {
        error := true;
      }
    }
  }
}
