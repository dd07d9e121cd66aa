/** The lock service on top of the Raft system itself: replicas apply what their Raft peer sends them,
    no common log is assumed, and `decode` says which operation, or none, a command stands for. */
module LockOverRaft {
  import opened LockServer
  import L = LockService
  import V = RaftServer
  import R = RaftSystem
  import I = RaftInvariant
  import S = RaftSafety
  import P = RaftSteps

  type Decode = V.Command -> Entry

  /** `issued`, `waiting` and `returned` are as in `LockService`. */
  datatype System = System(raft: R.System, issued: map<int, seq<Op>>, waiting: set<int>, returned: set<L.Return>)

  datatype Step =
    | Issue(client: int, kind: OpType, key: string)
    | Raft(step: R.Step)
    | Answer(client: int, server: nat, index: nat)

  function Decoded(decode: Decode, msgs: seq<V.ApplyMsg>): seq<Entry> {
    seq(|msgs|, k requires 0 <= k < |msgs| => decode(msgs[k].command))
  }

  /** The lock service as it looks when `log` is what has been applied anywhere. */
  function View(y: System, log: seq<Entry>): L.System {
    L.System(y.issued, y.waiting, log,
             seq(|y.raft.applied|, s requires 0 <= s < |y.raft.applied| => |y.raft.applied[s]|), y.returned)
  }

  /** A server only starts copies of requests that some clerk issued. */
  ghost predicate Admits(decode: Decode, y: System, command: V.Command) {
    decode(command).Cmd? ==> L.IsRequest(View(y, []), decode(command).op)
  }

  function Init(n: nat): System {
    System(R.Init(n), map[], {}, {})
  }

  ghost predicate Enabled(decode: Decode, y: System, step: Step) {
    match step
    case Issue(c, _, _) => c !in y.waiting
    case Raft(step) =>
      R.Enabled(y.raft, step) && R.Obeys(R.ALL, y.raft, step) && (step.Propose? ==> Admits(decode, y, step.command))
    // a server has applied the clerk's call at the index it had started it at
    case Answer(c, s, i) =>
      && c in y.waiting && s < |y.raft.applied| && i < |y.raft.applied[s]|
      && var e := decode(y.raft.applied[s][i].command);
      && var calls := L.Issued(View(y, []), c);
      e.Cmd? && calls != [] && SameOp(calls[|calls| - 1], e.op)
  }

  ghost function Do(decode: Decode, y: System, step: Step): System
    requires Enabled(decode, y, step)
  {
    match step
    case Issue(c, kind, key) =>
      var calls := L.Issued(View(y, []), c);
      y.(issued := y.issued[c := calls + [Op(kind, key, c, |calls| + 1)]], waiting := y.waiting + {c})
    case Raft(step) => y.(raft := R.Do(y.raft, step))
    case Answer(c, s, i) =>
      y.(waiting := y.waiting - {c}, returned := y.returned + {L.Return(c, |L.Issued(View(y, []), c)|, s, i)})
  }

  ghost predicate Run(decode: Decode, n: nat, states: seq<System>, steps: seq<Step>) {
    && |states| == |steps| + 1 && states[0] == Init(n)
    && forall i {:trigger steps[i]} :: 0 <= i < |steps| ==> LeadsTo(decode, states[i], steps[i], states[i + 1])
  }

  ghost predicate LeadsTo(decode: Decode, y: System, step: Step, z: System) {
    Enabled(decode, y, step) && z == Do(decode, y, step)
  }

  // ----- invariant -------------------------------------------------------------

  /** Leaders' logs hold requests of clerks only. */
  ghost predicate Provenance(decode: Decode, y: System) {
    forall t, k: nat {:trigger y.raft.reigns[t].log[k]} ::
      t in y.raft.reigns && 1 <= k < |y.raft.reigns[t].log| ==> Admits(decode, y, y.raft.reigns[t].log[k].command)
  }

  /** `log` is what some server has applied, and every server has applied a prefix of it. */
  ghost predicate Common(decode: Decode, y: System, log: seq<Entry>) {
    && (exists w: nat {:trigger Decoded(decode, y.raft.applied[w])} ::
          w < |y.raft.applied| && log == Decoded(decode, y.raft.applied[w]))
    && forall s {:trigger y.raft.applied[s]} :: 0 <= s < |y.raft.applied| ==> Decoded(decode, y.raft.applied[s]) <= log
  }

  ghost predicate Inv(decode: Decode, n: nat, y: System, log: seq<Entry>) {
    && I.Inv(y.raft) && |y.raft.servers| == n && Provenance(decode, y) && Common(decode, y, log) && L.Inv(View(y, log))
  }

  lemma InitInv(decode: Decode, n: nat)
    requires n >= 1
    ensures Inv(decode, n, Init(n), [])
  {
    P.InitInv(n);
    assert Decoded(decode, Init(n).raft.applied[0]) == [];
    forall s | 0 <= s < n ensures Decoded(decode, Init(n).raft.applied[s]) <= [] {
      assert Init(n).raft.applied[s] == [];
    }
  }

  /** Only requests are known, so more requests do not hurt. */
  lemma AdmitsMore(decode: Decode, y: System, z: System, command: V.Command)
    requires Admits(decode, y, command)
    requires forall c :: L.Issued(View(y, []), c) <= L.Issued(View(z, []), c)
    ensures Admits(decode, z, command)
  {
  }

  lemma IssueInv(decode: Decode, n: nat, y: System, step: Step, log: seq<Entry>)
    requires Inv(decode, n, y, log) && Enabled(decode, y, step) && step.Issue?
    ensures Inv(decode, n, Do(decode, y, step), log)
  {
    var z := Do(decode, y, step);
    var s := L.Issue(step.client, step.kind, step.key);
    L.IssueInv(View(y, log), s);
    assert View(z, log) == L.Do(View(y, log), s);
    forall t, k: nat | t in z.raft.reigns && 1 <= k < |z.raft.reigns[t].log|
      ensures Admits(decode, z, z.raft.reigns[t].log[k].command)
    {
      AdmitsMore(decode, y, z, y.raft.reigns[t].log[k].command);
    }
  }

  lemma AnswerInv(decode: Decode, n: nat, y: System, step: Step, log: seq<Entry>)
    requires Inv(decode, n, y, log) && Enabled(decode, y, step) && step.Answer?
    ensures Inv(decode, n, Do(decode, y, step), log)
  {
    var z := Do(decode, y, step);
    var s := L.Answer(step.client, step.server, step.index);
    assert Decoded(decode, y.raft.applied[step.server])[step.index] == log[step.index];
    L.AnswerInv(View(y, log), s);
    assert View(z, log) == L.Do(View(y, log), s);
    forall t, k: nat | t in z.raft.reigns && 1 <= k < |z.raft.reigns[t].log|
      ensures Admits(decode, z, z.raft.reigns[t].log[k].command)
    {
      AdmitsMore(decode, y, z, y.raft.reigns[t].log[k].command);
    }
  }

  /** Every entry of a server's log was proposed by the leader of its term. */
  lemma ServerAdmits(decode: Decode, y: System, i: nat, k: nat)
    requires I.Inv(y.raft) && Provenance(decode, y) && i < |y.raft.servers| && 1 <= k < |y.raft.servers[i].log|
    ensures Admits(decode, y, y.raft.servers[i].log[k].command)
  {
    var log := y.raft.servers[i].log;
    assert I.ServerOk(y.raft, i) && I.Grounded(log, k, y.raft.reigns);
    assert log[k] == log[..k + 1][k] == y.raft.reigns[log[k].term].log[k];
  }

  /** And so was every message a server has applied. */
  lemma AppliedAdmits(decode: Decode, y: System, i: nat, k: nat)
    requires I.Inv(y.raft) && Provenance(decode, y) && i < |y.raft.servers| && k < |y.raft.applied[i]|
    ensures Admits(decode, y, y.raft.applied[i][k].command)
  {
    assert I.ServerOk(y.raft, i);
    ServerAdmits(decode, y, i, k + 1);
  }

  lemma ProvenanceKept(decode: Decode, y: System, step: Step)
    requires I.Inv(y.raft) && Provenance(decode, y) && Enabled(decode, y, step) && step.Raft?
    ensures Provenance(decode, Do(decode, y, step))
  {
    var z := Do(decode, y, step);
    forall t, k: nat | t in z.raft.reigns && 1 <= k < |z.raft.reigns[t].log|
      ensures Admits(decode, z, z.raft.reigns[t].log[k].command)
    {
      ReignAdmits(decode, y, step, t, k);
    }
  }

  lemma ReignAdmits(decode: Decode, y: System, step: Step, t: nat, k: nat)
    requires I.Inv(y.raft) && Provenance(decode, y) && Enabled(decode, y, step) && step.Raft?
    requires var r := Do(decode, y, step).raft.reigns; t in r && 1 <= k < |r[t].log|
    ensures Admits(decode, y, Do(decode, y, step).raft.reigns[t].log[k].command)
  {
    var r := Do(decode, y, step).raft.reigns;
    if t in y.raft.reigns && r[t] == y.raft.reigns[t] {
      assert r[t].log[k] == y.raft.reigns[t].log[k];
    } else if step.step.Win? {
      ServerAdmits(decode, y, step.step.c, k);
    } else {
      assert step.step.Propose?;
      var l := step.step.l;
      assert I.ServerOk(y.raft, l) && I.ReignOk(y.raft, t);
      if k < |y.raft.servers[l].log| {
        ServerAdmits(decode, y, l, k);
      }
    }
  }

  lemma DecodedPrefix(decode: Decode, a: seq<V.ApplyMsg>, b: seq<V.ApplyMsg>)
    requires a <= b
    ensures Decoded(decode, a) <= Decoded(decode, b)
  {
    forall k | 0 <= k < |a| ensures Decoded(decode, a)[k] == Decoded(decode, b)[k] {
      assert a[k] == b[k];
    }
  }

  /** The log may grow by requests. */
  lemma {:induction false} LogGrows(y: L.System, log: seq<Entry>)
    requires L.Inv(y) && y.log <= log
    requires forall k :: 0 <= k < |log| && log[k].Cmd? ==> L.IsRequest(y, log[k].op)
    ensures L.Inv(y.(log := log))
    decreases |log|
  {
    if |log| == |y.log| {
      assert y.(log := log) == y;
    } else {
      var k := |log| - 1;
      LogGrows(y, log[..k]);
      var x := y.(log := log[..k]);
      L.CommitInv(x, L.Commit(log[k]));
      assert L.Do(x, L.Commit(log[k])) == y.(log := log) by { assert log[..k] + [log[k]] == log; }
    }
  }

  /** After a Raft step: either what was applied most still is, or server i that just
      applied more has gone beyond it. */
  lemma NextCommon(decode: Decode, n: nat, y: System, step: Step, log: seq<Entry>) returns (log': seq<Entry>)
    requires Inv(decode, n, y, log) && Enabled(decode, y, step) && step.Raft?
    ensures Common(decode, Do(decode, y, step), log') && log <= log' && |Do(decode, y, step).raft.servers| == n
    ensures I.Inv(Do(decode, y, step).raft) && |y.raft.applied| == |Do(decode, y, step).raft.applied|
    ensures forall s :: 0 <= s < |y.raft.applied| ==> y.raft.applied[s] <= Do(decode, y, step).raft.applied[s]
  {
    var z := Do(decode, y, step);
    P.StepInv(y.raft, step.step);
    S.StepExtends(y.raft, step.step);
    var w: nat :| w < |y.raft.applied| && log == Decoded(decode, y.raft.applied[w]);
    if step.step.Flush? {
      log' := FlushCommon(decode, y, z, step.step.i, w, log);
    } else {
      log' := log;
      assert z.raft.applied == y.raft.applied;
      assert log == Decoded(decode, z.raft.applied[w]);
    }
  }

  lemma FlushCommon(decode: Decode, y: System, z: System, i: nat, w: nat, log: seq<Entry>) returns (log': seq<Entry>)
    requires I.Inv(z.raft) && Common(decode, y, log) && |y.raft.applied| == |z.raft.applied| == |z.raft.servers|
    requires i < |y.raft.applied| && w < |y.raft.applied| && log == Decoded(decode, y.raft.applied[w])
    requires y.raft.applied[i] <= z.raft.applied[i]
    requires forall s :: 0 <= s < |y.raft.applied| && s != i ==> z.raft.applied[s] == y.raft.applied[s]
    ensures Common(decode, z, log') && log <= log'
  {
    var a, b := z.raft.applied[i], z.raft.applied[w];
    S.AppliedAgree(z.raft, i, w);
    DecodedPrefix(decode, y.raft.applied[i], a);
    log' := if |a| >= |b| then Decoded(decode, a) else log;
    if |a| >= |b| { DecodedPrefix(decode, b, a); } else { DecodedPrefix(decode, a, b); }
    assert w != i ==> log == Decoded(decode, b);
    forall s | 0 <= s < |z.raft.applied| ensures Decoded(decode, z.raft.applied[s]) <= log' {
      if s != i { assert Decoded(decode, y.raft.applied[s]) <= log; }
    }
  }

  lemma RaftInv(decode: Decode, n: nat, y: System, step: Step, log: seq<Entry>) returns (log': seq<Entry>)
    requires Inv(decode, n, y, log) && Enabled(decode, y, step) && step.Raft?
    ensures Inv(decode, n, Do(decode, y, step), log')
  {
    var z := Do(decode, y, step);
    log' := NextCommon(decode, n, y, step, log);
    ProvenanceKept(decode, y, step);
    ViewGrows(decode, y, z, log, log');
  }

  lemma ViewGrows(decode: Decode, y: System, z: System, log: seq<Entry>, log': seq<Entry>)
    requires L.Inv(View(y, log)) && log <= log' && Common(decode, z, log') && I.Inv(z.raft) && Provenance(decode, z)
    requires z == y.(raft := z.raft) && |y.raft.applied| == |z.raft.applied|
    requires forall s :: 0 <= s < |y.raft.applied| ==> y.raft.applied[s] <= z.raft.applied[s]
    ensures L.Inv(View(z, log'))
  {
    var w: nat :| w < |z.raft.applied| && log' == Decoded(decode, z.raft.applied[w]);
    forall k | 0 <= k < |log'| && log'[k].Cmd? ensures L.IsRequest(View(y, log), log'[k].op) {
      assert I.ServerOk(z.raft, w);
      AppliedAdmits(decode, z, w, k);
    }
    LogGrows(View(y, log), log');
    var x := View(y, log).(log := log');
    forall s | 0 <= s < |x.applied| ensures x.applied[s] <= View(z, log').applied[s] <= |log'| {
      assert Decoded(decode, z.raft.applied[s]) <= log';
    }
    L.AppliedInv(x, View(z, log').applied);
  }

  // ----- whole runs ------------------------------------------------------------

  lemma {:induction false} RunInv(decode: Decode, n: nat, states: seq<System>, steps: seq<Step>, i: nat)
      returns (log: seq<Entry>)
    requires n >= 1 && Run(decode, n, states, steps) && i < |states|
    ensures Inv(decode, n, states[i], log)
  {
    if i == 0 {
      log := [];
      InitInv(decode, n);
    } else {
      log := RunInv(decode, n, states, steps, i - 1);
      var y, step := states[i - 1], steps[i - 1];
      assert LeadsTo(decode, y, step, states[i]);
      match step
      case Issue(_, _, _) => IssueInv(decode, n, y, step, log);
      case Raft(_) => log := RaftInv(decode, n, y, step, log);
      case Answer(_, _, _) => AnswerInv(decode, n, y, step, log);
    }
  }

  /** Replicas agree: of what two servers have applied one is a prefix of the other, and
      so one replica's state is the other's after more of the same log. */
  lemma ReplicasAgree(decode: Decode, n: nat, states: seq<System>, steps: seq<Step>, i: nat, a: nat, b: nat)
    requires n >= 1 && Run(decode, n, states, steps) && i < |states| && a < n && b < n
    ensures |states[i].raft.applied| == n
    ensures var p, q := Decoded(decode, states[i].raft.applied[a]), Decoded(decode, states[i].raft.applied[b]);
      p <= q || q <= p
  {
    var log := RunInv(decode, n, states, steps, i);
    var y := states[i].raft;
    assert Decoded(decode, y.applied[a]) <= log && Decoded(decode, y.applied[b]) <= log;
  }

  /** Exactly once over Raft: in every run of n peers under the hypotheses of Raft's
      safety, every call that returned is in the state of every server that has applied as
      much as the answer needed exactly once, after all the earlier calls of its clerk and
      in the clerk's order, for every state machine; and the answering server is one. */
  lemma ExactlyOnceOverRaft<T>(decode: Decode, n: nat, states: seq<System>, steps: seq<Step>, i: nat, t: L.Return,
      s: nat, f: (T, Op) -> T, init: T)
    requires n >= 1 && Run(decode, n, states, steps) && i < |states| && t in states[i].returned && s < n
    ensures |states[i].raft.applied| == n && t.server < n && t.index < |states[i].raft.applied[t.server]|
    ensures t.index < |states[i].raft.applied[s]| ==>
      var log := Decoded(decode, states[i].raft.applied[s]);
      var calls := L.Issued(View(states[i], []), t.client);
      var ops := L.Effective(log).0;
      && Replay(f, init, log).state == L.Fold(f, init, ops)
      && 1 <= t.request <= |L.Mine(ops, t.client)| && L.Mine(ops, t.client) <= calls
      && multiset(ops)[calls[t.request - 1]] == 1
  {
    var log := RunInv(decode, n, states, steps, i);
    var y := states[i];
    var v := View(y, log);
    assert L.ReturnOk(v, t);
    var mine := Decoded(decode, y.raft.applied[s]);
    if t.index < |mine| {
      assert mine == log[..|mine|];
      L.ReplayIsFold(f, init, mine);
      L.OnceInPrefix(v, t, |mine|);
    }
  }

  /** Over Raft too: a waiting clerk can be answered by exactly those servers that have applied
      its call, Lock or Unlock, at exactly the indices where they did. */
  lemma AnswerableIff(decode: Decode, n: nat, states: seq<System>, steps: seq<Step>, i: nat, c: int, s: nat, k: nat)
    requires n >= 1 && Run(decode, n, states, steps) && i < |states| && c in states[i].waiting
    ensures var y := states[i];
      var calls := L.Issued(View(y, []), c);
      && calls != [] && |y.raft.applied| == n
      && (Enabled(decode, y, Answer(c, s, k)) <==>
            s < n && k < |y.raft.applied[s]| && decode(y.raft.applied[s][k].command) == Cmd(calls[|calls| - 1]))
  {
    var log := RunInv(decode, n, states, steps, i);
    WaitingIssued(decode, n, states, steps, i, c);
    var y := states[i];
    var v := View(y, log);
    var calls := L.Issued(View(y, []), c);
    assert L.Numbered(v, c, |calls| - 1);
    if s < n && k < |y.raft.applied[s]| {
      AppliedAdmits(decode, y, s, k);
    }
  }

  lemma {:induction false} WaitingIssued(decode: Decode, n: nat, states: seq<System>, steps: seq<Step>, i: nat, c: int)
    requires Run(decode, n, states, steps) && i < |states| && c in states[i].waiting
    ensures L.Issued(View(states[i], []), c) != []
  {
    if i > 0 {
      assert LeadsTo(decode, states[i - 1], steps[i - 1], states[i]);
      if c in states[i - 1].waiting { WaitingIssued(decode, n, states, steps, i - 1, c); }
    }
  }
}
