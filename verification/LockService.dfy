/** Clerks, a committed log and the replicas that apply it, as a transition system:
    every call that returned was applied exactly once and in its clerk's order. */
module LockService {
  import opened Collections
  import opened LockServer

  datatype Return = Return(client: int, request: nat, server: nat, index: nat)

  /** `log` is what Raft commits, the same sequence for every server; `applied` says how
      much of it each server has taken. `issued` holds each clerk's calls in order,
      `waiting` the clerks with an unanswered call; `returned` is history. */
  datatype System = System(
    issued: map<int, seq<Op>>, waiting: set<int>, log: seq<Entry>, applied: seq<nat>, returned: set<Return>)

  datatype Step =
    | Issue(client: int, kind: OpType, key: string)
    | Commit(e: Entry)
    | Apply(server: nat)
    | Answer(client: int, server: nat, index: nat)

  function Init(servers: nat): System {
    System(map[], {}, [], seq(servers, _ => 0), {})
  }

  function Issued(y: System, c: int): seq<Op> {
    if c in y.issued then y.issued[c] else []
  }

  /** The request with number r of client c, counted from 1. */
  ghost predicate IsRequest(y: System, op: Op) {
    1 <= op.request <= |Issued(y, op.client)| && Issued(y, op.client)[op.request - 1] == op
  }

  ghost predicate Enabled(y: System, step: Step) {
    match step
    // one outstanding call per clerk
    case Issue(c, _, _) => c !in y.waiting
    // any server may have started any copy of any call, at any time
    case Commit(e) => e.Cmd? ==> IsRequest(y, e.op)
    case Apply(s) => s < |y.applied| && y.applied[s] < |y.log|
    // some server applied, at the index it had started the call at, the same call
    case Answer(c, s, i) =>
      && c in y.waiting && s < |y.applied| && i < y.applied[s] && i < |y.log| && y.log[i].Cmd?
      && Issued(y, c) != [] && SameOp(Issued(y, c)[|Issued(y, c)| - 1], y.log[i].op)
  }

  ghost function Do(y: System, step: Step): System
    requires Enabled(y, step)
  {
    match step
    case Issue(c, kind, key) =>
      var op := Op(kind, key, c, |Issued(y, c)| + 1);
      y.(issued := y.issued[c := Issued(y, c) + [op]], waiting := y.waiting + {c})
    case Commit(e) => y.(log := y.log + [e])
    case Apply(s) => y.(applied := y.applied[s := y.applied[s] + 1])
    case Answer(c, s, i) =>
      y.(waiting := y.waiting - {c}, returned := y.returned + {Return(c, |Issued(y, c)|, s, i)})
  }

  ghost predicate Run(servers: nat, states: seq<System>, steps: seq<Step>) {
    && |states| == |steps| + 1 && states[0] == Init(servers)
    && forall i :: 0 <= i < |steps| ==> Enabled(states[i], steps[i]) && states[i + 1] == Do(states[i], steps[i])
  }

  // ----- deduplication, for any state-machine function -------------------------

  /** The ops of a log that pass the request-id test, in order. */
  function Effective(log: seq<Entry>): (seq<Op>, map<int, int>) {
    if log == [] then ([], map[])
    else
      var (ops, last) := Effective(log[..|log| - 1]);
      var e := log[|log| - 1];
      if e.Cmd? && IsNew(last, e.op) then (ops + [e.op], last[e.op.client := e.op.request]) else (ops, last)
  }

  function Fold<S>(f: (S, Op) -> S, init: S, ops: seq<Op>): S {
    if ops == [] then init else f(Fold(f, init, ops[..|ops| - 1]), ops[|ops| - 1])
  }

  /** A replica's state is the state machine run on the effective ops alone. */
  lemma {:induction false} ReplayIsFold<S>(f: (S, Op) -> S, init: S, log: seq<Entry>)
    ensures Replay(f, init, log) == Replica(Fold(f, init, Effective(log).0), Effective(log).1)
  {
    if log != [] {
      var pre := log[..|log| - 1];
      ReplayIsFold(f, init, pre);
      var ops := Effective(pre).0;
      var e := log[|log| - 1];
      if e.Cmd? && IsNew(Effective(pre).1, e.op) {
        assert (ops + [e.op])[..|ops|] == ops;
      }
    }
  }

  /** The ops of one client, in order. */
  function Mine(ops: seq<Op>, c: int): seq<Op> {
    if ops == [] then []
    else
      var rest := Mine(ops[..|ops| - 1], c);
      if ops[|ops| - 1].client == c then rest + [ops[|ops| - 1]] else rest
  }

  // ----- invariant -------------------------------------------------------------

  ghost predicate Logged(log: seq<Entry>, op: Op) {
    exists i :: 0 <= i < |log| && log[i] == Cmd(op)
  }

  /** Position r of a clerk's calls carries request id r + 1. */
  ghost predicate Numbered(y: System, c: int, r: nat)
    requires r < |Issued(y, c)|
  {
    Issued(y, c)[r].client == c && Issued(y, c)[r].request == r + 1
  }

  /** Before entry i the log holds call r of its client if that is an earlier one. */
  ghost predicate Preceded(y: System, i: nat, r: nat)
    requires i < |y.log| && y.log[i].Cmd?
  {
    var op := y.log[i].op;
    r + 1 < op.request && r < |Issued(y, op.client)| ==> Logged(y.log[..i], Issued(y, op.client)[r])
  }

  /** All calls of a clerk but an unanswered last one are in the log. */
  ghost predicate Answered(y: System, c: int, r: nat)
    requires r < |Issued(y, c)|
  {
    r + 1 < |Issued(y, c)| || c !in y.waiting ==> Logged(y.log, Issued(y, c)[r])
  }

  ghost predicate ReturnOk(y: System, t: Return) {
    && t.server < |y.applied| && t.index < y.applied[t.server] && t.index < |y.log|
    && 1 <= t.request <= |Issued(y, t.client)| && y.log[t.index] == Cmd(Issued(y, t.client)[t.request - 1])
  }

  ghost predicate Inv(y: System) {
    && (forall c: int, r: nat {:trigger Numbered(y, c, r)} :: r < |Issued(y, c)| ==> Numbered(y, c, r))
    && (forall i: nat {:trigger y.log[i]} :: i < |y.log| && y.log[i].Cmd? ==> IsRequest(y, y.log[i].op))
    && (forall i: nat, r: nat {:trigger Preceded(y, i, r)} :: i < |y.log| && y.log[i].Cmd? ==> Preceded(y, i, r))
    && (forall c: int, r: nat {:trigger Answered(y, c, r)} :: r < |Issued(y, c)| ==> Answered(y, c, r))
    && (forall s :: 0 <= s < |y.applied| ==> y.applied[s] <= |y.log|)
    && (forall t {:trigger ReturnOk(y, t)} | t in y.returned :: ReturnOk(y, t))
  }

  lemma LoggedGrows(log: seq<Entry>, more: seq<Entry>, op: Op)
    requires Logged(log, op)
    ensures Logged(log + more, op)
  {
    var i :| 0 <= i < |log| && log[i] == Cmd(op);
    assert (log + more)[i] == Cmd(op);
  }

  lemma IssueInv(y: System, step: Step)
    requires Inv(y) && Enabled(y, step) && step.Issue?
    ensures Inv(Do(y, step))
  {
    var z := Do(y, step);
    assert forall c :: Issued(y, c) <= Issued(z, c) && (c != step.client ==> Issued(z, c) == Issued(y, c));
    forall i: nat | i < |z.log| && z.log[i].Cmd? ensures IsRequest(z, z.log[i].op) {
      assert IsRequest(y, y.log[i].op);
    }
    forall c, r: nat | r < |Issued(z, c)| ensures Numbered(z, c, r) && Answered(z, c, r) {
      if r < |Issued(y, c)| { assert Numbered(y, c, r) && Answered(y, c, r); }
    }
    forall i: nat, r: nat | i < |z.log| && z.log[i].Cmd? ensures Preceded(z, i, r) {
      assert Preceded(y, i, r) && IsRequest(y, y.log[i].op);
    }
    forall t | t in z.returned ensures ReturnOk(z, t) { assert ReturnOk(y, t); }
  }

  lemma CommitInv(y: System, step: Step)
    requires Inv(y) && Enabled(y, step) && step.Commit?
    ensures Inv(Do(y, step))
  {
    var z := Do(y, step);
    var n := |y.log|;
    assert z.log[..n] == y.log;
    forall i: nat | i < |z.log| && z.log[i].Cmd? ensures IsRequest(z, z.log[i].op) {
      if i < n { assert IsRequest(y, y.log[i].op); }
    }
    forall c, r: nat | r < |Issued(z, c)| ensures Numbered(z, c, r) && Answered(z, c, r) {
      assert Numbered(y, c, r) && Answered(y, c, r);
      if Logged(y.log, Issued(y, c)[r]) { LoggedGrows(y.log, [step.e], Issued(y, c)[r]); }
    }
    forall i: nat, r: nat | i < |z.log| && z.log[i].Cmd? ensures Preceded(z, i, r) {
      if i < n {
        assert Preceded(y, i, r);
        assert z.log[..i] == y.log[..i];
      } else if r + 1 < step.e.op.request {
        assert Answered(y, step.e.op.client, r);
      }
    }
    forall t | t in z.returned ensures ReturnOk(z, t) { assert ReturnOk(y, t); }
  }

  lemma AnswerInv(y: System, step: Step)
    requires Inv(y) && Enabled(y, step) && step.Answer?
    ensures Inv(Do(y, step))
  {
    var z := Do(y, step);
    var c := step.client;
    var n := |Issued(y, c)| - 1;
    assert IsRequest(y, y.log[step.index].op) && Numbered(y, c, n);
    assert y.log[step.index] == Cmd(Issued(y, c)[n]);
    forall i: nat | i < |z.log| && z.log[i].Cmd? ensures IsRequest(z, z.log[i].op) {
      assert IsRequest(y, y.log[i].op);
    }
    forall d, r: nat | r < |Issued(z, d)| ensures Numbered(z, d, r) && Answered(z, d, r) {
      assert Numbered(y, d, r) && Answered(y, d, r);
    }
    forall i: nat, r: nat | i < |z.log| && z.log[i].Cmd? ensures Preceded(z, i, r) {
      assert Preceded(y, i, r);
    }
    forall t | t in z.returned ensures ReturnOk(z, t) { assert t in y.returned ==> ReturnOk(y, t); }
  }

  /** Servers apply more of the log. */
  lemma AppliedInv(y: System, applied: seq<nat>)
    requires Inv(y) && |applied| == |y.applied|
    requires forall s :: 0 <= s < |applied| ==> y.applied[s] <= applied[s] <= |y.log|
    ensures Inv(y.(applied := applied))
  {
    var z := y.(applied := applied);
    forall i: nat | i < |z.log| && z.log[i].Cmd? ensures IsRequest(z, z.log[i].op) {
      assert IsRequest(y, y.log[i].op);
    }
    forall c, r: nat | r < |Issued(z, c)| ensures Numbered(z, c, r) && Answered(z, c, r) {
      assert Numbered(y, c, r) && Answered(y, c, r);
    }
    forall i: nat, r: nat | i < |z.log| && z.log[i].Cmd? ensures Preceded(z, i, r) {
      assert Preceded(y, i, r);
    }
    forall t | t in z.returned ensures ReturnOk(z, t) { assert ReturnOk(y, t); }
  }

  lemma {:induction false} RunInv(servers: nat, states: seq<System>, steps: seq<Step>, i: nat)
    requires Run(servers, states, steps) && i < |states|
    ensures Inv(states[i])
  {
    if i > 0 {
      RunInv(servers, states, steps, i - 1);
      var y, step := states[i - 1], steps[i - 1];
      match step
      case Issue(_, _, _) => IssueInv(y, step);
      case Commit(_) => CommitInv(y, step);
      case Apply(s) => AppliedInv(y, y.applied[s := y.applied[s] + 1]);
      case Answer(_, _, _) => AnswerInv(y, step);
    }
  }

  // ----- exactly once ----------------------------------------------------------

  /** `mine` and `last` are what k entries make of one client: the first calls of its
      clerk, each once, in order; the duplicate test remembers the last of them. */
  ghost predicate Summarises(y: System, k: nat, c: int, mine: seq<Op>, last: map<int, int>)
    requires k <= |y.log|
  {
    && mine <= Issued(y, c)
    && (if mine == [] then c !in last else c in last && last[c] == |mine|)
    && forall r: nat :: r < |Issued(y, c)| && Logged(y.log[..k], Issued(y, c)[r]) ==> r < |mine|
  }

  ghost predicate AppliesInOrder(y: System, k: nat, c: int)
    requires k <= |y.log|
  {
    Summarises(y, k, c, Mine(Effective(y.log[..k]).0, c), Effective(y.log[..k]).1)
  }

  lemma EffectiveNext(log: seq<Entry>, k: nat, c: int)
    requires k < |log|
    ensures var (ops, last) := Effective(log[..k]);
      var e := log[k];
      var (ops', last') := Effective(log[..k + 1]);
      if e.Cmd? && IsNew(last, e.op)
      then last' == last[e.op.client := e.op.request] &&
           Mine(ops', c) == (if e.op.client == c then Mine(ops, c) + [e.op] else Mine(ops, c))
      else ops' == ops && last' == last
  {
    assert log[..k + 1][..k] == log[..k];
    var ops := Effective(log[..k]).0;
    if log[k].Cmd? {
      assert (ops + [log[k].op])[..|ops|] == ops;
    }
  }

  lemma LoggedNext(log: seq<Entry>, k: nat, op: Op)
    requires k < |log|
    ensures Logged(log[..k + 1], op) <==> Logged(log[..k], op) || log[k] == Cmd(op)
  {
    if Logged(log[..k], op) {
      LoggedGrows(log[..k], [log[k]], op);
      assert log[..k + 1] == log[..k] + [log[k]];
    }
    if log[k] == Cmd(op) {
      assert log[..k + 1][k] == Cmd(op);
    }
    if Logged(log[..k + 1], op) && log[k] != Cmd(op) {
      var i :| 0 <= i < k + 1 && log[..k + 1][i] == Cmd(op);
      assert log[..k][i] == Cmd(op);
    }
  }

  /** The next entry of the client is ignored, repeats a call, or is the clerk's next call. */
  lemma NextEntry(y: System, k: nat, c: int, mine: seq<Op>, last: map<int, int>)
    requires Inv(y) && k < |y.log| && Summarises(y, k, c, mine, last)
    requires y.log[k].Cmd? && y.log[k].op.client == c
    ensures var op := y.log[k].op;
      1 <= op.request <= |mine| + 1 && op.request <= |Issued(y, c)| && op == Issued(y, c)[op.request - 1]
  {
    var op := y.log[k].op;
    assert IsRequest(y, op);
    if op.request > 1 {
      assert Preceded(y, k, op.request - 2);
    }
  }

  lemma NextSummary(y: System, k: nat, c: int, mine: seq<Op>, last: map<int, int>)
    requires Inv(y) && k < |y.log| && Summarises(y, k, c, mine, last)
    ensures var e := y.log[k];
      if e.Cmd? && IsNew(last, e.op)
      then Summarises(y, k + 1, c, if e.op.client == c then mine + [e.op] else mine, last[e.op.client := e.op.request])
      else Summarises(y, k + 1, c, mine, last)
  {
    var e := y.log[k];
    if e.Cmd? && e.op.client == c {
      NextEntry(y, k, c, mine, last);
    }
    forall r: nat | r < |Issued(y, c)|
      ensures Logged(y.log[..k + 1], Issued(y, c)[r]) <==>
              Logged(y.log[..k], Issued(y, c)[r]) || e == Cmd(Issued(y, c)[r])
      ensures Numbered(y, c, r)
    {
      LoggedNext(y.log, k, Issued(y, c)[r]);
    }
  }

  lemma {:induction false} PrefixApplies(y: System, k: nat, c: int)
    requires Inv(y) && k <= |y.log|
    ensures AppliesInOrder(y, k, c)
  {
    if k == 0 {
      assert y.log[..0] == [];
    } else {
      PrefixApplies(y, k - 1, c);
      EffectiveNext(y.log, k - 1, c);
      NextSummary(y, k - 1, c, Mine(Effective(y.log[..k - 1]).0, c), Effective(y.log[..k - 1]).1);
    }
  }

  lemma {:induction false} MineCounts(ops: seq<Op>, op: Op)
    ensures multiset(ops)[op] == multiset(Mine(ops, op.client))[op]
  {
    if ops != [] {
      MineCounts(ops[..|ops| - 1], op);
      assert ops == ops[..|ops| - 1] + [ops[|ops| - 1]];
    }
  }

  /** On a log prefix that includes the entry it was answered for, a returned call
      takes effect once, after all earlier calls of its clerk. */
  lemma OnceInPrefix(y: System, t: Return, k: nat)
    requires Inv(y) && t in y.returned && t.index < k <= |y.log|
    ensures var ops := Effective(y.log[..k]).0;
      && 1 <= t.request <= |Mine(ops, t.client)| && Mine(ops, t.client) <= Issued(y, t.client)
      && multiset(ops)[Issued(y, t.client)[t.request - 1]] == 1
  {
    var c := t.client;
    var ops := Effective(y.log[..k]).0;
    var mine := Mine(ops, c);
    PrefixApplies(y, k, c);
    assert ReturnOk(y, t);
    assert y.log[..k][t.index] == Cmd(Issued(y, c)[t.request - 1]);
    assert Logged(y.log[..k], Issued(y, c)[t.request - 1]);
    forall a, b | 0 <= a < b < |mine| ensures mine[a] != mine[b] {
      assert Numbered(y, c, a) && Numbered(y, c, b);
    }
    assert Numbered(y, c, t.request - 1);
    DistinctOnce(mine, t.request - 1);
    MineCounts(ops, mine[t.request - 1]);
  }

  /** Exactly once: in every run, for every call that returned, on every log prefix that
      includes the entry it was answered for (in particular what the answering server has
      applied), a replica's state is the state machine run on a list of calls that holds
      that call exactly once, after all the earlier calls of its clerk and in its clerk's
      order. */
  lemma ExactlyOnce<S>(servers: nat, states: seq<System>, steps: seq<Step>, i: nat, t: Return, k: nat,
      f: (S, Op) -> S, init: S)
    requires Run(servers, states, steps) && i < |states| && t in states[i].returned
    requires t.index < k <= |states[i].log|
    ensures var y := states[i];
      var ops := Effective(y.log[..k]).0;
      && Replay(f, init, y.log[..k]).state == Fold(f, init, ops)
      && 1 <= t.request <= |Mine(ops, t.client)| && Mine(ops, t.client) <= Issued(y, t.client)
      && multiset(ops)[Issued(y, t.client)[t.request - 1]] == 1
  {
    RunInv(servers, states, steps, i);
    ReplayIsFold(f, init, states[i].log[..k]);
    OnceInPrefix(states[i], t, k);
  }

  /** The server that answered has applied the entry it answered for. */
  lemma AnswererApplied(servers: nat, states: seq<System>, steps: seq<Step>, i: nat, t: Return)
    requires Run(servers, states, steps) && i < |states| && t in states[i].returned
    ensures var y := states[i];
      t.server < |y.applied| && t.index < y.applied[t.server] <= |y.log|
  {
    RunInv(servers, states, steps, i);
    assert ReturnOk(states[i], t);
  }

  /** A waiting clerk can be answered by exactly those servers that have applied its call, Lock
      or Unlock, at exactly the indices where they did. */
  lemma AnswerableIff(servers: nat, states: seq<System>, steps: seq<Step>, i: nat, c: int, s: nat, k: nat)
    requires Run(servers, states, steps) && i < |states| && c in states[i].waiting
    ensures var y := states[i];
      && Issued(y, c) != [] && |y.applied| == servers
      && (Enabled(y, Answer(c, s, k)) <==>
            s < servers && k < y.applied[s] && k < |y.log| && y.log[k] == Cmd(Issued(y, c)[|Issued(y, c)| - 1]))
  {
    var y := states[i];
    RunInv(servers, states, steps, i);
    WaitingIssued(servers, states, steps, i, c);
    ServersStay(servers, states, steps, i);
    assert Numbered(y, c, |Issued(y, c)| - 1);
    if k < |y.log| && y.log[k].Cmd? {
      assert IsRequest(y, y.log[k].op);
    }
  }

  lemma {:induction false} WaitingIssued(servers: nat, states: seq<System>, steps: seq<Step>, i: nat, c: int)
    requires Run(servers, states, steps) && i < |states| && c in states[i].waiting
    ensures Issued(states[i], c) != []
  {
    if i > 0 {
      assert Enabled(states[i - 1], steps[i - 1]);
      assert states[i] == Do(states[i - 1], steps[i - 1]);
      if c in states[i - 1].waiting { WaitingIssued(servers, states, steps, i - 1, c); }
    }
  }

  lemma {:induction false} ServersStay(servers: nat, states: seq<System>, steps: seq<Step>, i: nat)
    requires Run(servers, states, steps) && i < |states|
    ensures |states[i].applied| == servers
  {
    if i > 0 {
      ServersStay(servers, states, steps, i - 1);
      assert states[i] == Do(states[i - 1], steps[i - 1]);
    }
  }
}
