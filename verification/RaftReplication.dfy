/** Properties of the replication handlers: what shortens a log, how probing
    converges, and what the commit loop computes. */
module RaftReplication {
  import opened Collections
  import opened RaftServer
  import opened RaftSystem
  import opened RaftInvariant
  import opened RaftElection
  import opened RaftSteps
  import opened RaftSafety
  import opened RaftBasics

  /** The receiver takes the request over. */
  predicate Adopts(s: Server, a: AppendArgs)
    requires |s.log| > 0
  {
    && a.term >= s.term && !Outdated(a, s.log)
    && a.prevIndex < |s.log| && s.log[a.prevIndex].term == a.prevTerm
  }

  /** An AppendEntries lowers the (last term, last index) pair that RequestVote
      compares if and only if it is taken over, carries no entries and probes
      below the last entry. */
  lemma OnlyEmptyAppendsShorten(s: Server, a: AppendArgs)
    requires |s.log| > 0 && Sorted(s.log)
    ensures var log := AppendEntries(s, a).0.log;
      |log| > 0 &&
      (!UpToDate(LastTerm(log), LastIndex(log), s.log) <==>
         Adopts(s, a) && a.entries == [] && a.prevIndex < LastIndex(s.log))
  {
    if Adopts(s, a) {
      var log := s.log[..a.prevIndex + 1] + a.entries;
      if a.entries == [] {
        assert log == s.log[..a.prevIndex + 1];
        assert s.log[a.prevIndex].term <= s.log[|s.log| - 1].term;
      } else {
        assert log[|log| - 1] == a.entries[|a.entries| - 1];
      }
    }
  }

  /** Backtracking converges, one probe, in any crash-free run: after a refusal the next probe is no higher and
      at least 1, and strictly lower if the sender still leads the term it sent in (else
      its loop ends at the next turn); after a lost RPC it is 1. */
  lemma ProbesDescend(n: nat, states: seq<System>, steps: seq<Step>, i: nat)
    requires n >= 1 && AnyRun(n, states, steps) && i < |steps| && steps[i].Respond?
    ensures Enabled(states[i], steps[i])
    ensures !steps[i].r.success && !Dismissed(steps[i].r, states[i].appends[steps[i].k].args.term) ==>
      ProbesOn(states[i], steps[i], states[i + 1])
  {
    AnyRunBase(n, states, steps, i);
    assert LeadsTo({}, states[i], steps[i], states[i + 1]);
    var y := states[i];
    var k, r := steps[i].k, steps[i].r;
    var m := y.appends[k];
    if !r.success && !Dismissed(r, m.args.term) {
      RetryRange(y, k, r);
      if Ack(k, r) in y.acks && Leads(y, m.args.leader, m.args.term) {
        RetryDescends(y, k, r);
      }
      var next := HandleReply(y.servers[m.args.leader], r, m.args, m.to).1.next;
      assert states[i + 1].servers == y.servers;
      assert NextProbe(y, steps[i], states[i + 1], next);
    }
  }

  ghost predicate ProbesOn(y: System, step: Step, z: System)
    requires step.Respond? && step.k < |y.appends|
  {
    exists next: nat :: NextProbe(y, step, z, next)
  }

  /** The reply only sets the sender's loop to `next`. */
  ghost predicate NextProbe(y: System, step: Step, z: System, next: nat)
    requires step.Respond? && step.k < |y.appends|
  {
    var m := y.appends[step.k];
    && z == y.(beats := y.beats + {Beat(m.args.leader, m.to, next, m.args.term)})
    && 1 <= next <= m.args.prevIndex + 1
    && (Ack(step.k, step.r) !in y.acks ==> next == 1)
    && (Ack(step.k, step.r) in y.acks && Leads(y, m.args.leader, m.args.term) ==> next <= m.args.prevIndex)
  }

  /** In any crash-free run a probe at 1 never sees a mismatch: the receiver takes the
      request over, is in a newer term, or refuses it as outdated. */
  lemma ProbeAtOneMatches(n: nat, states: seq<System>, steps: seq<Step>, i: nat)
    requires n >= 1 && AnyRun(n, states, steps) && i < |steps| && steps[i].Deliver?
    ensures Enabled(states[i], steps[i])
    ensures states[i].appends[steps[i].k].args.prevIndex == 0 ==>
      var m := states[i].appends[steps[i].k];
      var reply := AppendEntries(states[i].servers[m.to], m.args).1;
      reply.success || Dismissed(reply, m.args.term)
  {
    AnyRunBase(n, states, steps, i);
    assert LeadsTo({}, states[i], steps[i], states[i + 1]);
    var y := states[i];
    var m := y.appends[steps[i].k];
    assert Sent(y, m) && Sound(y, m.to) && Won(y, m.args.term);
  }

  /** In any crash-free run a leader's index arrays have an entry for each peer, and a reply
      that finds its sender still leading names an index of the sender's log. */
  lemma RepliesInRange(n: nat, states: seq<System>, steps: seq<Step>, i: nat)
    requires n >= 1 && AnyRun(n, states, steps) && i < |states|
    ensures var y := states[i];
      && |y.servers| == n
      && (forall l :: 0 <= l < n && y.servers[l].role == Leader ==>
            |y.servers[l].nextIndex| == |y.servers[l].matchIndex| == n)
      && (forall k: nat, r :: Answerable(y, k, r) ==>
            ReplySafe(y.servers[y.appends[k].args.leader], r, y.appends[k].to, y.appends[k].args.term))
  {
    AnyRunBase(n, states, steps, i);
    var y := states[i];
    forall l | 0 <= l < n && y.servers[l].role == Leader
      ensures |y.servers[l].nextIndex| == |y.servers[l].matchIndex| == n
    {
      assert Sound(y, l);
    }
    forall k: nat, r | Answerable(y, k, r)
      ensures ReplySafe(y.servers[y.appends[k].args.leader], r, y.appends[k].to, y.appends[k].args.term)
    {
      var m := y.appends[k];
      assert Sent(y, m) && Sound(y, m.args.leader) && Won(y, m.args.term);
      if Ack(k, r) in y.acks { assert Told(y, Ack(k, r)); }
    }
  }

  /** A reply (or the loss of one) arrives while the sender still leads its term. */
  ghost predicate Answerable(y: System, k: nat, r: AppendReply) {
    && k < |y.appends| && (r == NO_REPLY || Ack(k, r) in y.acks)
    && Leads(y, y.appends[k].args.leader, y.appends[k].args.term)
  }

  /** In every run the clamp of the follower's commit index is idle: a request that is taken
      over raises it to the leader's index itself, within the log, and no other changes it. */
  lemma ClampNeverBinds(n: nat, states: seq<System>, steps: seq<Step>, i: nat)
    requires n >= 1 && Run(n, states, steps) && i < |steps| && steps[i].Deliver?
    ensures var y := states[i];
      var m := y.appends[steps[i].k];
      var s := y.servers[m.to];
      var (s', reply) := AppendEntries(s, m.args);
      && s'.commitIndex < |s'.log|
      && s'.commitIndex ==
         if reply.success && s.commitIndex < m.args.leaderCommit then m.args.leaderCommit else s.commitIndex
  {
    RunInv(n, states, steps, i);
    RunInv(n, states, steps, i + 1);
    var y := states[i];
    var m := y.appends[steps[i].k];
    assert ServerOk(states[i + 1], m.to);
    assert states[i + 1].servers[m.to] == AppendEntries(y.servers[m.to], m.args).0;
    FewerHypotheses(ALL, {}, n, states, steps);
    AcceptedLogIsLeaders(n, states, steps, i);
    assert AppendOk(y, m);
  }

  // ----- the commit loop -------------------------------------------------------

  /** v is the k-th largest element of m. */
  ghost predicate KthLargest(m: seq<nat>, k: nat, v: nat) {
    v in m && |Replicas(m, v + 1)| < k <= |Replicas(m, v)|
  }

  lemma ReplicasShrink(m: seq<nat>, i: nat, j: nat)
    requires i <= j
    ensures |Replicas(m, j)| <= |Replicas(m, i)|
  {
    SubsetSize(Replicas(m, j), Replicas(m, i));
  }

  lemma {:induction false} AllReachZero(m: seq<nat>)
    ensures |Replicas(m, 0)| == |m|
  {
    if m == [] {
      assert Replicas(m, 0) == {};
    } else {
      var k: nat := |m| - 1;
      AllReachZero(m[..k]);
      assert Replicas(m, 0) == Replicas(m[..k], 0) + {k};
    }
  }

  lemma NoneAbove(m: seq<nat>, top: nat)
    requires forall j :: 0 <= j < |m| ==> m[j] <= top
    ensures |Replicas(m, top + 1)| == 0
  {
    assert Replicas(m, top + 1) == {};
  }

  lemma AbsentAddsNone(m: seq<nat>, v: nat)
    ensures v !in m ==> |Replicas(m, v)| == |Replicas(m, v + 1)|
  {
    if v !in m {
      assert Replicas(m, v) == Replicas(m, v + 1);
    }
  }

  /** Every rank from 1 to the length has its element. */
  lemma KthLargestExists(m: seq<nat>, k: nat) returns (v: nat)
    requires 1 <= k <= |m|
    ensures KthLargest(m, k, v)
  {
    var top: nat := 0;
    for i := 0 to |m|
      invariant forall j :: 0 <= j < i ==> m[j] <= top
    {
      top := if m[i] > top then m[i] else top;
    }
    AllReachZero(m);
    NoneAbove(m, top);
    v := 0;
    while |Replicas(m, v + 1)| >= k
      invariant |Replicas(m, v)| >= k
      invariant v <= top
      decreases top - v
    {
      v := v + 1;
    }
    AbsentAddsNone(m, v);
  }

  /** The commit loop computes max(old, min(log length, the (N/2+1)-th largest matchIndex)). */
  lemma CommitIsOrderStatistic(m: seq<nat>, length: nat, commit: nat, v: nat)
    requires |m| > 0 && KthLargest(m, |m| / 2 + 1, v)
    ensures CommitScan(m, length, commit) == Max(commit, Min(v, length))
  {
    var r := CommitScan(m, length, commit);
    if r <= v { ReplicasShrink(m, r, v); } else { ReplicasShrink(m, v + 1, r); }
    if r + 1 <= v { ReplicasShrink(m, r + 1, v); } else { ReplicasShrink(m, v + 1, r + 1); }
  }

  /** A success, in any crash-free run: the sender notes that the peer holds its log as it was
      when the request was sent; and if the last entry of that batch is of its present term, it
      raises its commit index to what a majority holds within its log. Nothing else changes. */
  lemma SuccessCounts(n: nat, states: seq<System>, steps: seq<Step>, i: nat, v: nat)
    requires n >= 1 && AnyRun(n, states, steps) && i < |steps| && steps[i].Respond? && steps[i].r.success
    requires steps[i].k < |states[i].appends| && steps[i].r.term <= states[i].appends[steps[i].k].args.term
    ensures Enabled(states[i], steps[i])
    ensures var m := states[i].appends[steps[i].k];
      var s, z := states[i].servers[m.args.leader], states[i + 1];
      && |m.snapshot| > 0
      && var s' := z.servers[m.args.leader];
      && z == states[i].(servers := states[i].servers[m.args.leader := s'])
      && s' == s.(nextIndex := s.nextIndex[m.to := |m.snapshot|],
                  matchIndex := s.matchIndex[m.to := |m.snapshot| - 1], commitIndex := s'.commitIndex)
      && (KthLargest(s'.matchIndex, |s'.matchIndex| / 2 + 1, v) ==>
            s'.commitIndex ==
            if m.args.prevIndex < |m.snapshot| - 1 && LastTerm(m.snapshot) == s.term
            then Max(s.commitIndex, Min(v, |s.log|)) else s.commitIndex)
  {
    AnyRunBase(n, states, steps, i);
    assert LeadsTo({}, states[i], steps[i], states[i + 1]);
    var m := states[i].appends[steps[i].k];
    assert Sent(states[i], m);
    var s, s' := states[i].servers[m.args.leader], states[i + 1].servers[m.args.leader];
    if m.args.entries != [] {
      assert m.args.entries[|m.args.entries| - 1] == m.snapshot[|m.snapshot| - 1];
    }
    if KthLargest(s'.matchIndex, |s'.matchIndex| / 2 + 1, v) {
      CommitIsOrderStatistic(s'.matchIndex, |s.log|, s.commitIndex, v);
    }
  }
}
