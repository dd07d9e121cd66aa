/** What holds in every run: the invariant, and the safety properties it implies. */
module RaftSafety {
  import opened Collections
  import opened RaftServer
  import opened RaftSystem
  import opened RaftInvariant
  import opened RaftBasics
  import opened RaftElection
  import opened RaftSteps

  // ----- whole runs ------------------------------------------------------------

  lemma {:induction false} RunInv(n: nat, states: seq<System>, steps: seq<Step>, i: nat)
    requires n >= 1 && Run(n, states, steps) && i < |states|
    ensures Inv(states[i]) && |states[i].servers| == n
  {
    if i == 0 {
      InitInv(n);
    } else {
      RunInv(n, states, steps, i - 1);
      StepInv(states[i - 1], steps[i - 1]);
    }
  }

  /** A request that is taken over never shortens what was held from its term. */
  lemma TakenGrows(x: System, k: nat)
    requires Inv(x) && Enabled(x, Deliver(k)) && FreshHeartbeat(x, k)
    requires x.servers[x.appends[k].to].term == x.appends[k].args.term
    ensures var m := x.appends[k];
      AppendEntries(x.servers[m.to], m.args).1.success && (m.to, m.args.term) in x.held ==>
        x.held[(m.to, m.args.term)] <= |m.snapshot|
  {
    var m := x.appends[k];
    Verdict(x, k);
    if AppendEntries(x.servers[m.to], m.args).1.success { AcceptNeverShrinks(x, k); }
  }

  lemma DeliverGrows(y: System, k: nat)
    requires Inv(y) && Enabled(y, Deliver(k)) && FreshHeartbeat(y, k)
    ensures Grows(y, Do(y, Deliver(k)))
  {
    var m := y.appends[k];
    var s := y.servers[m.to];
    if s.term < m.args.term {
      var x := RaiseTermInv(y, m.to, m.args.term);
      RaiseFirst(s, m.args);
      assert FreshHeartbeat(x, k);
      TakenGrows(x, k);
    } else if s.term == m.args.term {
      TakenGrows(y, k);
    }
  }

  ghost predicate Extends(y: System, z: System) {
    && Grows(y, z) && |y.applied| == |z.applied|
    && forall i :: 0 <= i < |y.applied| ==> y.applied[i] <= z.applied[i]
  }

  lemma VotingExtends(y: System, step: Step)
    requires Inv(y) && Enabled(y, step) && (step.Timeout? || step.Vote?)
    ensures Extends(y, Do(y, step))
  {
    match step
    case Timeout(c) =>
      var t := y.servers[c].term + 1;
      assert (c, t) in y.votes ==> VoteOk(y, c, t);
      assert (c, t) in y.polls ==> PollOk(y, c, t);
    case Vote(v, c, t) =>
      assert ServerOk(y, v);
      assert (v, t) in y.votes ==> VoteOk(y, v, t);
  }

  lemma WinExtends(y: System, c: nat, t: nat)
    requires Inv(y) && Enabled(y, Win(c, t))
    ensures Extends(y, Do(y, Win(c, t)))
  {
    if y.servers[c].term == t && y.servers[c].role == Candidate {
      InvIsBase(y);
      Vacant(y, c);
      assert (c, t) in y.held ==> HeldOk(y, c, t);
    }
  }

  lemma ProposeExtends(y: System, l: nat, command: Command)
    requires Inv(y) && Enabled(y, Propose(l, command))
    ensures Extends(y, Do(y, Propose(l, command)))
  {
    assert ServerOk(y, l);
    if y.servers[l].role == Leader {
      assert ReignOk(y, y.servers[l].term);
    }
  }

  /** Steps only add to the history: no vote, reign or hold is ever taken back. */
  lemma StepExtends(y: System, step: Step)
    requires Inv(y) && Enabled(y, step) && Obeys(ALL, y, step)
    ensures Extends(y, Do(y, step))
  {
    if step.Timeout? || step.Vote? {
      VotingExtends(y, step);
    } else if step.Win? {
      WinExtends(y, step.c, step.t);
    } else if step.Propose? {
      ProposeExtends(y, step.l, step.command);
    } else if step.Deliver? {
      DeliverGrows(y, step.k);
    }
  }

  lemma ExtendsTrans(x: System, y: System, z: System)
    requires Extends(x, y) && Extends(y, z)
    ensures Extends(x, z)
  {
    forall t | t in x.reigns ensures t in z.reigns && x.reigns[t].log <= z.reigns[t].log {
      assert x.reigns[t].log <= y.reigns[t].log <= z.reigns[t].log;
    }
    forall i | 0 <= i < |x.applied| ensures x.applied[i] <= z.applied[i] {
      assert x.applied[i] <= y.applied[i] <= z.applied[i];
    }
    assert x.appends <= y.appends <= z.appends;
  }

  lemma NextExtends(n: nat, states: seq<System>, steps: seq<Step>, i: nat)
    requires n >= 1 && Run(n, states, steps) && i < |steps|
    ensures Extends(states[i], states[i + 1])
  {
    RunInv(n, states, steps, i);
    assert LeadsTo(ALL, states[i], steps[i], states[i + 1]);
    StepExtends(states[i], steps[i]);
  }

  lemma {:induction false} RunExtends(n: nat, states: seq<System>, steps: seq<Step>, i: nat, j: nat)
    requires n >= 1 && Run(n, states, steps) && i <= j < |states|
    ensures Extends(states[i], states[j])
    decreases j
  {
    if i < j {
      RunExtends(n, states, steps, i, j - 1);
      NextExtends(n, states, steps, j - 1);
      ExtendsTrans(states[i], states[j - 1], states[j]);
    }
  }

  /** Two prefixes that were both decided are prefixes of one another. */
  lemma CommittedAgree(y: System, p: Log, q: Log, bp: int, bq: int)
    requires Inv(y) && Committed(y, p, bp) && Committed(y, q, bq) && |p| > 1 && |q| > 1
    ensures p <= q || q <= p
  {
    var t: nat, len: nat :| t <= bp && Chosen(y, t, len) && p <= y.reigns[t].log[..len];
    var t': nat, len': nat :| t' <= bq && Chosen(y, t', len') && q <= y.reigns[t'].log[..len'];
    if t < t' {
      LeaderCompleteness(y, t, len, t');
      assert ReignOk(y, t');
      assert p <= y.reigns[t'].log && q <= y.reigns[t'].log;
    } else if t' < t {
      LeaderCompleteness(y, t', len', t);
      assert ReignOk(y, t);
      assert p <= y.reigns[t].log && q <= y.reigns[t].log;
    } else {
      assert p <= y.reigns[t].log && q <= y.reigns[t].log;
    }
  }

  /** State machine safety in one state. */
  lemma AppliedAgree(y: System, a: nat, b: nat)
    requires Inv(y) && a < |y.servers| && b < |y.servers|
    ensures y.applied[a] <= y.applied[b] || y.applied[b] <= y.applied[a]
  {
    var s, r := y.servers[a], y.servers[b];
    assert ServerOk(y, a) && ServerOk(y, b);
    var p, q := s.log[..s.commitIndex + 1], r.log[..r.commitIndex + 1];
    MessagesPrefix(p, s.log, 1, s.lastApplied);
    MessagesPrefix(q, r.log, 1, r.lastApplied);
    if |p| > 1 && |q| > 1 {
      CommittedAgree(y, p, q, CommitBound(y, a), CommitBound(y, b));
      MessagesCompare(p, q, s.lastApplied, r.lastApplied);
    }
  }

  lemma MessagesCompare(p: Log, q: Log, i: nat, j: nat)
    requires p <= q || q <= p
    requires i < |p| && j < |q|
    ensures Messages(p, 1, i) <= Messages(q, 1, j) || Messages(q, 1, j) <= Messages(p, 1, i)
  {
    if i <= j {
      MessagesExtend(p, q, i, j);
    } else {
      MessagesExtend(q, p, j, i);
    }
  }

  lemma MessagesExtend(p: Log, q: Log, i: nat, j: nat)
    requires p <= q || q <= p
    requires i <= j && i < |p| && j < |q|
    ensures Messages(p, 1, i) <= Messages(q, 1, j)
  {
    assert p[..i + 1] == q[..i + 1];
    MessagesPrefix(p, q, 1, i);
    MessagesSplit(q, 1, i, j);
  }

  /** State machine safety: over a whole run no two servers apply different commands
      at the same index; one sequence of applied messages extends the other. */
  lemma StateMachineSafety(n: nat, states: seq<System>, steps: seq<Step>, i: nat, j: nat, a: nat, b: nat)
    requires n >= 1 && Run(n, states, steps) && i < |states| && j < |states| && a < n && b < n
    requires |states[i].applied| == |states[j].applied| == n
    ensures states[i].applied[a] <= states[j].applied[b] || states[j].applied[b] <= states[i].applied[a]
  {
    var m := if i <= j then j else i;
    RunInv(n, states, steps, m);
    RunExtends(n, states, steps, i, m);
    RunExtends(n, states, steps, j, m);
    AppliedAgree(states[m], a, b);
    PrefixesCompare(states[i].applied[a], states[m].applied[a], states[j].applied[b], states[m].applied[b]);
  }

  lemma PrefixesCompare<T>(p: seq<T>, p': seq<T>, q: seq<T>, q': seq<T>)
    requires p <= p' && q <= q' && (p' <= q' || q' <= p')
    ensures p <= q || q <= p
  {
    var z := if p' <= q' then q' else p';
    assert p <= z && q <= z;
  }

  /** What a server has sent to its state machine is its log from index 1 to
      lastApplied, in order and once each, and never passes the commit index. */
  lemma AppliedIsLog(n: nat, states: seq<System>, steps: seq<Step>, i: nat, a: nat)
    requires n >= 1 && Run(n, states, steps) && i < |states| && a < n
    requires |states[i].servers| == |states[i].applied| == n
    ensures var s := states[i].servers[a];
      && s.lastApplied <= s.commitIndex < |s.log|
      && |states[i].applied[a]| == s.lastApplied
      && forall k :: 0 <= k < s.lastApplied ==> states[i].applied[a][k] == ApplyMsg(s.log[k + 1].command, k + 1)
  {
    RunInv(n, states, steps, i);
    assert ServerOk(states[i], a);
  }

  /** One round of the apply loop catches up: afterwards everything the server had committed is
      applied, each index once, and nothing else of the system has changed. */
  lemma FlushCatchesUp(n: nat, states: seq<System>, steps: seq<Step>, i: nat)
    requires n >= 1 && Run(n, states, steps) && i < |steps| && steps[i].Flush?
    ensures Enabled(states[i], steps[i])
    ensures var y, z, a := states[i], states[i + 1], steps[i].i;
      var s := y.servers[a];
      && z == y.(servers := y.servers[a := s.(lastApplied := s.commitIndex)], applied := z.applied)
      && z.applied == y.applied[a := z.applied[a]] && |z.applied[a]| == s.commitIndex < |s.log|
      && forall k :: 0 <= k < s.commitIndex ==> z.applied[a][k] == ApplyMsg(s.log[k + 1].command, k + 1)
  {
    RunInv(n, states, steps, i);
    RunInv(n, states, steps, i + 1);
    assert LeadsTo(ALL, states[i], steps[i], states[i + 1]);
    assert ServerOk(states[i], steps[i].i) && ServerOk(states[i + 1], steps[i].i);
  }

  lemma LeaderHasCommitted(y: System, z: System, a: nat, l: nat)
    requires Inv(y) && Inv(z) && Grows(y, z) && a < |y.servers| && l < |z.servers|
    requires z.servers[l].role == Leader && y.servers[a].term <= z.servers[l].term
    requires y.servers[a].commitIndex < |y.servers[a].log|
    ensures y.servers[a].log[..y.servers[a].commitIndex + 1] <= z.servers[l].log
  {
    var s := y.servers[a];
    assert ServerOk(y, a);
    CommittedGrows(y, z, s.log[..s.commitIndex + 1], CommitBound(y, a), s.term);
    LeaderKeeps(z, s.log[..s.commitIndex + 1], s.term, l);
  }

  lemma LeaderKeeps(z: System, p: Log, bound: nat, l: nat)
    requires Inv(z) && l < |z.servers| && z.servers[l].role == Leader
    requires Committed(z, p, bound) && bound <= z.servers[l].term && |p| >= 1 && p[0] == SENTINEL
    ensures p <= z.servers[l].log
  {
    var r := z.servers[l];
    assert ServerOk(z, l) && ReignOk(z, r.term);
    if |p| > 1 {
      var t: nat, len: nat :| t <= bound && Chosen(z, t, len) && p <= z.reigns[t].log[..len];
      if t < r.term {
        LeaderCompleteness(z, t, len, r.term);
      }
    } else {
      assert p == [SENTINEL];
    }
  }

  /** Leader completeness over a run: a leader of the same or a later term holds
      whatever a server committed at that time or before. */
  lemma LeadersHoldCommitted(n: nat, states: seq<System>, steps: seq<Step>, i: nat, j: nat, a: nat, l: nat)
    requires n >= 1 && Run(n, states, steps) && i <= j < |states| && a < n && l < n
    requires |states[i].servers| == |states[j].servers| == n
    requires states[j].servers[l].role == Leader && states[i].servers[a].term <= states[j].servers[l].term
    requires states[i].servers[a].commitIndex < |states[i].servers[a].log|
    ensures states[i].servers[a].log[..states[i].servers[a].commitIndex + 1] <= states[j].servers[l].log
  {
    RunInv(n, states, steps, i);
    RunInv(n, states, steps, j);
    RunExtends(n, states, steps, i, j);
    LeaderHasCommitted(states[i], states[j], a, l);
  }

  // ----- H-c -------------------------------------------------------------------

  /** With at most three servers the leader and the server that just acknowledged
      index q are a majority for every index up to q. */
  lemma PairIsMajority(matchIndex: seq<nat>, l: nat, j: nat, q: nat)
    requires |matchIndex| <= 3 && l < |matchIndex| && j < |matchIndex| && l != j
    requires matchIndex[l] >= q && matchIndex[j] >= q
    ensures MajorityReplicated(matchIndex, q)
  {
    SubsetSize({l, j}, Replicas(matchIndex, q));
  }

  /** With at most three servers H-a and H-b imply H-c. */
  lemma SmallClustersCommitOwnTerm(y: System, k: nat, r: AppendReply)
    requires Inv(y) && |y.servers| <= 3 && Enabled(y, Respond(k, r)) && OwnReply(y, k, r)
    ensures CommitsOwnTerm(y, k, r)
  {
    if r.success && !Dismissed(r, y.appends[k].args.term) {
      if Counts(y, k, r) {
        SmallLeaderCommitsOwnTerm(y, k, r);
      } else {
        IdleSuccess(y, k, r);
      }
    }
  }

  lemma SmallLeaderCommitsOwnTerm(y: System, k: nat, r: AppendReply)
    requires Inv(y) && |y.servers| <= 3 && Counts(y, k, r)
    ensures CommitsOwnTerm(y, k, r)
  {
    var m := y.appends[k];
    var s := y.servers[m.args.leader];
    var s' := HandleReply(s, r, m.args, m.to).0;
    if s.commitIndex < s'.commitIndex < |s'.log| {
      ReachesBatch(y, k, r);
      OwnTermFrom(y, k, r, s'.commitIndex);
    }
  }

  /** From the end of a batch whose last entry is of its term, a leader's log is of its term. */
  lemma OwnTermFrom(y: System, k: nat, r: AppendReply, i: nat)
    requires Inv(y) && Counts(y, k, r)
    requires var m := y.appends[k];
      var s := y.servers[m.args.leader];
      && m.args.entries != [] && m.args.entries[|m.args.entries| - 1].term == s.term
      && |m.snapshot| - 1 <= i < |s.log|
    ensures var s := y.servers[y.appends[k].args.leader]; s.log[i].term == s.term
  {
    var m := y.appends[k];
    var s := y.servers[m.args.leader];
    assert AppendOk(y, m) && ServerOk(y, m.args.leader) && ReignOk(y, m.args.term);
    var q := |m.snapshot| - 1;
    assert m.snapshot[q] == m.args.entries[|m.args.entries| - 1];
    assert s.log[q].term <= s.log[i].term;
  }

  /** The commit then reaches the end of the acknowledged batch. */
  lemma ReachesBatch(y: System, k: nat, r: AppendReply)
    requires Inv(y) && |y.servers| <= 3 && Counts(y, k, r)
    requires var s := y.servers[y.appends[k].args.leader];
      var s' := HandleReply(s, r, y.appends[k].args, y.appends[k].to).0;
      s.commitIndex < s'.commitIndex < |s'.log|
    ensures var s' := HandleReply(y.servers[y.appends[k].args.leader], r, y.appends[k].args, y.appends[k].to).0;
      |y.appends[k].snapshot| - 1 <= s'.commitIndex
  {
    var m := y.appends[k];
    var l := m.args.leader;
    var s' := HandleReply(y.servers[l], r, m.args, m.to).0;
    AcknowledgedBoth(y, k, r);
    assert CommitScan(s'.matchIndex, |s'.log|, y.servers[l].commitIndex) == s'.commitIndex;
    if s'.commitIndex < |m.snapshot| - 1 {
      PairIsMajority(s'.matchIndex, l, m.to, s'.commitIndex + 1);
    }
  }

  /** Then the leader and the server that answered both reach the end of the batch. */
  lemma AcknowledgedBoth(y: System, k: nat, r: AppendReply)
    requires Inv(y) && Counts(y, k, r)
    ensures var m := y.appends[k];
      var s' := HandleReply(y.servers[m.args.leader], r, m.args, m.to).0;
      && |s'.matchIndex| == |y.servers| && m.args.leader < |s'.matchIndex| && m.to < |s'.matchIndex|
      && m.args.leader != m.to
      && s'.matchIndex[m.args.leader] >= |m.snapshot| - 1 && s'.matchIndex[m.to] == |m.snapshot| - 1
      && |m.snapshot| <= |s'.log|
  {
    var m := y.appends[k];
    assert AppendOk(y, m) && ServerOk(y, m.args.leader) && ReignOk(y, m.args.term);
  }

  lemma RunPrefix(hs: set<Hypothesis>, n: nat, states: seq<System>, steps: seq<Step>, k: nat)
    requires RunUnder(hs, n, states, steps) && k <= |steps|
    ensures RunUnder(hs, n, states[..k + 1], steps[..k])
  {
    assert forall i :: 0 <= i <= k ==> states[..k + 1][i] == states[i];
    assert forall i :: 0 <= i < k ==> steps[..k][i] == steps[i];
  }

  lemma SmallStepObeys(y: System, step: Step, z: System)
    requires Inv(y) && |y.servers| <= 3 && LeadsTo({Ha, Hb}, y, step, z)
    ensures LeadsTo(ALL, y, step, z)
  {
    if step.Respond? {
      SmallClustersCommitOwnTerm(y, step.k, step.r);
    }
  }

  /** So for one to three servers safety needs only H-a and H-b. */
  lemma {:induction false} SmallRunsAreRuns(n: nat, states: seq<System>, steps: seq<Step>)
    requires 1 <= n <= 3 && RunUnder({Ha, Hb}, n, states, steps)
    ensures Run(n, states, steps)
    decreases |steps|
  {
    if |steps| > 0 {
      var k := |steps| - 1;
      RunPrefix({Ha, Hb}, n, states, steps, k);
      SmallRunsAreRuns(n, states[..k + 1], steps[..k]);
      RunInv(n, states[..k + 1], steps[..k], k);
      SmallStepObeys(states[k], steps[k], states[k + 1]);
      OneStepMore(ALL, n, states, steps);
    }
  }

  lemma OneStepMore(hs: set<Hypothesis>, n: nat, states: seq<System>, steps: seq<Step>)
    requires |steps| > 0 && |states| == |steps| + 1
    requires RunUnder(hs, n, states[..|steps|], steps[..|steps| - 1])
    requires LeadsTo(hs, states[|steps| - 1], steps[|steps| - 1], states[|steps|])
    ensures RunUnder(hs, n, states, steps)
  {
    var k := |steps| - 1;
    assert forall i :: 0 <= i <= k ==> states[..k + 1][i] == states[i];
    assert forall i :: 0 <= i < k ==> steps[..k][i] == steps[i];
  }
}
