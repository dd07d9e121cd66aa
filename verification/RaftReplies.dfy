/** What the replies of a peer say, and what they do to the peer that asked: both ends of
    the two RPCs over whole crash-free runs, with no hypothesis. */
module RaftReplies {
  import opened Collections
  import opened RaftServer
  import opened RaftSystem
  import opened RaftInvariant
  import opened RaftBasics

  // ----- what only grows -------------------------------------------------------

  /** Terms only rise, and nothing sent is taken back. */
  ghost predicate Onward(y: System, z: System) {
    && |z.servers| == |y.servers| && y.appends <= z.appends && y.acks <= z.acks && y.ballots <= z.ballots
    && forall l :: 0 <= l < |y.servers| ==> y.servers[l].term <= z.servers[l].term
  }

  lemma StepOnward(y: System, step: Step)
    requires Enabled(y, step)
    ensures Onward(y, Do(y, step))
  {
    match step
    case Deliver(k) => HandledShape(y.servers[y.appends[k].to], y.appends[k].args);
    case Respond(k, r) => RespondOnward(y, k, r);
    case _ =>
  }

  lemma RespondOnward(y: System, k: nat, r: AppendReply)
    requires Enabled(y, Respond(k, r))
    ensures Onward(y, Do(y, Respond(k, r)))
  {
  }

  lemma {:induction false} RunOnward(n: nat, states: seq<System>, steps: seq<Step>, i: nat, j: nat)
    requires AnyRun(n, states, steps) && i <= j < |states|
    ensures Onward(states[i], states[j])
    decreases j
  {
    if i < j {
      RunOnward(n, states, steps, i, j - 1);
      assert LeadsTo({}, states[j - 1], steps[j - 1], states[j]);
      StepOnward(states[j - 1], steps[j - 1]);
      assert states[i].appends <= states[j - 1].appends <= states[j].appends;
    }
  }

  /** Server s after it has heard of term t. */
  function Deposed(s: Server, t: nat): Server {
    if s.term < t then s.(term := t, votedFor := -1, role := Follower) else s
  }

  /** Server l is past term t: it neither stands in t nor leads it. */
  ghost predicate Past(y: System, l: nat, t: nat) {
    l < |y.servers| && y.servers[l].term > t
  }

  // ----- votes -----------------------------------------------------------------

  /** `log` is at least as up to date as `than`, in the order of their last entries. */
  predicate NotBehind(log: Log, than: Log)
    requires |log| > 0 && |than| > 0
  {
    var a, b := log[|log| - 1].term, than[|than| - 1].term;
    a > b || (a == b && |log| >= |than|)
  }

  /** Voter v grants candidate c its vote in term t: it comes to t with a log that the
      candidate's is not behind, or it is in t, voted for c already, and does not lead. */
  ghost predicate Grants(y: System, v: nat, c: nat, t: nat)
    requires v < |y.servers| && |y.servers[v].log| > 0 && (c, t) in y.polls && |y.polls[(c, t)].log| > 0
  {
    var s := y.servers[v];
    if s.term < t then NotBehind(y.polls[(c, t)].log, s.log)
    else s.term == t && s.role != Leader && (v, t) in y.votes && y.votes[(v, t)] == c
  }

  /** A request for a vote is answered with the voter's own term as it was, a voter in the
      candidate's term or a later one stays as it is, and any other moves to that term with
      or without a vote. */
  lemma VoteDecides(n: nat, states: seq<System>, steps: seq<Step>, i: nat)
    requires n >= 1 && AnyRun(n, states, steps) && i < |steps| && steps[i].Vote?
    ensures Enabled(states[i], steps[i])
    ensures var Vote(v, c, t) := steps[i];
      var y, z := states[i], states[i + 1];
      var s, granted := y.servers[v], Grants(y, v, c, t);
      && z.ballots == y.ballots + {Ballot(v, c, t, VoteReply(s.term, granted))}
      && z.servers == y.servers[v := if s.term < t then Deposed(s, t).(votedFor := if granted then c else -1) else s]
  {
    AnyRunBase(n, states, steps, i);
    assert LeadsTo({}, states[i], steps[i], states[i + 1]);
    assert Sound(states[i], steps[i].v);
  }

  /** The turn of a vote loop that counts a ballot of a newer term leaves the candidate in
      at least that term, as a follower without a vote if it was in a lower one, and it never
      stands in its old term or leads it again. */
  lemma NewerBallotDeposes(n: nat, states: seq<System>, steps: seq<Step>, j: nat, k: nat)
    requires n >= 1 && AnyRun(n, states, steps) && j < k < |states| && steps[j].Count?
    requires steps[j].reply.term > steps[j].t
    requires (steps[j].c, steps[j].t) in states[j].polls && states[j].polls[(steps[j].c, steps[j].t)].next != steps[j].c
    ensures Enabled(states[j], steps[j])
    ensures var Count(c, t, reply) := steps[j];
      && states[j + 1].servers == states[j].servers[c := Deposed(states[j].servers[c], reply.term)]
      && Past(states[k], c, t) && states[k].servers[c].term >= reply.term
  {
    assert LeadsTo({}, states[j], steps[j], states[j + 1]);
    RunOnward(n, states, steps, j + 1, k);
  }

  /** Both together: a candidate that counts the answer of a voter in a newer term than its
      own is refused, learns that term, and is past its candidacy for good. */
  lemma StaleCandidateStandsDown(n: nat, states: seq<System>, steps: seq<Step>, i: nat, j: nat, k: nat, r: VoteReply)
    requires n >= 1 && AnyRun(n, states, steps) && i < j < k < |states| && steps[i].Vote?
    requires steps[i].v < |states[i].servers| && states[i].servers[steps[i].v].term > steps[i].t
    requires states[i + 1].ballots == states[i].ballots + {Ballot(steps[i].v, steps[i].c, steps[i].t, r)}
    requires Ballot(steps[i].v, steps[i].c, steps[i].t, r) !in states[i].ballots
    requires steps[j] == Count(steps[i].c, steps[i].t, r) && (steps[i].c, steps[i].t) in states[j].polls
    requires states[j].polls[(steps[i].c, steps[i].t)].next == steps[i].v
    ensures !r.granted && r.term == states[i].servers[steps[i].v].term
    ensures Past(states[k], steps[i].c, steps[i].t) && states[k].servers[steps[i].c].term >= r.term
  {
    VoteDecides(n, states, steps, i);
    NewerBallotDeposes(n, states, steps, j, k);
  }

  /** A poll makes a leader if and only if it has a majority and its candidate still stands
      in that term; the new leader will first probe every peer at the end of its log, and
      knows of no copy but its own. */
  lemma WinDecides(n: nat, states: seq<System>, steps: seq<Step>, i: nat)
    requires n >= 1 && AnyRun(n, states, steps) && i < |steps| && steps[i].Win?
    ensures Enabled(states[i], steps[i])
    ensures var Win(c, t) := steps[i];
      var y, z := states[i], states[i + 1];
      var s, s' := y.servers[c], z.servers[c];
      && y.polls[(c, t)].granted > n / 2 && |y.servers| == n
      && z.servers == y.servers[c := s']
      && (if s.term == t && s.role == Candidate then
            && s' == s.(role := Leader, nextIndex := s'.nextIndex, matchIndex := s'.matchIndex)
            && |s'.nextIndex| == |s'.matchIndex| == n
            && forall j :: 0 <= j < n ==>
                 s'.nextIndex[j] == |s.log| && s'.matchIndex[j] == if j == c then |s.log| - 1 else 0
          else s' == s)
  {
    AnyRunBase(n, states, steps, i);
    assert LeadsTo({}, states[i], steps[i], states[i + 1]);
  }

  // ----- appended entries ------------------------------------------------------

  /** The request can be taken over: the receiver is in no newer term, its log starts with
      the leader's up to the entry before the batch, and the batch, if there is one, does not
      take the receiver back. */
  ghost predicate Fits(s: Server, m: Append)
    requires |s.log| > 0 && |m.snapshot| > 0 && m.args.prevIndex < |m.snapshot|
  {
    s.term <= m.args.term && !Refuses(s, m) && m.snapshot[..m.args.prevIndex + 1] <= s.log
  }

  /** The request has entries and the leader's log is behind the receiver's. */
  ghost predicate Refuses(s: Server, m: Append)
    requires |s.log| > 0 && |m.snapshot| > 0
  {
    m.args.prevIndex < |m.snapshot| - 1 && !NotBehind(m.snapshot, s.log)
  }

  /** Where a receiver that does not match sends the leader: to its last entry if the probe
      is beyond it, else to the entry before those of the probed entry's term, but not below
      its commit index. */
  ghost predicate Points(s: Server, probe: nat, p: nat)
    requires |s.log| > 0
  {
    if probe >= |s.log| then p == |s.log| - 1
    else
      && p <= probe && (forall j :: p < j <= probe ==> s.log[j].term == s.log[probe].term)
      && (p == probe || p >= s.commitIndex) && (p <= s.commitIndex || s.log[p].term != s.log[probe].term)
  }

  /** What request k finds on arrival decides everything: whether the receiver ends with the
      leader's log as it was sent or keeps its own, the term it is in, and the reply. */
  lemma DeliveryDecides(n: nat, states: seq<System>, steps: seq<Step>, i: nat) returns (r: AppendReply)
    requires n >= 1 && AnyRun(n, states, steps) && i < |steps| && steps[i].Deliver?
    ensures Enabled(states[i], steps[i])
    ensures var y, k := states[i], steps[i].k;
      var m := y.appends[k];
      var s := y.servers[m.to];
      && |m.snapshot| > 0 && m.args.prevIndex < |m.snapshot| && m.args.leader < n
      && states[i + 1].acks == y.acks + {Ack(k, r)}
      && (r.success <==> Fits(s, m))
      && (r.term == if s.term <= m.args.term && Refuses(s, m) then -1 else s.term)
      && (!r.success && 0 <= r.term <= m.args.term ==>
            Points(s, m.args.prevIndex, r.newIndex) && r.newTerm == s.log[r.newIndex].term)
    ensures var y, k := states[i], steps[i].k;
      var m := y.appends[k];
      states[i + 1].servers == y.servers[m.to := After(y.servers[m.to], m, r.success)]
  {
    AnyRunBase(n, states, steps, i);
    assert LeadsTo({}, states[i], steps[i], states[i + 1]);
    var y, k := states[i], steps[i].k;
    var m := y.appends[k];
    r := AppendEntries(y.servers[m.to], m.args).1;
    ReplySays(y, k);
    ServerAfter(y, k);
  }

  lemma ReplySays(y: System, k: nat)
    requires Base(y) && Enabled(y, Deliver(k))
    ensures var m := y.appends[k];
      var s := y.servers[m.to];
      var r := AppendEntries(s, m.args).1;
      && |m.snapshot| > 0 && m.args.prevIndex < |m.snapshot| && m.args.leader < |y.servers|
      && (r.success <==> Fits(s, m))
      && (r.term == if s.term <= m.args.term && Refuses(s, m) then -1 else s.term)
      && (!r.success && 0 <= r.term <= m.args.term ==>
            Points(s, m.args.prevIndex, r.newIndex) && r.newTerm == s.log[r.newIndex].term)
  {
    var m := y.appends[k];
    assert Sent(y, m) && Sound(y, m.to) && Won(y, m.args.term);
    SamePrefix(y, k);
    BatchEnds(m, y.servers[m.to]);
  }

  lemma ServerAfter(y: System, k: nat)
    requires Base(y) && Enabled(y, Deliver(k))
    ensures var m := y.appends[k];
      var (f, r) := AppendEntries(y.servers[m.to], m.args);
      f == After(y.servers[m.to], m, r.success)
  {
    var m := y.appends[k];
    HandledShape(y.servers[m.to], m.args);
    HandledCommit(y.servers[m.to], m.args);
    if AppendEntries(y.servers[m.to], m.args).1.success { TakesSnapshot(y, k); }
  }

  lemma HandledCommit(s: Server, a: AppendArgs)
    requires |s.log| > 0
    ensures var (f, r) := AppendEntries(s, a);
      f.commitIndex ==
      if r.success && s.commitIndex < a.leaderCommit then Min(a.leaderCommit, |f.log|) else s.commitIndex
  {
  }

  /** Server s after request m: one that is taken over brings the leader's log, and if the
      leader's commit index is higher, that or the length of the log, whichever is less; a
      refusal brings neither. */
  function After(s: Server, m: Append, taken: bool): Server {
    var f := Deposed(s, m.args.term);
    var c := m.args.leaderCommit;
    if taken
    then f.(log := m.snapshot, commitIndex := if s.commitIndex < c then Min(c, |m.snapshot|) else s.commitIndex)
    else f
  }

  /** By log matching, the entry before the batch is the leader's if and only if all up to it are. */
  lemma SamePrefix(y: System, k: nat)
    requires Base(y) && k < |y.appends|
    ensures Sent(y, y.appends[k]) && |y.servers[y.appends[k].to].log| > 0
    ensures var m := y.appends[k];
      var s := y.servers[m.to];
      m.snapshot[..m.args.prevIndex + 1] <= s.log <==>
        m.args.prevIndex < |s.log| && s.log[m.args.prevIndex].term == m.args.prevTerm
  {
    var m := y.appends[k];
    var s := y.servers[m.to];
    var log := y.reigns[m.args.term].log;
    assert Sent(y, m) && Sound(y, m.to) && Won(y, m.args.term);
    assert m.snapshot == log[..|m.snapshot|];
    PrefixIsGood(log, |m.snapshot|, y.reigns);
    var p := m.args.prevIndex;
    if m.snapshot[..p + 1] <= s.log {
      assert m.snapshot[..p + 1][p] == s.log[p];
    } else if p < |s.log| && s.log[p].term == m.args.prevTerm {
      LogMatching(s.log, m.snapshot, p, y.reigns);
    }
  }

  /** The last entry of the batch is the leader's last. */
  lemma BatchEnds(m: Append, s: Server)
    requires |s.log| > 0 && m.args.prevIndex < |m.snapshot| && m.args.entries == m.snapshot[m.args.prevIndex + 1..]
    ensures Outdated(m.args, s.log) <==> Refuses(s, m)
  {
    if m.args.entries != [] {
      assert m.args.entries[|m.args.entries| - 1] == m.snapshot[|m.snapshot| - 1];
    }
  }

  /** A reply of a newer term, whenever it comes and whatever the sender is by then, only
      moves it on: follower of that term without a vote if it was in a lower one, log and
      indices untouched, no further probe, and never again leader of the request's term. */
  lemma NewerReplyDeposes(n: nat, states: seq<System>, steps: seq<Step>, j: nat, l: nat)
    requires n >= 1 && AnyRun(n, states, steps) && j < l < |states| && steps[j].Respond?
    requires steps[j].k < |states[j].appends| && steps[j].r.term > states[j].appends[steps[j].k].args.term
    ensures Enabled(states[j], steps[j])
    ensures var a, r := states[j].appends[steps[j].k].args, steps[j].r;
      && states[j + 1] == states[j].(servers := states[j].servers[a.leader :=
           Deposed(states[j].servers[a.leader], r.term)])
      && Past(states[l], a.leader, a.term) && states[l].servers[a.leader].term >= r.term
  {
    assert LeadsTo({}, states[j], steps[j], states[j + 1]);
    RunOnward(n, states, steps, j + 1, l);
  }

  /** Both ends: a request that reaches a peer in a newer term is refused with that term; the
      reply can be handled at any later time; and from then on its sender is past the term
      it sent in. */
  lemma NewerPeerDeposes(n: nat, states: seq<System>, steps: seq<Step>, i: nat) returns (r: AppendReply)
    requires n >= 1 && AnyRun(n, states, steps) && i < |steps| && steps[i].Deliver?
    requires steps[i].k < |states[i].appends| && states[i].appends[steps[i].k].to < |states[i].servers|
    requires states[i].servers[states[i].appends[steps[i].k].to].term > states[i].appends[steps[i].k].args.term
    ensures var k := steps[i].k;
      var m := states[i].appends[k];
      && states[i + 1].acks == states[i].acks + {Ack(k, r)}
      && !r.success && r.term == states[i].servers[m.to].term
      && (forall j :: i < j < |states| ==> Enabled(states[j], Respond(k, r)))
      && (forall j, l :: i < j < l < |states| && steps[j] == Respond(k, r) ==>
            Past(states[l], m.args.leader, m.args.term) && states[l].servers[m.args.leader].term >= r.term)
  {
    r := DeliveryDecides(n, states, steps, i);
    forall j | i < j < |states| ensures StillAnswers(states[i], states[j], steps[i].k, r) {
      AnswerStays(n, states, steps, i, j, steps[i].k, r);
    }
    forall j, l | i < j < l < |states| && steps[j] == Respond(steps[i].k, r)
      ensures Past(states[l], states[i].appends[steps[i].k].args.leader, states[i].appends[steps[i].k].args.term)
      ensures states[l].servers[states[i].appends[steps[i].k].args.leader].term >= r.term
    {
      assert StillAnswers(states[i], states[j], steps[i].k, r);
      NewerReplyDeposes(n, states, steps, j, l);
    }
  }

  /** Request k is the one it was, and reply r to it can be handled. */
  ghost predicate StillAnswers(y: System, z: System, k: nat, r: AppendReply) {
    k < |y.appends| <= |z.appends| && z.appends[k] == y.appends[k] && Enabled(z, Respond(k, r))
  }

  lemma AnswerStays(n: nat, states: seq<System>, steps: seq<Step>, i: nat, j: nat, k: nat,
      r: AppendReply)
    requires n >= 1 && AnyRun(n, states, steps) && i < j < |states| && k < |states[i].appends|
    requires Ack(k, r) in states[i + 1].acks && r.term > states[i].appends[k].args.term
    requires states[i].appends[k].args.leader < n
    ensures StillAnswers(states[i], states[j], k, r)
  {
    RunOnward(n, states, steps, 0, j);
    RunOnward(n, states, steps, i, j);
    RunOnward(n, states, steps, i + 1, j);
  }

  // ----- where the leader goes on ----------------------------------------------

  /** Step j handles the reply that the delivery of step i gave: a refusal to try lower. */
  ghost predicate SendsLower(states: seq<System>, steps: seq<Step>, i: nat, j: nat) {
    && i < j < |steps| == |states| - 1 && steps[i].Deliver? && steps[j].Respond?
    && steps[i].k == steps[j].k < |states[i].appends|
    && Ack(steps[j].k, steps[j].r) !in states[i].acks
    && states[i + 1].acks == states[i].acks + {Ack(steps[j].k, steps[j].r)}
    && !steps[j].r.success && 0 <= steps[j].r.term <= states[i].appends[steps[i].k].args.term
  }

  /** Log matching between any two moments of a run: whatever one server's log was and another's
      has become, where they agree on a term they agree up to there. */
  lemma LogMatchingOverTime(n: nat, states: seq<System>, steps: seq<Step>, i: nat, j: nat, a: nat, b: nat, p: nat)
    requires n >= 1 && AnyRun(n, states, steps) && i <= j < |states|
    requires a < |states[i].servers| && b < |states[j].servers|
    requires p < |states[i].servers[a].log| && p < |states[j].servers[b].log|
    requires states[i].servers[a].log[p].term == states[j].servers[b].log[p].term
    ensures states[i].servers[a].log[..p + 1] == states[j].servers[b].log[..p + 1]
  {
    AnyRunBase(n, states, steps, i);
    AnyRunBase(n, states, steps, j);
    ReignsLast(n, states, steps, i, j);
    assert Sound(states[i], a) && Sound(states[j], b);
    GoodLogGrows(states[i].servers[a].log, states[i].reigns, states[j].reigns);
    LogMatching(states[i].servers[a].log, states[j].servers[b].log, p, states[j].reigns);
  }

  /** Fast backtracking, from the receiver's refusal to the sender's next probe, however late
      the refusal comes: the next probe follows an entry up to which the two logs agree, or is
      the place the receiver pointed to, where they differ. */
  lemma RefusalPoints(n: nat, states: seq<System>, steps: seq<Step>, i: nat, j: nat) returns (p: nat, next: nat)
    requires n >= 1 && AnyRun(n, states, steps) && SendsLower(states, steps, i, j)
    ensures Enabled(states[i], steps[i]) && Enabled(states[j], steps[j])
    ensures var m := states[i].appends[steps[i].k];
      m.args.leader < |states[j].servers| &&
      var f, s := states[i].servers[m.to], states[j].servers[m.args.leader];
      && Points(f, m.args.prevIndex, p) && p < |s.log| && p < |f.log|
      && states[j + 1] == states[j].(beats := states[j].beats + {Beat(m.args.leader, m.to, next, m.args.term)})
      && (if s.log[p].term == f.log[p].term then next == p + 1 && s.log[..p + 1] == f.log[..p + 1] else next == p)
  {
    var r := DeliveryDecides(n, states, steps, i);
    assert r == steps[j].r;
    assert LeadsTo({}, states[j], steps[j], states[j + 1]);
    RunOnward(n, states, steps, i, j);
    var m := states[i].appends[steps[i].k];
    assert m == states[j].appends[steps[j].k];
    var s := states[j].servers[m.args.leader];
    p := r.newIndex;
    next := if s.log[p].term == r.newTerm then p + 1 else p;
    if s.log[p].term == r.newTerm {
      RunOnward(n, states, steps, 0, i);
      RunOnward(n, states, steps, 0, j);
      LogMatchingOverTime(n, states, steps, i, j, m.to, m.args.leader, p);
    }
  }

  /** In particular a leader needs one refusal to find the end of a log that is a beginning
      of its own. */
  lemma ShortLogIsFound(n: nat, states: seq<System>, steps: seq<Step>, i: nat, j: nat)
    requires n >= 1 && AnyRun(n, states, steps) && SendsLower(states, steps, i, j)
    requires var m := states[i].appends[steps[i].k];
      && m.to < |states[i].servers| && Leads(states[j], m.args.leader, m.args.term)
      && states[i].servers[m.to].log <= states[j].servers[m.args.leader].log
    ensures var m := states[i].appends[steps[i].k];
      Beat(m.args.leader, m.to, |states[i].servers[m.to].log|, m.args.term) in states[j + 1].beats
  {
    var p, next := RefusalPoints(n, states, steps, i, j);
    var m := states[i].appends[steps[i].k];
    var f := states[i].servers[m.to];
    AnyRunBase(n, states, steps, i);
    AnyRunBase(n, states, steps, j);
    RunOnward(n, states, steps, i, j);
    var r := DeliveryDecides(n, states, steps, i);
    assert Sound(states[i], m.to) && Won(states[j], m.args.term) && Sent(states[j], states[j].appends[steps[j].k]);
    StartsAlike(m.snapshot, f.log, states[j].servers[m.args.leader].log, m.args.prevIndex + 1);
  }

  lemma StartsAlike(a: Log, b: Log, whole: Log, k: nat)
    requires a <= whole && b <= whole && k <= |a|
    ensures k <= |b| ==> a[..k] <= b
  {
    if k <= |b| {
      assert a[..k] == whole[..k] == b[..k];
    }
  }
}
