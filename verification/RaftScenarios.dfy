/** Building blocks of concrete runs: from a reachable state, one or a few steps lead to
    another one, and only what the later steps look at is said of it.

    Blocks exist for an election by two votes, a proposal, a request taken over or lost, a
    reply that is counted, a commit, and one round of the apply loop; a run under a set of
    hypotheses is put together from them, each block adding its steps to the run so far. */
module RaftScenarios {
  import opened RaftServer
  import opened RaftSystem

  /** Some run of n peers under the hypotheses hs ends in y. */
  ghost predicate Reached(hs: set<Hypothesis>, n: nat, y: System) {
    exists states, steps :: RunUnder(hs, n, states, steps) && states[|steps|] == y
  }

  lemma Begin(hs: set<Hypothesis>, n: nat) returns (y: System)
    ensures Reached(hs, n, y) && y == Init(n)
  {
    y := Init(n);
    assert RunUnder(hs, n, [y], []);
  }

  lemma Then(hs: set<Hypothesis>, n: nat, y: System, step: Step) returns (z: System)
    requires Reached(hs, n, y) && Enabled(y, step) && Obeys(hs, y, step)
    ensures Reached(hs, n, z) && z == Do(y, step)
  {
    z := Do(y, step);
    var states, steps :| RunUnder(hs, n, states, steps) && states[|steps|] == y;
    Longer(hs, n, states, steps, step, z);
  }

  lemma Longer(hs: set<Hypothesis>, n: nat, states: seq<System>, steps: seq<Step>, step: Step, z: System)
    requires RunUnder(hs, n, states, steps) && LeadsTo(hs, states[|steps|], step, z)
    ensures RunUnder(hs, n, states + [z], steps + [step]) && (states + [z])[|steps + [step]|] == z
  {
    var states', steps' := states + [z], steps + [step];
    forall i | 0 <= i < |steps'| ensures LeadsTo(hs, states'[i], steps'[i], states'[i + 1]) {
      if i < |steps| { assert steps'[i] == steps[i]; }
    }
  }

  /** Requests, replies and applied messages are as before. */
  ghost predicate Quiet(y: System, z: System) {
    z.appends == y.appends && z.acks == y.acks && z.applied == y.applied
  }

  // ----- elections -------------------------------------------------------------

  lemma Stand(hs: set<Hypothesis>, n: nat, y: System, c: nat) returns (z: System)
    requires Reached(hs, n, y) && c < |y.servers| && y.servers[c].role != Leader
    ensures Reached(hs, n, z) && Quiet(y, z) && z.servers == y.servers[c := BeginElection(y.servers[c], c)]
    ensures var t := y.servers[c].term + 1; (c, t) in z.polls && z.polls[(c, t)] == Poll(y.servers[c].log, 0, 1, 1, {c})
  {
    z := Then(hs, n, y, Timeout(c));
  }

  /** The RPC to the next peer is lost, or the next peer is the candidate itself. */
  lemma Skip(hs: set<Hypothesis>, n: nat, y: System, c: nat, t: nat) returns (z: System)
    requires Reached(hs, n, y) && c < |y.servers| && (c, t) in y.polls && !PollOver(y.polls[(c, t)], |y.servers|)
    ensures Reached(hs, n, z) && Quiet(y, z) && z.servers == y.servers
    ensures (c, t) in z.polls && z.polls[(c, t)] == Tally(y.polls[(c, t)], c, NO_VOTE)
  {
    z := Then(hs, n, y, Count(c, t, NO_VOTE));
  }

  /** The next peer votes for the candidate. */
  lemma Grant(hs: set<Hypothesis>, n: nat, y: System, c: nat, t: nat) returns (z: System)
    requires Reached(hs, n, y) && c < |y.servers| && (c, t) in y.polls && !PollOver(y.polls[(c, t)], |y.servers|)
    requires var p := y.polls[(c, t)];
      var s := y.servers[p.next];
      p.next != c && |p.log| > 0 && |s.log| > 0 && s.term < t && UpToDate(LastTerm(p.log), LastIndex(p.log), s.log)
    ensures Reached(hs, n, z) && Quiet(y, z)
    ensures var v := y.polls[(c, t)].next; z.servers == y.servers[v := StepDown(y.servers[v], t).(votedFor := c)]
    ensures (c, t) in z.polls && z.polls[(c, t)] == Tally(y.polls[(c, t)], c, VoteReply(0, true))
  {
    var v := y.polls[(c, t)].next;
    var x := Then(hs, n, y, Vote(v, c, t));
    z := Then(hs, n, x, Count(c, t, VoteReply(y.servers[v].term, true)));
  }

  /** A server asked for its vote refuses it, but moves to the newer term; a leader steps down. */
  lemma Canvass(hs: set<Hypothesis>, n: nat, y: System, v: nat, c: nat, t: nat) returns (z: System)
    requires Reached(hs, n, y) && v < |y.servers| && v != c && (c, t) in y.polls
    requires var p, s := y.polls[(c, t)], y.servers[v];
      |p.log| > 0 && |s.log| > 0 && s.term < t && !UpToDate(LastTerm(p.log), LastIndex(p.log), s.log)
    ensures Reached(hs, n, z) && Quiet(y, z) && z.servers == y.servers[v := StepDown(y.servers[v], t)]
    ensures z.polls == y.polls
  {
    z := Then(hs, n, y, Vote(v, c, t));
  }

  lemma Crown(hs: set<Hypothesis>, n: nat, y: System, c: nat, t: nat) returns (z: System)
    requires Reached(hs, n, y) && c < |y.servers| && (c, t) in y.polls && y.polls[(c, t)].granted > |y.servers| / 2
    requires y.servers[c].term == t && y.servers[c].role == Candidate && |y.servers[c].log| > 0
    ensures Reached(hs, n, z) && Quiet(y, z) && z.polls == y.polls
    ensures z.servers == y.servers[c := WinElection(y.servers[c], c, |y.servers|, t)]
  {
    z := Then(hs, n, y, Win(c, t));
  }

  /** Server c of three wins the next term with the vote of v; no RPC reaches the third. */
  lemma ElectOfThree(hs: set<Hypothesis>, y: System, c: nat, v: nat) returns (z: System)
    requires Reached(hs, 3, y) && |y.servers| == 3 && c < 3 && v < 3 && c != v && y.servers[c].role != Leader
    requires y.servers[v].term <= y.servers[c].term && |y.servers[v].log| > 0 && |y.servers[c].log| > 0
    requires UpToDate(LastTerm(y.servers[c].log), LastIndex(y.servers[c].log), y.servers[v].log)
    ensures Reached(hs, 3, z) && Quiet(y, z)
    ensures var t := y.servers[c].term + 1; (c, t) in z.polls && z.polls[(c, t)].log == y.servers[c].log
    ensures var s, t := y.servers[c], y.servers[c].term + 1;
      z.servers == y.servers[c := WinElection(BeginElection(s, c), c, 3, t)]
                   [v := StepDown(y.servers[v], t).(votedFor := c)]
  {
    var t := y.servers[c].term + 1;
    z := Stand(hs, 3, y, c);
    while z.polls[(c, t)].next < v
      invariant Reached(hs, 3, z) && Quiet(y, z) && z.servers == y.servers[c := BeginElection(y.servers[c], c)]
      invariant (c, t) in z.polls
      invariant var p := z.polls[(c, t)];
        && p.log == y.servers[c].log && p.next <= v && p.granted == 1 && p.asked <= 2
        && (p.asked == 2 ==> p.next > 0 && !(c == 0 && p.next == 1))
      decreases v - z.polls[(c, t)].next
    {
      z := Skip(hs, 3, z, c, t);
    }
    z := Grant(hs, 3, z, c, t);
    z := Crown(hs, 3, z, c, t);
  }

  /** The poll after the peers below `upto`, of which `yes` besides c itself voted for c. */
  predicate Asked(p: Poll, log: Log, c: nat, upto: nat, yes: nat) {
    p.log == log && p.next == upto && p.granted == 1 + yes && p.asked == 1 + upto - (if c < upto then 1 else 0)
  }

  lemma SkipTo(hs: set<Hypothesis>, n: nat, y: System, c: nat, t: nat, upto: nat, yes: nat) returns (z: System)
    requires Reached(hs, n, y) && n == |y.servers| && 4 <= n <= 5 && c < n && (c, t) in y.polls
    requires var p := y.polls[(c, t)];
      && p.next <= upto < n && upto != c && yes <= 1 && Asked(p, p.log, c, p.next, yes)
      && upto - yes - (if c < upto then 1 else 0) <= 2
    ensures Reached(hs, n, z) && Quiet(y, z) && z.servers == y.servers
    ensures (c, t) in z.polls && Asked(z.polls[(c, t)], y.polls[(c, t)].log, c, upto, yes)
  {
    z := y;
    while z.polls[(c, t)].next < upto
      invariant Reached(hs, n, z) && Quiet(y, z) && z.servers == y.servers && (c, t) in z.polls
      invariant z.polls[(c, t)].next <= upto
      invariant Asked(z.polls[(c, t)], y.polls[(c, t)].log, c, z.polls[(c, t)].next, yes)
      decreases upto - z.polls[(c, t)].next
    {
      z := Skip(hs, n, z, c, t);
    }
  }

  /** v is in an older term than t and finds c's log up to date. */
  predicate Supports(s: Server, log: Log, t: nat) {
    |log| > 0 && |s.log| > 0 && s.term < t && UpToDate(LastTerm(log), LastIndex(log), s.log)
  }

  /** Server c of four or five wins the next term with the votes of v and w alone. */
  lemma ElectByTwo(hs: set<Hypothesis>, n: nat, y: System, c: nat, v: nat, w: nat) returns (z: System)
    requires Reached(hs, n, y) && |y.servers| == n && 4 <= n <= 5 && c < n && v < w < n && c != v && c != w
    requires y.servers[c].role != Leader
    requires var s := y.servers[c];
      Supports(y.servers[v], s.log, s.term + 1) && Supports(y.servers[w], s.log, s.term + 1)
    ensures Reached(hs, n, z) && Quiet(y, z)
    ensures var t := y.servers[c].term + 1; (c, t) in z.polls && z.polls[(c, t)].log == y.servers[c].log
    ensures var s, t := y.servers[c], y.servers[c].term + 1;
      z.servers == y.servers[c := WinElection(BeginElection(s, c), c, n, t)]
                   [v := StepDown(y.servers[v], t).(votedFor := c)][w := StepDown(y.servers[w], t).(votedFor := c)]
  {
    var t := y.servers[c].term + 1;
    z := Stand(hs, n, y, c);
    z := SkipTo(hs, n, z, c, t, v, 0);
    z := Grant(hs, n, z, c, t);
    z := SkipTo(hs, n, z, c, t, w, 1);
    z := Grant(hs, n, z, c, t);
    z := Crown(hs, n, z, c, t);
  }

  // ----- replication -----------------------------------------------------------

  lemma Submit(hs: set<Hypothesis>, n: nat, y: System, l: nat, command: Command) returns (z: System)
    requires Reached(hs, n, y) && l < |y.servers| && y.servers[l].role == Leader && l < |y.servers[l].matchIndex|
    ensures Reached(hs, n, z) && Quiet(y, z) && z.servers == y.servers[l := Start(y.servers[l], l, command)]
  {
    z := Then(hs, n, y, Propose(l, command));
  }

  /** One request to `to`, from its nextIndex on, is sent. */
  lemma Request(hs: set<Hypothesis>, n: nat, y: System, l: nat, to: nat) returns (z: System)
    requires Reached(hs, n, y) && l < |y.servers| && to < |y.servers| && to != l
    requires var s := y.servers[l]; s.role == Leader && to < |s.nextIndex| && 1 <= s.nextIndex[to] <= |s.log|
    ensures Reached(hs, n, z) && z.servers == y.servers && z.acks == y.acks && z.applied == y.applied
    ensures var s := y.servers[l]; z.appends == y.appends + [Append(to, MakeAppend(s, l, s.nextIndex[to]), s.log)]
  {
    var s := y.servers[l];
    z := Then(hs, n, y, Tick(l, to));
    z := Then(hs, n, z, Send(Beat(l, to, s.nextIndex[to], s.term)));
  }

  /** A heartbeat loop starts. */
  lemma Begins(hs: set<Hypothesis>, n: nat, y: System, l: nat, to: nat) returns (z: System)
    requires Reached(hs, n, y) && l < |y.servers| && to < |y.servers| && to != l
    requires y.servers[l].role == Leader && to < |y.servers[l].nextIndex|
    ensures Reached(hs, n, z) && z.servers == y.servers
    ensures Beat(l, to, y.servers[l].nextIndex[to], y.servers[l].term) in z.beats
  {
    z := Then(hs, n, y, Tick(l, to));
  }

  /** The request k is lost, and its sender starts again at 1. */
  lemma Lose(hs: set<Hypothesis>, n: nat, y: System, k: nat) returns (z: System)
    requires Reached(hs, n, y) && k < |y.appends| && y.appends[k].args.leader < |y.servers|
    requires var s := y.servers[y.appends[k].args.leader];
      s.role == Leader && s.term == y.appends[k].args.term && |s.log| > 0 && s.log[0].term == 0
    ensures Reached(hs, n, z) && z.servers == y.servers && z.acks == y.acks && z.applied == y.applied
    ensures var l := y.appends[k].args.leader;
      z.appends == y.appends + [Append(y.appends[k].to, MakeAppend(y.servers[l], l, 1), y.servers[l].log)]
  {
    var m := y.appends[k];
    z := Then(hs, n, y, Respond(k, NO_REPLY));
    assert HandleReply(y.servers[m.args.leader], NO_REPLY, m.args, m.to) == (y.servers[m.args.leader], Retry(1));
    z := Then(hs, n, z, Send(Beat(m.args.leader, m.to, 1, m.args.term)));
  }

  /** Request k arrives. */
  lemma Handle(hs: set<Hypothesis>, n: nat, y: System, k: nat) returns (z: System)
    requires Reached(hs, n, y) && k < |y.appends| && y.appends[k].to < |y.servers|
    requires |y.servers[y.appends[k].to].log| > 0
    requires Ha in hs ==> FreshHeartbeat(y, k)
    ensures Reached(hs, n, z) && z.appends == y.appends && z.applied == y.applied
    ensures var m := y.appends[k];
      var (s, reply) := AppendEntries(y.servers[m.to], m.args);
      z.servers == y.servers[m.to := s] && z.acks == y.acks + {Ack(k, reply)}
  {
    z := Then(hs, n, y, Deliver(k));
  }

  /** The reply r to request k comes back. */
  lemma Process(hs: set<Hypothesis>, n: nat, y: System, k: nat, r: AppendReply) returns (z: System)
    requires Reached(hs, n, y) && Enabled(y, Respond(k, r)) && Obeys(hs, y, Respond(k, r))
    ensures Reached(hs, n, z) && Quiet(y, z)
    ensures var m := y.appends[k];
      z.servers == y.servers[m.args.leader := HandleReply(y.servers[m.args.leader], r, m.args, m.to).0]
  {
    z := Then(hs, n, y, Respond(k, r));
  }

  lemma Apply(hs: set<Hypothesis>, n: nat, y: System, i: nat, s: Server, s': Server, msgs: seq<ApplyMsg>)
      returns (z: System)
    requires Reached(hs, n, y) && i < |y.servers| && i < |y.applied| && y.servers[i] == s && s.commitIndex < |s.log|
    requires ApplyCommits(s) == (s', msgs)
    ensures Reached(hs, n, z) && z.appends == y.appends && z.acks == y.acks
    ensures z.servers == y.servers[i := s'] && z.applied == y.applied[i := y.applied[i] + msgs]
  {
    z := Then(hs, n, y, Flush(i));
  }

  /** A request from 1 on that is up to date is taken over. */
  lemma WholeLogIsTaken(f: Server, s: Server, l: nat)
    requires |s.log| > 1 && |f.log| > 0 && s.log[0] == f.log[0] && f.term <= s.term
    requires UpToDate(LastTerm(s.log), LastIndex(s.log), f.log)
    ensures AppendEntries(f, MakeAppend(s, l, 1))
            == (CaughtUp(f, s), AppendReply(true, f.term, LastIndex(f.log), LastTerm(f.log)))
  {
    assert f.log[..1] + s.log[1..] == s.log;
    assert s.log[1..][|s.log[1..]| - 1] == s.log[|s.log| - 1];
  }

  /** Leader s can bring server f to its own log, from 1 on. */
  predicate Transfers(s: Server, f: Server, to: nat) {
    && s.role == Leader && to < |s.nextIndex| && to < |s.matchIndex| && 1 <= s.nextIndex[to] <= |s.log|
    && |s.log| > 1 && |f.log| > 0 && s.log[0].term == 0 && s.log[0] == f.log[0] && f.term <= s.term
    && UpToDate(LastTerm(s.log), LastIndex(s.log), f.log)
  }

  /** Server l sends its whole log to `to`, after one lost request if it starts higher,
      and `to` takes it over; the reply r to request k is under way. */
  lemma Replicate(hs: set<Hypothesis>, n: nat, y: System, l: nat, to: nat) returns (z: System, k: nat, r: AppendReply)
    requires Reached(hs, n, y) && l < |y.servers| && to < |y.servers| && to != l
    requires Transfers(y.servers[l], y.servers[to], to)
    ensures Reached(hs, n, z) && y.appends <= z.appends && y.acks <= z.acks && z.applied == y.applied
    ensures z.servers == y.servers[to := CaughtUp(y.servers[to], y.servers[l])]
    ensures k < |z.appends| && z.appends[k] == Append(to, MakeAppend(y.servers[l], l, 1), y.servers[l].log)
    ensures var f := y.servers[to];
      r == AppendReply(true, f.term, LastIndex(f.log), LastTerm(f.log)) && Ack(k, r) in z.acks
  {
    var s, f := y.servers[l], y.servers[to];
    z := Request(hs, n, y, l, to);
    if s.nextIndex[to] != 1 {
      z := Lose(hs, n, z, |y.appends|);
    }
    k := |z.appends| - 1;
    r := AppendReply(true, f.term, LastIndex(f.log), LastTerm(f.log));
    WholeLogIsTaken(f, s, l);
    z := Handle(hs, n, z, k);
  }

  /** The leader of request k after the success of it, when its scan reaches c. */
  function Noted(s: Server, m: Append, c: nat): Server
    requires m.to < |s.nextIndex| && m.to < |s.matchIndex| && |m.snapshot| > 0
  {
    s.(nextIndex := s.nextIndex[m.to := |m.snapshot|], matchIndex := s.matchIndex[m.to := |m.snapshot| - 1],
      commitIndex := c)
  }

  /** The request carries all of its snapshot from its previous entry on. */
  predicate Whole(m: Append) {
    m.args.prevIndex + 1 + |m.args.entries| == |m.snapshot|
  }

  /** The success r of request k comes back. */
  lemma Note(hs: set<Hypothesis>, n: nat, y: System, k: nat, r: AppendReply, c: nat) returns (z: System)
    requires Reached(hs, n, y) && k < |y.appends| && Ack(k, r) in y.acks && r.success && Whole(y.appends[k])
    requires y.appends[k].args.leader < |y.servers| && r.term <= y.appends[k].args.term
    requires var m := y.appends[k];
      var s := y.servers[m.args.leader];
      && m.to < |s.nextIndex| && m.to < |s.matchIndex| && (Hb in hs ==> s.term == m.args.term)
      && (if m.args.entries != [] && m.args.entries[|m.args.entries| - 1].term == s.term
          then c == CommitScan(s.matchIndex[m.to := |m.snapshot| - 1], |s.log|, s.commitIndex)
          else c == s.commitIndex)
      && (Hc in hs && s.commitIndex < c < |s.log| ==> s.log[c].term == s.term)
    ensures Reached(hs, n, z) && Quiet(y, z)
    ensures var m := y.appends[k]; z.servers == y.servers[m.args.leader := Noted(y.servers[m.args.leader], m, c)]
  {
    var m := y.appends[k];
    var s := y.servers[m.args.leader];
    assert HandleReply(s, r, m.args, m.to) == (Noted(s, m, c), Stop);
    z := Process(hs, n, y, k, r);
  }

  /** And when it hears that it has, its scan goes to c. */
  ghost predicate Commits(hs: set<Hypothesis>, s: Server, f: Server, to: nat, c: nat) {
    && Transfers(s, f, to) && LastTerm(s.log) == s.term
    && c == CommitScan(s.matchIndex[to := |s.log| - 1], |s.log|, s.commitIndex)
    && (Hc in hs && s.commitIndex < c < |s.log| ==> s.log[c].term == s.term)
  }

  function Heard(s: Server, to: nat, c: nat): Server
    requires to < |s.nextIndex| && to < |s.matchIndex| && |s.log| > 0
  {
    s.(nextIndex := s.nextIndex[to := |s.log|], matchIndex := s.matchIndex[to := |s.log| - 1], commitIndex := c)
  }

  /** Both: the whole log is taken over, and the leader hears of it. */
  lemma Commit(hs: set<Hypothesis>, n: nat, y: System, l: nat, to: nat, s: Server, f: Server, c: nat)
      returns (z: System)
    requires Reached(hs, n, y) && l < |y.servers| && to < |y.servers| && to != l && y.servers[l] == s
    requires y.servers[to] == f
    requires Commits(hs, s, f, to, c)
    ensures Reached(hs, n, z) && y.appends <= z.appends && y.acks <= z.acks && z.applied == y.applied
    ensures z.servers == y.servers[to := CaughtUp(f, s)][l := Heard(s, to, c)]
  {
    var k, r;
    z, k, r := Replicate(hs, n, y, l, to);
    assert s.log[1..][|s.log[1..]| - 1] == s.log[|s.log| - 1];
    z := Note(hs, n, z, k, r, c);
  }

  /** A heartbeat without entries to a peer with the same log, and its reply. */
  lemma Pulse(hs: set<Hypothesis>, n: nat, y: System, l: nat, to: nat, s: Server, f: Server) returns (z: System)
    requires Reached(hs, n, y) && l < |y.servers| && to < |y.servers| && to != l && y.servers[l] == s
    requires y.servers[to] == f
    requires s.role == Leader && to < |s.nextIndex| && to < |s.matchIndex| && |s.log| > 0 && s.nextIndex[to] == |s.log|
    requires f.log == s.log && f.term <= s.term
    ensures Reached(hs, n, z) && y.appends <= z.appends && y.acks <= z.acks && z.applied == y.applied
    ensures z.servers == y.servers[to := CaughtUp(f, s)][l := Heard(s, to, s.commitIndex)]
  {
    z := Request(hs, n, y, l, to);
    var k := |y.appends|;
    assert s.log[|s.log|..] == [] && s.log[..|s.log|] + [] == s.log;
    LastIsFresh(z);
    var r := AppendEntries(f, MakeAppend(s, l, |s.log|)).1;
    assert AppendEntries(f, MakeAppend(s, l, |s.log|)).0 == CaughtUp(f, s);
    z := Handle(hs, n, z, k);
    z := Note(hs, n, z, k, r, s.commitIndex);
  }

  /** Where a scan stops, from who reaches each index. */
  lemma ScanReaches(m: seq<nat>, length: nat, commit: nat, top: nat)
    requires commit <= top < length && !MajorityReplicated(m, top + 1)
    requires forall i :: commit < i <= top ==> MajorityReplicated(m, i)
    ensures CommitScan(m, length, commit) == top
    decreases top - commit
  {
    if commit < top { ScanReaches(m, length, commit + 1, top); }
  }

  /** The last request sent is always fresh. */
  lemma LastIsFresh(y: System)
    requires |y.appends| > 0 && Enabled(y, Deliver(|y.appends| - 1))
    ensures FreshHeartbeat(y, |y.appends| - 1)
  {
  }
}
