/** N Raft peers over a network that may lose, delay, reorder or repeat messages,
    as a transition system. Messages are never removed from the state: a lost one
    is simply never picked again. The fields from `votes` on are history, read by
    no step of the source; they record what the proofs speak about. */
module RaftSystem {
  import opened RaftServer

  /** One run of `election()`: `next` is its loop index, `asked` and `granted` its
      two counters. `log` and `voters` are history. */
  datatype Poll = Poll(log: Log, next: nat, asked: nat, granted: nat, voters: set<nat>)

  datatype Ballot = Ballot(voter: nat, candidate: nat, term: nat, reply: VoteReply)

  /** One `heartbeat()` goroutine at the head of its loop. */
  datatype Beat = Beat(leader: nat, to: nat, next: nat, term: nat)

  /** An AppendEntries request; `snapshot` (history) is the leader's log at send time. */
  datatype Append = Append(to: nat, args: AppendArgs, snapshot: Log)

  datatype Ack = Ack(k: nat, reply: AppendReply)

  /** A won election: the log it started from and the leader's log by now. */
  datatype Reign = Reign(leader: nat, voters: set<nat>, first: Log, log: Log)

  datatype System = System(
    servers: seq<Server>,
    polls: map<(nat, nat), Poll>,
    ballots: set<Ballot>,
    beats: set<Beat>,
    appends: seq<Append>,
    acks: set<Ack>,
    votes: map<(nat, nat), nat>,
    reigns: map<nat, Reign>,
    held: map<(nat, nat), nat>,
    applied: seq<seq<ApplyMsg>>)

  datatype Step =
    | Timeout(c: nat)
    | Vote(v: nat, c: nat, t: nat)
    | Count(c: nat, t: nat, reply: VoteReply)
    | Win(c: nat, t: nat)
    | Propose(l: nat, command: Command)
    | Tick(l: nat, to: nat)
    | Send(b: Beat)
    | Deliver(k: nat)
    | Respond(k: nat, r: AppendReply)
    | Flush(i: nat)

  function Init(n: nat): System {
    System(seq(n, _ => FRESH), map[], {}, {}, [], {}, map[], map[], map[], seq(n, _ => []))
  }

  /** The loop over the peers is left: all asked, a majority granted, or hopeless. */
  predicate PollOver(p: Poll, n: nat) {
    p.next >= n || p.granted > n / 2 || p.asked - p.granted > n / 2
  }

  ghost predicate Enabled(y: System, step: Step) {
    var n := |y.servers|;
    match step
    // the start of an `election()` goroutine, even by a leader: `shouldStartElection` was
    // asked before the goroutine was started, which may have been before the win
    case Timeout(c) => c < n
    case Vote(v, c, t) => v < n && v != c && (c, t) in y.polls && |y.servers[v].log| > 0 && |y.polls[(c, t)].log| > 0
    case Count(c, t, reply) =>
      && c < n && (c, t) in y.polls && !PollOver(y.polls[(c, t)], n)
      && (reply == NO_VOTE || Ballot(y.polls[(c, t)].next, c, t, reply) in y.ballots)
    case Win(c, t) =>
      && c < n && (c, t) in y.polls && |y.servers[c].log| > 0
      && PollOver(y.polls[(c, t)], n) && y.polls[(c, t)].granted > n / 2
    case Propose(l, _) => l < n && (y.servers[l].role == Leader ==> l < |y.servers[l].matchIndex|)
    case Tick(l, to) => l < n && to < n && to != l && y.servers[l].role == Leader && to < |y.servers[l].nextIndex|
    case Send(b) =>
      && b in y.beats && b.leader < n
      && y.servers[b.leader].role == Leader && y.servers[b.leader].term == b.term
      && 1 <= b.next <= |y.servers[b.leader].log|
    case Deliver(k) => k < |y.appends| && y.appends[k].to < n && |y.servers[y.appends[k].to].log| > 0
    case Respond(k, r) =>
      && k < |y.appends| && (r == NO_REPLY || Ack(k, r) in y.acks)
      && y.appends[k].args.leader < n
      && ReplySafe(y.servers[y.appends[k].args.leader], r, y.appends[k].to, y.appends[k].args.term)
    case Flush(i) => i < n && i < |y.applied| && y.servers[i].commitIndex < |y.servers[i].log|
  }

  function PollArgs(p: Poll, c: nat, t: nat): VoteArgs
    requires |p.log| > 0
  {
    VoteArgs(t, c, LastIndex(p.log), LastTerm(p.log))
  }

  function Tally(p: Poll, c: nat, reply: VoteReply): Poll {
    if p.next == c then p.(next := p.next + 1)
    else if reply.granted then
      p.(next := p.next + 1, asked := p.asked + 1, granted := p.granted + 1, voters := p.voters + {p.next})
    else p.(next := p.next + 1, asked := p.asked + 1)
  }

  ghost function Do(y: System, step: Step): System
    requires Enabled(y, step)
  {
    var n := |y.servers|;
    match step
    case Timeout(c) =>
      var s := BeginElection(y.servers[c], c);
      y.(servers := y.servers[c := s],
         polls := y.polls[(c, s.term) := Poll(s.log, 0, 1, 1, {c})],
         votes := y.votes[(c, s.term) := c])
    case Vote(v, c, t) =>
      var (s, reply) := RequestVote(y.servers[v], PollArgs(y.polls[(c, t)], c, t));
      y.(servers := y.servers[v := s],
         ballots := y.ballots + {Ballot(v, c, t, reply)},
         votes := if reply.granted then y.votes[(v, t) := c] else y.votes)
    case Count(c, t, reply) =>
      var p := y.polls[(c, t)];
      y.(polls := y.polls[(c, t) := Tally(p, c, reply)],
         servers := if p.next != c && reply.term > t
                    then y.servers[c := StepDown(y.servers[c], reply.term)] else y.servers)
    case Win(c, t) =>
      var s := y.servers[c];
      if s.term == t && s.role == Candidate then
        y.(servers := y.servers[c := WinElection(s, c, n, t)],
           reigns := y.reigns[t := Reign(c, y.polls[(c, t)].voters, s.log, s.log)],
           held := y.held[(c, t) := |s.log|])
      else y
    case Propose(l, command) =>
      var s := Start(y.servers[l], l, command);
      if s.role == Leader && s.term in y.reigns then
        y.(servers := y.servers[l := s],
           reigns := y.reigns[s.term := y.reigns[s.term].(log := s.log)],
           held := y.held[(l, s.term) := |s.log|])
      else y.(servers := y.servers[l := s])
    case Tick(l, to) =>
      y.(beats := y.beats + {Beat(l, to, y.servers[l].nextIndex[to], y.servers[l].term)})
    case Send(b) =>
      var s := y.servers[b.leader];
      y.(appends := y.appends + [Append(b.to, MakeAppend(s, b.leader, b.next), s.log)])
    case Deliver(k) =>
      var m := y.appends[k];
      var (s, reply) := AppendEntries(y.servers[m.to], m.args);
      y.(servers := y.servers[m.to := s],
         acks := y.acks + {Ack(k, reply)},
         held := if reply.success then y.held[(m.to, m.args.term) := |m.snapshot|] else y.held)
    case Respond(k, r) =>
      var m := y.appends[k];
      var (s, out) := HandleReply(y.servers[m.args.leader], r, m.args, m.to);
      y.(servers := y.servers[m.args.leader := s],
         beats := if out.Retry? then y.beats + {Beat(m.args.leader, m.to, out.next, m.args.term)} else y.beats)
    case Flush(i) =>
      var (s, msgs) := ApplyCommits(y.servers[i]);
      y.(servers := y.servers[i := s], applied := y.applied[i := y.applied[i] + msgs])
  }

  /** H-a: an AppendEntries without entries is not taken over after one of the same term
      and link, sent later and with a longer log, was accepted. */
  ghost predicate FreshHeartbeat(y: System, k: nat)
    requires Enabled(y, Deliver(k))
  {
    var m := y.appends[k];
    m.args.entries == [] && AppendEntries(y.servers[m.to], m.args).1.success ==>
      forall a | a in y.acks && a.reply.success && a.k < |y.appends| && SameLink(y.appends[a.k], m) ::
        a.k <= k || |y.appends[a.k].snapshot| <= |m.snapshot|
  }

  predicate SameLink(a: Append, b: Append) {
    a.to == b.to && a.args.term == b.args.term && a.args.leader == b.args.leader
  }

  /** H-b: when a leader counts a success, it is the success of a request it sent in
      its present term. */
  ghost predicate OwnReply(y: System, k: nat, r: AppendReply)
    requires Enabled(y, Respond(k, r))
  {
    var a := y.appends[k].args;
    var s := y.servers[a.leader];
    !Dismissed(r, a.term) && r.success && s.role == Leader ==> s.term == a.term
  }

  /** H-c: when a leader advances its commit index, the entry there is of its term. */
  ghost predicate CommitsOwnTerm(y: System, k: nat, r: AppendReply)
    requires Enabled(y, Respond(k, r))
  {
    var a := y.appends[k].args;
    var s := y.servers[a.leader];
    var s' := HandleReply(s, r, a, y.appends[k].to).0;
    s.commitIndex < s'.commitIndex < |s'.log| ==> s'.log[s'.commitIndex].term == s'.term
  }

  datatype Hypothesis = Ha | Hb | Hc

  const ALL := {Ha, Hb, Hc}

  /** The step obeys those of the hypotheses that are in hs. */
  ghost predicate Obeys(hs: set<Hypothesis>, y: System, step: Step)
    requires Enabled(y, step)
  {
    && (Ha in hs && step.Deliver? ==> FreshHeartbeat(y, step.k))
    && (Hb in hs && step.Respond? ==> OwnReply(y, step.k, step.r))
    && (Hc in hs && step.Respond? ==> CommitsOwnTerm(y, step.k, step.r))
  }

  ghost predicate LeadsTo(hs: set<Hypothesis>, y: System, step: Step, z: System) {
    Enabled(y, step) && Obeys(hs, y, step) && z == Do(y, step)
  }

  /** A run of n peers in which every step obeys the hypotheses in hs. */
  ghost predicate RunUnder(hs: set<Hypothesis>, n: nat, states: seq<System>, steps: seq<Step>) {
    && |states| == |steps| + 1
    && states[0] == Init(n)
    && forall i {:trigger steps[i]} :: 0 <= i < |steps| ==> LeadsTo(hs, states[i], steps[i], states[i + 1])
  }

  /** Any crash-free run: messages are lost, delayed, repeated and reordered at will. */
  ghost predicate AnyRun(n: nat, states: seq<System>, steps: seq<Step>) {
    RunUnder({}, n, states, steps)
  }

  /** A run in which every step obeys H-a, H-b and H-c. */
  ghost predicate Run(n: nat, states: seq<System>, steps: seq<Step>) {
    RunUnder(ALL, n, states, steps)
  }

  lemma FewerHypotheses(hs: set<Hypothesis>, hs': set<Hypothesis>, n: nat, states: seq<System>, steps: seq<Step>)
    requires RunUnder(hs, n, states, steps) && hs' <= hs
    ensures RunUnder(hs', n, states, steps)
  {
  }
}
