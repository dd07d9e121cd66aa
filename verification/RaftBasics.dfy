/** What needs no hypothesis: in every crash-free run at most one server leads a term, logs match,
    and a request that is taken over leaves the receiver with the sender's log. */
module RaftBasics {
  import opened RaftServer
  import opened RaftSystem
  import opened RaftInvariant

  ghost function SetServer(y: System, j: nat, s: Server): System
    requires j < |y.servers|
  {
    y.(servers := y.servers[j := s])
  }

  // ----- logs ------------------------------------------------------------------

  /** A log whose last entry is of term t >= 1 is a prefix of term t's leader log. */
  lemma LastGrounds(log: Log, reigns: Reigns)
    requires GoodLog(log, reigns) && LastTerm(log) >= 1
    ensures LastTerm(log) in reigns && log <= reigns[LastTerm(log)].log
  {
    assert Grounded(log, |log| - 1, reigns);
    assert log[..|log|] == log;
  }

  /** Log matching: equal terms at an index mean equal logs up to it. */
  lemma LogMatching(a: Log, b: Log, i: nat, reigns: Reigns)
    requires GoodLog(a, reigns) && GoodLog(b, reigns)
    requires i < |a| && i < |b| && a[i].term == b[i].term
    ensures a[..i + 1] == b[..i + 1]
  {
    if i == 0 {
      assert a[..1] == [a[0]] && b[..1] == [b[0]];
    } else {
      assert Grounded(a, i, reigns) && Grounded(b, i, reigns);
    }
  }

  lemma PrefixIsGood(log: Log, k: nat, reigns: Reigns)
    requires GoodLog(log, reigns) && 1 <= k <= |log|
    ensures GoodLog(log[..k], reigns)
  {
    var p := log[..k];
    forall i | 1 <= i < |p| ensures Grounded(p, i, reigns) {
      assert Grounded(log, i, reigns);
      assert p[..i + 1] == log[..i + 1];
    }
  }

  // ----- quorums ---------------------------------------------------------------

  lemma {:induction false} BoundedSize(a: set<nat>, n: nat)
    requires forall v | v in a :: v < n
    ensures |a| <= n
  {
    if n == 0 {
      assert a == {};
    } else {
      BoundedSize(a - {n - 1}, n - 1);
    }
  }

  /** Two majorities share a server. */
  lemma QuorumsMeet(a: set<nat>, b: set<nat>, n: nat) returns (v: nat)
    requires Quorum(a, n) && Quorum(b, n)
    ensures v in a && v in b
  {
    BoundedSize(a + b, n);
    assert |a + b| + |a * b| == |a| + |b|;
    assert a * b != {};
    v :| v in a * b;
  }

  // ----- framing ---------------------------------------------------------------

  /** From y to z only server j acted. */
  ghost predicate Moved(y: System, z: System, j: nat) {
    && j < |y.servers| == |z.servers| && y.servers[j].term <= z.servers[j].term
    && (forall i :: 0 <= i < |y.servers| && i != j ==> z.servers[i] == y.servers[i])
    && ReignsGrow(y.reigns, z.reigns)
    && (forall t | t in y.reigns :: z.reigns[t] == y.reigns[t] || y.reigns[t].leader == j)
    && (forall k | k in y.votes :: k in z.votes && z.votes[k] == y.votes[k])
    && (forall k | k in z.votes && k !in y.votes :: k.0 == j && k.1 == z.servers[j].term)
    && (forall k | k in y.polls :: k in z.polls && z.polls[k].log == y.polls[k].log)
  }

  lemma OthersSound(y: System, z: System, j: nat)
    requires Base(y) && Moved(y, z, j)
    ensures forall i {:trigger Sound(z, i)} :: 0 <= i < |z.servers| && i != j ==> Sound(z, i)
  {
    forall i | 0 <= i < |z.servers| && i != j ensures Sound(z, i) {
      assert Sound(y, i);
      GoodLogGrows(y.servers[i].log, y.reigns, z.reigns);
      assert (i, y.servers[i].term).0 == i;
    }
  }

  /** A term that j led before the step it still leads, with its log as the reign says. */
  ghost predicate LeadsOn(y: System, z: System, j: nat)
    requires j < |y.servers| && j < |z.servers|
  {
    var t := y.servers[j].term;
    y.servers[j].role == Leader && z.servers[j].term == t ==>
      && z.servers[j].role == Leader
      && (z.servers[j].log == y.servers[j].log || (t in y.reigns && t in z.reigns && z.reigns[t] != y.reigns[t]))
  }

  lemma ReignsStay(y: System, z: System, j: nat)
    requires Base(y) && Moved(y, z, j) && LeadsOn(y, z, j)
    ensures forall t {:trigger Won(z, t)} | t in y.reigns && z.reigns[t] == y.reigns[t] :: Won(z, t)
  {
    forall t | t in y.reigns && z.reigns[t] == y.reigns[t] ensures Won(z, t) {
      assert Won(y, t);
      GoodLogGrows(y.reigns[t].log, y.reigns, z.reigns);
    }
  }

  lemma RecordsStay(y: System, z: System, j: nat)
    requires Base(y) && Moved(y, z, j)
    ensures forall c, t {:trigger PollOk(z, c, t)} | (c, t) in y.polls && z.polls[(c, t)] == y.polls[(c, t)] ::
      PollOk(z, c, t)
    ensures forall v, t {:trigger Cast(z, v, t)} | (v, t) in z.votes :: Cast(z, v, t)
  {
    forall c, t | (c, t) in y.polls && z.polls[(c, t)] == y.polls[(c, t)] ensures PollOk(z, c, t) {
      assert PollOk(y, c, t);
      GoodLogGrows(y.polls[(c, t)].log, y.reigns, z.reigns);
    }
    forall v, t | (v, t) in z.votes ensures Cast(z, v, t) {
      assert (v, t) in y.votes ==> Cast(y, v, t);
      assert (v, t).0 == v && (v, t).1 == t;
    }
  }

  lemma MessagesStay(y: System, z: System, j: nat)
    requires Base(y) && Moved(y, z, j)
    ensures forall b {:trigger BallotOk(z, b)} | b in y.ballots :: BallotOk(z, b)
    ensures forall b {:trigger Addressed(z, b)} | b in y.beats :: Addressed(z, b)
    ensures forall k {:trigger y.appends[k]} :: 0 <= k < |y.appends| ==> Sent(z, y.appends[k])
    ensures y.appends <= z.appends ==> forall a {:trigger Told(z, a)} | a in y.acks :: Told(z, a)
  {
    forall b | b in y.ballots ensures BallotOk(z, b) { assert BallotOk(y, b); }
    forall b | b in y.beats ensures Addressed(z, b) { assert Addressed(y, b); }
    if y.appends <= z.appends {
      forall a | a in y.acks ensures Told(z, a) { assert Told(y, a) && z.appends[a.k] == y.appends[a.k]; }
    }
  }

  /** What the step changed or added is fine. */
  ghost predicate NewIsFine(y: System, z: System) {
    && (forall t | t in z.reigns && !(t in y.reigns && z.reigns[t] == y.reigns[t]) :: Won(z, t))
    && (forall c, t | (c, t) in z.polls && !((c, t) in y.polls && z.polls[(c, t)] == y.polls[(c, t)]) ::
      PollOk(z, c, t))
    && (forall b | b in z.ballots - y.ballots :: BallotOk(z, b))
    && (forall b | b in z.beats - y.beats :: Addressed(z, b))
    && (forall a | a in z.acks - y.acks :: Told(z, a))
    && y.appends <= z.appends && (forall k :: |y.appends| <= k < |z.appends| ==> Sent(z, z.appends[k]))
    && SendOrder(z)
  }

  lemma Settles(y: System, z: System, j: nat)
    requires Base(y) && Moved(y, z, j) && LeadsOn(y, z, j) && Sound(z, j) && NewIsFine(y, z)
    ensures Base(z)
  {
    OthersSound(y, z, j);
    ReignsStay(y, z, j);
    RecordsStay(y, z, j);
    MessagesStay(y, z, j);
    forall k | 0 <= k < |z.appends| ensures Sent(z, z.appends[k]) {
      if k < |y.appends| { assert z.appends[k] == y.appends[k]; }
    }
  }

  /** Server j, its votes, and ballots, beats and replies may have changed. */
  lemma SettlesInFlight(y: System, z: System, j: nat)
    requires Base(y) && Moved(y, z, j) && LeadsOn(y, z, j) && Sound(z, j)
    requires z.polls == y.polls && z.reigns == y.reigns && z.appends == y.appends
    requires forall b | b in z.ballots - y.ballots :: BallotOk(z, b)
    requires forall b | b in z.beats - y.beats :: Addressed(z, b)
    requires forall a | a in z.acks - y.acks :: Told(z, a)
    ensures Base(z)
  {
    Settles(y, z, j);
  }

  // ----- steps -----------------------------------------------------------------

  lemma BaseTimeout(y: System, c: nat)
    requires Base(y) && Enabled(y, Timeout(c))
    ensures Base(Do(y, Timeout(c)))
  {
    var z := Do(y, Timeout(c));
    var t := z.servers[c].term;
    assert Sound(y, c);
    assert (c, t) in y.polls ==> PollOk(y, c, t);
    assert (c, t) in y.votes ==> Cast(y, c, t);
    assert Moved(y, z, c);
    assert PollOk(z, c, t);
    Settles(y, z, c);
  }

  lemma BaseVote(y: System, v: nat, c: nat, t: nat)
    requires Base(y) && Enabled(y, Vote(v, c, t))
    ensures Base(Do(y, Vote(v, c, t)))
  {
    var z := Do(y, Vote(v, c, t));
    assert Sound(y, v) && PollOk(y, c, t);
    assert (v, t) in y.votes ==> Cast(y, v, t);
    assert Moved(y, z, v);
    SettlesInFlight(y, z, v);
  }

  lemma StepsDown(y: System, j: nat, t: nat)
    requires Base(y) && j < |y.servers|
    ensures Base(SetServer(y, j, StepDown(y.servers[j], t)))
  {
    var z := SetServer(y, j, StepDown(y.servers[j], t));
    assert Sound(y, j);
    assert (j, t) in y.votes ==> Cast(y, j, t);
    assert Moved(y, z, j);
    SettlesInFlight(y, z, j);
  }

  lemma Tallied(y: System, c: nat, t: nat, reply: VoteReply)
    requires Base(y) && Enabled(y, Count(c, t, reply))
    ensures Base(y.(polls := y.polls[(c, t) := Tally(y.polls[(c, t)], c, reply)]))
  {
    var p := y.polls[(c, t)];
    var x := y.(polls := y.polls[(c, t) := Tally(p, c, reply)]);
    assert PollOk(y, c, t) && Sound(y, c);
    assert Moved(y, x, c);
    TallyIsFine(y, c, t, reply);
    Settles(y, x, c);
  }

  lemma TallyIsFine(y: System, c: nat, t: nat, reply: VoteReply)
    requires Base(y) && Enabled(y, Count(c, t, reply))
    ensures PollOk(y.(polls := y.polls[(c, t) := Tally(y.polls[(c, t)], c, reply)]), c, t)
    ensures NewIsFine(y, y.(polls := y.polls[(c, t) := Tally(y.polls[(c, t)], c, reply)]))
  {
    var b := Ballot(y.polls[(c, t)].next, c, t, reply);
    assert PollOk(y, c, t);
    assert b in y.ballots ==> BallotOk(y, b);
    assert PollOk(y.(polls := y.polls[(c, t) := Tally(y.polls[(c, t)], c, reply)]), c, t);
  }

  lemma BaseCount(y: System, c: nat, t: nat, reply: VoteReply)
    requires Base(y) && Enabled(y, Count(c, t, reply))
    ensures Base(Do(y, Count(c, t, reply)))
  {
    Tallied(y, c, t, reply);
    StepsDown(y.(polls := y.polls[(c, t) := Tally(y.polls[(c, t)], c, reply)]), c, reply.term);
  }

  /** A candidate with a majority finds its term vacant. */
  lemma Vacant(y: System, c: nat)
    requires Base(y) && c < |y.servers|
    requires (c, y.servers[c].term) in y.polls && y.polls[(c, y.servers[c].term)].granted > |y.servers| / 2
    requires y.servers[c].role == Candidate
    ensures y.servers[c].term !in y.reigns
  {
    var t := y.servers[c].term;
    assert PollOk(y, c, t);
    if t in y.reigns {
      assert Won(y, t);
      var v := QuorumsMeet(y.polls[(c, t)].voters, y.reigns[t].voters, |y.servers|);
    }
  }

  lemma BaseWin(y: System, c: nat, t: nat)
    requires Base(y) && Enabled(y, Win(c, t))
    ensures Base(Do(y, Win(c, t)))
  {
    var z := Do(y, Win(c, t));
    if y.servers[c].term == t && y.servers[c].role == Candidate {
      Vacant(y, c);
      assert Sound(y, c) && PollOk(y, c, t);
      assert Moved(y, z, c);
      GoodLogGrows(y.servers[c].log, y.reigns, z.reigns);
      assert Won(z, t);
      Settles(y, z, c);
    }
  }

  lemma ProposedLog(before: Log, command: Command, t: nat, a: Reigns, b: Reigns)
    requires GoodLog(before, a) && ReignsGrow(a, b) && LastTerm(before) <= t
    requires t in b && b[t].log == before + [Entry(command, t)]
    ensures GoodLog(b[t].log, b)
  {
    var log := b[t].log;
    forall i | 1 <= i < |log| ensures Grounded(log, i, b) {
      if i < |before| {
        assert Grounded(before, i, a);
        assert log[..i + 1] == before[..i + 1];
      } else {
        assert log[..i + 1] == log;
      }
    }
  }

  lemma ProposeMoves(y: System, l: nat, command: Command)
    requires Base(y) && Enabled(y, Propose(l, command)) && y.servers[l].role == Leader
    ensures var z := Do(y, Propose(l, command));
      var t := y.servers[l].term;
      && Moved(y, z, l) && LeadsOn(y, z, l) && Sound(z, l) && t in z.reigns && Won(z, t)
      && (forall u | u in z.reigns && u != t :: u in y.reigns && z.reigns[u] == y.reigns[u])
  {
    var z := Do(y, Propose(l, command));
    var t := y.servers[l].term;
    assert Sound(y, l) && Won(y, t);
    assert ReignsGrow(y.reigns, z.reigns);
    ProposedLog(y.servers[l].log, command, t, y.reigns, z.reigns);
  }

  lemma ProposeIsFine(y: System, l: nat, command: Command)
    requires Base(y) && Enabled(y, Propose(l, command)) && y.servers[l].role == Leader
    ensures NewIsFine(y, Do(y, Propose(l, command)))
  {
    ProposeMoves(y, l, command);
  }

  lemma BasePropose(y: System, l: nat, command: Command)
    requires Base(y) && Enabled(y, Propose(l, command))
    ensures Base(Do(y, Propose(l, command)))
  {
    assert Sound(y, l);
    if y.servers[l].role == Leader {
      ProposeMoves(y, l, command);
      ProposeIsFine(y, l, command);
      Settles(y, Do(y, Propose(l, command)), l);
    } else {
      assert Do(y, Propose(l, command)) == y;
    }
  }

  lemma SendIsSent(y: System, b: Beat)
    requires Base(y) && Enabled(y, Send(b))
    ensures var z := Do(y, Send(b));
      var m := z.appends[|y.appends|];
      Sent(z, m) && m.snapshot == y.servers[b.leader].log == z.reigns[m.args.term].log && m.args.term == b.term
  {
    assert Sound(y, b.leader) && Addressed(y, b) && Won(y, b.term);
  }

  lemma BaseSend(y: System, b: Beat)
    requires Base(y) && Enabled(y, Send(b))
    ensures Base(Do(y, Send(b)))
  {
    var z := Do(y, Send(b));
    assert Sound(y, b.leader);
    SendIsSent(y, b);
    assert Moved(y, z, b.leader) && Sound(z, b.leader);
    forall k | 0 <= k < |z.appends| ensures Sent(z, z.appends[k]) {
      if k < |y.appends| { assert z.appends[k] == y.appends[k] && Sent(y, y.appends[k]); }
    }
    SentInOrder(y, z);
    Settles(y, z, b.leader);
  }

  lemma SentInOrder(y: System, z: System)
    requires SendOrder(y) && y.appends <= z.appends && |z.appends| == |y.appends| + 1
    requires forall k :: 0 <= k < |z.appends| ==> Sent(z, z.appends[k])
    requires var m := z.appends[|y.appends|]; m.args.term in z.reigns && m.snapshot == z.reigns[m.args.term].log
    ensures SendOrder(z)
  {
    forall i, k | 0 <= i <= k < |z.appends| && z.appends[i].args.term == z.appends[k].args.term
      ensures |z.appends[i].snapshot| <= |z.appends[k].snapshot|
    {
      if k < |y.appends| {
        assert z.appends[i] == y.appends[i] && z.appends[k] == y.appends[k];
      }
    }
  }

  /** The log that request k carries is good, and so is what the receiver makes of it. */
  lemma TakesSnapshot(y: System, k: nat)
    requires Base(y) && Enabled(y, Deliver(k)) && AppendEntries(y.servers[y.appends[k].to], y.appends[k].args).1.success
    ensures var m := y.appends[k];
      && AppendEntries(y.servers[m.to], m.args).0.log == m.snapshot && |m.snapshot| > 0
      && GoodLog(m.snapshot, y.reigns) && LastTerm(m.snapshot) <= m.args.term
  {
    var m := y.appends[k];
    var log := y.reigns[m.args.term].log;
    assert Sent(y, m) && Sound(y, m.to) && Won(y, m.args.term);
    assert m.snapshot == log[..|m.snapshot|];
    PrefixIsGood(log, |m.snapshot|, y.reigns);
    LogMatching(y.servers[m.to].log, m.snapshot, m.args.prevIndex, y.reigns);
  }

  /** A handled request touches the log only if it is taken over, and else at most the term. */
  lemma HandledShape(s: Server, a: AppendArgs)
    requires |s.log| > 0
    ensures var (f, r) := AppendEntries(s, a);
      && f == StepDown(s, a.term).(log := f.log, commitIndex := f.commitIndex)
      && (if r.success then s.term <= a.term else f.log == s.log)
  {
  }

  lemma DeliverMoves(y: System, k: nat)
    requires Base(y) && Enabled(y, Deliver(k))
    ensures Moved(y, Do(y, Deliver(k)), y.appends[k].to) && LeadsOn(y, Do(y, Deliver(k)), y.appends[k].to)
  {
    var m := y.appends[k];
    assert Sent(y, m) && Sound(y, m.to);
    HandledShape(y.servers[m.to], m.args);
  }

  /** A refusal that is not dismissed names a place the sender can go on from. */
  lemma DeliverTold(y: System, k: nat)
    requires Base(y) && Enabled(y, Deliver(k))
    ensures var m := y.appends[k];
      Told(Do(y, Deliver(k)), Ack(k, AppendEntries(y.servers[m.to], m.args).1))
  {
    var m := y.appends[k];
    assert Sent(y, m) && Sound(y, m.to) && Won(y, m.args.term);
  }

  lemma DeliverSound(y: System, k: nat)
    requires Base(y) && Enabled(y, Deliver(k))
    ensures Sound(Do(y, Deliver(k)), y.appends[k].to)
  {
    var m := y.appends[k];
    assert Sent(y, m) && Sound(y, m.to);
    assert (m.to, m.args.term) in y.votes ==> Cast(y, m.to, m.args.term);
    HandledShape(y.servers[m.to], m.args);
    if AppendEntries(y.servers[m.to], m.args).1.success {
      TakesSnapshot(y, k);
    }
  }

  lemma BaseDeliver(y: System, k: nat)
    requires Base(y) && Enabled(y, Deliver(k))
    ensures Base(Do(y, Deliver(k)))
  {
    DeliverMoves(y, k);
    DeliverSound(y, k);
    DeliverTold(y, k);
    SettlesInFlight(y, Do(y, Deliver(k)), y.appends[k].to);
  }

  lemma BaseRespond(y: System, k: nat, r: AppendReply)
    requires Base(y) && Enabled(y, Respond(k, r))
    ensures Base(Do(y, Respond(k, r)))
  {
    var z := Do(y, Respond(k, r));
    var m := y.appends[k];
    var l := m.args.leader;
    assert Sent(y, m) && Sound(y, l);
    assert (l, r.term) in y.votes ==> Cast(y, l, r.term);
    assert Moved(y, z, l);
    assert Sound(z, l);
    SettlesInFlight(y, z, l);
  }

  lemma BaseStep(y: System, step: Step)
    requires Base(y) && Enabled(y, step)
    ensures Base(Do(y, step))
  {
    match step
    case Timeout(c) => BaseTimeout(y, c);
    case Vote(v, c, t) => BaseVote(y, v, c, t);
    case Count(c, t, reply) => BaseCount(y, c, t, reply);
    case Win(c, t) => BaseWin(y, c, t);
    case Propose(l, command) => BasePropose(y, l, command);
    case Tick(l, to) => BaseIdle(y, step, l);
    case Send(b) => BaseSend(y, b);
    case Deliver(k) => BaseDeliver(y, k);
    case Respond(k, r) => BaseRespond(y, k, r);
    case Flush(i) => BaseIdle(y, step, i);
  }

  lemma BaseIdle(y: System, step: Step, i: nat)
    requires Base(y) && Enabled(y, step) && (step.Tick? || step.Flush?)
    requires i == if step.Tick? then step.l else step.i
    ensures Base(Do(y, step))
  {
    var z := Do(y, step);
    assert Sound(y, i);
    assert Moved(y, z, i);
    assert Sound(z, i);
    SettlesInFlight(y, z, i);
  }

  // ----- probing ---------------------------------------------------------------

  lemma ShorterIsOutdated(log: Log, n: nat, h: nat)
    requires Sorted(log) && 1 <= n <= |log| && 1 <= h <= |log|
    ensures h > n ==> !UpToDate(log[n - 1].term, n - 1, log[..h])
  {
    if h > n {
      assert log[n - 1].term <= log[h - 1].term;
    }
  }

  /** Backtracking: a mismatch reply, or a lost RPC, leaves a probe no higher than
      before, and 1 when the RPC was lost. */
  lemma RetryRange(y: System, k: nat, r: AppendReply)
    requires Base(y) && Enabled(y, Respond(k, r)) && !r.success && !Dismissed(r, y.appends[k].args.term)
    ensures var a := y.appends[k].args;
      var out := HandleReply(y.servers[a.leader], r, a, y.appends[k].to).1;
      out.Retry? && 1 <= out.next <= a.prevIndex + 1 && (Ack(k, r) !in y.acks ==> out.next == 1)
  {
    var m := y.appends[k];
    assert Sent(y, m) && Sound(y, m.args.leader);
    if Ack(k, r) in y.acks {
      assert Told(y, Ack(k, r));
    }
  }

  ghost predicate Leads(y: System, l: nat, t: nat) {
    l < |y.servers| && y.servers[l].role == Leader && y.servers[l].term == t
  }

  /** A mismatch reply that finds its sender still leading lowers the probe. */
  lemma RetryDescends(y: System, k: nat, r: AppendReply)
    requires Base(y) && Enabled(y, Respond(k, r)) && !r.success && !Dismissed(r, y.appends[k].args.term)
    requires Leads(y, y.appends[k].args.leader, y.appends[k].args.term) && Ack(k, r) in y.acks
    ensures var a := y.appends[k].args;
      var out := HandleReply(y.servers[a.leader], r, a, y.appends[k].to).1;
      out.Retry? && out.next <= a.prevIndex
  {
    var m := y.appends[k];
    assert Sent(y, m) && Sound(y, m.args.leader) && Won(y, m.args.term) && Told(y, Ack(k, r));
  }

  // ----- whole runs ------------------------------------------------------------

  lemma InitBase(n: nat)
    requires n >= 1
    ensures Base(Init(n))
  {
    forall i | 0 <= i < n ensures Sound(Init(n), i) {
      assert Init(n).servers[i] == FRESH;
    }
  }

  lemma {:induction false} AnyRunBase(n: nat, states: seq<System>, steps: seq<Step>, i: nat)
    requires n >= 1 && AnyRun(n, states, steps) && i < |states|
    ensures Base(states[i]) && |states[i].servers| == n
  {
    if i == 0 {
      InitBase(n);
    } else {
      AnyRunBase(n, states, steps, i - 1);
      assert LeadsTo({}, states[i - 1], steps[i - 1], states[i]);
      BaseStep(states[i - 1], steps[i - 1]);
    }
  }

  lemma {:induction false} ReignsLast(n: nat, states: seq<System>, steps: seq<Step>, i: nat, j: nat)
    requires n >= 1 && AnyRun(n, states, steps) && i <= j < |states|
    ensures ReignsGrow(states[i].reigns, states[j].reigns)
    decreases j
  {
    if i < j {
      ReignsLast(n, states, steps, i, j - 1);
      AnyRunBase(n, states, steps, j - 1);
      assert LeadsTo({}, states[j - 1], steps[j - 1], states[j]);
      ReignsStep(states[j - 1], steps[j - 1]);
      ReignsTrans(states[i].reigns, states[j - 1].reigns, states[j].reigns);
    }
  }

  lemma ReignsStep(y: System, step: Step)
    requires Base(y) && Enabled(y, step)
    ensures ReignsGrow(y.reigns, Do(y, step).reigns)
  {
    if step.Win? && y.servers[step.c].term == step.t && y.servers[step.c].role == Candidate {
      Vacant(y, step.c);
    } else if step.Propose? {
      assert Sound(y, step.l);
      assert y.servers[step.l].role == Leader ==> Won(y, y.servers[step.l].term);
    }
  }

  lemma ReignsTrans(a: Reigns, b: Reigns, c: Reigns)
    requires ReignsGrow(a, b) && ReignsGrow(b, c)
    ensures ReignsGrow(a, c)
  {
    forall t | t in a ensures t in c && a[t].log <= c[t].log {
      assert a[t].log <= b[t].log <= c[t].log;
    }
  }

  /** Election safety: over a whole crash-free run at most one server ever leads a term,
      and its log only grows while it does. */
  lemma ElectionSafety(n: nat, states: seq<System>, steps: seq<Step>, i: nat, j: nat, a: nat, b: nat)
    requires n >= 1 && AnyRun(n, states, steps) && i <= j < |states| && a < n && b < n
    requires |states[i].servers| == |states[j].servers| == n
    requires states[i].servers[a].role == Leader && states[j].servers[b].role == Leader
    requires states[i].servers[a].term == states[j].servers[b].term
    ensures a == b && states[i].servers[a].log <= states[j].servers[b].log
  {
    AnyRunBase(n, states, steps, i);
    AnyRunBase(n, states, steps, j);
    ReignsLast(n, states, steps, i, j);
    var t := states[i].servers[a].term;
    assert Sound(states[i], a) && Sound(states[j], b) && Won(states[i], t) && Won(states[j], t);
  }

  /** Log matching: in every state of every crash-free run, logs that agree on a term at
      an index agree up to that index. */
  lemma LogMatchingInRuns(n: nat, states: seq<System>, steps: seq<Step>, i: nat, a: nat, b: nat, k: nat)
    requires n >= 1 && AnyRun(n, states, steps) && i < |states| && a < n && b < n && |states[i].servers| == n
    requires k < |states[i].servers[a].log| && k < |states[i].servers[b].log|
    requires states[i].servers[a].log[k].term == states[i].servers[b].log[k].term
    ensures states[i].servers[a].log[..k + 1] == states[i].servers[b].log[..k + 1]
  {
    AnyRunBase(n, states, steps, i);
    assert Sound(states[i], a) && Sound(states[i], b);
    LogMatching(states[i].servers[a].log, states[i].servers[b].log, k, states[i].reigns);
  }

  /** A successful AppendEntries of a crash-free run makes the receiver's log equal to
      the leader's log as it was when the request was sent. */
  lemma AcceptedLogIsLeaders(n: nat, states: seq<System>, steps: seq<Step>, i: nat)
    requires n >= 1 && AnyRun(n, states, steps) && i < |steps| && steps[i].Deliver?
    ensures Enabled(states[i], steps[i])
    ensures var y := states[i];
      var m := y.appends[steps[i].k];
      AppendEntries(y.servers[m.to], m.args).1.success ==>
        states[i + 1].servers[m.to].log == m.snapshot
  {
    AnyRunBase(n, states, steps, i);
    assert LeadsTo({}, states[i], steps[i], states[i + 1]);
    var y := states[i];
    if AppendEntries(y.servers[y.appends[steps[i].k].to], y.appends[steps[i].k].args).1.success {
      TakesSnapshot(y, steps[i].k);
    }
  }
}
