/** The election half of the invariant proof, in steps that each keep the invariant:

      raise a term     RaiseTermInv        count a vote     TallyInv
      cast a vote      CastVoteInv         win              CrownInv
      stand            CandidacyInv

    A vote promises that the candidate's log carries what the voter holds
    (VoteIsMeaningful), two majorities share a voter (QuorumsMeet), and so a leader has
    what was decided before it (LeaderCompleteness). */
module RaftElection {
  import opened RaftServer
  import opened RaftSystem
  import opened RaftInvariant
  import opened RaftBasics

  // ----- logs ------------------------------------------------------------------

  /** Election restriction: a log at least as up to date as a voter's log carries
      whatever the voter's log carries. */
  lemma UpToDateCarries(y: System, mine: Log, theirs: Log, t: nat, len: nat, u: nat)
    requires ReignsOk(y) && GoodLog(mine, y.reigns) && GoodLog(theirs, y.reigns)
    requires OwnEnd(y.reigns, t, len) && y.reigns[t].log[..len] <= mine
    requires UpToDate(LastTerm(theirs), LastIndex(theirs), mine) && LastTerm(theirs) < u
    ensures Carries(y.reigns, theirs, t, len, u)
  {
    var p := y.reigns[t].log[..len];
    assert ReignOk(y, t);
    assert mine[len - 1].term == t <= LastTerm(mine);
    LastGrounds(mine, y.reigns);
    LastGrounds(theirs, y.reigns);
    var w := LastTerm(theirs);
    assert ReignOk(y, w);
    if w == LastTerm(mine) {
      assert mine <= theirs;
    } else if p <= y.reigns[w].first {
      assert |y.reigns[w].first| < |theirs|;
    } else {
      assert Lacks(y.reigns, w, t, len);
    }
  }

  // ----- framing ---------------------------------------------------------------

  /** From y to z only server j acted: it kept or raised its term and took log
      entries over in its new term at most. */
  ghost predicate Only(y: System, z: System, j: nat) {
    && Grows(y, z) && j < |y.servers| == |y.applied| == |z.applied|
    && (forall i :: 0 <= i < |y.servers| && i != j ==> z.servers[i] == y.servers[i] && z.applied[i] == y.applied[i])
    && y.servers[j].term <= z.servers[j].term
    && (forall k | k in z.votes && k.0 != j :: k in y.votes)
    && (forall k | k in z.held && (k.0 != j || k.1 != z.servers[j].term) :: k in y.held && z.held[k] == y.held[k])
  }

  lemma OthersKeep(y: System, z: System, j: nat)
    requires Inv(y) && Only(y, z, j)
    ensures forall i {:trigger ServerOk(z, i)} :: 0 <= i < |z.servers| && i != j ==> ServerOk(z, i)
  {
    forall i | 0 <= i < |z.servers| && i != j ensures ServerOk(z, i) {
      assert ServerOk(y, i);
      ServerGrows(y, z, i);
    }
  }

  lemma VotesKeep(y: System, z: System, j: nat)
    requires Inv(y) && Only(y, z, j)
    ensures forall v, u {:trigger VoteOk(z, v, u)} | (v, u) in y.votes :: VoteOk(z, v, u)
  {
    forall v, u | (v, u) in y.votes ensures VoteOk(z, v, u) {
      assert VoteOk(y, v, u);
      forall t: nat | t < u && (v, t) in z.held ensures (v, t) in y.held && z.held[(v, t)] == y.held[(v, t)] {
        assert (v, t).0 == v;
      }
      VoteGrows(y, z, v, u);
    }
  }

  lemma HeldsKeep(y: System, z: System, j: nat)
    requires Inv(y) && Only(y, z, j)
    ensures forall i, t {:trigger HeldOk(z, i, t)} | (i, t) in z.held && i != j :: HeldOk(z, i, t)
    ensures z.servers[j].log == y.servers[j].log ==>
              forall t {:trigger HeldOk(z, j, t)} | (j, t) in z.held && t != z.servers[j].term :: HeldOk(z, j, t)
  {
    forall i, t | (i, t) in z.held && (i != j || (z.servers[j].log == y.servers[j].log && t != z.servers[j].term))
      ensures HeldOk(z, i, t)
    {
      assert (i, t).0 == i && (i, t).1 == t;
      assert HeldOk(y, i, t);
      HeldGrows(y, z, i, t);
    }
  }

  lemma PollsKeep(y: System, z: System, j: nat)
    requires Inv(y) && Only(y, z, j)
    ensures forall c, t {:trigger PollOk(z, c, t)} | (c, t) in y.polls && z.polls[(c, t)] == y.polls[(c, t)] ::
      PollOk(z, c, t)
  {
    forall c, t | (c, t) in y.polls && z.polls[(c, t)] == y.polls[(c, t)] ensures PollOk(z, c, t) {
      assert PollOk(y, c, t);
      GoodLogGrows(y.polls[(c, t)].log, y.reigns, z.reigns);
    }
  }

  /** Reigns stay fine unless j changes its role or log within a term it leads. */
  lemma ReignsKeep(y: System, z: System, j: nat)
    requires Inv(y) && Only(y, z, j)
    requires y.servers[j].role == Leader && z.servers[j].term == y.servers[j].term ==>
               z.servers[j].role == Leader && z.servers[j].log == y.servers[j].log && z.held == y.held
    ensures forall t {:trigger ReignOk(z, t)} | t in y.reigns && z.reigns[t] == y.reigns[t] :: ReignOk(z, t)
  {
    forall t | t in y.reigns && z.reigns[t] == y.reigns[t] ensures ReignOk(z, t) {
      var r := y.reigns[t];
      assert ReignOk(y, t);
      GoodLogGrows(r.log, y.reigns, z.reigns);
    }
  }

  // ----- micro-steps -----------------------------------------------------------

  lemma RaiseTermInv(y: System, j: nat, t: nat) returns (z: System)
    requires Inv(y) && j < |y.servers| && t > y.servers[j].term
    ensures z == SetServer(y, j, StepDown(y.servers[j], t)) && Inv(z)
  {
    z := SetServer(y, j, StepDown(y.servers[j], t));
    var s := y.servers[j];
    assert ServerOk(y, j);
    assert Only(y, z, j);
    assert ServerOk(z, j) by {
      assert (j, t) !in y.votes by { assert (j, t) in y.votes ==> VoteOk(y, j, t); }
      CommittedGrows(y, z, s.log[..s.commitIndex + 1], CommitBound(y, j), CommitBound(z, j));
    }
    Reassemble(y, z, j);
  }

  /** When only j's record changed, and not its log, the rest follows from framing. */
  lemma Reassemble(y: System, z: System, j: nat)
    requires Inv(y) && Only(y, z, j) && ServerOk(z, j)
    requires z.polls == y.polls && z.reigns == y.reigns && z.held == y.held && z.votes == y.votes
    requires z.servers[j].log == y.servers[j].log
    requires y.servers[j].role == Leader && z.servers[j].term == y.servers[j].term ==> z.servers[j].role == Leader
    requires z.ballots == y.ballots && z.beats == y.beats && z.appends == y.appends && z.acks == y.acks
    ensures Inv(z)
  {
    OthersKeep(y, z, j);
    VotesKeep(y, z, j);
    HeldsKeep(y, z, j);
    forall t | (j, t) in z.held ensures HeldOk(z, j, t) {
      assert HeldOk(y, j, t);
      HeldGrows(y, z, j, t);
    }
    PollsKeep(y, z, j);
    ReignsKeep(y, z, j);
    MessagesGrow(y, z);
  }

  /** What a vote of v in term u for a candidate with log p promises. */
  ghost predicate Meaningful(y: System, v: nat, p: Log, u: nat) {
    forall t: nat, len: nat :: t < u && (v, t) in y.held && len <= y.held[(v, t)] && OwnEnd(y.reigns, t, len) ==>
      Carries(y.reigns, p, t, len, u)
  }

  /** Before it moves to term u, a voter may promise any log as up to date as its own. */
  lemma VoteIsMeaningful(y: System, v: nat, p: Log, u: nat)
    requires Inv(y) && v < |y.servers| && y.servers[v].term < u
    requires GoodLog(p, y.reigns) && LastTerm(p) < u
    requires |y.servers[v].log| > 0 && UpToDate(LastTerm(p), LastIndex(p), y.servers[v].log)
    ensures Meaningful(y, v, p, u)
  {
    var mine := y.servers[v].log;
    assert ServerOk(y, v);
    forall t: nat, len: nat | t < u && (v, t) in y.held && len <= y.held[(v, t)] && OwnEnd(y.reigns, t, len)
      ensures Carries(y.reigns, p, t, len, u)
    {
      assert HeldOk(y, v, t);
      if y.reigns[t].log[..len] <= mine {
        UpToDateCarries(y, mine, p, t, len, u);
      }
    }
  }

  lemma CastVoteServer(y: System, v: nat, c: nat)
    requires Inv(y) && v < |y.servers| && y.servers[v].role == Follower && y.servers[v].votedFor == -1
    ensures var s := y.servers[v];
      var z := SetServer(y, v, s.(votedFor := c)).(votes := y.votes[(v, s.term) := c]);
      Only(y, z, v) && ServerOk(z, v) && (v, s.term) !in y.votes
  {
    var s := y.servers[v];
    var z := SetServer(y, v, s.(votedFor := c)).(votes := y.votes[(v, s.term) := c]);
    assert ServerOk(y, v);
    assert Only(y, z, v);
    CommittedGrows(y, z, s.log[..s.commitIndex + 1], CommitBound(y, v), CommitBound(z, v));
  }

  lemma CastVoteInv(y: System, v: nat, c: nat) returns (z: System)
    requires Inv(y) && v < |y.servers| && y.servers[v].role == Follower && y.servers[v].votedFor == -1
    requires (c, y.servers[v].term) in y.polls
    requires Meaningful(y, v, y.polls[(c, y.servers[v].term)].log, y.servers[v].term)
    ensures z == SetServer(y, v, y.servers[v].(votedFor := c)).(votes := y.votes[(v, y.servers[v].term) := c])
    ensures Inv(z)
  {
    var s := y.servers[v];
    z := SetServer(y, v, s.(votedFor := c)).(votes := y.votes[(v, s.term) := c]);
    CastVoteServer(y, v, c);
    OthersKeep(y, z, v);
    VotesKeep(y, z, v);
    assert VoteOk(z, v, s.term);
    forall i, t | (i, t) in z.held ensures HeldOk(z, i, t) {
      assert HeldOk(y, i, t);
      HeldGrows(y, z, i, t);
    }
    PollsKeep(y, z, v);
    ReignsKeep(y, z, v);
    MessagesGrow(y, z);
  }

  ghost function Candidacy(y: System, c: nat): System
    requires c < |y.servers|
  {
    var s := y.servers[c];
    SetServer(y, c, s.(role := Candidate, votedFor := c)).(
      polls := y.polls[(c, s.term) := Poll(s.log, 0, 1, 1, {c})], votes := y.votes[(c, s.term) := c])
  }

  lemma CandidacyServer(y: System, c: nat)
    requires Inv(y) && c < |y.servers| && y.servers[c].role == Follower && y.servers[c].votedFor == -1
    requires |y.servers[c].log| > 0 && LastTerm(y.servers[c].log) < y.servers[c].term
    ensures Only(y, Candidacy(y, c), c) && ServerOk(Candidacy(y, c), c)
    ensures (c, y.servers[c].term) !in y.polls && (c, y.servers[c].term) !in y.votes
  {
    var z := Candidacy(y, c);
    var s := y.servers[c];
    assert ServerOk(y, c);
    assert (c, s.term) in y.polls ==> PollOk(y, c, s.term);
    assert Only(y, z, c);
    CommittedGrows(y, z, s.log[..s.commitIndex + 1], CommitBound(y, c), CommitBound(z, c));
  }

  lemma CandidacyInv(y: System, c: nat)
    requires Inv(y) && c < |y.servers| && y.servers[c].role == Follower && y.servers[c].votedFor == -1
    requires |y.servers[c].log| > 0 && LastTerm(y.servers[c].log) < y.servers[c].term
    requires Meaningful(y, c, y.servers[c].log, y.servers[c].term)
    ensures Inv(Candidacy(y, c))
  {
    var z := Candidacy(y, c);
    var s := y.servers[c];
    CandidacyServer(y, c);
    OthersKeep(y, z, c);
    VotesKeep(y, z, c);
    assert VoteOk(z, c, s.term);
    HeldsKeep(y, z, c);
    forall t | (c, t) in z.held ensures HeldOk(z, c, t) {
      assert HeldOk(y, c, t);
      HeldGrows(y, z, c, t);
    }
    PollsKeep(y, z, c);
    assert PollOk(z, c, s.term) by { assert ServerOk(z, c); }
    ReignsKeep(y, z, c);
    MessagesGrow(y, z);
  }

  // ----- leader completeness ---------------------------------------------------

  /** Leader completeness: what a majority took over in term t is in the starting
      log of every later leader. */
  lemma LeaderCompleteness(y: System, t: nat, len: nat, u: nat)
    requires Inv(y) && Chosen(y, t, len) && t < u && u in y.reigns
    ensures y.reigns[t].log[..len] <= y.reigns[u].first
    decreases u
  {
    var q :| Quorum(q, |y.servers|) && HeldBy(y, q, t, len);
    var r := y.reigns[u];
    assert ReignOk(y, u);
    var v := QuorumsMeet(q, r.voters, |y.servers|);
    assert VoteOk(y, v, u);
    assert Carries(y.reigns, y.polls[(r.leader, u)].log, t, len, u);
    if !(y.reigns[t].log[..len] <= r.first) {
      var w: nat :| t < w < u && Lacks(y.reigns, w, t, len);
      LeaderCompleteness(y, t, len, w);
    }
  }

  // ----- more micro-steps ------------------------------------------------------

  lemma TallyInv(y: System, c: nat, t: nat, reply: VoteReply) returns (z: System)
    requires Inv(y) && (c, t) in y.polls && y.polls[(c, t)].next < |y.servers|
    requires reply == NO_VOTE || Ballot(y.polls[(c, t)].next, c, t, reply) in y.ballots
    ensures z == y.(polls := y.polls[(c, t) := Tally(y.polls[(c, t)], c, reply)]) && Inv(z)
  {
    var p := y.polls[(c, t)];
    z := y.(polls := y.polls[(c, t) := Tally(p, c, reply)]);
    assert PollOk(y, c, t);
    assert Only(y, z, c);
    forall i | 0 <= i < |z.servers| ensures ServerOk(z, i) {
      assert ServerOk(y, i);
      ServerGrows(y, z, i);
    }
    VotesKeep(y, z, c);
    forall i, t' | (i, t') in z.held ensures HeldOk(z, i, t') {
      assert HeldOk(y, i, t');
      HeldGrows(y, z, i, t');
    }
    PollsKeep(y, z, c);
    assert PollOk(z, c, t) by {
      var b := Ballot(p.next, c, t, reply);
      if b in y.ballots { assert BallotOk(y, b); }
    }
    ReignsKeep(y, z, c);
    MessagesGrow(y, z);
  }

  ghost function Crowned(y: System, c: nat): System
    requires c < |y.servers| && |y.servers[c].log| > 0 && (c, y.servers[c].term) in y.polls
  {
    var s := y.servers[c];
    SetServer(y, c, WinElection(s, c, |y.servers|, s.term)).(
      reigns := y.reigns[s.term := Reign(c, y.polls[(c, s.term)].voters, s.log, s.log)],
      held := y.held[(c, s.term) := |s.log|])
  }

  lemma CrownFrame(y: System, c: nat)
    requires Inv(y) && c < |y.servers| && y.servers[c].role == Candidate && |y.servers[c].log| > 0
    requires (c, y.servers[c].term) in y.polls && y.polls[(c, y.servers[c].term)].granted > |y.servers| / 2
    ensures Only(y, Crowned(y, c), c) && y.servers[c].term !in y.reigns
    ensures GoodLog(y.servers[c].log, y.reigns) && LastTerm(y.servers[c].log) < y.servers[c].term
    ensures y.servers[c].log == y.polls[(c, y.servers[c].term)].log
  {
    var s := y.servers[c];
    InvIsBase(y);
    Vacant(y, c);
    assert PollOk(y, c, s.term) && ServerOk(y, c);
    assert (c, s.term) in y.held ==> HeldOk(y, c, s.term);
  }

  lemma CrownLeader(y: System, c: nat)
    requires Inv(y) && c < |y.servers| && y.servers[c].role == Candidate && |y.servers[c].log| > 0
    requires (c, y.servers[c].term) in y.polls && y.polls[(c, y.servers[c].term)].granted > |y.servers| / 2
    ensures LeaderOk(Crowned(y, c), c)
  {
  }

  lemma CrownCommit(y: System, c: nat)
    requires Inv(y) && c < |y.servers| && y.servers[c].role == Candidate && |y.servers[c].log| > 0
    requires (c, y.servers[c].term) in y.polls && y.polls[(c, y.servers[c].term)].granted > |y.servers| / 2
    ensures var z := Crowned(y, c);
      var s := z.servers[c];
      s.commitIndex < |s.log| && Committed(z, s.log[..s.commitIndex + 1], CommitBound(z, c)) && GoodLog(s.log, z.reigns)
  {
    var z := Crowned(y, c);
    var s := y.servers[c];
    CrownFrame(y, c);
    assert ServerOk(y, c);
    GoodLogGrows(s.log, y.reigns, z.reigns);
    CommittedGrows(y, z, s.log[..s.commitIndex + 1], CommitBound(y, c), CommitBound(z, c));
  }

  lemma CrownServer(y: System, c: nat)
    requires Inv(y) && c < |y.servers| && y.servers[c].role == Candidate && |y.servers[c].log| > 0
    requires (c, y.servers[c].term) in y.polls && y.polls[(c, y.servers[c].term)].granted > |y.servers| / 2
    ensures ServerOk(Crowned(y, c), c)
  {
    CrownLeader(y, c);
    CrownCommit(y, c);
    assert ServerOk(y, c);
  }

  lemma CrownInv(y: System, c: nat)
    requires Inv(y) && c < |y.servers| && y.servers[c].role == Candidate && |y.servers[c].log| > 0
    requires (c, y.servers[c].term) in y.polls && y.polls[(c, y.servers[c].term)].granted > |y.servers| / 2
    ensures Inv(Crowned(y, c))
  {
    var z := Crowned(y, c);
    var s := y.servers[c];
    CrownFrame(y, c);
    CrownServer(y, c);
    assert PollOk(y, c, s.term);
    OthersKeep(y, z, c);
    VotesKeep(y, z, c);
    HeldsKeep(y, z, c);
    assert s.log[..|s.log|] == s.log;
    assert HeldOk(z, c, s.term);
    PollsKeep(y, z, c);
    ReignsKeep(y, z, c);
    GoodLogGrows(s.log, y.reigns, z.reigns);
    assert ReignOk(z, s.term);
    MessagesGrow(y, z);
  }
}
