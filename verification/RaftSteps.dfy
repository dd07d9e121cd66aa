/** The replication half of the invariant proof: every step of the Raft system that
    moves log entries or what is known about them keeps the invariant. Compound
    handlers are cut into micro-steps, each of which keeps it:

      append a command   ProposeInv     count an answer         SuccessInv
      take over a log    AcceptInv      apply                   FlushInv
      send a request     SendInv        leave other messages    PostInv

    Each comes as several lemmas: the framing of everything the step does not touch
    (`Only`), the changed server's record, and the parts of the invariant that the
    change concerns. */
module RaftSteps {
  import opened RaftServer
  import opened RaftSystem
  import opened RaftInvariant
  import opened RaftBasics
  import opened RaftElection

  ghost function Proposed(y: System, l: nat, command: Command): System
    requires l < |y.servers| && y.servers[l].role == Leader && l < |y.servers[l].matchIndex|
    requires y.servers[l].term in y.reigns
  {
    var s := Start(y.servers[l], l, command);
    SetServer(y, l, s).(
      reigns := y.reigns[s.term := y.reigns[s.term].(log := s.log)], held := y.held[(l, s.term) := |s.log|])
  }

  lemma ProposeLog(y: System, l: nat, command: Command)
    requires Inv(y) && l < |y.servers| && y.servers[l].role == Leader && l < |y.servers[l].matchIndex|
    requires y.servers[l].term in y.reigns
    ensures var z := Proposed(y, l, command);
      Only(y, z, l) && y.servers[l].log <= z.servers[l].log && GoodLog(z.servers[l].log, z.reigns)
  {
    var z := Proposed(y, l, command);
    var t := y.servers[l].term;
    assert ServerOk(y, l) && ReignOk(y, t);
    assert Only(y, z, l);
    ProposedLog(y.servers[l].log, command, t, y.reigns, z.reigns);
  }

  lemma ProposeLeader(y: System, l: nat, command: Command)
    requires Inv(y) && l < |y.servers| && y.servers[l].role == Leader && l < |y.servers[l].matchIndex|
    requires y.servers[l].term in y.reigns
    ensures LeaderOk(Proposed(y, l, command), l)
  {
    assert ServerOk(y, l);
  }

  lemma ProposeApplied(y: System, l: nat, command: Command)
    requires Inv(y) && l < |y.servers| && y.servers[l].role == Leader && l < |y.servers[l].matchIndex|
    requires y.servers[l].term in y.reigns
    ensures var z := Proposed(y, l, command);
      var s := z.servers[l];
      s.lastApplied <= s.commitIndex < |s.log| && z.applied[l] == Messages(s.log, 1, s.lastApplied)
  {
    var s := y.servers[l];
    assert ServerOk(y, l);
    assert (s.log + [Entry(command, s.term)])[..s.lastApplied + 1] == s.log[..s.lastApplied + 1];
    MessagesPrefix(s.log + [Entry(command, s.term)], s.log, 1, s.lastApplied);
  }

  lemma ProposeCommit(y: System, l: nat, command: Command)
    requires Inv(y) && l < |y.servers| && y.servers[l].role == Leader && l < |y.servers[l].matchIndex|
    requires y.servers[l].term in y.reigns
    ensures var z := Proposed(y, l, command);
      var s := z.servers[l];
      s.commitIndex < |s.log| && Committed(z, s.log[..s.commitIndex + 1], CommitBound(z, l))
  {
    var z := Proposed(y, l, command);
    var s := z.servers[l];
    ProposeLog(y, l, command);
    assert ServerOk(y, l);
    assert s.log[..s.commitIndex + 1] == y.servers[l].log[..s.commitIndex + 1];
    CommittedGrows(y, z, s.log[..s.commitIndex + 1], CommitBound(y, l), CommitBound(z, l));
  }

  lemma ProposeServer(y: System, l: nat, command: Command)
    requires Inv(y) && l < |y.servers| && y.servers[l].role == Leader && l < |y.servers[l].matchIndex|
    requires y.servers[l].term in y.reigns
    ensures ServerOk(Proposed(y, l, command), l)
  {
    ProposeLog(y, l, command);
    ProposeCommit(y, l, command);
    ProposeApplied(y, l, command);
    ProposeLeader(y, l, command);
    assert ServerOk(y, l);
  }

  lemma ProposeReigns(y: System, l: nat, command: Command)
    requires Inv(y) && l < |y.servers| && y.servers[l].role == Leader && l < |y.servers[l].matchIndex|
    requires y.servers[l].term in y.reigns
    ensures ReignsOk(Proposed(y, l, command))
  {
    var z := Proposed(y, l, command);
    ProposeLog(y, l, command);
    assert ServerOk(y, l);
    forall t | t in z.reigns ensures ReignOk(z, t) {
      assert ReignOk(y, t);
      GoodLogGrows(y.reigns[t].log, y.reigns, z.reigns);
    }
  }

  lemma ProposeInv(y: System, l: nat, command: Command)
    requires Inv(y) && l < |y.servers| && y.servers[l].role == Leader && l < |y.servers[l].matchIndex|
    requires y.servers[l].term in y.reigns
    ensures Inv(Proposed(y, l, command))
  {
    var z := Proposed(y, l, command);
    ProposeLog(y, l, command);
    ProposeServer(y, l, command);
    ProposeReigns(y, l, command);
    assert ServerOk(y, l) && ReignOk(y, z.servers[l].term);
    OthersKeep(y, z, l);
    VotesKeep(y, z, l);
    HeldsKeep(y, z, l);
    LeaderHolds(y, z, l);
    PollsKeep(y, z, l);
    MessagesGrow(y, z);
  }

  /** After an append at the leader everything it held before is still accounted for. */
  lemma LeaderHolds(y: System, z: System, l: nat)
    requires Inv(y) && Only(y, z, l) && z.servers[l].term == y.servers[l].term && z.servers[l].term in z.reigns
    requires y.servers[l].log <= z.servers[l].log == z.reigns[z.servers[l].term].log
    requires z.reigns[z.servers[l].term].leader == l && |z.reigns[z.servers[l].term].first| <= |z.servers[l].log|
    requires (l, z.servers[l].term) in z.held && z.held[(l, z.servers[l].term)] == |z.servers[l].log|
    ensures forall t {:trigger HeldOk(z, l, t)} | (l, t) in z.held :: HeldOk(z, l, t)
  {
    var now := z.servers[l].term;
    forall t | (l, t) in z.held ensures HeldOk(z, l, t) {
      if t == now {
        assert z.servers[l].log[..|z.servers[l].log|] == z.servers[l].log;
      } else {
        assert (l, t).1 == t;
        assert HeldOk(y, l, t);
        if l != y.reigns[t].leader {
          var a :| a in y.acks && AcceptedBy(y, a, l, t, y.held[(l, t)]);
          assert AcceptedBy(z, a, l, t, y.held[(l, t)]);
        }
        forall len: nat | len <= z.held[(l, t)] && OwnEnd(z.reigns, t, len)
          ensures Carries(z.reigns, z.servers[l].log, t, len, now + 1)
        {
          OwnEndShrinks(y.reigns, z.reigns, t, len);
          CarriesGrows(y.reigns, z.reigns, y.servers[l].log, t, len, now + 1, now + 1);
        }
      }
    }
  }

  // ----- accepting entries -----------------------------------------------------

  /** Server j, already in the term of request k, accepts it. */
  ghost predicate Accepts(y: System, k: nat) {
    && k < |y.appends| && y.appends[k].to < |y.servers|
    && var a := y.appends[k].args;
    && var s := y.servers[y.appends[k].to];
    && |s.log| > 0 && s.term == a.term && !Outdated(a, s.log)
    && a.prevIndex < |s.log| && s.log[a.prevIndex].term == a.prevTerm
    && FreshHeartbeat(y, k)
  }

  lemma SnapshotIsGood(y: System, m: Append)
    requires ReignsOk(y) && AppendOk(y, m)
    ensures GoodLog(m.snapshot, y.reigns)
  {
    assert ReignOk(y, m.args.term);
    PrefixIsGood(y.reigns[m.args.term].log, |m.snapshot|, y.reigns);
    assert m.snapshot == y.reigns[m.args.term].log[..|m.snapshot|];
  }

  /** An accepted AppendEntries leaves the leader's log as it was at send time. */
  lemma AcceptTakesSnapshot(y: System, k: nat)
    requires Inv(y) && Accepts(y, k)
    ensures var m := y.appends[k];
      y.servers[m.to].log[..m.args.prevIndex + 1] + m.args.entries == m.snapshot
  {
    var m := y.appends[k];
    assert AppendOk(y, m) && ServerOk(y, m.to);
    SnapshotIsGood(y, m);
    LogMatching(y.servers[m.to].log, m.snapshot, m.args.prevIndex, y.reigns);
  }

  /** What is accepted is never shorter than what was accepted before in the term:
      by `lookConsistency` for a batch with entries, by H-a for one without. */
  lemma AcceptNeverShrinks(y: System, k: nat)
    requires Inv(y) && Accepts(y, k)
    ensures var m := y.appends[k];
      (m.to, m.args.term) in y.held ==> y.held[(m.to, m.args.term)] <= |m.snapshot|
  {
    var m := y.appends[k];
    var j, t := m.to, m.args.term;
    if (j, t) in y.held {
      var h := y.held[(j, t)];
      assert AppendOk(y, m) && HeldOk(y, j, t) && ReignOk(y, t);
      if m.args.entries == [] {
        var a :| a in y.acks && AcceptedBy(y, a, j, t, h);
        assert AppendOk(y, y.appends[a.k]);
        assert SameLink(y.appends[a.k], m);
      } else {
        ShorterIsOutdated(y.reigns[t].log, |m.snapshot|, h);
      }
    }
  }

  /** The accepted log still holds the follower's committed prefix. */
  lemma AcceptKeepsCommitted(y: System, k: nat)
    requires Inv(y) && Accepts(y, k)
    ensures var m := y.appends[k];
      var s := y.servers[m.to];
      s.commitIndex < |m.snapshot| && s.commitIndex < |s.log|
        && s.log[..s.commitIndex + 1] == m.snapshot[..s.commitIndex + 1]
  {
    var m := y.appends[k];
    var s := y.servers[m.to];
    var t := s.term;
    assert AppendOk(y, m) && ServerOk(y, m.to) && ReignOk(y, t);
    var p := s.log[..s.commitIndex + 1];
    SnapshotIsGood(y, m);
    if s.commitIndex == 0 {
      assert p == [s.log[0]] && m.snapshot[..1] == [m.snapshot[0]];
    } else {
      var t0: nat, len: nat :| t0 <= CommitBound(y, m.to) && Chosen(y, t0, len) && p <= y.reigns[t0].log[..len];
      if t0 < t {
        LeaderCompleteness(y, t0, len, t);
        assert p <= m.snapshot;
      } else {
        assert HeldOk(y, m.to, t);
        AcceptNeverShrinks(y, k);
      }
    }
  }

  ghost function Accepting(y: System, k: nat, reply: AppendReply): System
    requires k < |y.appends| && y.appends[k].to < |y.servers|
  {
    var m := y.appends[k];
    var s := y.servers[m.to];
    SetServer(y, m.to, s.(log := m.snapshot,
                          commitIndex := FollowerCommit(s.commitIndex, m.args.leaderCommit, |m.snapshot|))).(
      acks := y.acks + {Ack(k, reply)}, held := y.held[(m.to, m.args.term) := |m.snapshot|])
  }

  lemma AcceptFrame(y: System, k: nat, reply: AppendReply)
    requires Inv(y) && Accepts(y, k)
    ensures Only(y, Accepting(y, k, reply), y.appends[k].to)
    ensures y.servers[y.appends[k].to].role != Leader
  {
    assert AppendOk(y, y.appends[k]) && ServerOk(y, y.appends[k].to);
    AcceptNeverShrinks(y, k);
  }

  /** The clamp of the follower's commit index never binds. */
  lemma ClampIsIdle(y: System, k: nat)
    requires Inv(y) && Accepts(y, k)
    ensures var m := y.appends[k];
      var c := y.servers[m.to].commitIndex;
      FollowerCommit(c, m.args.leaderCommit, |m.snapshot|) ==
      (if c < m.args.leaderCommit then m.args.leaderCommit else c)
    ensures var m := y.appends[k];
      FollowerCommit(y.servers[m.to].commitIndex, m.args.leaderCommit, |m.snapshot|) < |m.snapshot|
  {
    assert AppendOk(y, y.appends[k]);
    AcceptKeepsCommitted(y, k);
  }

  /** Learning the leader's commit index: what it covers was decided. */
  lemma AcceptNewCommit(y: System, k: nat, reply: AppendReply)
    requires Inv(y) && Accepts(y, k)
    ensures var z := Accepting(y, k, reply);
      var m := y.appends[k];
      m.args.leaderCommit < |m.snapshot| &&
      (y.servers[m.to].commitIndex < m.args.leaderCommit ==>
         Committed(z, m.snapshot[..m.args.leaderCommit + 1], CommitBound(z, m.to)))
  {
    var z := Accepting(y, k, reply);
    var m := y.appends[k];
    assert AppendOk(y, m);
    AcceptFrame(y, k, reply);
    ClampIsIdle(y, k);
    if y.servers[m.to].commitIndex < m.args.leaderCommit {
      CommittedGrows(y, z, m.snapshot[..m.args.leaderCommit + 1], m.args.term, CommitBound(z, m.to));
    }
  }

  lemma AcceptOldCommit(y: System, k: nat, reply: AppendReply)
    requires Inv(y) && Accepts(y, k)
    ensures var z := Accepting(y, k, reply);
      var m := y.appends[k];
      var c := y.servers[m.to].commitIndex;
      c < |m.snapshot| && (m.args.leaderCommit <= c ==> Committed(z, m.snapshot[..c + 1], CommitBound(z, m.to)))
  {
    var z := Accepting(y, k, reply);
    var m := y.appends[k];
    var s := y.servers[m.to];
    assert ServerOk(y, m.to);
    AcceptFrame(y, k, reply);
    AcceptKeepsCommitted(y, k);
    if m.args.leaderCommit <= s.commitIndex {
      CommittedGrows(y, z, s.log[..s.commitIndex + 1], CommitBound(y, m.to), CommitBound(z, m.to));
    }
  }

  lemma AcceptCommit(y: System, k: nat, reply: AppendReply)
    requires Inv(y) && Accepts(y, k)
    ensures var z := Accepting(y, k, reply);
      var s := z.servers[y.appends[k].to];
      s.commitIndex < |s.log| && Committed(z, s.log[..s.commitIndex + 1], CommitBound(z, y.appends[k].to))
  {
    ClampIsIdle(y, k);
    AcceptNewCommit(y, k, reply);
    AcceptOldCommit(y, k, reply);
  }

  lemma AcceptApplied(y: System, k: nat, reply: AppendReply)
    requires Inv(y) && Accepts(y, k)
    ensures var z := Accepting(y, k, reply);
      var s := z.servers[y.appends[k].to];
      s.lastApplied < |s.log| && z.applied[y.appends[k].to] == Messages(s.log, 1, s.lastApplied)
  {
    var m := y.appends[k];
    var s := y.servers[m.to];
    assert ServerOk(y, m.to);
    AcceptKeepsCommitted(y, k);
    MessagesPrefix(s.log[..s.commitIndex + 1], s.log, 1, s.lastApplied);
    MessagesPrefix(m.snapshot[..s.commitIndex + 1], m.snapshot, 1, s.lastApplied);
  }

  lemma AcceptServer(y: System, k: nat, reply: AppendReply)
    requires Inv(y) && Accepts(y, k)
    ensures ServerOk(Accepting(y, k, reply), y.appends[k].to)
  {
    var z := Accepting(y, k, reply);
    var m := y.appends[k];
    var s := y.servers[m.to];
    assert AppendOk(y, m) && ServerOk(y, m.to) && ReignOk(y, s.term);
    AcceptFrame(y, k, reply);
    AcceptCommit(y, k, reply);
    AcceptApplied(y, k, reply);
    SnapshotIsGood(y, m);
    assert z.reigns == y.reigns;
    assert LastTerm(m.snapshot) <= s.term by {
      assert m.snapshot[|m.snapshot| - 1] == y.reigns[s.term].log[|m.snapshot| - 1];
    }
  }

  lemma MessagesPrefix(a: Log, b: Log, lo: nat, hi: nat)
    requires hi < |a| && hi < |b| && a[..hi + 1] == b[..hi + 1]
    ensures Messages(a, lo, hi) == Messages(b, lo, hi)
  {
    forall i | lo <= i <= hi ensures a[i] == b[i] {
      assert a[i] == a[..hi + 1][i] && b[i] == b[..hi + 1][i];
    }
  }

  /** What the receiver held from older terms the new log carries, or its leader lacked it. */
  lemma AcceptKeepsOlder(y: System, k: nat, reply: AppendReply, t0: nat)
    requires Inv(y) && Accepts(y, k) && reply.success
    requires (y.appends[k].to, t0) in y.held && t0 != y.appends[k].args.term
    ensures HeldOk(Accepting(y, k, reply), y.appends[k].to, t0)
  {
    var z := Accepting(y, k, reply);
    var m := y.appends[k];
    var j, t := m.to, m.args.term;
    assert AppendOk(y, m) && ReignOk(y, t) && HeldOk(y, j, t0);
    if j != y.reigns[t0].leader {
      var a :| a in y.acks && AcceptedBy(y, a, j, t0, y.held[(j, t0)]);
      assert AcceptedBy(z, a, j, t0, y.held[(j, t0)]);
    }
    forall len: nat | len <= z.held[(j, t0)] && OwnEnd(z.reigns, t0, len)
      ensures Carries(z.reigns, m.snapshot, t0, len, t + 1)
    {
      if !(y.reigns[t0].log[..len] <= y.reigns[t].first) {
        assert Lacks(y.reigns, t, t0, len);
      }
    }
  }

  lemma AcceptHelds(y: System, k: nat, reply: AppendReply)
    requires Inv(y) && Accepts(y, k) && reply.success
    ensures HeldsOk(Accepting(y, k, reply))
  {
    var z := Accepting(y, k, reply);
    var m := y.appends[k];
    var j, t := m.to, m.args.term;
    AcceptFrame(y, k, reply);
    AcceptNeverShrinks(y, k);
    HeldsKeep(y, z, j);
    assert AppendOk(y, m) && ReignOk(y, t);
    forall t0 | (j, t0) in z.held ensures HeldOk(z, j, t0) {
      if t0 == t {
        assert AcceptedBy(z, Ack(k, reply), j, t, |m.snapshot|);
      } else {
        AcceptKeepsOlder(y, k, reply, t0);
      }
    }
  }

  lemma AcceptInv(y: System, k: nat, reply: AppendReply)
    requires Inv(y) && Accepts(y, k) && reply.success
    ensures Inv(Accepting(y, k, reply))
  {
    var z := Accepting(y, k, reply);
    var j := y.appends[k].to;
    AcceptFrame(y, k, reply);
    AcceptServer(y, k, reply);
    AcceptHelds(y, k, reply);
    OthersKeep(y, z, j);
    VotesKeep(y, z, j);
    PollsKeep(y, z, j);
    ReignsKeep(y, z, j);
    MessagesGrow(y, z);
    assert AckOk(z, Ack(k, reply));
  }

  // ----- sending and answering -------------------------------------------------

  lemma SentIsOk(y: System, b: Beat)
    requires Inv(y) && Enabled(y, Send(b))
    ensures var z := Do(y, Send(b)); Grows(y, z) && AppendOk(z, z.appends[|y.appends|])
  {
    InvIsBase(y);
    SendIsSent(y, b);
    assert ReignOk(y, b.term);
    SentCommit(y, b);
  }

  lemma SentCommit(y: System, b: Beat)
    requires Inv(y) && Enabled(y, Send(b))
    ensures var s := y.servers[b.leader];
      s.commitIndex < |s.log| && Committed(Do(y, Send(b)), s.log[..s.commitIndex + 1], s.term)
  {
    var s := y.servers[b.leader];
    assert ServerOk(y, b.leader);
    CommittedGrows(y, Do(y, Send(b)), s.log[..s.commitIndex + 1], CommitBound(y, b.leader), s.term);
  }

  lemma SendMessages(y: System, b: Beat)
    requires Inv(y) && Enabled(y, Send(b))
    ensures MessagesOk(Do(y, Send(b)))
  {
    SentIsOk(y, b);
    MessagesGrow(y, Do(y, Send(b)));
    SendKeepsOrder(y, b);
  }

  lemma SendKeepsOrder(y: System, b: Beat)
    requires Inv(y) && Enabled(y, Send(b))
    ensures SendOrder(Do(y, Send(b)))
  {
    var z := Do(y, Send(b));
    assert ServerOk(y, b.leader);
    forall i, k | 0 <= i <= k < |z.appends| && z.appends[i].args.term == z.appends[k].args.term
      ensures |z.appends[i].snapshot| <= |z.appends[k].snapshot|
    {
      if i < |y.appends| {
        assert AppendOk(y, y.appends[i]);
        assert ReignOk(y, y.appends[i].args.term);
      }
    }
  }

  lemma SendInv(y: System, b: Beat)
    requires Inv(y) && Enabled(y, Send(b))
    ensures Inv(Do(y, Send(b)))
  {
    var z := Do(y, Send(b));
    SendMessages(y, b);
    assert ServerOk(y, b.leader);
    assert Only(y, z, b.leader);
    ServerGrows(y, z, b.leader);
    SameRecords(y, z, b.leader);
  }

  lemma SameRecords(y: System, z: System, j: nat)
    requires Inv(y) && Only(y, z, j) && MessagesOk(z) && ServerOk(z, j)
    requires z.polls == y.polls && z.reigns == y.reigns && z.held == y.held && z.votes == y.votes
    requires z.servers[j].log == y.servers[j].log && z.servers[j].term == y.servers[j].term
    requires z.servers[j].role == y.servers[j].role
    ensures Inv(z)
  {
    OthersKeep(y, z, j);
    VotesKeep(y, z, j);
    HeldsKeep(y, z, j);
    forall t | (j, t) in z.held ensures HeldOk(z, j, t) {
      assert HeldOk(y, j, t);
      HeldGrows(y, z, j, t);
    }
    PollsKeep(y, z, j);
    ReignsKeep(y, z, j);
  }

  /** Sent ballots, goroutines and replies only add to what is in flight. */
  lemma PostInv(y: System, z: System)
    requires Inv(y) && z == y.(ballots := z.ballots, beats := z.beats, acks := z.acks)
    requires y.ballots <= z.ballots && y.beats <= z.beats && y.acks <= z.acks
    requires forall b | b in z.ballots - y.ballots :: BallotOk(z, b)
    requires forall b | b in z.beats - y.beats :: BeatOk(z, b)
    requires forall a | a in z.acks - y.acks :: AckOk(z, a)
    ensures Inv(z)
  {
    assert ServerOk(y, 0);
    assert Only(y, z, 0);
    MessagesGrow(y, z);
    assert MessagesOk(z);
    ServerGrows(y, z, 0);
    SameRecords(y, z, 0);
  }

  lemma MessagesSplit(log: Log, lo: nat, mid: nat, hi: nat)
    requires lo <= mid + 1 && mid <= hi < |log|
    ensures Messages(log, lo, hi) == Messages(log, lo, mid) + Messages(log, mid + 1, hi)
  {
  }

  lemma FlushApplied(y: System, i: nat)
    requires Inv(y) && Enabled(y, Flush(i))
    ensures var z := Do(y, Flush(i));
      var s := z.servers[i];
      s == y.servers[i].(lastApplied := s.lastApplied) && s.lastApplied == s.commitIndex < |s.log|
      && z.applied[i] == Messages(s.log, 1, s.lastApplied)
  {
    var s := y.servers[i];
    assert ServerOk(y, i);
    if s.lastApplied < s.commitIndex {
      MessagesSplit(s.log, 1, s.lastApplied, s.commitIndex);
    }
  }

  lemma FlushCommitted(y: System, i: nat)
    requires Inv(y) && Enabled(y, Flush(i))
    ensures var z := Do(y, Flush(i));
      var s := z.servers[i];
      Only(y, z, i) && s.commitIndex < |s.log| && Committed(z, s.log[..s.commitIndex + 1], CommitBound(z, i))
  {
    var z := Do(y, Flush(i));
    var s := y.servers[i];
    assert ServerOk(y, i);
    assert Only(y, z, i);
    assert CommitBound(z, i) == CommitBound(y, i);
    CommittedGrows(y, z, s.log[..s.commitIndex + 1], CommitBound(y, i), CommitBound(z, i));
  }

  lemma FlushServer(y: System, i: nat)
    requires Inv(y) && Enabled(y, Flush(i))
    ensures Only(y, Do(y, Flush(i)), i) && ServerOk(Do(y, Flush(i)), i)
  {
    FlushApplied(y, i);
    FlushCommitted(y, i);
    assert ServerOk(y, i);
  }

  lemma FlushInv(y: System, i: nat)
    requires Inv(y) && Enabled(y, Flush(i))
    ensures Inv(Do(y, Flush(i)))
  {
    FlushServer(y, i);
    MessagesGrow(y, Do(y, Flush(i)));
    SameRecords(y, Do(y, Flush(i)), i);
  }

  /** The leader's records after a successful reply, commit included. */
  lemma ReplicatedIsChosen(y: System, l: nat, match': seq<nat>, c: nat)
    requires Inv(y) && l < |y.servers| && y.servers[l].role == Leader && |match'| == |y.servers|
    requires forall j :: 0 <= j < |match'| && match'[j] > 0 ==>
      (j, y.servers[l].term) in y.held && y.held[(j, y.servers[l].term)] > match'[j]
    requires 1 <= c < |y.servers[l].log| && y.servers[l].log[c].term == y.servers[l].term
    requires MajorityReplicated(match', c)
    ensures Committed(y, y.servers[l].log[..c + 1], y.servers[l].term)
  {
    var t := y.servers[l].term;
    assert ServerOk(y, l) && ReignOk(y, t);
    var q := Replicas(match', c);
    assert Quorum(q, |y.servers|) && HeldBy(y, q, t, c + 1);
    assert Chosen(y, t, c + 1);
  }

  /** A leader counts a success of its present term. */
  ghost predicate Counts(y: System, k: nat, r: AppendReply) {
    && Enabled(y, Respond(k, r)) && OwnReply(y, k, r) && r.success && !Dismissed(r, y.appends[k].args.term)
    && y.servers[y.appends[k].args.leader].role == Leader
  }

  ghost predicate Obeyed(y: System, k: nat, r: AppendReply) {
    Enabled(y, Respond(k, r)) && OwnReply(y, k, r) && CommitsOwnTerm(y, k, r)
  }

  /** What a leader makes of a success. */
  lemma CountsWhat(y: System, k: nat, r: AppendReply)
    requires Inv(y) && Counts(y, k, r)
    ensures var m := y.appends[k];
      var l := m.args.leader;
      var s := y.servers[l];
      var z := Do(y, Respond(k, r));
      var s' := z.servers[l];
      && z == SetServer(y, l, s') && m.to < |s.nextIndex| && m.to < |s.matchIndex| && |m.snapshot| > 0
      && s' == s.(nextIndex := s.nextIndex[m.to := |m.snapshot|], matchIndex := s.matchIndex[m.to := |m.snapshot| - 1],
                  commitIndex := s'.commitIndex)
      && (s'.commitIndex == s.commitIndex ||
            (s.commitIndex < s'.commitIndex && MajorityReplicated(s'.matchIndex, s'.commitIndex)))
  {
    assert AppendOk(y, y.appends[k]);
  }

  /** What the leader notes of a success is held. */
  lemma NotedIsHeld(y: System, k: nat, r: AppendReply)
    requires Inv(y) && Counts(y, k, r)
    ensures var m := y.appends[k];
      var s := y.servers[m.args.leader];
      && |m.snapshot| <= |s.log| && m.to != m.args.leader
      && (m.to, s.term) in y.held && y.held[(m.to, s.term)] >= |m.snapshot|
  {
    var m := y.appends[k];
    assert AppendOk(y, m) && AckOk(y, Ack(k, r)) && ServerOk(y, m.args.leader) && ReignOk(y, m.args.term);
  }

  /** The index update of a successful reply keeps the leader's record fine. */
  lemma UpdatedLeader(y: System, k: nat, r: AppendReply)
    requires Inv(y) && Counts(y, k, r)
    ensures LeaderOk(Do(y, Respond(k, r)), y.appends[k].args.leader)
  {
    CountsWhat(y, k, r);
    NotedIsHeld(y, k, r);
    assert ServerOk(y, y.appends[k].args.leader);
  }

  lemma CommitAdvances(y: System, k: nat, r: AppendReply)
    requires Inv(y) && Counts(y, k, r) && CommitsOwnTerm(y, k, r)
    ensures var l := y.appends[k].args.leader;
      var s' := Do(y, Respond(k, r)).servers[l];
      s'.commitIndex < |s'.log| &&
      (Committed(y, s'.log[..s'.commitIndex + 1], s'.term) || s'.commitIndex == y.servers[l].commitIndex)
  {
    var l := y.appends[k].args.leader;
    var s' := Do(y, Respond(k, r)).servers[l];
    assert ServerOk(y, l);
    UpdatedLeader(y, k, r);
    CountsWhat(y, k, r);
    if s'.commitIndex > y.servers[l].commitIndex {
      CommitWithinLog(s'.matchIndex, s'.commitIndex, |s'.log|);
      ReplicatedIsChosen(y, l, s'.matchIndex, s'.commitIndex);
    }
  }

  lemma SuccessOnly(y: System, k: nat, r: AppendReply)
    requires Inv(y) && Counts(y, k, r) && CommitsOwnTerm(y, k, r)
    ensures Only(y, Do(y, Respond(k, r)), y.appends[k].args.leader)
  {
    CountsWhat(y, k, r);
    assert ServerOk(y, y.appends[k].args.leader);
  }

  lemma SuccessCommitted(y: System, k: nat, r: AppendReply)
    requires Inv(y) && Counts(y, k, r) && CommitsOwnTerm(y, k, r)
    ensures var z := Do(y, Respond(k, r));
      var l := y.appends[k].args.leader;
      var s' := z.servers[l];
      Only(y, z, l) && s'.commitIndex < |s'.log| && Committed(z, s'.log[..s'.commitIndex + 1], CommitBound(z, l))
  {
    var z := Do(y, Respond(k, r));
    var l := y.appends[k].args.leader;
    CountsWhat(y, k, r);
    CommitAdvances(y, k, r);
    SuccessOnly(y, k, r);
    LeadersCommit(y, z, l);
  }

  /** A leader's commit, kept or decided within its term, stays committed. */
  lemma LeadersCommit(y: System, z: System, l: nat)
    requires Inv(y) && Only(y, z, l) && y.servers[l].role == Leader && z.held == y.held
    requires z.servers[l].term == y.servers[l].term && z.servers[l].log == y.servers[l].log
    requires var s := z.servers[l];
      s.commitIndex < |s.log| &&
      (Committed(y, s.log[..s.commitIndex + 1], s.term) || s.commitIndex == y.servers[l].commitIndex)
    ensures var s := z.servers[l]; Committed(z, s.log[..s.commitIndex + 1], CommitBound(z, l))
  {
    var s := z.servers[l];
    assert ServerOk(y, l) && ReignOk(y, s.term);
    if s.commitIndex == y.servers[l].commitIndex {
      CommittedGrows(y, z, s.log[..s.commitIndex + 1], CommitBound(y, l), CommitBound(z, l));
    } else {
      CommittedGrows(y, z, s.log[..s.commitIndex + 1], s.term, CommitBound(z, l));
    }
  }

  lemma SuccessServer(y: System, k: nat, r: AppendReply)
    requires Inv(y) && Counts(y, k, r) && CommitsOwnTerm(y, k, r)
    ensures Only(y, Do(y, Respond(k, r)), y.appends[k].args.leader)
    ensures ServerOk(Do(y, Respond(k, r)), y.appends[k].args.leader)
  {
    UpdatedLeader(y, k, r);
    CountsWhat(y, k, r);
    SuccessCommitted(y, k, r);
    assert ServerOk(y, y.appends[k].args.leader);
  }

  lemma SuccessInv(y: System, k: nat, r: AppendReply)
    requires Inv(y) && Counts(y, k, r) && CommitsOwnTerm(y, k, r)
    ensures Inv(Do(y, Respond(k, r)))
  {
    var z := Do(y, Respond(k, r));
    var l := y.appends[k].args.leader;
    CountsWhat(y, k, r);
    SuccessServer(y, k, r);
    MessagesGrow(y, z);
    SameRecords(y, z, l);
  }

  /** A success that reaches a server which no longer leads touches its two index
      arrays only: it has moved to a newer term than every entry of the batch. */
  lemma IdleSuccess(y: System, k: nat, r: AppendReply)
    requires Inv(y) && Enabled(y, Respond(k, r)) && r.success && !Dismissed(r, y.appends[k].args.term)
    requires y.servers[y.appends[k].args.leader].role != Leader
    ensures var l := y.appends[k].args.leader;
      var s := y.servers[l];
      var z := Do(y, Respond(k, r));
      var s' := z.servers[l];
      z == SetServer(y, l, s') && s' == s.(nextIndex := s'.nextIndex, matchIndex := s'.matchIndex)
  {
    var m := y.appends[k];
    assert AppendOk(y, m) && ReignOk(y, m.args.term);
    if m.args.entries != [] {
      assert m.args.entries[|m.args.entries| - 1] == m.snapshot[|m.snapshot| - 1];
      assert m.snapshot[|m.snapshot| - 1] == y.reigns[m.args.term].log[|m.snapshot| - 1];
    }
  }

  /** The index arrays of a server that does not lead mean nothing. */
  lemma IdleServer(y: System, l: nat, s': Server)
    requires Inv(y) && l < |y.servers| && y.servers[l].role != Leader
    requires s' == y.servers[l].(nextIndex := s'.nextIndex, matchIndex := s'.matchIndex)
    ensures Only(y, SetServer(y, l, s'), l) && ServerOk(SetServer(y, l, s'), l)
  {
    var s := y.servers[l];
    var z := SetServer(y, l, s');
    assert ServerOk(y, l);
    assert Only(y, z, l);
    CommittedGrows(y, z, s.log[..s.commitIndex + 1], CommitBound(y, l), CommitBound(z, l));
  }

  lemma IdleSuccessInv(y: System, k: nat, r: AppendReply)
    requires Inv(y) && Enabled(y, Respond(k, r)) && r.success && !Dismissed(r, y.appends[k].args.term)
    requires y.servers[y.appends[k].args.leader].role != Leader
    ensures Inv(Do(y, Respond(k, r)))
  {
    IdleSuccess(y, k, r);
    var l := y.appends[k].args.leader;
    IdleServer(y, l, Do(y, Respond(k, r)).servers[l]);
    Reassemble(y, Do(y, Respond(k, r)), l);
  }

  /** The scan bound of the source is the log length, but no index beyond the last is replicated. */
  lemma CommitWithinLog(matchIndex: seq<nat>, c: nat, length: nat)
    requires MajorityReplicated(matchIndex, c)
    requires forall j :: 0 <= j < |matchIndex| ==> matchIndex[j] < length
    ensures c < length
  {
    assert Replicas(matchIndex, c) != {};
    var j :| j in Replicas(matchIndex, c);
  }

  // ----- every step --------------------------------------------------------------

  lemma InitInv(n: nat)
    requires n >= 1
    ensures Inv(Init(n))
  {
    var y := Init(n);
    forall i | 0 <= i < |y.servers| ensures ServerOk(y, i) {
    }
  }

  lemma TimeoutInv(y: System, c: nat)
    requires Inv(y) && Enabled(y, Timeout(c))
    ensures Inv(Do(y, Timeout(c)))
  {
    assert ServerOk(y, c);
    var s := y.servers[c];
    VoteIsMeaningful(y, c, s.log, s.term + 1);
    var z := RaiseTermInv(y, c, s.term + 1);
    assert Meaningful(z, c, s.log, s.term + 1);
    CandidacyInv(z, c);
    assert Candidacy(z, c) == Do(y, Timeout(c));
  }

  lemma VoteInv(y: System, v: nat, c: nat, t: nat)
    requires Inv(y) && Enabled(y, Vote(v, c, t))
    ensures Inv(Do(y, Vote(v, c, t)))
  {
    if t <= y.servers[v].term {
      OldVoteInv(y, v, c, t);
    } else {
      NewVoteInv(y, v, c, t);
    }
  }

  /** A vote in the voter's own term, or in an older one, only repeats what was cast. */
  lemma OldVoteInv(y: System, v: nat, c: nat, t: nat)
    requires Inv(y) && Enabled(y, Vote(v, c, t)) && t <= y.servers[v].term
    ensures Inv(Do(y, Vote(v, c, t)))
  {
    var z := Do(y, Vote(v, c, t));
    var reply := RequestVote(y.servers[v], PollArgs(y.polls[(c, t)], c, t)).1;
    assert ServerOk(y, v);
    assert reply.granted ==> y.votes[(v, t) := c] == y.votes;
    assert z == y.(ballots := z.ballots);
    PostInv(y, z);
  }

  lemma NewVoteInv(y: System, v: nat, c: nat, t: nat)
    requires Inv(y) && Enabled(y, Vote(v, c, t)) && t > y.servers[v].term
    ensures Inv(Do(y, Vote(v, c, t)))
  {
    var z := Do(y, Vote(v, c, t));
    var p := y.polls[(c, t)];
    assert ServerOk(y, v) && PollOk(y, c, t);
    var x := RaiseTermInv(y, v, t);
    if RequestVote(y.servers[v], PollArgs(p, c, t)).1.granted {
      VoteIsMeaningful(y, v, p.log, t);
      assert Meaningful(x, v, p.log, t);
      x := CastVoteInv(x, v, c);
    }
    assert z == x.(ballots := z.ballots);
    PostInv(x, z);
  }

  lemma CountInv(y: System, c: nat, t: nat, reply: VoteReply)
    requires Inv(y) && Enabled(y, Count(c, t, reply))
    ensures Inv(Do(y, Count(c, t, reply)))
  {
    var z := TallyInv(y, c, t, reply);
    if y.polls[(c, t)].next != c && reply.term > t && y.servers[c].term < reply.term {
      z := RaiseTermInv(z, c, reply.term);
    }
    assert z == Do(y, Count(c, t, reply));
  }

  lemma WinInv(y: System, c: nat, t: nat)
    requires Inv(y) && Enabled(y, Win(c, t))
    ensures Inv(Do(y, Win(c, t)))
  {
    if y.servers[c].term == t && y.servers[c].role == Candidate {
      CrownInv(y, c);
      assert Crowned(y, c) == Do(y, Win(c, t));
    }
  }

  lemma ProposeStepInv(y: System, l: nat, command: Command)
    requires Inv(y) && Enabled(y, Propose(l, command))
    ensures Inv(Do(y, Propose(l, command)))
  {
    assert ServerOk(y, l);
    if y.servers[l].role == Leader {
      ProposeInv(y, l, command);
      assert Do(y, Propose(l, command)) == Proposed(y, l, command);
    } else {
      assert Do(y, Propose(l, command)) == y;
    }
  }

  lemma TickInv(y: System, l: nat, to: nat)
    requires Inv(y) && Enabled(y, Tick(l, to))
    ensures Inv(Do(y, Tick(l, to)))
  {
    assert ServerOk(y, l) && ReignOk(y, y.servers[l].term);
    PostInv(y, Do(y, Tick(l, to)));
  }

  /** A refusal only posts a reply. */
  lemma RefuseInv(y: System, k: nat, reply: AppendReply)
    requires Inv(y) && k < |y.appends| && !reply.success
    requires Dismissed(reply, y.appends[k].args.term) || Mismatch(y.appends[k], reply)
    ensures Inv(y.(acks := y.acks + {Ack(k, reply)}))
  {
    PostInv(y, y.(acks := y.acks + {Ack(k, reply)}));
  }

  /** In its own term a receiver either takes the snapshot over or explains its refusal. */
  lemma Verdict(y: System, k: nat)
    requires Inv(y) && Enabled(y, Deliver(k)) && FreshHeartbeat(y, k)
    requires y.appends[k].args.term == y.servers[y.appends[k].to].term
    ensures var m := y.appends[k];
      var (s', reply) := AppendEntries(y.servers[m.to], m.args);
      if reply.success then
        Accepts(y, k) && s' == y.servers[m.to].(log := m.snapshot,
          commitIndex := FollowerCommit(y.servers[m.to].commitIndex, m.args.leaderCommit, |m.snapshot|))
      else
        s' == y.servers[m.to] && (Dismissed(reply, m.args.term) || Mismatch(m, reply))
  {
    var m := y.appends[k];
    assert AppendOk(y, m) && ServerOk(y, m.to);
    SnapshotIsGood(y, m);
    if Accepts(y, k) {
      AcceptTakesSnapshot(y, k);
    }
  }

  /** Handling a request of a newer term is raising the term and then handling it. */
  lemma RaiseFirst(s: Server, a: AppendArgs)
    requires |s.log| > 0 && s.term < a.term
    ensures var (s', reply) := AppendEntries(s, a);
      var (d', late) := AppendEntries(StepDown(s, a.term), a);
      s' == d' && reply.success == late.success && reply.newIndex == late.newIndex && reply.newTerm == late.newTerm
      && (reply.term == late.term || (reply.term == s.term && late.term == a.term))
  {
  }

  /** The result of handling request k in state x, whose receiver is in its term. */
  lemma HandleInTerm(x: System, k: nat, reply: AppendReply)
    requires Inv(x) && Enabled(x, Deliver(k)) && FreshHeartbeat(x, k)
    requires x.appends[k].args.term == x.servers[x.appends[k].to].term
    requires var late := AppendEntries(x.servers[x.appends[k].to], x.appends[k].args).1;
      && reply.success == late.success
      && (!reply.success ==> Dismissed(reply, x.appends[k].args.term) || Mismatch(x.appends[k], reply))
    ensures var m := x.appends[k];
      Inv(SetServer(x, m.to, AppendEntries(x.servers[m.to], m.args).0).(
        acks := x.acks + {Ack(k, reply)},
        held := if reply.success then x.held[(m.to, m.args.term) := |m.snapshot|] else x.held))
  {
    var m := x.appends[k];
    Verdict(x, k);
    if reply.success {
      AcceptInv(x, k, reply);
    } else {
      RefuseInv(x, k, reply);
      assert SetServer(x, m.to, x.servers[m.to]) == x;
    }
  }

  /** Raising the receiver's term first leaves the request as fresh, and the same end. */
  lemma RaisedIsSame(y: System, k: nat, x: System)
    requires Enabled(y, Deliver(k)) && FreshHeartbeat(y, k)
    requires var m := y.appends[k];
      y.servers[m.to].term < m.args.term && x == SetServer(y, m.to, StepDown(y.servers[m.to], m.args.term))
    ensures Enabled(x, Deliver(k)) && FreshHeartbeat(x, k)
    ensures var m := y.appends[k];
      var reply := AppendEntries(y.servers[m.to], m.args).1;
      Do(y, Deliver(k)) == SetServer(x, m.to, AppendEntries(x.servers[m.to], m.args).0).(
        acks := x.acks + {Ack(k, reply)},
        held := if reply.success then x.held[(m.to, m.args.term) := |m.snapshot|] else x.held)
  {
    RaiseFirst(y.servers[y.appends[k].to], y.appends[k].args);
  }

  lemma DeliverRaises(y: System, k: nat)
    requires Inv(y) && Enabled(y, Deliver(k)) && FreshHeartbeat(y, k)
    requires y.servers[y.appends[k].to].term < y.appends[k].args.term
    ensures Inv(Do(y, Deliver(k)))
  {
    var m := y.appends[k];
    var s := y.servers[m.to];
    var x := RaiseTermInv(y, m.to, m.args.term);
    RaisedIsSame(y, k, x);
    RaiseFirst(s, m.args);
    Verdict(x, k);
    HandleInTerm(x, k, AppendEntries(s, m.args).1);
  }

  lemma DeliverInv(y: System, k: nat)
    requires Inv(y) && Enabled(y, Deliver(k)) && FreshHeartbeat(y, k)
    ensures Inv(Do(y, Deliver(k)))
  {
    var m := y.appends[k];
    var s := y.servers[m.to];
    var z := Do(y, Deliver(k));
    var reply := AppendEntries(s, m.args).1;
    if m.args.term < s.term {
      assert z == y.(acks := y.acks + {Ack(k, reply)});
      RefuseInv(y, k, reply);
    } else if s.term < m.args.term {
      DeliverRaises(y, k);
    } else {
      Verdict(y, k);
      HandleInTerm(y, k, reply);
    }
  }

  lemma RespondInv(y: System, k: nat, r: AppendReply)
    requires Inv(y) && Obeyed(y, k, r)
    ensures Inv(Do(y, Respond(k, r)))
  {
    var m := y.appends[k];
    var l := m.args.leader;
    var s := y.servers[l];
    var z := Do(y, Respond(k, r));
    assert AppendOk(y, m) && ServerOk(y, l);
    if !r.success && r.term == -1 {
      assert z == y;
    } else if r.term > m.args.term {
      if s.term < r.term {
        var x := RaiseTermInv(y, l, r.term);
        assert z == x;
      } else {
        assert z == y;
      }
    } else if r.success {
      if s.role == Leader { SuccessInv(y, k, r); } else { IdleSuccessInv(y, k, r); }
    } else {
      RetryInv(y, k, r);
    }
  }

  lemma RetryInv(y: System, k: nat, r: AppendReply)
    requires Inv(y) && Enabled(y, Respond(k, r)) && !r.success && !Dismissed(r, y.appends[k].args.term)
    ensures Inv(Do(y, Respond(k, r)))
  {
    var m := y.appends[k];
    var z := Do(y, Respond(k, r));
    InvIsBase(y);
    RetryRange(y, k, r);
    assert AppendOk(y, m) && ReignOk(y, m.args.term);
    assert z == y.(beats := z.beats);
    PostInv(y, z);
  }

  lemma StepInv(y: System, step: Step)
    requires Inv(y) && Enabled(y, step) && Obeys(ALL, y, step)
    ensures Inv(Do(y, step))
  {
    match step
    case Timeout(c) => TimeoutInv(y, c);
    case Vote(v, c, t) => VoteInv(y, v, c, t);
    case Count(c, t, reply) => CountInv(y, c, t, reply);
    case Win(c, t) => WinInv(y, c, t);
    case Propose(l, command) => ProposeStepInv(y, l, command);
    case Tick(l, to) => TickInv(y, l, to);
    case Send(b) => SendInv(y, b);
    case Deliver(k) => DeliverInv(y, k);
    case Respond(k, r) => RespondInv(y, k, r);
    case Flush(i) => FlushInv(y, i);
  }
}
