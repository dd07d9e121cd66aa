/** The inductive invariant of the Raft system, one predicate per kind of record: first
    the part that every crash-free run keeps (`Base`), then what commitment adds to each
    (`Inv`). A decided prefix is one that a majority held during the term of its last
    entry (`Chosen`); the invariant says that every log, vote and message of a later term
    is consistent with it, unless some leader in between already lacked it (`Carries`).

    `Grows` is what every step keeps of the records, and the lemmas at the end carry what
    was established in one state over to a later one. */
module RaftInvariant {
  import opened RaftServer
  import opened RaftSystem

  type Reigns = map<nat, Reign>

  ghost predicate Sorted(log: Log) {
    forall i, j :: 0 <= i <= j < |log| ==> log[i].term <= log[j].term
  }

  /** Everything up to entry i is what the leader of that entry's term had there. */
  ghost predicate Grounded(log: Log, i: nat, reigns: Reigns)
    requires i < |log|
  {
    log[i].term in reigns && log[..i + 1] <= reigns[log[i].term].log
  }

  ghost predicate GoodLog(log: Log, reigns: Reigns) {
    && |log| > 0 && log[0] == SENTINEL && Sorted(log)
    && forall i {:trigger Grounded(log, i, reigns)} :: 1 <= i < |log| ==> Grounded(log, i, reigns)
  }

  ghost predicate Quorum(q: set<nat>, n: nat) {
    (forall v | v in q :: v < n) && |q| > n / 2
  }

  // ----- what needs no hypothesis ----------------------------------------------

  ghost predicate Sound(y: System, i: nat)
    requires i < |y.servers|
  {
    var s := y.servers[i];
    && GoodLog(s.log, y.reigns) && LastTerm(s.log) <= s.term
    && (s.votedFor == -1 <==> (i, s.term) !in y.votes)
    && (s.votedFor != -1 ==> y.votes[(i, s.term)] == s.votedFor)
    && (s.role == Leader ==>
          && s.term in y.reigns && y.reigns[s.term].leader == i
          && |s.nextIndex| == |s.matchIndex| == |y.servers|)
    && (s.role == Candidate ==>
          (i, s.term) in y.polls && (s.term in y.reigns || s.log == y.polls[(i, s.term)].log))
  }

  ghost predicate Won(y: System, t: nat)
    requires t in y.reigns
  {
    var r := y.reigns[t];
    && r.leader < |y.servers| && GoodLog(r.log, y.reigns) && LastTerm(r.log) <= t <= y.servers[r.leader].term
    && Quorum(r.voters, |y.servers|)
    && (forall v | v in r.voters :: (v, t) in y.votes && y.votes[(v, t)] == r.leader)
    && (t == y.servers[r.leader].term ==> y.servers[r.leader].role == Leader && y.servers[r.leader].log == r.log)
  }

  ghost predicate PollOk(y: System, c: nat, t: nat)
    requires (c, t) in y.polls
  {
    var p := y.polls[(c, t)];
    && c < |y.servers| && 1 <= t <= y.servers[c].term
    && GoodLog(p.log, y.reigns) && LastTerm(p.log) < t
    && (c, t) in y.votes && y.votes[(c, t)] == c
    && c in p.voters && |p.voters| == p.granted
    && (forall v | v in p.voters ::
          v < |y.servers| && (v == c || v < p.next) && (v, t) in y.votes && y.votes[(v, t)] == c)
  }

  ghost predicate Cast(y: System, v: nat, t: nat) {
    v < |y.servers| && t <= y.servers[v].term
  }

  ghost predicate BallotOk(y: System, b: Ballot) {
    b.reply.granted ==>
      b.voter < |y.servers| && (b.voter, b.term) in y.votes && y.votes[(b.voter, b.term)] == b.candidate
  }

  ghost predicate Addressed(y: System, b: Beat) {
    b.to < |y.servers| && b.to != b.leader
  }

  ghost predicate Sent(y: System, m: Append) {
    var a := m.args;
    && a.term in y.reigns && y.reigns[a.term].leader == a.leader
    && m.to < |y.servers| && m.to != a.leader
    && m.snapshot <= y.reigns[a.term].log && a.prevIndex < |m.snapshot|
    && a.prevTerm == m.snapshot[a.prevIndex].term && a.entries == m.snapshot[a.prevIndex + 1..]
  }

  ghost predicate SendOrder(y: System) {
    forall i, k :: 0 <= i <= k < |y.appends| && y.appends[i].args.term == y.appends[k].args.term ==>
      |y.appends[i].snapshot| <= |y.appends[k].snapshot|
  }

  ghost predicate Told(y: System, a: Ack) {
    a.k < |y.appends| &&
    (!a.reply.success && !Dismissed(a.reply, y.appends[a.k].args.term) ==> Mismatch(y.appends[a.k], a.reply))
  }

  /** What a refusing follower tells: an index below the probed one, or the probed
      one itself with a term that differs from the leader's. */
  ghost predicate Mismatch(m: Append, r: AppendReply) {
    && r.newIndex <= m.args.prevIndex
    && (r.newIndex == 0 ==> r.newTerm == 0)
    && (r.newIndex == m.args.prevIndex ==> r.newTerm != m.args.prevTerm)
  }

  /** The part of the invariant that every crash-free run keeps. */
  ghost predicate Base(y: System) {
    && |y.servers| >= 1
    && (forall i {:trigger Sound(y, i)} :: 0 <= i < |y.servers| ==> Sound(y, i))
    && (forall t {:trigger Won(y, t)} | t in y.reigns :: Won(y, t))
    && (forall c, t {:trigger PollOk(y, c, t)} | (c, t) in y.polls :: PollOk(y, c, t))
    && (forall v, t {:trigger Cast(y, v, t)} | (v, t) in y.votes :: Cast(y, v, t))
    && (forall b {:trigger BallotOk(y, b)} | b in y.ballots :: BallotOk(y, b))
    && (forall b {:trigger Addressed(y, b)} | b in y.beats :: Addressed(y, b))
    && (forall k {:trigger y.appends[k]} :: 0 <= k < |y.appends| ==> Sent(y, y.appends[k]))
    && (forall a {:trigger Told(y, a)} | a in y.acks :: Told(y, a))
    && SendOrder(y)
  }

  // ----- what was decided -------------------------------------------------------

  /** The first `len` entries of term t's leader end with an entry of term t itself. */
  ghost predicate OwnEnd(reigns: Reigns, t: nat, len: nat) {
    t in reigns && 1 <= len <= |reigns[t].log| && reigns[t].log[len - 1].term == t
  }

  /** The leader of term w started without the first `len` entries of term t's leader. */
  ghost predicate Lacks(reigns: Reigns, w: nat, t: nat, len: nat)
    requires OwnEnd(reigns, t, len)
  {
    w in reigns && !(reigns[t].log[..len] <= reigns[w].first)
  }

  /** `log` holds those entries, unless some leader of a term in t+1..bound-1 lacked them. */
  ghost predicate Carries(reigns: Reigns, log: Log, t: nat, len: nat, bound: nat)
    requires OwnEnd(reigns, t, len)
  {
    reigns[t].log[..len] <= log || exists w: nat :: t < w < bound && Lacks(reigns, w, t, len)
  }

  ghost predicate HeldBy(y: System, q: set<nat>, t: nat, len: nat) {
    forall j | j in q :: (j, t) in y.held && y.held[(j, t)] >= len
  }

  /** A majority took those entries over during term t. */
  ghost predicate Chosen(y: System, t: nat, len: nat) {
    OwnEnd(y.reigns, t, len) && exists q: set<nat> :: Quorum(q, |y.servers|) && HeldBy(y, q, t, len)
  }

  ghost predicate Committed(y: System, prefix: Log, bound: int) {
    |prefix| <= 1 ||
    exists t: nat, len: nat :: t <= bound && Chosen(y, t, len) && prefix <= y.reigns[t].log[..len]
  }

  /** Terms up to which server i's commit may have been decided: its own term only
      if it already holds that much from its current leader. */
  ghost function CommitBound(y: System, i: nat): int
    requires i < |y.servers|
  {
    var s := y.servers[i];
    if (i, s.term) in y.held && y.held[(i, s.term)] > s.commitIndex then s.term else s.term - 1
  }

  ghost predicate LeaderOk(y: System, i: nat)
    requires i < |y.servers|
  {
    var s := y.servers[i];
    && s.term in y.reigns && y.reigns[s.term].leader == i
    && |s.nextIndex| == |s.matchIndex| == |y.servers|
    && (forall j :: 0 <= j < |s.nextIndex| ==> 1 <= s.nextIndex[j] <= |s.log|)
    && (forall j :: 0 <= j < |s.matchIndex| ==> s.matchIndex[j] < |s.log|)
    && (forall j :: 0 <= j < |s.matchIndex| && s.matchIndex[j] > 0 ==>
          (j, s.term) in y.held && y.held[(j, s.term)] > s.matchIndex[j])
    && s.matchIndex[i] == |s.log| - 1
  }

  ghost predicate ServerOk(y: System, i: nat)
    requires i < |y.servers| && i < |y.applied|
  {
    var s := y.servers[i];
    && Sound(y, i)
    && (s.role == Leader ==> LeaderOk(y, i))
    && s.lastApplied <= s.commitIndex < |s.log|
    && Committed(y, s.log[..s.commitIndex + 1], CommitBound(y, i))
    && y.applied[i] == Messages(s.log, 1, s.lastApplied)
  }

  ghost predicate ReignOk(y: System, t: nat)
    requires t in y.reigns
  {
    var r := y.reigns[t];
    && Won(y, t) && t >= 1
    && 1 <= |r.first| && r.first <= r.log
    && (forall i :: 0 <= i < |r.first| ==> r.log[i].term < t)
    && (forall i :: |r.first| <= i < |r.log| ==> r.log[i].term == t)
    && (r.leader, t) in y.polls && y.polls[(r.leader, t)].log == r.first
    && (r.leader, t) in y.held && y.held[(r.leader, t)] == |r.log|
  }

  ghost predicate VoteOk(y: System, v: nat, u: nat)
    requires (v, u) in y.votes
  {
    var c := y.votes[(v, u)];
    && Cast(y, v, u) && (c, u) in y.polls
    && forall t: nat, len: nat :: t < u && (v, t) in y.held && len <= y.held[(v, t)] && OwnEnd(y.reigns, t, len) ==>
         Carries(y.reigns, y.polls[(c, u)].log, t, len, u)
  }

  ghost predicate Accepted(y: System, j: nat, t: nat, len: nat) {
    exists a :: a in y.acks && AcceptedBy(y, a, j, t, len)
  }

  ghost predicate AcceptedBy(y: System, a: Ack, j: nat, t: nat, len: nat) {
    && a.reply.success && a.k < |y.appends|
    && y.appends[a.k].to == j && y.appends[a.k].args.term == t && |y.appends[a.k].snapshot| == len
  }

  ghost predicate HeldOk(y: System, j: nat, t: nat)
    requires (j, t) in y.held
  {
    var h := y.held[(j, t)];
    && j < |y.servers| && t in y.reigns && t <= y.servers[j].term
    && |y.reigns[t].first| <= h <= |y.reigns[t].log|
    && (t == y.servers[j].term ==> y.servers[j].log == y.reigns[t].log[..h])
    && (j == y.reigns[t].leader || Accepted(y, j, t, h))
    && forall len: nat :: len <= h && OwnEnd(y.reigns, t, len) ==>
         Carries(y.reigns, y.servers[j].log, t, len, y.servers[j].term + 1)
  }

  ghost predicate BeatOk(y: System, b: Beat) {
    && Addressed(y, b) && b.term in y.reigns && y.reigns[b.term].leader == b.leader
    && 1 <= b.next <= |y.reigns[b.term].log|
  }

  ghost predicate AppendOk(y: System, m: Append) {
    var a := m.args;
    && Sent(y, m) && |y.reigns[a.term].first| <= |m.snapshot|
    && a.leaderCommit < |m.snapshot|
    && Committed(y, m.snapshot[..a.leaderCommit + 1], a.term)
  }

  ghost predicate AckOk(y: System, a: Ack) {
    && Told(y, a)
    && var m := y.appends[a.k];
    a.reply.success ==> (m.to, m.args.term) in y.held && y.held[(m.to, m.args.term)] >= |m.snapshot|
  }

  ghost predicate Servers(y: System) {
    && |y.servers| >= 1 && |y.applied| == |y.servers|
    && forall i {:trigger ServerOk(y, i)} :: 0 <= i < |y.servers| ==> ServerOk(y, i)
  }

  ghost predicate ReignsOk(y: System) { forall t {:trigger ReignOk(y, t)} | t in y.reigns :: ReignOk(y, t) }

  ghost predicate PollsOk(y: System) { forall c, t {:trigger PollOk(y, c, t)} | (c, t) in y.polls :: PollOk(y, c, t) }

  ghost predicate VotesOk(y: System) { forall v, t {:trigger VoteOk(y, v, t)} | (v, t) in y.votes :: VoteOk(y, v, t) }

  ghost predicate HeldsOk(y: System) { forall j, t {:trigger HeldOk(y, j, t)} | (j, t) in y.held :: HeldOk(y, j, t) }

  ghost predicate MessagesOk(y: System) {
    && (forall b {:trigger BallotOk(y, b)} | b in y.ballots :: BallotOk(y, b))
    && (forall b {:trigger BeatOk(y, b)} | b in y.beats :: BeatOk(y, b))
    && (forall k {:trigger AppendOk(y, y.appends[k])} :: 0 <= k < |y.appends| ==> AppendOk(y, y.appends[k]))
    && (forall a {:trigger AckOk(y, a)} | a in y.acks :: AckOk(y, a))
    && SendOrder(y)
  }

  ghost predicate Inv(y: System) {
    Servers(y) && ReignsOk(y) && PollsOk(y) && VotesOk(y) && HeldsOk(y) && MessagesOk(y)
  }

  lemma InvIsBase(y: System)
    requires Inv(y)
    ensures Base(y)
  {
    forall i | 0 <= i < |y.servers| ensures Sound(y, i) { assert ServerOk(y, i); }
    forall t | t in y.reigns ensures Won(y, t) { assert ReignOk(y, t); }
    forall v, t | (v, t) in y.votes ensures Cast(y, v, t) { assert VoteOk(y, v, t); }
    forall b | b in y.beats ensures Addressed(y, b) { assert BeatOk(y, b); }
    forall k | 0 <= k < |y.appends| ensures Sent(y, y.appends[k]) { assert AppendOk(y, y.appends[k]); }
    forall a | a in y.acks ensures Told(y, a) { assert AckOk(y, a); }
  }

  /** Leaders' logs only grow, reigns never change hands, the rest only accumulates. */
  ghost predicate ReignsGrow(a: Reigns, b: Reigns) {
    forall t | t in a ::
      && t in b && a[t].log <= b[t].log && a[t].first == b[t].first
      && a[t].leader == b[t].leader && a[t].voters == b[t].voters
  }

  ghost predicate Grows(y: System, z: System) {
    && |z.servers| == |y.servers|
    && ReignsGrow(y.reigns, z.reigns)
    && (forall k | k in y.votes :: k in z.votes && z.votes[k] == y.votes[k])
    && (forall k | k in y.held :: k in z.held && z.held[k] >= y.held[k])
    && (forall k | k in y.polls :: k in z.polls && z.polls[k].log == y.polls[k].log)
    && y.appends <= z.appends
    && y.acks <= z.acks
  }

  lemma GoodLogGrows(log: Log, a: Reigns, b: Reigns)
    requires GoodLog(log, a) && ReignsGrow(a, b)
    ensures GoodLog(log, b)
  {
    forall i | 1 <= i < |log| ensures Grounded(log, i, b) {
      assert Grounded(log, i, a);
    }
  }

  lemma OwnEndGrows(a: Reigns, b: Reigns, t: nat, len: nat)
    requires ReignsGrow(a, b) && OwnEnd(a, t, len)
    ensures OwnEnd(b, t, len) && b[t].log[..len] == a[t].log[..len]
  {
  }

  /** A longer leader log has no other own-term prefix within the old length. */
  lemma OwnEndShrinks(a: Reigns, b: Reigns, t: nat, len: nat)
    requires ReignsGrow(a, b) && t in a && len <= |a[t].log| && OwnEnd(b, t, len)
    ensures OwnEnd(a, t, len) && b[t].log[..len] == a[t].log[..len]
  {
  }

  lemma CarriesGrows(a: Reigns, b: Reigns, log: Log, t: nat, len: nat, bound: nat, bound': nat)
    requires ReignsGrow(a, b) && OwnEnd(a, t, len) && Carries(a, log, t, len, bound) && bound <= bound'
    ensures OwnEnd(b, t, len) && Carries(b, log, t, len, bound')
  {
    OwnEndGrows(a, b, t, len);
    if !(a[t].log[..len] <= log) {
      var w: nat :| t < w < bound && Lacks(a, w, t, len);
      assert Lacks(b, w, t, len);
    }
  }

  lemma ChosenGrows(y: System, z: System, t: nat, len: nat)
    requires Grows(y, z) && Chosen(y, t, len)
    ensures Chosen(z, t, len) && z.reigns[t].log[..len] == y.reigns[t].log[..len]
  {
    OwnEndGrows(y.reigns, z.reigns, t, len);
    var q :| Quorum(q, |y.servers|) && HeldBy(y, q, t, len);
    assert HeldBy(z, q, t, len);
  }

  lemma CommittedGrows(y: System, z: System, p: Log, bound: int, bound': int)
    requires Grows(y, z) && Committed(y, p, bound) && bound <= bound'
    ensures Committed(z, p, bound')
  {
    if |p| > 1 {
      var t: nat, len: nat :| t <= bound && Chosen(y, t, len) && p <= y.reigns[t].log[..len];
      ChosenGrows(y, z, t, len);
    }
  }

  lemma AppendGrows(y: System, z: System, m: Append)
    requires Grows(y, z) && AppendOk(y, m)
    ensures AppendOk(z, m)
  {
    CommittedGrows(y, z, m.snapshot[..m.args.leaderCommit + 1], m.args.term, m.args.term);
  }

  /** Messages in flight stay justified as the system grows. */
  lemma MessagesGrow(y: System, z: System)
    requires Grows(y, z) && MessagesOk(y)
    ensures forall b {:trigger BallotOk(z, b)} | b in y.ballots :: BallotOk(z, b)
    ensures forall b {:trigger BeatOk(z, b)} | b in y.beats :: BeatOk(z, b)
    ensures forall k {:trigger AppendOk(z, y.appends[k])} :: 0 <= k < |y.appends| ==> AppendOk(z, y.appends[k])
    ensures forall a {:trigger AckOk(z, a)} | a in y.acks :: AckOk(z, a)
  {
    forall k | 0 <= k < |y.appends| ensures AppendOk(z, y.appends[k]) {
      assert AppendOk(y, y.appends[k]);
      AppendGrows(y, z, y.appends[k]);
    }
    forall a | a in y.acks ensures AckOk(z, a) {
      assert AckOk(y, a);
    }
    forall b | b in y.ballots ensures BallotOk(z, b) {
      assert BallotOk(y, b);
    }
    forall b | b in y.beats ensures BeatOk(z, b) {
      assert BeatOk(y, b);
    }
  }

  /** A server whose own record and records of its own did not change is still fine. */
  lemma ServerGrows(y: System, z: System, i: nat)
    requires Grows(y, z) && i < |y.servers| == |y.applied| == |z.applied| && ServerOk(y, i)
    requires z.servers[i] == y.servers[i] && z.applied[i] == y.applied[i]
    requires (i, y.servers[i].term) in z.votes ==> (i, y.servers[i].term) in y.votes
    ensures ServerOk(z, i)
  {
    var s := y.servers[i];
    GoodLogGrows(s.log, y.reigns, z.reigns);
    CommittedGrows(y, z, s.log[..s.commitIndex + 1], CommitBound(y, i), CommitBound(z, i));
  }

  lemma HeldGrows(y: System, z: System, j: nat, t: nat)
    requires Grows(y, z) && (j, t) in y.held && HeldOk(y, j, t)
    requires (j, t) in z.held && z.held[(j, t)] == y.held[(j, t)]
    requires z.servers[j].log == y.servers[j].log && z.servers[j].term >= y.servers[j].term
    ensures HeldOk(z, j, t)
  {
    var h := y.held[(j, t)];
    if j != y.reigns[t].leader {
      var a :| a in y.acks && AcceptedBy(y, a, j, t, h);
      assert AcceptedBy(z, a, j, t, h);
    }
    forall len: nat | len <= h && OwnEnd(z.reigns, t, len)
      ensures Carries(z.reigns, z.servers[j].log, t, len, z.servers[j].term + 1)
    {
      OwnEndShrinks(y.reigns, z.reigns, t, len);
      CarriesGrows(y.reigns, z.reigns, y.servers[j].log, t, len, y.servers[j].term + 1, z.servers[j].term + 1);
    }
  }

  /** A vote keeps its meaning while its voter takes over nothing more in older terms. */
  lemma VoteGrows(y: System, z: System, v: nat, u: nat)
    requires Grows(y, z) && HeldsOk(y) && (v, u) in y.votes && VoteOk(y, v, u)
    requires z.servers[v].term >= y.servers[v].term
    requires forall t: nat | t < u && (v, t) in z.held :: (v, t) in y.held && z.held[(v, t)] == y.held[(v, t)]
    ensures VoteOk(z, v, u)
  {
    var c := y.votes[(v, u)];
    forall t: nat, len: nat | t < u && (v, t) in z.held && len <= z.held[(v, t)] && OwnEnd(z.reigns, t, len)
      ensures Carries(z.reigns, z.polls[(c, u)].log, t, len, u)
    {
      assert HeldOk(y, v, t);
      OwnEndShrinks(y.reigns, z.reigns, t, len);
      CarriesGrows(y.reigns, z.reigns, y.polls[(c, u)].log, t, len, u, u);
    }
  }
}
