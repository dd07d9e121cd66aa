/** The imperative Raft peer of raft.go: fields updated in place by the handlers,
    each proved against its function in `RaftServer`. Channel sends, timers and
    persistence are not part of the state. */
module RaftNode {
  import opened Collections
  import opened RaftServer
  import opened RaftSystem
  import opened RaftBasics

  /** The loop over the peers: it counts replies until the poll is over, and a reply
      of a newer term makes the candidate s step down. `RaftSystem` takes the same
      turns one by one, as Count steps. */
  function Polled(s: Server, p: Poll, c: nat, t: nat, replies: seq<VoteReply>): (r: (Server, Poll))
    ensures r.0.log == s.log
    decreases |replies| - p.next
  {
    if PollOver(p, |replies|) then (s, p)
    else
      var r := replies[p.next];
      Polled(if p.next != c && r.term > t then StepDown(s, r.term) else s, Tally(p, c, r), c, t, replies)
  }

  /** The poll is decided by the replies alone: the candidate never counts a server
      twice, and it wins only with grants of more than half of the servers. */
  lemma {:induction false} PolledCounts(s: Server, p: Poll, c: nat, t: nat, replies: seq<VoteReply>)
    requires c < |replies| && c in p.voters && p.granted == |p.voters| && p.next <= |replies|
    requires forall v | v in p.voters :: v == c || (v < p.next && replies[v].granted)
    ensures var q := Polled(s, p, c, t, replies).1;
      && PollOver(q, |replies|) && q.granted == |q.voters| && p.voters <= q.voters
      && forall v | v in q.voters :: v == c || (v < |replies| && replies[v].granted)
    decreases |replies| - p.next
  {
    if !PollOver(p, |replies|) {
      var r := replies[p.next];
      PolledCounts(if p.next != c && r.term > t then StepDown(s, r.term) else s, Tally(p, c, r), c, t, replies);
    }
  }

  /** The servers other than c that were asked before turn `next` and did not grant. */
  function Refusals(c: nat, next: nat, replies: seq<VoteReply>): set<nat> {
    set v | 0 <= v < next && v < |replies| && v != c && !replies[v].granted
  }

  /** The servers that would grant if all were asked, with the candidate itself. */
  function Supporters(c: nat, replies: seq<VoteReply>): set<nat> {
    set v | 0 <= v < |replies| && (v == c || replies[v].granted)
  }

  /** A poll that has heard the replies before turn p.next. */
  ghost predicate Counted(p: Poll, c: nat, replies: seq<VoteReply>) {
    && p.next <= |replies| && p.granted == |p.voters|
    && p.voters == (set v | v in Supporters(c, replies) && (v == c || v < p.next))
    && p.asked - p.granted == |Refusals(c, p.next, replies)|
  }

  lemma RefusalsNext(c: nat, next: nat, replies: seq<VoteReply>)
    requires next < |replies|
    ensures Refusals(c, next + 1, replies) ==
      if next != c && !replies[next].granted then Refusals(c, next, replies) + {next} else Refusals(c, next, replies)
  {
  }

  lemma VotersNext(p: Poll, c: nat, replies: seq<VoteReply>)
    requires c < |replies| && Counted(p, c, replies) && p.next < |replies|
    ensures var q := Tally(p, c, replies[p.next]);
      q.granted == |q.voters| && q.voters == set v | v in Supporters(c, replies) && (v == c || v < q.next)
  {
  }

  lemma CountedNext(p: Poll, c: nat, replies: seq<VoteReply>)
    requires c < |replies| && Counted(p, c, replies) && p.next < |replies|
    ensures Counted(Tally(p, c, replies[p.next]), c, replies)
  {
    RefusalsNext(c, p.next, replies);
    VotersNext(p, c, replies);
  }

  /** The early exits never change the outcome: however soon the loop is left, it has counted
      a majority if and only if a majority of the servers grants. */
  lemma {:induction false} PollDecides(s: Server, p: Poll, c: nat, t: nat, replies: seq<VoteReply>)
    requires c < |replies| && Counted(p, c, replies)
    ensures Polled(s, p, c, t, replies).1.granted > |replies| / 2 <==> |Supporters(c, replies)| > |replies| / 2
    decreases |replies| - p.next
  {
    if !PollOver(p, |replies|) {
      var r := replies[p.next];
      CountedNext(p, c, replies);
      PollDecides(if p.next != c && r.term > t then StepDown(s, r.term) else s, Tally(p, c, r), c, t, replies);
    } else {
      var no := Refusals(c, p.next, replies);
      SubsetSize(p.voters, Supporters(c, replies));
      BoundedSize(Supporters(c, replies) + no, |replies|);
      if p.next >= |replies| {
        assert p.voters == Supporters(c, replies);
      }
    }
  }

  /** What the loop leaves of the candidate: itself, if no reply that it counted was of a term
      above both its own and t, and else a follower without a vote in the highest of those. */
  lemma {:induction false} PollStepsDown(s: Server, p: Poll, c: nat, t: nat, replies: seq<VoteReply>)
    requires p.next <= |replies|
    ensures var (u, q) := Polled(s, p, c, t, replies);
      && p.next <= q.next <= |replies|
      && (u == s || (u == s.(term := u.term, votedFor := -1, role := Follower) && u.term > s.term && u.term > t
            && exists v :: p.next <= v < q.next && v != c && replies[v].term == u.term))
      && forall v :: p.next <= v < q.next && v != c && replies[v].term > t ==> u.term >= replies[v].term
    decreases |replies| - p.next
  {
    if !PollOver(p, |replies|) {
      var r := replies[p.next];
      PollStepsDown(if p.next != c && r.term > t then StepDown(s, r.term) else s, Tally(p, c, r), c, t, replies);
    }
  }

  class Raft {
    const me: nat
    const peers: nat
    var currentTerm: nat
    var votedFor: int
    var role: Role
    var log: Log
    var commitIndex: nat
    var nextIndex: seq<nat>
    var matchIndex: seq<nat>
    var lastApplied: nat
    var logPrevIndex: int
    var logPrevTerm: int
    /** What went out on `applyCh`. */
    var sent: seq<ApplyMsg>

    ghost predicate Valid()
      reads this
    {
      && me < peers && |log| > 0
      && (role == Leader ==> |nextIndex| == peers && |matchIndex| == peers)
    }

    ghost predicate Cached()
      reads this
    {
      |log| > 0 && logPrevIndex == LastIndex(log) && logPrevTerm == LastTerm(log)
    }

    ghost function State(): Server
      reads this
    {
      Server(currentTerm, votedFor, role, log, commitIndex, nextIndex, matchIndex, lastApplied)
    }

    constructor (peers: nat, me: nat)
      requires me < peers
      ensures Valid() && this.peers == peers && this.me == me
      ensures State() == FRESH && sent == []
    {
      this.peers, this.me := peers, me;
      currentTerm, votedFor, role := 0, -1, Follower;
      log := [Entry(Nil, 0)];
      commitIndex, lastApplied := 0, 0;
      nextIndex, matchIndex := [], [];
      logPrevIndex, logPrevTerm := 0, 0;
      sent := [];
    }

    method UpdateLastLogInfo()
      modifies `logPrevIndex, `logPrevTerm
      ensures if |log| > 0 then Cached() else logPrevIndex == logPrevTerm == -1
    {
      var lastIndex := |log| - 1;
      if lastIndex >= 0 {
        logPrevIndex := lastIndex;
        logPrevTerm := log[lastIndex].term;
      } else {
        logPrevIndex := -1;
        logPrevTerm := -1;
      }
    }

    method RequestVote(args: VoteArgs) returns (reply: VoteReply)
      requires Valid()
      modifies `currentTerm, `votedFor, `role, `logPrevIndex, `logPrevTerm
      ensures Valid()
      ensures (State(), reply) == RaftServer.RequestVote(old(State()), args)
    {
      if args.term < currentTerm {
        return VoteReply(currentTerm, false);
      }
      if args.term == currentTerm {
        if role == Leader {
          return VoteReply(currentTerm, false);
        } else if votedFor == args.candidate {
          return VoteReply(currentTerm, true);
        }
        return VoteReply(currentTerm, false);
      }
      reply := VoteReply(currentTerm, false);
      currentTerm, votedFor, role := args.term, -1, Follower;
      UpdateLastLogInfo();
      if logPrevTerm > args.lastTerm {
        return;
      }
      if logPrevTerm == args.lastTerm && logPrevIndex > args.lastIndex {
        return;
      }
      currentTerm, votedFor, role := args.term, args.candidate, Follower;
      reply := reply.(granted := true);
    }

    method BecomeFollower(term: nat)
      requires Valid()
      modifies `currentTerm, `votedFor, `role
      ensures Valid()
      ensures State() == old(State()).(term := term, votedFor := -1, role := Follower)
    {
      role := Follower;
      votedFor := -1;
      currentTerm := term;
    }

    method CheckTermWithLeader(args: AppendArgs, r: AppendReply) returns (ok: bool, reply: AppendReply)
      requires Valid()
      modifies `currentTerm, `votedFor, `role
      ensures Valid() && ok == (args.term >= old(currentTerm))
      ensures State() == StepDown(old(State()), args.term)
      ensures reply == if ok then r else r.(success := false)
    {
      reply := r;
      if currentTerm < args.term {
        BecomeFollower(args.term);
        ok := true;
      } else if currentTerm > args.term {
        reply := reply.(success := false);
        ok := false;
      } else {
        ok := true;
      }
    }

    method LookConsistency(args: AppendArgs, r: AppendReply) returns (ok: bool, reply: AppendReply)
      requires Valid() && Cached()
      ensures ok == !Outdated(args, log)
      ensures reply == if ok then r else r.(success := false, term := -1)
    {
      reply := r;
      if |args.entries| > 0 {
        var lastEntryTerm := args.entries[|args.entries| - 1].term;
        if logPrevTerm > lastEntryTerm ||
           (logPrevTerm == lastEntryTerm && logPrevIndex > args.prevIndex + |args.entries|)
        {
          return false, r.(success := false, term := -1);
        }
      }
      ok := true;
    }

    method FindConflictIndex(startIdx: nat) returns (index: nat)
      requires Valid() && startIdx < |log|
      ensures index == ConflictIndex(log, commitIndex, startIdx, startIdx)
    {
      index := startIdx;
      while index > commitIndex && log[index].term == log[startIdx].term
        invariant index <= startIdx
        invariant ConflictIndex(log, commitIndex, startIdx, startIdx) ==
          ConflictIndex(log, commitIndex, startIdx, index)
      {
        index := index - 1;
      }
    }

    method AppendEntriesIfLogMatches(args: AppendArgs, r: AppendReply) returns (ok: bool, reply: AppendReply)
      requires Valid()
      modifies `log, `logPrevIndex, `logPrevTerm
      ensures Valid()
      ensures ok == (args.prevIndex < |old(log)| && old(log)[args.prevIndex].term == args.prevTerm)
      ensures log == if ok then old(log)[..args.prevIndex + 1] + args.entries else old(log)
      ensures ok ==> reply == r
      ensures !ok && args.prevIndex >= |log| ==>
        reply == r.(success := false, newIndex := LastIndex(log), newTerm := LastTerm(log))
      ensures !ok && args.prevIndex < |log| ==>
        var i := ConflictIndex(log, commitIndex, args.prevIndex, args.prevIndex);
        reply == r.(success := false, newIndex := i, newTerm := log[i].term)
    {
      reply := r;
      UpdateLastLogInfo();
      if args.prevIndex > logPrevIndex {
        return false, r.(success := false, newIndex := logPrevIndex, newTerm := log[logPrevIndex].term);
      }
      if log[args.prevIndex].term == args.prevTerm {
        log := log[..args.prevIndex + 1] + args.entries;
        return true, r;
      }
      var index := FindConflictIndex(args.prevIndex);
      return false, r.(success := false, newIndex := index, newTerm := log[index].term);
    }

    method UpdateCommitIndexAndNotify(args: AppendArgs)
      requires Valid()
      modifies `commitIndex
      ensures Valid() && commitIndex == FollowerCommit(old(commitIndex), args.leaderCommit, |log|)
    {
      if commitIndex < args.leaderCommit {
        var newCommitIndex := args.leaderCommit;
        if newCommitIndex > |log| {
          newCommitIndex := |log|;
        }
        commitIndex := newCommitIndex;
      }
    }

    method AppendEntries(args: AppendArgs) returns (reply: AppendReply)
      requires Valid()
      modifies `currentTerm, `votedFor, `role, `log, `commitIndex, `logPrevIndex, `logPrevTerm
      ensures Valid()
      ensures (State(), reply) == RaftServer.AppendEntries(old(State()), args)
    {
      UpdateLastLogInfo();
      reply := AppendReply(true, currentTerm, logPrevIndex, logPrevTerm);
      var ok: bool;
      ok, reply := CheckTermWithLeader(args, reply);
      if !ok {
        return;
      }
      UpdateLastLogInfo();
      ok, reply := LookConsistency(args, reply);
      if !ok {
        return;
      }
      ok, reply := AppendEntriesIfLogMatches(args, reply);
      if ok {
        UpdateCommitIndexAndNotify(args);
      }
    }

    /** The part of `election()` before the first RPC. */
    method BeginElection() returns (args: VoteArgs)
      requires Valid()
      modifies `role, `votedFor, `currentTerm, `logPrevIndex, `logPrevTerm
      ensures Valid() && State() == RaftServer.BeginElection(old(State()), me)
      ensures args == VoteArgs(old(currentTerm) + 1, me, LastIndex(log), LastTerm(log))
    {
      role := Candidate;
      votedFor := me;
      currentTerm := currentTerm + 1;
      UpdateLastLogInfo();
      args := VoteArgs(currentTerm, me, logPrevIndex, logPrevTerm);
    }

    /** The loop of `election()`, given what each peer's RPC brings back. */
    method CollectVotes(args: VoteArgs, replies: seq<VoteReply>) returns (granted: nat, asked: nat)
      requires Valid() && |replies| == peers
      modifies `currentTerm, `role, `votedFor
      ensures Valid()
      ensures var (s, p) := Polled(old(State()), Poll(log, 0, 1, 1, {me}), me, args.term, replies);
        State() == s && granted == p.granted && asked == p.asked
      ensures granted > peers / 2 <==> |Supporters(me, replies)| > peers / 2
    {
      assert Counted(Poll(log, 0, 1, 1, {me}), me, replies) by {
        assert Refusals(me, 0, replies) == {};
      }
      PollDecides(State(), Poll(log, 0, 1, 1, {me}), me, args.term, replies);
      var majority := peers / 2;
      granted, asked := 1, 1;
      ghost var p := Poll(log, 0, 1, 1, {me});
      var i := 0;
      while i < peers
        invariant Valid() && i <= peers && granted == p.granted && asked == p.asked
        invariant if peers > 1 then i == p.next && granted <= majority && asked - granted <= majority else granted == 1
        invariant Polled(old(State()), Poll(log, 0, 1, 1, {me}), me, args.term, replies) ==
                  Polled(State(), p, me, args.term, replies)
        decreases peers - i
      {
        if i != me {
          var reply := replies[i];
          if reply.granted {
            granted := granted + 1;
          }
          asked := asked + 1;
          if reply.term > args.term {
            NewerTerm(reply.term);
          }
          p := Tally(p, me, reply);
          if granted > majority {
            break;
          }
          if asked - granted > majority {
            break;
          }
        } else {
          p := if peers > 1 then Tally(p, me, replies[i]) else p;
        }
        i := i + 1;
      }
    }

    /** All of `election()` when no other handler comes between. */
    method Election(replies: seq<VoteReply>)
      requires Valid() && |replies| == peers
      modifies `role, `votedFor, `currentTerm, `nextIndex, `matchIndex, `logPrevIndex, `logPrevTerm
      ensures Valid()
      ensures var s := RaftServer.BeginElection(old(State()), me);
        var (u, p) := Polled(s, Poll(log, 0, 1, 1, {me}), me, s.term, replies);
        State() == if p.granted > peers / 2 then WinElection(u, me, peers, s.term) else u
      ensures role == Leader ==> |Supporters(me, replies)| > peers / 2 && currentTerm == old(currentTerm) + 1
      ensures |Supporters(me, replies)| > peers / 2 ==>
        role == Leader || exists v :: 0 <= v < peers && v != me && replies[v].term > old(currentTerm) + 1
    {
      var args := BeginElection();
      PollStepsDown(State(), Poll(log, 0, 1, 1, {me}), me, args.term, replies);
      var granted, asked := CollectVotes(args, replies);
      if granted <= peers / 2 {
        return;
      }
      FinishElection(args);
    }

    /** The part of `election()` after a majority was granted. */
    method FinishElection(args: VoteArgs)
      requires Valid()
      modifies `role, `nextIndex, `matchIndex, `logPrevIndex, `logPrevTerm
      ensures Valid() && State() == WinElection(old(State()), me, peers, args.term)
    {
      UpdateLastLogInfo();
      if currentTerm == args.term && role == Candidate {
        role := Leader;
        nextIndex := seq(peers, _ => 0);
        for i := 0 to peers
          invariant Cached() && role == Leader && |nextIndex| == peers
          invariant forall j :: 0 <= j < i ==> nextIndex[j] == |log|
        {
          nextIndex := nextIndex[i := logPrevIndex + 1];
        }
        matchIndex := seq(peers, _ => 0);
        matchIndex := matchIndex[me := logPrevIndex];
      }
    }

    /** A reply of a newer term. */
    method NewerTerm(term: nat)
      requires Valid()
      modifies `currentTerm, `role, `votedFor
      ensures Valid() && State() == StepDown(old(State()), term)
    {
      if currentTerm < term {
        currentTerm := term;
        role := Follower;
        votedFor := -1;
      }
    }

    method Start(command: Command) returns (index: int, term: int, isLeader: bool)
      requires Valid()
      modifies `log, `matchIndex
      ensures Valid() && State() == RaftServer.Start(old(State()), me, command)
      ensures index == |old(log)| && term == currentTerm && isLeader == (role == Leader)
      ensures log == if isLeader then old(log) + [Entry(command, currentTerm)] else old(log)
      ensures matchIndex == if isLeader then old(matchIndex)[me := index] else old(matchIndex)
    {
      term := currentTerm;
      isLeader := role == Leader;
      var lastIndex := |log| - 1;
      index := lastIndex + 1;
      if !isLeader {
        return;
      }
      log := log + [Entry(command, currentTerm)];
      matchIndex := matchIndex[me := index];
    }

    method InitiateAppendEntries(next: nat) returns (args: AppendArgs)
      requires Valid() && 1 <= next <= |log|
      ensures args == MakeAppend(State(), me, next)
      ensures log[..next] + args.entries == log
    {
      args := AppendArgs(currentTerm, me, next - 1, log[next - 1].term, log[next..], commitIndex);
    }

    method IsMajorityReplicated(index: nat) returns (r: bool)
      requires Valid() && |matchIndex| == peers
      ensures r == MajorityReplicated(matchIndex, index)
    {
      var count := 0;
      var majority := peers / 2;
      for i := 0 to |matchIndex|
        invariant count == |set j: nat | j < i && matchIndex[j] >= index| <= majority
      {
        ghost var seen := set j: nat | j < i && matchIndex[j] >= index;
        ghost var seen' := set j: nat | j < i + 1 && matchIndex[j] >= index;
        if matchIndex[i] >= index {
          assert seen' == seen + {i};
          count := count + 1;
          if count > majority {
            assert Replicas(matchIndex, index) == seen' + (Replicas(matchIndex, index) - seen');
            return true;
          }
        } else {
          assert seen' == seen;
        }
      }
      assert Replicas(matchIndex, index) == set j: nat | j < |matchIndex| && matchIndex[j] >= index;
      r := false;
    }

    method UpdateCommitIndex()
      requires Valid() && |matchIndex| == peers
      modifies `commitIndex
      ensures Valid() && commitIndex == CommitScan(matchIndex, |log|, old(commitIndex))
    {
      var i := commitIndex + 1;
      while i <= |log|
        invariant i == commitIndex + 1
        invariant CommitScan(matchIndex, |log|, old(commitIndex)) == CommitScan(matchIndex, |log|, commitIndex)
        decreases |log| - i
      {
        var ok := IsMajorityReplicated(i);
        if ok {
          commitIndex := i;
        } else {
          break;
        }
        i := i + 1;
      }
    }

    method HandleAppendEntriesResponse(reply: AppendReply, args: AppendArgs, server: nat)
      returns (again: bool, next: nat)
      requires Valid() && ReplySafe(State(), reply, server, args.term)
      requires |matchIndex| == peers
      modifies `currentTerm, `role, `votedFor, `nextIndex, `matchIndex, `commitIndex
      ensures Valid()
      ensures (State(), if again then Retry(next) else Stop) == HandleReply(old(State()), reply, args, server)
    {
      next := args.prevIndex + 1;
      if !reply.success && reply.term == -1 {
        return false, next;
      }
      if reply.term > args.term {
        NewerTerm(reply.term);
        again := false;
      } else if reply.success {
        nextIndex := nextIndex[server := next + |args.entries|];
        matchIndex := matchIndex[server := next - 1 + |args.entries|];
        if |args.entries| > 0 && args.entries[|args.entries| - 1].term == currentTerm {
          UpdateCommitIndex();
        }
        again := false;
      } else {
        next := if log[reply.newIndex].term == reply.newTerm then reply.newIndex + 1 else reply.newIndex;
        again := true;
      }
    }

    method PrepareMessages() returns (msgs: seq<ApplyMsg>)
      requires Valid() && lastApplied < commitIndex < |log|
      ensures msgs == Messages(log, lastApplied + 1, commitIndex)
    {
      msgs := [];
      var i := lastApplied + 1;
      while i <= commitIndex
        invariant lastApplied + 1 <= i <= commitIndex + 1
        invariant |msgs| == i - lastApplied - 1
        invariant forall k :: 0 <= k < |msgs| ==>
          msgs[k] == ApplyMsg(log[lastApplied + 1 + k].command, lastApplied + 1 + k)
      {
        msgs := msgs + [ApplyMsg(log[i].command, i)];
        i := i + 1;
      }
    }

    method ApplyMessages(msgs: seq<ApplyMsg>)
      requires Valid() && |msgs| > 0
      modifies `sent, `lastApplied
      ensures Valid() && sent == old(sent) + msgs && lastApplied == msgs[|msgs| - 1].index
    {
      for k := 0 to |msgs|
        invariant Valid() && sent == old(sent) + msgs[..k]
        invariant k > 0 ==> lastApplied == msgs[k - 1].index
      {
        sent := sent + [msgs[k]];
        lastApplied := msgs[k].index;
      }
    }

    method ApplyCommits()
      requires Valid() && commitIndex < |log|
      modifies `sent, `lastApplied
      ensures Valid()
      ensures State() == RaftServer.ApplyCommits(old(State())).0
      ensures sent == old(sent) + RaftServer.ApplyCommits(old(State())).1
    {
      if lastApplied < commitIndex {
        var msgs := PrepareMessages();
        assert msgs[|msgs| - 1].index == commitIndex;
        ApplyMessages(msgs);
      }
    }
  }
}
