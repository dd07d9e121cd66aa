/** The whole `heartbeat()` loop of a leader against one peer: whichever requests and
    replies are lost on the way, the loop ends with equal logs or with a refusal, and
    which of the two is decided by the logs it started from. */
module RaftHeartbeat {
  import opened RaftServer
  import opened RaftSystem
  import opened RaftInvariant
  import opened RaftSafety
  import opened RaftBasics
  import opened RaftNode

  /** What a leader s can rely on about a peer f that is in no newer term: log matching. */
  ghost predicate Matching(s: Server, f: Server) {
    && |s.log| > 0 && |f.log| > 0 && s.log[0] == f.log[0] == SENTINEL && f.term <= s.term
    && forall k :: 0 <= k < |s.log| && k < |f.log| && s.log[k].term == f.log[k].term ==>
         s.log[..k + 1] == f.log[..k + 1]
  }

  /** In any crash-free run a leader and a peer in no newer term are in that relation. */
  lemma LeadersMatch(n: nat, states: seq<System>, steps: seq<Step>, i: nat, l: nat, j: nat)
    requires n >= 1 && AnyRun(n, states, steps) && i < |states| && l < n && j < n && |states[i].servers| == n
    requires states[i].servers[l].role == Leader && states[i].servers[j].term <= states[i].servers[l].term
    ensures Matching(states[i].servers[l], states[i].servers[j])
  {
    var s, f := states[i].servers[l], states[i].servers[j];
    AnyRunBase(n, states, steps, i);
    assert Sound(states[i], l) && Sound(states[i], j);
    forall k | 0 <= k < |s.log| && k < |f.log| && s.log[k].term == f.log[k].term
      ensures s.log[..k + 1] == f.log[..k + 1]
    {
      LogMatchingInRuns(n, states, steps, i, l, j, k);
    }
  }

  /** The peer's log is not beyond the leader's in the order RequestVote compares. */
  predicate Behind(s: Server, f: Server)
    requires |s.log| > 0 && |f.log| > 0
  {
    UpToDate(LastTerm(s.log), LastIndex(s.log), f.log)
  }

  predicate MatchesAt(s: Server, f: Server, next: nat)
    requires 1 <= next <= |s.log|
  {
    next - 1 < |f.log| && f.log[next - 1].term == s.log[next - 1].term
  }

  lemma Refused(s: Server, f: Server, me: nat, next: nat)
    requires Matching(s, f) && 1 <= next < |s.log| && !Behind(s, f)
    ensures var (f', r) := AppendEntries(f, MakeAppend(s, me, next));
      f' == StepDown(f, s.term) && !r.success && r.term == -1
  {
    assert s.log[next..][|s.log[next..]| - 1] == s.log[|s.log| - 1];
  }

  lemma Spliced(log: Log, theirs: Log, next: nat)
    requires 1 <= next <= |log| && next <= |theirs| && theirs[..next] == log[..next]
    ensures theirs[..next] + log[next..] == log
    ensures next < |log| ==> log[next..][|log[next..]| - 1] == log[|log| - 1]
  {
  }

  lemma TakenOver(s: Server, f: Server, me: nat, next: nat)
    requires Matching(s, f) && 1 <= next <= |s.log| && MatchesAt(s, f, next)
    requires next < |s.log| ==> Behind(s, f)
    ensures var (f', r) := AppendEntries(f, MakeAppend(s, me, next));
      f' == CaughtUp(f, s) && r.success && r.term <= s.term
  {
    assert s.log[..next - 1 + 1] == f.log[..next - 1 + 1];
    Spliced(s.log, f.log, next);
    var a := MakeAppend(s, me, next);
    assert a.prevIndex == next - 1 && a.entries == s.log[next..];
    assert !Outdated(a, StepDown(f, s.term).log);
  }

  lemma SentLower(s: Server, f: Server, me: nat, next: nat)
    requires Matching(s, f) && 1 <= next <= |s.log| && !MatchesAt(s, f, next)
    requires next < |s.log| ==> Behind(s, f)
    ensures var (f', r) := AppendEntries(f, MakeAppend(s, me, next));
      && f' == StepDown(f, s.term) && !r.success && 0 <= r.term <= s.term
      && r.newIndex < |s.log| && 1 <= AdjustNext(s.log, r) < next
  {
    if next < |s.log| {
      assert s.log[next..][|s.log[next..]| - 1] == s.log[|s.log| - 1];
    }
  }

  /** Under the hypotheses of commitment, a leader's probe that does not match lies above
      what the peer has committed. */
  lemma MismatchIsUncommitted(n: nat, states: seq<System>, steps: seq<Step>, i: nat, l: nat, j: nat, next: nat)
    requires n >= 1 && Run(n, states, steps) && i < |states| && l < n && j < n && |states[i].servers| == n
    requires states[i].servers[l].role == Leader && states[i].servers[j].term <= states[i].servers[l].term
    requires 1 <= next <= |states[i].servers[l].log| && !MatchesAt(states[i].servers[l], states[i].servers[j], next)
    ensures next > 1 && states[i].servers[j].commitIndex < next - 1
  {
    var s, f := states[i].servers[l], states[i].servers[j];
    RunInv(n, states, steps, i);
    assert ServerOk(states[i], l) && ServerOk(states[i], j);
    LeadersHoldCommitted(n, states, steps, i, i, j, l);
    var p := f.log[..f.commitIndex + 1];
    assert forall k :: 0 <= k <= f.commitIndex ==> f.log[k] == p[k] == s.log[k];
  }

  /** Taking a log over once more changes nothing. */
  lemma TakenTwice(s: Server, f: Server, me: nat, next: nat)
    requires Matching(s, f) && 1 <= next <= |s.log|
    ensures Matching(s, CaughtUp(f, s)) && Behind(s, CaughtUp(f, s)) && MatchesAt(s, CaughtUp(f, s), next)
    ensures CaughtUp(CaughtUp(f, s), s) == CaughtUp(f, s)
  {
  }

  /** What becomes of one RPC. */
  datatype Fate = Arrives | RequestLost | ReplyLost

  /** The peer takes the request from next on over. */
  predicate Takes(s: Server, f: Server, next: nat)
    requires |s.log| > 0 && |f.log| > 0 && 1 <= next <= |s.log|
  {
    MatchesAt(s, f, next) && (next == |s.log| || Behind(s, f))
  }

  /** The request of one turn arrives: a batch is refused exactly when the peer is beyond
      the leader, a probe that matches makes the logs equal, and the answer to any other
      names a lower place to try. */
  method Ask(leader: Raft, follower: Raft, next: nat) returns (args: AppendArgs, reply: AppendReply)
    requires leader.Valid() && follower.Valid() && leader != follower
    requires Matching(leader.State(), follower.State()) && 1 <= next <= |leader.log|
    modifies follower
    ensures follower.Valid() && args == MakeAppend(leader.State(), leader.me, next)
    ensures next < |leader.log| && !old(Behind(leader.State(), follower.State())) ==>
      follower.State() == StepDown(old(follower.State()), leader.currentTerm) && !reply.success && reply.term == -1
    ensures old(Takes(leader.State(), follower.State(), next)) ==>
      && follower.State() == CaughtUp(old(follower.State()), leader.State())
      && reply.success && reply.term <= leader.currentTerm
    ensures old(GoesLower(leader.State(), follower.State(), next)) ==>
      && follower.State() == StepDown(old(follower.State()), leader.currentTerm) && !reply.success
      && 0 <= reply.term <= leader.currentTerm && reply.newIndex < |leader.log|
      && 1 <= AdjustNext(leader.log, reply) < next
  {
    ghost var s, f := leader.State(), follower.State();
    args := leader.InitiateAppendEntries(next);
    if next < |s.log| && !Behind(s, f) {
      Refused(s, f, leader.me, next);
    } else if MatchesAt(s, f, next) {
      TakenOver(s, f, leader.me, next);
    } else {
      SentLower(s, f, leader.me, next);
    }
    reply := follower.AppendEntries(args);
  }

  /** The request is answered with a place to try below. */
  predicate GoesLower(s: Server, f: Server, next: nat)
    requires |s.log| > 0 && |f.log| > 0 && 1 <= next <= |s.log|
  {
    !MatchesAt(s, f, next) && (next == |s.log| || Behind(s, f))
  }

  /** One turn of the loop when its RPC arrives: a batch is refused exactly when the peer is beyond the
      leader, a probe that matches makes the logs equal, and any other sends the leader
      strictly lower. */
  method Probe(leader: Raft, follower: Raft, to: nat, next: nat) returns (again: bool, accepted: bool, lower: nat)
    requires leader.Valid() && follower.Valid() && leader != follower && leader.role == Leader && to < leader.peers
    requires Matching(leader.State(), follower.State()) && 1 <= next <= |leader.log|
    modifies leader, follower
    ensures leader.Valid() && follower.Valid()
    ensures again == (!old(MatchesAt(leader.State(), follower.State(), next)) &&
                      (next < |old(leader.log)| ==> old(Behind(leader.State(), follower.State()))))
    ensures again ==> 1 <= lower < next && !accepted
    ensures !again ==> (accepted <==> next == |old(leader.log)| || old(Behind(leader.State(), follower.State())))
    ensures leader.log == old(leader.log) && leader.currentTerm == old(leader.currentTerm) && leader.role == Leader
    ensures accepted ==>
      && follower.State() == old(CaughtUp(follower.State(), leader.State()))
      && leader.nextIndex == old(leader.nextIndex)[to := |leader.log|]
      && leader.matchIndex == old(leader.matchIndex)[to := |leader.log| - 1]
    ensures !accepted ==>
      leader.State() == old(leader.State()) && follower.State() == StepDown(old(follower.State()), leader.currentTerm)
  {
    ghost var s := leader.State();
    var args, reply := Ask(leader, follower, next);
    assert leader.State() == s;
    again, lower := leader.HandleAppendEntriesResponse(reply, args, to);
    accepted := reply.success;
  }

  /** A turn whose RPC is lost: the peer may still have handled the request, and the
      leader starts again at 1. */
  method LosingProbe(leader: Raft, follower: Raft, to: nat, next: nat, fate: Fate) returns (lower: nat)
    requires leader.Valid() && follower.Valid() && leader != follower && leader.role == Leader && to < leader.peers
    requires Matching(leader.State(), follower.State()) && 1 <= next <= |leader.log| && !fate.Arrives?
    modifies leader, follower
    ensures leader.Valid() && follower.Valid() && lower == 1 && leader.State() == old(leader.State())
    ensures fate.RequestLost? ==> follower.State() == old(follower.State())
    ensures fate.ReplyLost? && old(Takes(leader.State(), follower.State(), next)) ==>
      follower.State() == old(CaughtUp(follower.State(), leader.State()))
    ensures fate.ReplyLost? && !old(Takes(leader.State(), follower.State(), next)) ==>
      follower.State() == StepDown(old(follower.State()), leader.currentTerm)
  {
    ghost var s, f := leader.State(), follower.State();
    var args := leader.InitiateAppendEntries(next);
    if fate.ReplyLost? {
      Decided(s, f, leader.me, next);
      var dropped := follower.AppendEntries(args);
    }
    assert leader.State() == s;
    var again;
    again, lower := leader.HandleAppendEntriesResponse(NO_REPLY, args, to);
  }

  lemma Decided(s: Server, f: Server, me: nat, next: nat)
    requires Matching(s, f) && 1 <= next <= |s.log|
    ensures AppendEntries(f, MakeAppend(s, me, next)).0 ==
            if Takes(s, f, next) then CaughtUp(f, s) else StepDown(f, s.term)
  {
    if next < |s.log| && !Behind(s, f) {
      Refused(s, f, me, next);
    } else if MatchesAt(s, f, next) {
      TakenOver(s, f, me, next);
    } else {
      SentLower(s, f, me, next);
    }
  }

  /** What happened to the peer so far: nothing, a raised term, or the whole log. */
  ghost predicate Reached(s: Server, f: Server, now: Server) {
    now == f || now == StepDown(f, s.term) || now == CaughtUp(f, s)
  }

  /** The first request that arrives starts here. */
  function FirstNext(start: nat, fates: seq<Fate>): nat {
    if fates != [] && fates[0].RequestLost? then 1 else start
  }

  lemma StaysMatching(s: Server, f: Server, now: Server, next: nat)
    requires Matching(s, f) && Reached(s, f, now) && 1 <= next <= |s.log|
    ensures Matching(s, now)
    ensures now != CaughtUp(f, s) ==>
      Behind(s, now) == Behind(s, f) && MatchesAt(s, now, next) == MatchesAt(s, f, next)
    ensures CaughtUp(now, s) == CaughtUp(f, s)
  {
    TakenTwice(s, f, 0, next);
  }

  /** The peer ends with the leader's log. */
  predicate Succeeds(s: Server, f: Server, first: nat)
    requires |s.log| > 0 && |f.log| > 0 && 1 <= first <= |s.log|
  {
    Behind(s, f) || (first == |s.log| && MatchesAt(s, f, first))
  }

  /** Where the loop stands: `arrived` says whether some request has arrived, `now` is
      the peer. */
  ghost predicate Midway(s: Server, f: Server, start: nat, fates: seq<Fate>, i: nat, next: nat, arrived: bool,
      now: Server)
  {
    && |s.log| > 0 && |f.log| > 0 && 1 <= start <= |s.log| && 1 <= next <= |s.log|
    && Reached(s, f, now)
    && (if arrived || i > 0 then true else next == start)
    && (!arrived && i > 0 ==> fates != [] && fates[0].RequestLost? && next == 1)
    && (now == CaughtUp(f, s) ==> Succeeds(s, f, FirstNext(start, fates)))
    && (arrived && now != CaughtUp(f, s) ==>
          next < |s.log| && (FirstNext(start, fates) == |s.log| ==> !MatchesAt(s, f, FirstNext(start, fates))))
  }

  /** A turn that takes the log over, and one that is refused, decide as claimed. */
  lemma TurnDecides(s: Server, f: Server, start: nat, fates: seq<Fate>, i: nat, next: nat, arrived: bool, now: Server)
    requires Matching(s, f) && Midway(s, f, start, fates, i, next, arrived, now)
    requires i == 0 ==> fates == [] || !fates[0].RequestLost?
    ensures Matching(s, now) && CaughtUp(now, s) == CaughtUp(f, s)
    ensures Takes(s, now, next) ==> Succeeds(s, f, FirstNext(start, fates))
    ensures next < |s.log| && !Behind(s, now) ==> !Succeeds(s, f, FirstNext(start, fates)) && now != CaughtUp(f, s)
  {
    StaysMatching(s, f, now, next);
    TakenTwice(s, f, 0, next);
  }

  /** A turn that sends the leader lower, or whose RPC is lost, leads on. */
  lemma TurnLeadsOn(s: Server, f: Server, start: nat, fates: seq<Fate>, i: nat, next: nat, arrived: bool,
      now: Server, lower: nat, then': Server)
    requires Matching(s, f) && Midway(s, f, start, fates, i, next, arrived, now)
    requires var fate := if i < |fates| then fates[i] else Arrives;
      match fate
      case Arrives => GoesLower(s, now, next) && 1 <= lower < next && then' == StepDown(now, s.term)
      case RequestLost => lower == 1 && then' == now
      case ReplyLost => lower == 1 && then' == if Takes(s, now, next) then CaughtUp(now, s) else StepDown(now, s.term)
    ensures Midway(s, f, start, fates, i + 1, lower, arrived || !(i < |fates| && fates[i].RequestLost?), then')
  {
    StaysMatching(s, f, now, next);
    TakenTwice(s, f, 0, next);
  }

  /** The loop when no other handler comes between: whatever becomes of its RPCs, as long
      as only finitely many are lost (`fates`), it ends. It brings the peer's log to the
      leader's exactly if the peer was not beyond the leader, or if the first request that
      arrived was empty and matched; else it changes no log. */
  method Heartbeat(leader: Raft, follower: Raft, to: nat, start: nat, fates: seq<Fate>) returns (accepted: bool)
    requires leader.Valid() && follower.Valid() && leader != follower && leader.role == Leader && to < leader.peers
    requires Matching(leader.State(), follower.State()) && 1 <= start <= |leader.log|
    modifies leader, follower
    ensures accepted <==> old(Succeeds(leader.State(), follower.State(), FirstNext(start, fates)))
    ensures leader.log == old(leader.log) && leader.currentTerm == old(leader.currentTerm) && leader.role == Leader
    ensures accepted ==> follower.log == leader.log
    ensures accepted ==> follower.State() == old(CaughtUp(follower.State(), leader.State()))
    ensures accepted ==>
      && leader.nextIndex == old(leader.nextIndex)[to := |leader.log|]
      && leader.matchIndex == old(leader.matchIndex)[to := |leader.log| - 1]
    ensures !accepted ==>
      leader.State() == old(leader.State()) && follower.State() == StepDown(old(follower.State()), leader.currentTerm)
  {
    var next := start;
    ghost var s, f := leader.State(), follower.State();
    ghost var arrived := false;
    var i: nat := 0;
    while true
      invariant leader.Valid() && follower.Valid() && leader.State() == s
      invariant Midway(s, f, start, fates, i, next, arrived, follower.State())
      decreases if i < |fates| then |fates| - i else 0, next
    {
      var fate := if i < |fates| then fates[i] else Arrives;
      ghost var now := follower.State();
      var lower;
      if fate.Arrives? {
        TurnDecides(s, f, start, fates, i, next, arrived, now);
        var again;
        again, accepted, lower := Probe(leader, follower, to, next);
        if !again {
          return;
        }
      } else {
        StaysMatching(s, f, now, next);
        lower := LosingProbe(leader, follower, to, next, fate);
      }
      TurnLeadsOn(s, f, start, fates, i, next, arrived, now, lower, follower.State());
      arrived := arrived || !fate.RequestLost?;
      next, i := lower, i + 1;
    }
  }
}
