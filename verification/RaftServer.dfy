/** One Raft peer as a value: its fields, its messages and what each handler of
    raft.go computes from them. Every handler of the source runs under `rf.mu`,
    so it is one atomic step; `RaftNode` proves the imperative handlers against
    these functions and `RaftSystem` interleaves them. */
module RaftServer {
  datatype Role = Follower | Candidate | Leader

  datatype Command = Nil | Cmd(id: int)

  datatype Entry = Entry(command: Command, term: nat)

  type Log = seq<Entry>

  /** Slot 0 of every log holds the zero `LogEntry`. */
  const SENTINEL := Entry(Nil, 0)

  datatype Server = Server(
    term: nat, votedFor: int, role: Role, log: Log,
    commitIndex: nat, nextIndex: seq<nat>, matchIndex: seq<nat>, lastApplied: nat)

  datatype VoteArgs = VoteArgs(term: nat, candidate: nat, lastIndex: nat, lastTerm: nat)

  datatype VoteReply = VoteReply(term: nat, granted: bool)

  datatype AppendArgs = AppendArgs(
    term: nat, leader: nat, prevIndex: nat, prevTerm: nat, entries: Log, leaderCommit: nat)

  datatype AppendReply = AppendReply(success: bool, term: int, newIndex: nat, newTerm: nat)

  datatype ApplyMsg = ApplyMsg(command: Command, index: nat)

  /** What `heartbeat` does after one response. */
  datatype Outcome = Stop | Retry(next: nat)

  /** A lost RPC leaves the reply structs zero. */
  const NO_VOTE := VoteReply(0, false)
  const NO_REPLY := AppendReply(false, 0, 0, 0)

  const FRESH := Server(0, -1, Follower, [SENTINEL], 0, [], [], 0)

  function LastIndex(log: Log): nat
    requires |log| > 0
  {
    |log| - 1
  }

  function LastTerm(log: Log): nat
    requires |log| > 0
  {
    log[|log| - 1].term
  }

  /** The order RequestVote compares: is (t, i) at least the last entry of `log`? */
  predicate UpToDate(t: nat, i: nat, log: Log)
    requires |log| > 0
  {
    LastTerm(log) < t || (LastTerm(log) == t && LastIndex(log) <= i)
  }

  function StepDown(s: Server, t: nat): Server {
    if s.term < t then s.(term := t, votedFor := -1, role := Follower) else s
  }

  function RequestVote(s: Server, a: VoteArgs): (Server, VoteReply)
    requires |s.log| > 0
  {
    if a.term < s.term then
      (s, VoteReply(s.term, false))
    else if a.term == s.term then
      (s, VoteReply(s.term, s.role != Leader && s.votedFor == a.candidate))
    else if UpToDate(a.lastTerm, a.lastIndex, s.log) then
      (StepDown(s, a.term).(votedFor := a.candidate), VoteReply(s.term, true))
    else
      (StepDown(s, a.term), VoteReply(s.term, false))
  }

  function BeginElection(s: Server, me: nat): Server {
    s.(role := Candidate, votedFor := me, term := s.term + 1)
  }

  function WinElection(s: Server, me: nat, n: nat, t: nat): Server
    requires |s.log| > 0 && me < n
  {
    if s.term == t && s.role == Candidate then
      s.(role := Leader,
         nextIndex := seq(n, _ => |s.log|),
         matchIndex := seq(n, i => if i == me then LastIndex(s.log) else 0))
    else s
  }

  function Start(s: Server, me: nat, c: Command): Server
    requires s.role == Leader ==> me < |s.matchIndex|
  {
    if s.role == Leader then
      s.(log := s.log + [Entry(c, s.term)], matchIndex := s.matchIndex[me := |s.log|])
    else s
  }

  function MakeAppend(s: Server, me: nat, next: nat): AppendArgs
    requires 1 <= next <= |s.log|
  {
    AppendArgs(s.term, me, next - 1, s.log[next - 1].term, s.log[next..], s.commitIndex)
  }

  /** `lookConsistency` refuses a batch that ends before the receiver's own last entry. */
  predicate Outdated(a: AppendArgs, log: Log)
    requires |log| > 0
  {
    a.entries != [] &&
    !UpToDate(a.entries[|a.entries| - 1].term, a.prevIndex + |a.entries|, log)
  }

  /** Walk down from `start` while the term stays the same, not past the commit index. */
  function ConflictIndex(log: Log, commit: nat, start: nat, i: nat): (r: nat)
    requires i <= start < |log|
    ensures r <= i
    ensures r == i || commit <= r
    ensures forall j :: r < j <= i ==> log[j].term == log[start].term
    ensures r <= commit || log[r].term != log[start].term
  {
    if i > commit && log[i].term == log[start].term
    then ConflictIndex(log, commit, start, i - 1) else i
  }

  function AppendEntries(s: Server, a: AppendArgs): (Server, AppendReply)
    requires |s.log| > 0
  {
    var reply := AppendReply(true, s.term, LastIndex(s.log), LastTerm(s.log));
    if a.term < s.term then
      (s, reply.(success := false))
    else
      var f := StepDown(s, a.term);
      if Outdated(a, f.log) then
        (f, reply.(success := false, term := -1))
      else if a.prevIndex > LastIndex(f.log) then
        (f, reply.(success := false))
      else if f.log[a.prevIndex].term == a.prevTerm then
        var log := f.log[..a.prevIndex + 1] + a.entries;
        (f.(log := log, commitIndex := FollowerCommit(f.commitIndex, a.leaderCommit, |log|)), reply)
      else
        var i := ConflictIndex(f.log, f.commitIndex, a.prevIndex, a.prevIndex);
        (f, reply.(success := false, newIndex := i, newTerm := f.log[i].term))
  }

  /** The clamp of the source is the length of the log, not its last index. */
  function FollowerCommit(commit: nat, leaderCommit: nat, length: nat): nat {
    if commit < leaderCommit then (if leaderCommit > length then length else leaderCommit) else commit
  }

  /** Server f after it has taken over the whole log of a leader s. */
  function CaughtUp(f: Server, s: Server): Server {
    StepDown(f, s.term).(log := s.log, commitIndex := FollowerCommit(f.commitIndex, s.commitIndex, |s.log|))
  }

  /** The servers whose matchIndex reached `i`. */
  function Replicas(matchIndex: seq<nat>, i: nat): set<nat> {
    set j: nat | j < |matchIndex| && matchIndex[j] >= i
  }

  predicate MajorityReplicated(matchIndex: seq<nat>, i: nat) {
    |Replicas(matchIndex, i)| > |matchIndex| / 2
  }

  function CommitScan(matchIndex: seq<nat>, length: nat, commit: nat): (r: nat)
    ensures r >= commit
    ensures r == commit || (r <= length && MajorityReplicated(matchIndex, r))
    ensures r >= length || !MajorityReplicated(matchIndex, r + 1)
    decreases length - commit
  {
    if commit + 1 <= length && MajorityReplicated(matchIndex, commit + 1)
    then CommitScan(matchIndex, length, commit + 1) else commit
  }

  /** Replies that only stop the sender's loop or make it step down. */
  predicate Dismissed(r: AppendReply, term: nat) {
    (!r.success && r.term == -1) || r.term > term
  }

  /** The sender's index expressions stay in range. */
  predicate ReplySafe(s: Server, r: AppendReply, to: nat, term: nat) {
    Dismissed(r, term) ||
    if r.success then to < |s.nextIndex| && to < |s.matchIndex| else r.newIndex < |s.log|
  }

  function HandleReply(s: Server, r: AppendReply, a: AppendArgs, to: nat): (Server, Outcome)
    requires ReplySafe(s, r, to, a.term)
  {
    if !r.success && r.term == -1 then
      (s, Stop)
    else if r.term > a.term then
      (StepDown(s, r.term), Stop)
    else if r.success then
      var u := s.(nextIndex := s.nextIndex[to := a.prevIndex + 1 + |a.entries|],
                  matchIndex := s.matchIndex[to := a.prevIndex + |a.entries|]);
      if a.entries != [] && a.entries[|a.entries| - 1].term == u.term then
        (u.(commitIndex := CommitScan(u.matchIndex, |u.log|, u.commitIndex)), Stop)
      else
        (u, Stop)
    else
      (s, Retry(AdjustNext(s.log, r)))
  }

  function AdjustNext(log: Log, r: AppendReply): nat
    requires r.newIndex < |log|
  {
    if log[r.newIndex].term == r.newTerm then r.newIndex + 1 else r.newIndex
  }

  /** The ApplyMsgs for the log indices lo..hi, hi included. */
  function Messages(log: Log, lo: nat, hi: nat): (r: seq<ApplyMsg>)
    requires hi < |log|
    ensures |r| == if lo <= hi then hi + 1 - lo else 0
    ensures forall k :: 0 <= k < |r| ==> r[k] == ApplyMsg(log[lo + k].command, lo + k)
    decreases hi + 1 - lo
  {
    if lo > hi then [] else [ApplyMsg(log[lo].command, lo)] + Messages(log, lo + 1, hi)
  }

  function ApplyCommits(s: Server): (Server, seq<ApplyMsg>)
    requires s.commitIndex < |s.log|
  {
    if s.lastApplied < s.commitIndex
    then (s.(lastApplied := s.commitIndex), Messages(s.log, s.lastApplied + 1, s.commitIndex))
    else (s, [])
  }
}
