/** None of the three hypotheses can be dropped: runs that obey the other two and break
    state machine safety, and the smallest cluster in which H-a and H-b leave H-c open. */
module RaftNecessity {
  import opened RaftServer
  import opened RaftSystem
  import opened RaftScenarios

  /** Two servers have applied different commands at the same index. */
  ghost predicate Disagree(y: System) {
    exists a, b, k :: Differ(y, a, b, k)
  }

  ghost predicate Differ(y: System, a: nat, b: nat, k: nat) {
    && a < |y.applied| && b < |y.applied| && k < |y.applied[a]| && k < |y.applied[b]|
    && y.applied[a][k].index == y.applied[b][k].index && y.applied[a][k].command != y.applied[b][k].command
  }

  // ----- H-a -------------------------------------------------------------------

  // Server 0 wins term 1 with server 1's vote and sends it a heartbeat without entries,
  // which is delayed. It appends a command; server 1 takes it over, and server 0 commits
  // and applies it. Only now the heartbeat arrives: it matches at the sentinel, and server
  // 1 drops the committed entry. So server 1 wins term 2 with server 2's vote, and commits
  // and applies another command.

  const NOT_A := {Hb, Hc}
  const DROPPED := Entry(Cmd(7), 1)
  const REPLACING := Entry(Cmd(8), 2)
  const EMPTY := Append(1, AppendArgs(1, 0, 0, 0, [], 0), [SENTINEL])
  const IDLE := Server(1, 0, Follower, [SENTINEL], 0, [], [], 0)
  const LED := Server(1, 0, Leader, [SENTINEL, DROPPED], 0, [1, 1, 1], [1, 0, 0], 0)
  const DONE := Server(1, 0, Leader, [SENTINEL, DROPPED], 1, [1, 2, 1], [1, 1, 0], 1)
  const LED2 := Server(2, 1, Leader, [SENTINEL, REPLACING], 0, [1, 1, 1], [0, 1, 0], 0)
  const IDLE2 := Server(2, 1, Follower, [SENTINEL], 0, [], [], 0)

  lemma HeartbeatIsSent() returns (y: System)
    ensures Reached(NOT_A, 3, y) && y.appends == [EMPTY] && y.acks == {} && y.applied == [[], [], []]
    ensures y.servers == [Server(1, 0, Leader, [SENTINEL], 0, [1, 1, 1], [0, 0, 0], 0), IDLE, FRESH]
  {
    y := Begin(NOT_A, 3);
    y := ElectOfThree(NOT_A, y, 0, 1);
    assert y.servers[0] == Server(1, 0, Leader, [SENTINEL], 0, [1, 1, 1], [0, 0, 0], 0);
    y := Request(NOT_A, 3, y, 0, 1);
    assert [SENTINEL][1..] == [];
  }

  lemma CommandCommits()
    ensures Commits(NOT_A, LED, IDLE, 1, 1)
    ensures Heard(LED, 1, 1) == DONE.(lastApplied := 0) && CaughtUp(IDLE, LED) == IDLE.(log := [SENTINEL, DROPPED])
    ensures ApplyCommits(DONE.(lastApplied := 0)) == (DONE, [ApplyMsg(Cmd(7), 1)])
  {
    assert [1, 0, 0][1 := 1] == [1, 1, 0] && Replicas([1, 1, 0], 1) == {0, 1} && Replicas([1, 1, 0], 2) == {};
    ScanReaches([1, 1, 0], 2, 0, 1);
    assert Messages([SENTINEL, DROPPED], 1, 1) == [ApplyMsg(Cmd(7), 1)];
  }

  lemma CommandIsSubmitted() returns (y: System)
    ensures Reached(NOT_A, 3, y) && y.appends == [EMPTY] && y.applied == [[], [], []] && y.servers == [LED, IDLE, FRESH]
  {
    y := HeartbeatIsSent();
    y := Submit(NOT_A, 3, y, 0, Cmd(7));
    assert y.servers[0] == LED;
  }

  lemma CommandIsCommitted() returns (y: System)
    ensures Reached(NOT_A, 3, y) && |y.appends| > 0 && y.appends[0] == EMPTY && y.applied == [[], [], []]
    ensures y.servers == [DONE.(lastApplied := 0), IDLE.(log := [SENTINEL, DROPPED]), FRESH]
  {
    y := CommandIsSubmitted();
    CommandCommits();
    y := Commit(NOT_A, 3, y, 0, 1, LED, IDLE, 1);
  }

  lemma CommandIsApplied() returns (y: System)
    ensures Reached(NOT_A, 3, y) && |y.appends| > 0 && y.appends[0] == EMPTY
    ensures y.applied == [[ApplyMsg(Cmd(7), 1)], [], []]
    ensures y.servers == [DONE, IDLE.(log := [SENTINEL, DROPPED]), FRESH]
  {
    y := CommandIsCommitted();
    CommandCommits();
    y := Apply(NOT_A, 3, y, 0, DONE.(lastApplied := 0), DONE, [ApplyMsg(Cmd(7), 1)]);
    assert y.applied[0] == [ApplyMsg(Cmd(7), 1)];
  }

  lemma CommandIsLost() returns (y: System)
    ensures Reached(NOT_A, 3, y) && y.applied == [[ApplyMsg(Cmd(7), 1)], [], []]
    ensures y.servers == [DONE, IDLE, FRESH]
  {
    y := CommandIsApplied();
    y := Handle(NOT_A, 3, y, 0);
    assert [SENTINEL, DROPPED][..1] + [] == [SENTINEL];
  }

  lemma OtherLeads() returns (y: System)
    ensures Reached(NOT_A, 3, y) && y.applied == [[ApplyMsg(Cmd(7), 1)], [], []] && y.servers == [DONE, LED2, IDLE2]
  {
    y := CommandIsLost();
    y := ElectOfThree(NOT_A, y, 1, 2);
    assert y.servers[1] == Server(2, 1, Leader, [SENTINEL], 0, [1, 1, 1], [0, 0, 0], 0);
    y := Submit(NOT_A, 3, y, 1, Cmd(8));
    assert y.servers[1] == LED2;
  }

  const DONE2 := Server(2, 1, Leader, [SENTINEL, REPLACING], 1, [1, 1, 2], [0, 1, 1], 1)

  lemma OtherCommits()
    ensures Commits(NOT_A, LED2, IDLE2, 2, 1) && Heard(LED2, 2, 1) == DONE2.(lastApplied := 0)
    ensures ApplyCommits(DONE2.(lastApplied := 0)) == (DONE2, [ApplyMsg(Cmd(8), 1)])
  {
    assert [0, 1, 0][2 := 1] == [0, 1, 1] && Replicas([0, 1, 1], 1) == {1, 2} && Replicas([0, 1, 1], 2) == {};
    ScanReaches([0, 1, 1], 2, 0, 1);
    assert Messages([SENTINEL, REPLACING], 1, 1) == [ApplyMsg(Cmd(8), 1)];
  }

  /** H-a is needed: one delayed heartbeat without entries breaks state machine safety. */
  lemma StaleHeartbeatBreaksSafety()
    ensures exists y :: Reached({Hb, Hc}, 3, y) && Disagree(y)
  {
    var y := OtherLeads();
    OtherCommits();
    y := Commit(NOT_A, 3, y, 1, 2, LED2, IDLE2, 1);
    y := Apply(NOT_A, 3, y, 1, DONE2.(lastApplied := 0), DONE2, [ApplyMsg(Cmd(8), 1)]);
    assert Differ(y, 0, 1, 0);
  }

  // ----- H-b -------------------------------------------------------------------

  // Server 0 leads term 1 and appends three commands that reach nobody; server 2 leads term
  // 2 and appends one. Server 0 leads term 3, and server 1 takes its three old entries over;
  // the reply is delayed. Server 2 leads term 4 and overwrites server 0. Server 0 leads term
  // 5 and appends two commands, the first of which reaches server 2. Now the reply from term
  // 3 says that server 1 holds index 3, and with server 2's genuine reply server 0 commits
  // and applies index 3, which nobody else holds. Server 2 leads term 6 without it, and
  // commits and applies another command there.

  const NOT_B := {Ha, Hc}
  const STRAY := Entry(Cmd(1), 1)
  const STRANDED: Log := [SENTINEL, STRAY, STRAY, STRAY]
  const RIVALS := Entry(Cmd(2), 2)
  const SHARED := Entry(Cmd(3), 5)
  const ALONE := Entry(Cmd(4), 5)
  const FINAL := Entry(Cmd(5), 6)

  lemma ZeroWinsOne() returns (y: System)
    ensures Reached(NOT_B, 3, y) && y.applied == [[], [], []]
    ensures y.servers == [Server(1, 0, Leader, [SENTINEL], 0, [1, 1, 1], [0, 0, 0], 0), FRESH,
                          Server(1, 0, Follower, [SENTINEL], 0, [], [], 0)]
  {
    y := Begin(NOT_B, 3);
    y := ElectOfThree(NOT_B, y, 0, 2);
    assert y.servers[0] == Server(1, 0, Leader, [SENTINEL], 0, [1, 1, 1], [0, 0, 0], 0);
  }

  lemma ZeroLeadsOne() returns (y: System)
    ensures Reached(NOT_B, 3, y) && y.applied == [[], [], []]
    ensures y.servers == [Server(1, 0, Leader, [SENTINEL, STRAY], 0, [1, 1, 1], [1, 0, 0], 0), FRESH,
                          Server(1, 0, Follower, [SENTINEL], 0, [], [], 0)]
  {
    y := ZeroWinsOne();
    y := Submit(NOT_B, 3, y, 0, Cmd(1));
    assert y.servers[0] == Server(1, 0, Leader, [SENTINEL, STRAY], 0, [1, 1, 1], [1, 0, 0], 0);
  }

  /** Three commands that reach nobody. */
  lemma ThreeAreStranded() returns (y: System)
    ensures Reached(NOT_B, 3, y) && y.applied == [[], [], []]
    ensures y.servers == [Server(1, 0, Leader, STRANDED, 0, [1, 1, 1], [3, 0, 0], 0), FRESH,
                          Server(1, 0, Follower, [SENTINEL], 0, [], [], 0)]
  {
    y := ZeroLeadsOne();
    y := Submit(NOT_B, 3, y, 0, Cmd(1));
    assert y.servers[0] == Server(1, 0, Leader, [SENTINEL, STRAY, STRAY], 0, [1, 1, 1], [2, 0, 0], 0);
    y := Submit(NOT_B, 3, y, 0, Cmd(1));
    assert y.servers[0] == Server(1, 0, Leader, STRANDED, 0, [1, 1, 1], [3, 0, 0], 0);
  }

  /** Server 0 steps down when it is asked for its vote in term 2. */
  lemma TwoLeadsTwo() returns (y: System)
    ensures Reached(NOT_B, 3, y) && y.applied == [[], [], []]
    ensures y.servers == [Server(2, -1, Follower, STRANDED, 0, [1, 1, 1], [3, 0, 0], 0),
                          Server(2, 2, Follower, [SENTINEL], 0, [], [], 0),
                          Server(2, 2, Leader, [SENTINEL], 0, [1, 1, 1], [0, 0, 0], 0)]
  {
    y := ThreeAreStranded();
    y := ElectOfThree(NOT_B, y, 2, 1);
    assert y.servers[2] == Server(2, 2, Leader, [SENTINEL], 0, [1, 1, 1], [0, 0, 0], 0);
    y := Canvass(NOT_B, 3, y, 0, 2, 2);
  }

  lemma OneIsStranded() returns (y: System)
    ensures Reached(NOT_B, 3, y) && y.applied == [[], [], []]
    ensures y.servers == [Server(2, -1, Follower, STRANDED, 0, [1, 1, 1], [3, 0, 0], 0),
                          Server(2, 2, Follower, [SENTINEL], 0, [], [], 0),
                          Server(2, 2, Leader, [SENTINEL, RIVALS], 0, [1, 1, 1], [0, 0, 1], 0)]
  {
    y := TwoLeadsTwo();
    y := Submit(NOT_B, 3, y, 2, Cmd(2));
    assert y.servers[2] == Server(2, 2, Leader, [SENTINEL, RIVALS], 0, [1, 1, 1], [0, 0, 1], 0);
  }

  const OLD := Server(3, 0, Leader, STRANDED, 0, [4, 4, 4], [3, 0, 0], 0)
  const VOTER := Server(3, 0, Follower, [SENTINEL], 0, [], [], 0)

  /** And server 2 steps down in term 3. */
  const ASIDE := Server(3, -1, Follower, [SENTINEL, RIVALS], 0, [1, 1, 1], [0, 0, 1], 0)

  lemma ZeroLeadsThree() returns (y: System)
    ensures Reached(NOT_B, 3, y) && y.applied == [[], [], []] && y.servers == [OLD, VOTER, ASIDE]
  {
    y := OneIsStranded();
    y := ElectOfThree(NOT_B, y, 0, 1);
    assert y.servers[0] == OLD;
    y := Canvass(NOT_B, 3, y, 2, 0, 3);
  }

  const LATE := AppendReply(true, 3, 0, 0)

  /** The request of term 3 whose success is delayed. */
  ghost predicate Delayed(y: System, k: nat) {
    k < |y.appends| && y.appends[k] == Append(1, MakeAppend(OLD, 0, 1), OLD.log) && Ack(k, LATE) in y.acks
  }

  lemma ReplyIsDelayed() returns (y: System, k: nat)
    ensures Reached(NOT_B, 3, y) && y.applied == [[], [], []] && Delayed(y, k)
    ensures y.servers == [OLD, VOTER.(log := STRANDED), ASIDE]
  {
    y := ZeroLeadsThree();
    var r;
    y, k, r := Replicate(NOT_B, 3, y, 0, 1);
    assert CaughtUp(VOTER, OLD) == VOTER.(log := STRANDED);
  }

  const HOLDER := Server(4, 2, Follower, STRANDED, 0, [], [], 0)
  const RIVAL := Server(4, 2, Leader, [SENTINEL, RIVALS], 0, [2, 2, 2], [0, 0, 1], 0)

  lemma TwoLeadsFour() returns (y: System, k: nat)
    ensures Reached(NOT_B, 3, y) && y.applied == [[], [], []] && Delayed(y, k) && y.servers == [OLD, HOLDER, RIVAL]
  {
    y, k := ReplyIsDelayed();
    y := ElectOfThree(NOT_B, y, 2, 1);
    assert y.servers[2] == RIVAL;
  }

  const BEATEN := Server(4, -1, Follower, [SENTINEL, RIVALS], 0, [4, 4, 4], [3, 0, 0], 0)

  lemma ZeroIsOverwritten() returns (y: System, k: nat)
    ensures Reached(NOT_B, 3, y) && y.applied == [[], [], []] && Delayed(y, k) && y.servers == [BEATEN, HOLDER, RIVAL]
  {
    y, k := TwoLeadsFour();
    var k', r;
    y, k', r := Replicate(NOT_B, 3, y, 2, 0);
    assert CaughtUp(OLD, RIVAL) == BEATEN;
  }

  const HOLDER5 := Server(5, 0, Follower, STRANDED, 0, [], [], 0)
  const NEW := Server(5, 0, Leader, [SENTINEL, RIVALS, SHARED], 0, [2, 2, 2], [2, 0, 0], 0)

  lemma ZeroLeadsFive() returns (y: System, k: nat)
    ensures Reached(NOT_B, 3, y) && y.applied == [[], [], []] && Delayed(y, k) && y.servers == [NEW, HOLDER5, RIVAL]
  {
    y, k := ZeroIsOverwritten();
    y := ElectOfThree(NOT_B, y, 0, 1);
    assert y.servers[0] == Server(5, 0, Leader, [SENTINEL, RIVALS], 0, [2, 2, 2], [1, 0, 0], 0);
    y := Submit(NOT_B, 3, y, 0, Cmd(3));
    assert y.servers[0] == NEW;
  }

  /** H-b is needed for the index range too: after the late reply a heartbeat loop starts
      beyond the leader's log. */
  lemma LateReplyOverruns()
    ensures exists y, b :: Reached({Ha, Hc}, 3, y) && Overruns(y, b)
  {
    var y, k := ZeroLeadsFive();
    assert OLD.log[1..] == [STRAY, STRAY, STRAY];
    y := Note(NOT_B, 3, y, k, LATE, 0);
    assert y.servers[0].nextIndex == [2, 4, 2];
    y := Begins(NOT_B, 3, y, 0, 1);
    assert Overruns(y, Beat(0, 1, 4, 5));
  }

  /** The next turn of loop b, whose leader still leads, slices beyond the log. */
  ghost predicate Overruns(y: System, b: Beat) {
    && b in y.beats && b.leader < |y.servers| && y.servers[b.leader].role == Leader
    && y.servers[b.leader].term == b.term && b.next > |y.servers[b.leader].log|
  }

  const FOLLOWS := Server(5, -1, Follower, [SENTINEL, RIVALS, SHARED], 0, [2, 2, 2], [0, 0, 1], 0)
  const NEWER := Server(5, 0, Leader, [SENTINEL, RIVALS, SHARED, ALONE], 0, [2, 2, 2], [3, 0, 0], 0)

  /** The genuine reply to request j, which reaches index 2 only. */
  ghost predicate Genuine(y: System, j: nat) {
    && j < |y.appends| && y.appends[j] == Append(2, MakeAppend(NEW, 0, 1), NEW.log)
    && Ack(j, AppendReply(true, 4, 1, 2)) in y.acks
  }

  lemma FirstReachesTwo() returns (y: System, k: nat, j: nat)
    ensures Reached(NOT_B, 3, y) && y.applied == [[], [], []] && Delayed(y, k) && Genuine(y, j)
    ensures y.servers == [NEWER, HOLDER5, FOLLOWS]
  {
    y, k := ZeroLeadsFive();
    var r;
    y, j, r := Replicate(NOT_B, 3, y, 0, 2);
    assert CaughtUp(RIVAL, NEW) == FOLLOWS;
    y := Submit(NOT_B, 3, y, 0, Cmd(4));
    assert y.servers[0] == NEWER;
  }

  const MISLED := Server(5, 0, Leader, [SENTINEL, RIVALS, SHARED, ALONE], 0, [2, 4, 2], [3, 3, 0], 0)

  lemma LateReplyMisleads() returns (y: System, j: nat)
    ensures Reached(NOT_B, 3, y) && y.applied == [[], [], []] && Genuine(y, j)
    ensures y.servers == [MISLED, HOLDER5, FOLLOWS]
  {
    var k;
    y, k, j := FirstReachesTwo();
    assert OLD.log[1..] == [STRAY, STRAY, STRAY];
    assert Noted(NEWER, y.appends[k], 0) == MISLED;
    y := Note(NOT_B, 3, y, k, LATE, 0);
  }

  const OVER := Server(5, 0, Leader, [SENTINEL, RIVALS, SHARED, ALONE], 3, [2, 4, 3], [3, 3, 2], 3)
  const THREE := [ApplyMsg(Cmd(2), 1), ApplyMsg(Cmd(3), 2), ApplyMsg(Cmd(4), 3)]

  lemma Overcommits()
    ensures CommitScan([3, 3, 2], 4, 0) == 3 && MISLED.matchIndex[2 := 2] == [3, 3, 2]
    ensures ApplyCommits(OVER.(lastApplied := 0)) == (OVER, THREE)
  {
    assert Replicas([3, 3, 2], 1) == {0, 1, 2} && Replicas([3, 3, 2], 2) == {0, 1, 2};
    assert Replicas([3, 3, 2], 3) == {0, 1} && Replicas([3, 3, 2], 4) == {};
    ScanReaches([3, 3, 2], 4, 0, 3);
    assert Messages([SENTINEL, RIVALS, SHARED, ALONE], 1, 3) == THREE;
  }

  lemma ZeroOvercommits() returns (y: System)
    ensures Reached(NOT_B, 3, y) && y.applied == [THREE, [], []] && y.servers == [OVER, HOLDER5, FOLLOWS]
  {
    var j;
    y, j := LateReplyMisleads();
    Overcommits();
    assert NEW.log[1..] == [RIVALS, SHARED];
    assert Noted(MISLED, y.appends[j], 3) == OVER.(lastApplied := 0);
    y := Note(NOT_B, 3, y, j, AppendReply(true, 4, 1, 2), 3);
    y := Apply(NOT_B, 3, y, 0, OVER.(lastApplied := 0), OVER, THREE);
    assert y.applied[0] == THREE;
  }

  const LAST := Server(6, 2, Leader, [SENTINEL, RIVALS, SHARED, FINAL], 0, [3, 3, 3], [0, 0, 3], 0)
  const HOLDER6 := Server(6, 2, Follower, STRANDED, 0, [], [], 0)

  lemma TwoLeadsSix() returns (y: System)
    ensures Reached(NOT_B, 3, y) && y.applied == [THREE, [], []] && y.servers == [OVER, HOLDER6, LAST]
  {
    y := ZeroOvercommits();
    y := ElectOfThree(NOT_B, y, 2, 1);
    assert y.servers[2] == Server(6, 2, Leader, [SENTINEL, RIVALS, SHARED], 0, [3, 3, 3], [0, 0, 2], 0);
    y := Submit(NOT_B, 3, y, 2, Cmd(5));
    assert y.servers[2] == LAST;
  }

  const END := Server(6, 2, Leader, [SENTINEL, RIVALS, SHARED, FINAL], 3, [3, 4, 3], [0, 3, 3], 3)
  const THREE' := [ApplyMsg(Cmd(2), 1), ApplyMsg(Cmd(3), 2), ApplyMsg(Cmd(5), 3)]

  lemma LastCommits()
    ensures Commits(NOT_B, LAST, HOLDER6, 1, 3) && Heard(LAST, 1, 3) == END.(lastApplied := 0)
    ensures ApplyCommits(END.(lastApplied := 0)) == (END, THREE')
  {
    assert [0, 0, 3][1 := 3] == [0, 3, 3];
    assert Replicas([0, 3, 3], 1) == {1, 2} && Replicas([0, 3, 3], 2) == {1, 2};
    assert Replicas([0, 3, 3], 3) == {1, 2} && Replicas([0, 3, 3], 4) == {};
    ScanReaches([0, 3, 3], 4, 0, 3);
    assert Messages([SENTINEL, RIVALS, SHARED, FINAL], 1, 3) == THREE';
  }

  /** H-b is needed: one late reply from an earlier reign breaks state machine safety. */
  lemma LateReplyBreaksSafety()
    ensures exists y :: Reached({Ha, Hc}, 3, y) && Disagree(y)
  {
    var y := TwoLeadsSix();
    LastCommits();
    y := Commit(NOT_B, 3, y, 2, 1, LAST, HOLDER6, 3);
    y := Apply(NOT_B, 3, y, 2, END.(lastApplied := 0), END, THREE');
    assert Differ(y, 0, 2, 2);
  }

  // ----- H-c -------------------------------------------------------------------

  // Of five servers, server 0 leads term 1 with one command that reaches server 1 only,
  // server 3 leads term 2 with a command that reaches nobody, and server 0 leads term 3 and
  // sends the old command with a new one to server 2: three servers hold the old command,
  // and it is committed and applied. But server 3 has the later last term of all the other
  // servers, leads term 4 and overwrites it. With four servers the first half happens too.

  const NOT_C := {Ha, Hb}
  const V1 := Server(1, 0, Follower, [SENTINEL], 0, [], [], 0)
  const V2 := Server(3, 0, Follower, [SENTINEL, STRAY], 0, [], [], 0)
  const W2 := Server(3, 0, Follower, [SENTINEL], 0, [], [], 0)
  const SECOND := Entry(Cmd(2), 3)
  const FOUR1 := Server(1, 0, Leader, [SENTINEL, STRAY], 0, [1, 1, 1, 1], [1, 0, 0, 0], 0)
  const FOUR2 := Server(3, 0, Leader, [SENTINEL, STRAY], 0, [2, 2, 2, 2], [1, 0, 0, 0], 0)
  const FOUR3 := Server(3, 0, Leader, [SENTINEL, STRAY, SECOND], 0, [2, 2, 2, 2], [2, 1, 0, 0], 0)
  const STANDING := Server(2, 3, Candidate, [SENTINEL], 0, [], [], 0)

  lemma FourthStarts() returns (y: System)
    ensures Reached(NOT_C, 4, y) && y.servers == [FOUR1, V1, V1, FRESH]
  {
    y := Begin(NOT_C, 4);
    y := ElectByTwo(NOT_C, 4, y, 0, 1, 2);
    assert y.servers[0] == Server(1, 0, Leader, [SENTINEL], 0, [1, 1, 1, 1], [0, 0, 0, 0], 0);
    y := Submit(NOT_C, 4, y, 0, Cmd(1));
    assert y.servers[0] == FOUR1;
  }

  lemma FourthIsTaken() returns (y: System)
    ensures Reached(NOT_C, 4, y) && y.servers == [FOUR1, V1.(log := [SENTINEL, STRAY]), V1, FRESH]
  {
    y := FourthStarts();
    assert CaughtUp(V1, FOUR1) == V1.(log := [SENTINEL, STRAY]);
    var k, r;
    y, k, r := Replicate(NOT_C, 4, y, 0, 1);
  }

  /** Server 3 stands twice, and server 0 steps down when it is asked. */
  lemma FourthStepsDown() returns (y: System)
    ensures Reached(NOT_C, 4, y)
    ensures y.servers == [FOUR1.(term := 2, votedFor := -1, role := Follower),
                          V1.(log := [SENTINEL, STRAY]), V1, STANDING]
  {
    y := FourthIsTaken();
    y := Stand(NOT_C, 4, y, 3);
    y := Stand(NOT_C, 4, y, 3);
    y := Canvass(NOT_C, 4, y, 0, 3, 2);
  }

  lemma FourthLeadsAgain() returns (y: System)
    ensures Reached(NOT_C, 4, y) && y.servers == [FOUR2, V2, W2, STANDING]
  {
    y := FourthStepsDown();
    y := ElectByTwo(NOT_C, 4, y, 0, 1, 2);
    assert y.servers[0] == FOUR2;
  }

  lemma FourthIsAcknowledged() returns (y: System)
    ensures Reached(NOT_C, 4, y) && y.servers == [FOUR3, V2, W2, STANDING]
  {
    y := FourthLeadsAgain();
    y := Pulse(NOT_C, 4, y, 0, 1, FOUR2, V2);
    assert y.servers[0] == FOUR2.(matchIndex := [1, 1, 0, 0]);
    y := Submit(NOT_C, 4, y, 0, Cmd(2));
    assert y.servers[0] == FOUR3;
  }

  lemma OldEntryCommits()
    ensures FOUR3.matchIndex[2 := 2] == [2, 1, 2, 0] && CommitScan([2, 1, 2, 0], 3, 0) == 1
  {
    assert Replicas([2, 1, 2, 0], 1) == {0, 1, 2} && Replicas([2, 1, 2, 0], 2) == {0, 2};
    ScanReaches([2, 1, 2, 0], 3, 0, 1);
  }

  /** With four servers H-a and H-b do not imply H-c: a run that obeys both reaches a
      leader that the next reply makes commit an entry of an older term. */
  lemma FourServersLeaveHcOpen()
    ensures exists y, k, r ::
      Reached({Ha, Hb}, 4, y) && Enabled(y, Respond(k, r)) && OwnReply(y, k, r) && !CommitsOwnTerm(y, k, r)
  {
    var y := FourthIsAcknowledged();
    var k, r;
    y, k, r := Replicate(NOT_C, 4, y, 0, 2);
    OldEntryCommits();
    assert FOUR3.log[1..] == [STRAY, SECOND];
    assert HandleReply(FOUR3, r, y.appends[k].args, 2).0.commitIndex == 1;
    assert Enabled(y, Respond(k, r)) && !CommitsOwnTerm(y, k, r);
  }

  const THIRDS := Entry(Cmd(2), 2)
  const FRESHER := Entry(Cmd(3), 3)
  const UPPER := Entry(Cmd(4), 4)
  const FIVE1 := Server(1, 0, Leader, [SENTINEL, STRAY], 0, [1, 1, 1, 1, 1], [1, 0, 0, 0, 0], 0)

  lemma FifthStarts(hs: set<Hypothesis>) returns (y: System)
    ensures Reached(hs, 5, y) && y.applied == [[], [], [], [], []] && y.servers == [FIVE1, V1, V1, FRESH, FRESH]
  {
    y := Begin(hs, 5);
    y := ElectByTwo(hs, 5, y, 0, 1, 2);
    assert y.servers[0] == Server(1, 0, Leader, [SENTINEL], 0, [1, 1, 1, 1, 1], [0, 0, 0, 0, 0], 0);
    y := Submit(hs, 5, y, 0, Cmd(1));
    assert y.servers[0] == FIVE1;
  }

  const THIRD2 := Server(2, 3, Leader, [SENTINEL, THIRDS], 0, [1, 1, 1, 1, 1], [0, 0, 0, 1, 0], 0)
  const W3 := Server(2, 3, Follower, [SENTINEL], 0, [], [], 0)

  lemma OneHoldsFirst() returns (y: System)
    ensures Reached(NOT_C, 5, y) && y.applied == [[], [], [], [], []]
    ensures y.servers == [FIVE1, V1.(log := [SENTINEL, STRAY]), V1, FRESH, FRESH]
  {
    y := FifthStarts(NOT_C);
    assert CaughtUp(V1, FIVE1) == V1.(log := [SENTINEL, STRAY]);
    var k, r;
    y, k, r := Replicate(NOT_C, 5, y, 0, 1);
  }

  lemma ThreeStands() returns (y: System)
    ensures Reached(NOT_C, 5, y) && y.applied == [[], [], [], [], []]
    ensures y.servers == [FIVE1, V1.(log := [SENTINEL, STRAY]), V1,
                          Server(1, 3, Candidate, [SENTINEL], 0, [], [], 0), FRESH]
  {
    y := OneHoldsFirst();
    y := Stand(NOT_C, 5, y, 3);
  }

  /** Server 0 steps down when it is asked for its vote in term 2. */
  const ASIDE5 := FIVE1.(term := 2, votedFor := -1, role := Follower)

  lemma ThreeLeadsTwo() returns (y: System)
    ensures Reached(NOT_C, 5, y) && y.applied == [[], [], [], [], []]
    ensures y.servers == [ASIDE5, V1.(log := [SENTINEL, STRAY]), W3,
                          THIRD2.(log := [SENTINEL], matchIndex := [0, 0, 0, 0, 0]), W3]
  {
    y := ThreeStands();
    y := ElectByTwo(NOT_C, 5, y, 3, 2, 4);
    assert y.servers[3] == THIRD2.(log := [SENTINEL], matchIndex := [0, 0, 0, 0, 0]);
    y := Canvass(NOT_C, 5, y, 0, 3, 2);
  }

  lemma ThreeAppends() returns (y: System)
    ensures Reached(NOT_C, 5, y) && y.applied == [[], [], [], [], []]
    ensures y.servers == [ASIDE5, V1.(log := [SENTINEL, STRAY]), W3, THIRD2, W3]
  {
    y := ThreeLeadsTwo();
    y := Submit(NOT_C, 5, y, 3, Cmd(2));
    assert y.servers[3] == THIRD2;
  }

  const FIVE3 := Server(3, 0, Leader, [SENTINEL, STRAY], 0, [2, 2, 2, 2, 2], [1, 0, 0, 0, 0], 0)
  const V3 := Server(3, 0, Follower, [SENTINEL, STRAY], 0, [], [], 0)
  const W4 := Server(3, 0, Follower, [SENTINEL], 0, [], [], 0)

  /** And server 3 steps down in term 3. */
  const ASIDE3 := THIRD2.(term := 3, votedFor := -1, role := Follower)

  lemma ZeroWinsThree() returns (y: System)
    ensures Reached(NOT_C, 5, y) && y.applied == [[], [], [], [], []] && y.servers == [FIVE3, V3, W4, THIRD2, W3]
    ensures (0, 3) in y.polls && y.polls[(0, 3)].log == [SENTINEL, STRAY]
  {
    y := ThreeAppends();
    y := ElectByTwo(NOT_C, 5, y, 0, 1, 2);
    assert y.servers[0] == FIVE3;
  }

  lemma ZeroLeadsThreeOfFive() returns (y: System)
    ensures Reached(NOT_C, 5, y) && y.applied == [[], [], [], [], []] && y.servers == [FIVE3, V3, W4, ASIDE3, W3]
  {
    y := ZeroWinsThree();
    y := Canvass(NOT_C, 5, y, 3, 0, 3);
  }

  const FIVE4 := Server(3, 0, Leader, [SENTINEL, STRAY, FRESHER], 0, [2, 2, 2, 2, 2], [2, 1, 0, 0, 0], 0)

  lemma OneIsAcknowledged() returns (y: System)
    ensures Reached(NOT_C, 5, y) && y.applied == [[], [], [], [], []]
    ensures y.servers == [FIVE3.(matchIndex := [1, 1, 0, 0, 0]), V3, W4, ASIDE3, W3]
  {
    y := ZeroLeadsThreeOfFive();
    y := Pulse(NOT_C, 5, y, 0, 1, FIVE3, V3);
    assert y.servers[0] == FIVE3.(matchIndex := [1, 1, 0, 0, 0]);
  }

  lemma ZeroAppends() returns (y: System)
    ensures Reached(NOT_C, 5, y) && y.applied == [[], [], [], [], []] && y.servers == [FIVE4, V3, W4, ASIDE3, W3]
  {
    y := OneIsAcknowledged();
    y := Submit(NOT_C, 5, y, 0, Cmd(3));
    assert y.servers[0] == FIVE4;
  }

  const FIVE5 := Server(3, 0, Leader, [SENTINEL, STRAY, FRESHER], 1, [2, 2, 3, 2, 2], [2, 1, 2, 0, 0], 1)
  const W5 := Server(3, 0, Follower, [SENTINEL, STRAY, FRESHER], 0, [], [], 0)

  lemma OldCommits()
    ensures Commits(NOT_C, FIVE4, W4, 2, 1) && Heard(FIVE4, 2, 1) == FIVE5.(lastApplied := 0)
    ensures CaughtUp(W4, FIVE4) == W5
    ensures ApplyCommits(FIVE5.(lastApplied := 0)) == (FIVE5, [ApplyMsg(Cmd(1), 1)])
  {
    assert [2, 1, 0, 0, 0][2 := 2] == [2, 1, 2, 0, 0];
    assert Replicas([2, 1, 2, 0, 0], 1) == {0, 1, 2} && Replicas([2, 1, 2, 0, 0], 2) == {0, 2};
    ScanReaches([2, 1, 2, 0, 0], 3, 0, 1);
    assert Messages([SENTINEL, STRAY, FRESHER], 1, 1) == [ApplyMsg(Cmd(1), 1)];
  }

  lemma OldIsCommitted() returns (y: System)
    ensures Reached(NOT_C, 5, y) && y.applied == [[], [], [], [], []]
    ensures y.servers == [FIVE5.(lastApplied := 0), V3, W5, ASIDE3, W3]
  {
    y := ZeroAppends();
    OldCommits();
    y := Commit(NOT_C, 5, y, 0, 2, FIVE4, W4, 1);
  }

  lemma OldIsApplied() returns (y: System)
    ensures Reached(NOT_C, 5, y) && y.applied == [[ApplyMsg(Cmd(1), 1)], [], [], [], []]
    ensures y.servers == [FIVE5, V3, W5, ASIDE3, W3]
  {
    y := OldIsCommitted();
    OldCommits();
    y := Apply(NOT_C, 5, y, 0, FIVE5.(lastApplied := 0), FIVE5, [ApplyMsg(Cmd(1), 1)]);
    assert y.applied[0] == [ApplyMsg(Cmd(1), 1)];
  }

  const THIRD4 := Server(4, 3, Leader, [SENTINEL, THIRDS, UPPER], 0, [2, 2, 2, 2, 2], [0, 0, 0, 2, 0], 0)
  const V5 := Server(4, 3, Follower, [SENTINEL, STRAY], 0, [], [], 0)
  const W6 := Server(4, 3, Follower, [SENTINEL], 0, [], [], 0)

  lemma ThreeWins()
    ensures Supports(V3, ASIDE3.log, 4) && Supports(W3, ASIDE3.log, 4) && ASIDE3.term == 3
    ensures WinElection(BeginElection(ASIDE3, 3), 3, 5, 4)
            == THIRD4.(log := [SENTINEL, THIRDS], matchIndex := [0, 0, 0, 1, 0])
    ensures StepDown(V3, 4).(votedFor := 3) == V5 && StepDown(W3, 4).(votedFor := 3) == W6
  {
  }

  lemma ThreeWinsFour() returns (y: System)
    ensures Reached(NOT_C, 5, y) && y.applied == [[ApplyMsg(Cmd(1), 1)], [], [], [], []]
    ensures y.servers == [FIVE5, V5, W5, THIRD4.(log := [SENTINEL, THIRDS], matchIndex := [0, 0, 0, 1, 0]), W6]
  {
    y := OldIsApplied();
    assert y.servers[1] == V3 && y.servers[3] == ASIDE3 && y.servers[4] == W3;
    ThreeWins();
    y := ElectByTwo(NOT_C, 5, y, 3, 1, 4);
  }

  lemma ThreeLeadsFour() returns (y: System)
    ensures Reached(NOT_C, 5, y) && y.applied == [[ApplyMsg(Cmd(1), 1)], [], [], [], []]
    ensures y.servers == [FIVE5, V5, W5, THIRD4, W6]
  {
    y := ThreeWinsFour();
    y := Submit(NOT_C, 5, y, 3, Cmd(4));
    assert y.servers[3] == THIRD4;
  }

  const THIRD5 := Server(4, 3, Leader, [SENTINEL, THIRDS, UPPER], 0, [2, 3, 2, 2, 2], [0, 2, 0, 2, 0], 0)
  const THIRD6 := Server(4, 3, Leader, [SENTINEL, THIRDS, UPPER], 2, [2, 3, 2, 2, 3], [0, 2, 0, 2, 2], 2)
  const V6 := Server(4, 3, Follower, [SENTINEL, THIRDS, UPPER], 0, [], [], 0)

  lemma OneIsNotEnough()
    ensures Commits(NOT_C, THIRD4, V5, 1, 0) && Heard(THIRD4, 1, 0) == THIRD5 && CaughtUp(V5, THIRD4) == V6
  {
    assert [0, 0, 0, 2, 0][1 := 2] == [0, 2, 0, 2, 0] && Replicas([0, 2, 0, 2, 0], 1) == {1, 3};
    ScanReaches([0, 2, 0, 2, 0], 3, 0, 0);
  }

  lemma TwoAreEnough()
    ensures Commits(NOT_C, THIRD5, W6, 4, 2) && Heard(THIRD5, 4, 2) == THIRD6.(lastApplied := 0)
    ensures ApplyCommits(THIRD6.(lastApplied := 0)) == (THIRD6, [ApplyMsg(Cmd(2), 1), ApplyMsg(Cmd(4), 2)])
  {
    assert [0, 2, 0, 2, 0][4 := 2] == [0, 2, 0, 2, 2];
    assert Replicas([0, 2, 0, 2, 2], 1) == {1, 3, 4} && Replicas([0, 2, 0, 2, 2], 2) == {1, 3, 4};
    assert Replicas([0, 2, 0, 2, 2], 3) == {};
    ScanReaches([0, 2, 0, 2, 2], 3, 0, 2);
    assert Messages([SENTINEL, THIRDS, UPPER], 1, 2) == [ApplyMsg(Cmd(2), 1), ApplyMsg(Cmd(4), 2)];
  }

  lemma OldIsOverwritten() returns (y: System)
    ensures Reached(NOT_C, 5, y) && y.applied == [[ApplyMsg(Cmd(1), 1)], [], [], [], []]
    ensures y.servers == [FIVE5, V6, W5, THIRD5, W6]
  {
    y := ThreeLeadsFour();
    OneIsNotEnough();
    y := Commit(NOT_C, 5, y, 3, 1, THIRD4, V5, 0);
  }

  /** H-c is needed: a leader of five that commits an entry of an older term breaks
      state machine safety. */
  lemma OldTermCommitBreaksSafety()
    ensures exists y :: Reached({Ha, Hb}, 5, y) && Disagree(y)
  {
    var y := OldIsOverwritten();
    TwoAreEnough();
    y := Commit(NOT_C, 5, y, 3, 4, THIRD5, W6, 2);
    y := Apply(NOT_C, 5, y, 3, THIRD6.(lastApplied := 0), THIRD6, [ApplyMsg(Cmd(2), 1), ApplyMsg(Cmd(4), 2)]);
    assert Differ(y, 0, 3, 0);
  }

  // ----- deposed senders -------------------------------------------------------

  // Server 0 leads term 1 with two commands that server 1 takes over, and a third. It steps
  // down, leads term 3, and its first probe of server 1, at index 4, is refused with index 2.
  // Before the refusal comes back server 4 leads term 4 and overwrites server 0 with a log
  // that ends at index 1.

  const TWO: Log := [SENTINEL, STRAY, STRAY]
  const LATEST := Entry(Cmd(2), 4)
  const SENDER1 := Server(1, 0, Leader, STRANDED, 0, [1, 1, 1, 1, 1], [3, 0, 0, 0, 0], 0)
  const SENDER2 := Server(2, -1, Follower, STRANDED, 0, [1, 1, 1, 1, 1], [3, 0, 0, 0, 0], 0)
  const SENDER3 := Server(3, 0, Leader, STRANDED, 0, [4, 4, 4, 4, 4], [3, 0, 0, 0, 0], 0)
  const SENDER4 := Server(4, -1, Follower, [SENTINEL, LATEST], 0, [4, 4, 4, 4, 4], [3, 0, 0, 0, 0], 0)
  const PROBED := Server(3, 0, Follower, TWO, 0, [], [], 0)
  const REFUSAL := AppendReply(false, 3, 2, 1)

  const SENDER0 := Server(1, 0, Leader, TWO, 0, [1, 1, 1, 1, 1], [2, 0, 0, 0, 0], 0)

  lemma TwoAreAppended() returns (y: System)
    ensures Reached(ALL, 5, y) && y.servers == [SENDER0, V1, V1, FRESH, FRESH]
  {
    y := FifthStarts(ALL);
    y := Submit(ALL, 5, y, 0, Cmd(1));
    assert y.servers[0] == SENDER0;
  }

  lemma TwoAreTaken() returns (y: System)
    ensures Reached(ALL, 5, y) && y.servers == [SENDER0, V1.(log := TWO), V1, FRESH, FRESH]
  {
    y := TwoAreAppended();
    assert CaughtUp(V1, SENDER0) == V1.(log := TWO);
    var k, r;
    y, k, r := Replicate(ALL, 5, y, 0, 1);
  }

  lemma ThirdIsAppended() returns (y: System)
    ensures Reached(ALL, 5, y) && y.servers == [SENDER1, V1.(log := TWO), V1, FRESH, FRESH]
  {
    y := TwoAreTaken();
    y := Submit(ALL, 5, y, 0, Cmd(1));
    assert y.servers[0] == SENDER1;
  }

  lemma ThreeStandsOnce() returns (y: System)
    ensures Reached(ALL, 5, y)
    ensures y.servers == [SENDER1, V1.(log := TWO), V1, Server(1, 3, Candidate, [SENTINEL], 0, [], [], 0), FRESH]
  {
    y := ThirdIsAppended();
    y := Stand(ALL, 5, y, 3);
  }

  lemma ThreeStandsTwice() returns (y: System)
    ensures Reached(ALL, 5, y) && y.servers == [SENDER1, V1.(log := TWO), V1, STANDING, FRESH]
    ensures (3, 2) in y.polls && y.polls[(3, 2)].log == [SENTINEL]
  {
    y := ThreeStandsOnce();
    y := Stand(ALL, 5, y, 3);
  }

  lemma SenderStepsDown() returns (y: System)
    ensures Reached(ALL, 5, y) && y.servers == [SENDER2, V1.(log := TWO), V1, STANDING, FRESH]
  {
    y := ThreeStandsTwice();
    y := Canvass(ALL, 5, y, 0, 3, 2);
  }

  lemma SenderLeads() returns (y: System)
    ensures Reached(ALL, 5, y) && y.servers == [SENDER3, PROBED, W2, STANDING, FRESH]
  {
    y := SenderStepsDown();
    y := ElectByTwo(ALL, 5, y, 0, 1, 2);
    assert y.servers[0] == SENDER3;
  }

  ghost predicate Refused(y: System, k: nat) {
    k < |y.appends| && y.appends[k] == Append(1, MakeAppend(SENDER3, 0, 4), STRANDED) && Ack(k, REFUSAL) in y.acks
  }

  lemma ProbeIsRefused() returns (y: System, k: nat)
    ensures Reached(ALL, 5, y) && y.servers == [SENDER3, PROBED, W2, STANDING, FRESH] && Refused(y, k)
  {
    y := SenderLeads();
    k := |y.appends|;
    y := Request(ALL, 5, y, 0, 1);
    assert AppendEntries(PROBED, MakeAppend(SENDER3, 0, 4)) == (PROBED, REFUSAL);
    y := Handle(ALL, 5, y, k);
  }

  const USURPER := Server(4, 4, Leader, [SENTINEL, LATEST], 0, [1, 1, 1, 1, 1], [0, 0, 0, 0, 1], 0)
  const FOLLOWER4 := Server(4, 4, Follower, [SENTINEL], 0, [], [], 0)

  lemma FourStands() returns (y: System, k: nat)
    ensures Reached(ALL, 5, y) && Refused(y, k)
    ensures y.servers == [SENDER3, PROBED, W2, STANDING, Server(3, 4, Candidate, [SENTINEL], 0, [], [], 0)]
  {
    y, k := ProbeIsRefused();
    y := Stand(ALL, 5, y, 4);
    y := Stand(ALL, 5, y, 4);
    y := Stand(ALL, 5, y, 4);
  }

  lemma FourLeads() returns (y: System, k: nat)
    ensures Reached(ALL, 5, y) && Refused(y, k) && y.servers == [SENDER3, PROBED, FOLLOWER4, FOLLOWER4, USURPER]
  {
    y, k := FourStands();
    y := ElectByTwo(ALL, 5, y, 4, 2, 3);
    assert y.servers[4] == USURPER.(log := [SENTINEL], matchIndex := [0, 0, 0, 0, 0]);
    y := Submit(ALL, 5, y, 4, Cmd(2));
    assert y.servers[4] == USURPER;
  }

  /** The code can index beyond its log: in a run that obeys all three hypotheses a refusal
      reaches a sender whose log no longer has the index it names. */
  lemma DeposedSenderOverruns()
    ensures exists y, k, r :: Reached({Ha, Hb, Hc}, 5, y) && OutOfRange(y, k, r)
  {
    var y, k := FourLeads();
    var j, r;
    y, j, r := Replicate(ALL, 5, y, 4, 0);
    assert CaughtUp(SENDER3, USURPER) == SENDER4;
    assert OutOfRange(y, k, REFUSAL);
  }

  /** The refusal r of request k is under way, and its sender cannot look its index up. */
  ghost predicate OutOfRange(y: System, k: nat, r: AppendReply) {
    && k < |y.appends| && Ack(k, r) in y.acks && y.appends[k].args.leader < |y.servers|
    && !ReplySafe(y.servers[y.appends[k].args.leader], r, y.appends[k].to, y.appends[k].args.term)
  }
}
