# Raft, bank, lock service and MapReduce: a Dafny model and its proofs

Four systems of the repository's `starter-1` tree, modelled and proved.

**Raft** (`raft/raft.go`). `RaftServer` is one peer as a value: its fields, the messages, and what each handler
computes. `RaftNode` is the peer as the source writes it, a class whose handlers update fields in place, each proved
against `RaftServer`. `RaftSystem` runs any number of peers over a network that loses, delays, reorders and repeats
messages; each handler runs under the peer's mutex and so is one step. Requests are never removed from the state, so a
lost message is one that is never picked. `RaftInvariant` has the inductive invariant, first the part that needs no
hypothesis and then what commitment adds; `RaftBasics` proves the first part and with it election safety and log
matching in every crash-free run, `RaftReplies` what every reply says and does to the peer that asked, in every
crash-free run too, `RaftOneHypothesis` what one hypothesis alone gives; `RaftElection` and `RaftSteps` show why each
kind of change keeps it; `RaftSafety` has the theorems over runs, `RaftReplication` those about the replication
handlers, `RaftHeartbeat` the whole heartbeat loop. `RaftNecessity` has concrete runs, put together from the blocks of
`RaftScenarios`, in which safety fails when one hypothesis is dropped. An election may be started by a sitting leader
in the model, because `shouldStartElection` is asked before the goroutine starts (lines 388-391); no run of
`RaftNecessity` uses that.

The source departs from Figure 2 of the extended Raft paper (Ongaro and Ousterhout), and the model follows the source.
AppendEntries truncates even where nothing conflicts (line 467). Replies are handled without checking that the sender
still leads (lines 661-669). Commitment looks at the term of the acknowledged batch, not of the entry committed (line
680). RequestVote refuses a request of its own term even if it has not voted (lines 233-244). A candidate does not step
down for a leader of its own term (lines 501-512). A batch that ends below the receiver's last entry is refused (lines
487-499). The follower's commit index is clamped by the log length (lines 441-443). Commitment and application therefore
carry three hypotheses, stated in `RaftSystem`:

- H-a (`FreshHeartbeat`): an AppendEntries without entries is not taken over after one of the same term and link, sent
  later and with a longer log, was accepted. One that is refused, or that takes nothing back, is not restricted.
- H-b (`OwnReply`): when a leader counts a success, it is the success of a request of its present term. This is the
  check that line 661 lacks; replies to a server that no longer leads, refusals and lost RPCs are not restricted.
- H-c (`CommitsOwnTerm`): when a leader advances its commit index, the entry there has its current term.

For one to three servers H-c is proved from the other two; with four servers a run leaves it open. Each of the three is
needed: three complete runs, each obeying the other two, end with two servers having applied different commands at the
same index.

**Bank** (`bank/bank.go`). `BankSystem` interleaves any number of threads at the level of single lock operations, loads
and stores, each thread with a program counter in one call. `BankSteps` keeps the invariant, `BankTheorems` has what
follows, `BankAnswers` what each answer says about the balances, `BankLeak` a deadlock. `BankMethods` has the methods
themselves, over account objects, proved on the balances and against the one-at-a-time specification
`BankSystem.Serial`.

**Lock service** (`raft-lock/`). `LockStore` is the lock table, `LockServer` the apply loop with duplicate suppression
and the clerk's retry loop, `LockService` clerks and replicas over a committed log with retried copies, `LockOverRaft`
the same with the log that the peers of `RaftSystem` really apply. The state machine is a parameter, because
`applyToStateMachine` is empty in the source.

**MapReduce** (`mr/`, `mr-main/mrsequential.go`). `MapReduceJobs` has the loops of doMap, doReduce and the sequential
program, `Coordinator` the coordinator's handlers, `FileNames` the printing and scanning of file names, `MapReduceRun`
a job with any number of workers that may stop or lose reports, `MapReduceTheorems` what every run guarantees,
`MapReduceProgress` what a request gets and which jobs can be finished. Time is in seconds and 0 is the zero time of a
task never started. RequestTask never answers SleepABit, because line 109 overwrites it.

## Model

| member | source | states |
|---|---|---|
| `RaftSafety.StateMachineSafety` | ALL_CODE_350/starter-1/raft/raft.go:417-762 | Over a whole run of any number of servers under H-a, H-b and H-c, what any server has applied at any time and what any other has applied at any other time are prefixes of one another: no index ever gets two commands |
| `RaftSafety.LeadersHoldCommitted` | ALL_CODE_350/starter-1/raft/raft.go:417-762 | Leader completeness over a run: a leader of the same or a later term holds everything a server had committed by then or earlier |
| `RaftElection.LeaderCompleteness` | ALL_CODE_350/starter-1/raft/raft.go:220-762 | An entry of term t held by a majority, where the prefix ends in an entry of t, is in the starting log of every later leader |
| `RaftBasics.ElectionSafety` | ALL_CODE_350/starter-1/raft/raft.go:220-607 | In every crash-free run, with no hypothesis, at most one server ever leads a term, at any two moments, and its log has only grown in between |
| `RaftBasics.LogMatchingInRuns` | ALL_CODE_350/starter-1/raft/raft.go:326-476 | In every state of every crash-free run, with no hypothesis, two logs that agree on the term at an index are equal up to that index |
| `RaftBasics.LogMatching` | ALL_CODE_350/starter-1/raft/raft.go:326-476 | The same for any two logs each of whose entries was put there by the leader of its term |
| `RaftBasics.AcceptedLogIsLeaders` | ALL_CODE_350/starter-1/raft/raft.go:453-476 | In every crash-free run, with no hypothesis, a successful AppendEntries leaves the receiver's log equal to the leader's log at the time of sending |
| `RaftReplies.LogMatchingOverTime` | ALL_CODE_350/starter-1/raft/raft.go:326-476 | Log matching between one server's log at one moment and another's at any later moment of a crash-free run |
| `RaftReplies.VoteDecides` | ALL_CODE_350/starter-1/raft/raft.go:220-273 | In every crash-free run, for every request: granted exactly if the voter comes to the term with a log the candidate's is not behind, or is in the term, voted for this candidate and does not lead; the reply carries the voter's own term as it was; the voter's new state |
| `RaftReplies.NewerBallotDeposes` | ALL_CODE_350/starter-1/raft/raft.go:573-583 | Counting a ballot of a newer term leaves the candidate in at least that term, as a follower without a vote if it was in a lower one; it never again stands in its old term or leads it |
| `RaftReplies.StaleCandidateStandsDown` | ALL_CODE_350/starter-1/raft/raft.go:220-583 | Both ends: the answer of a voter in a newer term is a refusal with that term, and the candidate that counts it is past its candidacy for good |
| `RaftReplies.WinDecides` | ALL_CODE_350/starter-1/raft/raft.go:592-606 | A majority makes a leader exactly if its candidate still stands in that term; nextIndex is the end of its log for every peer, matchIndex 0 for every other peer |
| `RaftReplies.DeliveryDecides` | ALL_CODE_350/starter-1/raft/raft.go:417-512 | In every crash-free run, for every request: accepted exactly if the receiver is in no newer term, shares the leader's log up to the entry before the batch, and is not beyond the batch; then it has the leader's log as sent, else its own; the term the reply carries, where a refusal points, role, vote and commit index |
| `RaftReplies.NewerReplyDeposes` | ALL_CODE_350/starter-1/raft/raft.go:642-660 | A reply of a newer term, whenever it comes, only moves its sender to that term, as a follower without a vote if it was in a lower one; no log or index changes, no probe follows, and it never again leads the request's term |
| `RaftReplies.NewerPeerDeposes` | ALL_CODE_350/starter-1/raft/raft.go:501-660 | Both ends: a request that reaches a peer in a newer term is refused with that term, the reply can be handled at any later time, and after that the sender is past the term it sent in |
| `RaftReplies.RefusalPoints` | ALL_CODE_350/starter-1/raft/raft.go:453-485 | From refusal to next probe, however late it comes: the next probe follows an entry up to which the logs agree, or is the place the receiver pointed to, at most one of its terms lower and not below its commit index |
| `RaftReplies.ShortLogIsFound` | ALL_CODE_350/starter-1/raft/raft.go:453-724 | A leader needs one refusal to find the end of a log that is a beginning of its own |
| `RaftBasics.AnyRunBase` | ALL_CODE_350/starter-1/raft/raft.go:220-762 | What votes, polls, reigns, logs and requests say of one another holds in every state of every crash-free run |
| `RaftSafety.AppliedIsLog` | ALL_CODE_350/starter-1/raft/raft.go:733-762 | lastApplied <= commitIndex < log length in every reachable state, and the messages sent are exactly log[1..lastApplied], in order, each index once, however the Commit signals coalesce |
| `RaftSafety.FlushCatchesUp` | ALL_CODE_350/starter-1/raft/raft.go:733-762 | One round of the apply loop leaves everything committed applied, each index once in order, and changes nothing else |
| `RaftSafety.RunInv` | ALL_CODE_350/starter-1/raft/raft.go:220-762 | The inductive invariant (votes, logs, polls, requests, replies, commit and apply records) holds in every state of every run |
| `RaftSteps.StepInv` | ALL_CODE_350/starter-1/raft/raft.go:220-762 | Every step that obeys the hypotheses keeps the invariant, whichever message is delivered, delayed, repeated or lost |
| `RaftSafety.SmallClustersCommitOwnTerm` | ALL_CODE_350/starter-1/raft/raft.go:679-716 | With at most three servers H-a and H-b imply H-c |
| `RaftSafety.SmallRunsAreRuns` | ALL_CODE_350/starter-1/raft/raft.go:679-716 | So every theorem about runs holds for one to three servers without assuming H-c |
| `RaftElection.VoteIsMeaningful` | ALL_CODE_350/starter-1/raft/raft.go:246-272 | A log that passes the up-to-date test of RequestVote carries everything the voter holds from earlier terms, or some leader in between already lacked it |
| `RaftBasics.QuorumsMeet` | ALL_CODE_350/starter-1/raft/raft.go:558-594 | Two sets of more than half of the servers share a server |
| `RaftElection.TallyInv` | ALL_CODE_350/starter-1/raft/raft.go:564-591 | The two counters of the vote loop count distinct voters, each of which voted for this candidate in this term |
| `RaftSteps.AcceptKeepsCommitted` | ALL_CODE_350/starter-1/raft/raft.go:453-476 | An accepted request, which truncates even without a conflict, keeps everything the receiver has committed |
| `RaftSteps.ReplicatedIsChosen` | ALL_CODE_350/starter-1/raft/raft.go:685-716 | An index that a majority of matchIndex reaches, with an entry of the leader's term, is decided |
| `RaftSteps.IdleSuccess` | ALL_CODE_350/starter-1/raft/raft.go:661-683 | A success that reaches a server which no longer leads changes its two index arrays only, never its commit index |
| `RaftReplication.OnlyEmptyAppendsShorten` | ALL_CODE_350/starter-1/raft/raft.go:453-499 | AppendEntries lowers the (last term, last index) pair RequestVote compares if and only if it is taken over, has no entries and probes below the last entry |
| `RaftOneHypothesis.StaleBatchIsRefused` | ALL_CODE_350/starter-1/raft/raft.go:487-499 | In every run that obeys H-a, a batch that is shorter than one the receiver accepted in its present term is refused and changes nothing |
| `RaftReplication.ProbesDescend` | ALL_CODE_350/starter-1/raft/raft.go:642-671 | In every crash-free run, with no hypothesis: after a refusal the next probe is no higher and at least 1, and strictly lower while the sender still leads; after a lost RPC it is 1 |
| `RaftReplication.ProbeAtOneMatches` | ALL_CODE_350/starter-1/raft/raft.go:453-476 | In every crash-free run, with no hypothesis, a probe at 1 never meets a mismatch |
| `RaftReplication.RepliesInRange` | ALL_CODE_350/starter-1/raft/raft.go:609-724 | In every crash-free run, with no hypothesis, a leader's index arrays have an entry for each peer, and a reply that finds its sender still leading names an index of the sender's log |
| `RaftNecessity.DeposedSenderOverruns` | ALL_CODE_350/starter-1/raft/raft.go:667-724 | While it need not lead any more this fails: in a run of five servers that obeys all three hypotheses a refusal reaches a deposed sender whose log is too short for the index it names (a panic at line 719) |
| `RaftOneHypothesis.IndicesInRange` | ALL_CODE_350/starter-1/raft/raft.go:609-640 | In every run that obeys H-b, a heartbeat loop slices its leader's log within range |
| `RaftNecessity.LateReplyOverruns` | ALL_CODE_350/starter-1/raft/raft.go:609-677 | Without H-b it does not: a run of three servers that obeys H-a and H-c starts a loop of a sitting leader beyond the end of its log |
| `RaftReplication.ClampNeverBinds` | ALL_CODE_350/starter-1/raft/raft.go:437-451 | The clamp by the log length instead of the last index never decides: a request that is taken over raises the commit index to the leader's if that is higher, any other keeps it, and it is within the log |
| `RaftReplication.CommitIsOrderStatistic` | ALL_CODE_350/starter-1/raft/raft.go:685-716 | The commit loop computes max(old, min(log length, the (N/2+1)-th largest matchIndex)), for every array |
| `RaftReplication.SuccessCounts` | ALL_CODE_350/starter-1/raft/raft.go:661-716 | In every crash-free run a success sets nextIndex and matchIndex to the end of the leader's log as sent, and raises the commit index to the majority's order statistic within the log if the batch ends with an entry of the present term, and not otherwise; nothing else changes |
| `RaftReplication.KthLargestExists` | ALL_CODE_350/starter-1/raft/raft.go:703-716 | Every rank from 1 to N has its element, so the formula always applies |
| `RaftNecessity.StaleHeartbeatBreaksSafety` | ALL_CODE_350/starter-1/raft/raft.go:453-476 | Without H-a safety fails: a run of three servers that obeys H-b and H-c ends with two servers having applied different commands at one index |
| `RaftNecessity.LateReplyBreaksSafety` | ALL_CODE_350/starter-1/raft/raft.go:642-683 | Without H-b safety fails: a run of three servers that obeys H-a and H-c does the same, by a success from an earlier reign |
| `RaftNecessity.OldTermCommitBreaksSafety` | ALL_CODE_350/starter-1/raft/raft.go:679-716 | Without H-c safety fails: a run of five servers that obeys H-a and H-b does the same, by committing an entry of an older term |
| `RaftNecessity.FourServersLeaveHcOpen` | ALL_CODE_350/starter-1/raft/raft.go:679-716 | The bound of three servers is exact: a run of four servers that obeys H-a and H-b reaches a leader whose next genuine reply makes it commit an entry of an older term |
| `RaftHeartbeat.Heartbeat` | ALL_CODE_350/starter-1/raft/raft.go:609-627 | However many requests and replies are lost on the way, the loop ends; it succeeds exactly when the peer's log is not beyond the leader's, or the first request that arrived was empty and matched, and then the logs are equal and nextIndex and matchIndex say so; otherwise no log changes |
| `RaftHeartbeat.LosingProbe` | ALL_CODE_350/starter-1/raft/raft.go:609-671 | A turn whose RPC is lost: the peer may have handled the request all the same, and the leader starts again at 1 |
| `RaftHeartbeat.Probe` | ALL_CODE_350/starter-1/raft/raft.go:609-671 | A turn whose RPC arrives: refused, taken over or sent strictly lower, and exactly when |
| `RaftHeartbeat.LeadersMatch` | ALL_CODE_350/starter-1/raft/raft.go:326-476 | In every crash-free run, with no hypothesis, a leader and any peer in no newer term satisfy what the loop theorem asks of them |
| `RaftHeartbeat.MismatchIsUncommitted` | ALL_CODE_350/starter-1/raft/raft.go:453-485 | Under the hypotheses of commitment, a leader's probe that does not match lies above the peer's commit index |
| `RaftNode.Raft.constructor` | ALL_CODE_350/starter-1/raft/raft.go:773-802 | A new peer is a follower of term 0 with no vote and the sentinel entry |
| `RaftNode.Raft.UpdateLastLogInfo` | ALL_CODE_350/starter-1/raft/raft.go:169-179 | The cached index and term are those of the last entry |
| `RaftNode.Raft.RequestVote` | ALL_CODE_350/starter-1/raft/raft.go:220-273 | New state and reply are those of the vote function that the safety proof steps through |
| `RaftNode.Raft.BecomeFollower` | ALL_CODE_350/starter-1/raft/raft.go:514-518 | Term, vote and role are reset, nothing else |
| `RaftNode.Raft.CheckTermWithLeader` | ALL_CODE_350/starter-1/raft/raft.go:501-512 | An older leader is refused; a newer one makes the peer its follower |
| `RaftNode.Raft.LookConsistency` | ALL_CODE_350/starter-1/raft/raft.go:487-499 | Refuses exactly the batches that end below the peer's last entry, with term -1 |
| `RaftNode.Raft.FindConflictIndex` | ALL_CODE_350/starter-1/raft/raft.go:478-485 | The loop finds the conflict index |
| `RaftServer.ConflictIndex` | ALL_CODE_350/starter-1/raft/raft.go:478-485 | Not below the commit index unless it started there; everything above it has the term of the probed entry, and it stops at the commit index or at another term |
| `RaftNode.Raft.AppendEntriesIfLogMatches` | ALL_CODE_350/starter-1/raft/raft.go:453-476 | Takes the entries over exactly when the previous entry matches; otherwise says which index and term to try |
| `RaftNode.Raft.UpdateCommitIndexAndNotify` | ALL_CODE_350/starter-1/raft/raft.go:437-451 | The follower's new commit index, clamp included |
| `RaftNode.Raft.AppendEntries` | ALL_CODE_350/starter-1/raft/raft.go:417-435 | New state and reply of the whole handler, in every branch |
| `RaftNode.Raft.BeginElection` | ALL_CODE_350/starter-1/raft/raft.go:540-556 | The candidate votes for itself in the next term and describes its last entry |
| `RaftNode.Raft.CollectVotes` | ALL_CODE_350/starter-1/raft/raft.go:557-591 | The vote loop, with its early exits, computes what turn after turn of the Count step computes, and ends with a majority exactly if a majority grants |
| `RaftNode.PolledCounts` | ALL_CODE_350/starter-1/raft/raft.go:557-594 | The counter of grants equals the number of distinct servers that granted, the candidate included |
| `RaftNode.PollDecides` | ALL_CODE_350/starter-1/raft/raft.go:557-594 | The early exits never change the outcome: the loop has counted a majority exactly if a majority of the servers would grant |
| `RaftNode.PollStepsDown` | ALL_CODE_350/starter-1/raft/raft.go:573-583 | After the loop the candidate is unchanged, or a follower without a vote in the highest of the newer terms among the replies that were counted |
| `RaftNode.Raft.Election` | ALL_CODE_350/starter-1/raft/raft.go:540-607 | The whole election when no other handler comes between; it leads only with a majority of supporters, and with one unless a reply was of a newer term |
| `RaftNode.Raft.FinishElection` | ALL_CODE_350/starter-1/raft/raft.go:595-606 | Becomes leader only while still candidate of the term; all nextIndex and matchIndex values |
| `RaftNode.Raft.NewerTerm` | ALL_CODE_350/starter-1/raft/raft.go:573-583 | A reply of a newer term makes the sender step down, another one does nothing |
| `RaftNode.Raft.Start` | ALL_CODE_350/starter-1/raft/raft.go:326-354 | A leader appends exactly one entry of its term at the returned index; another role changes nothing |
| `RaftNode.Raft.InitiateAppendEntries` | ALL_CODE_350/starter-1/raft/raft.go:629-640 | The request carries the log from next on and the entry before it |
| `RaftNode.Raft.IsMajorityReplicated` | ALL_CODE_350/starter-1/raft/raft.go:703-716 | True exactly when more than half of matchIndex reach the index |
| `RaftNode.Raft.UpdateCommitIndex` | ALL_CODE_350/starter-1/raft/raft.go:685-701 | The loop ends with the scanned commit index |
| `RaftServer.CommitScan` | ALL_CODE_350/starter-1/raft/raft.go:685-701 | The scan only rises, stops at the log length or below the first index without a majority |
| `RaftNode.Raft.HandleAppendEntriesResponse` | ALL_CODE_350/starter-1/raft/raft.go:642-683 | New state and next probe for each of the four kinds of reply |
| `RaftNode.Raft.PrepareMessages` | ALL_CODE_350/starter-1/raft/raft.go:743-754 | The messages of lastApplied+1 up to commitIndex |
| `RaftNode.Raft.ApplyMessages` | ALL_CODE_350/starter-1/raft/raft.go:756-762 | They go out in order and lastApplied follows |
| `RaftNode.Raft.ApplyCommits` | ALL_CODE_350/starter-1/raft/raft.go:733-741 | What is sent and the new lastApplied |
| `BankTheorems.Serialisable` | ALL_CODE_350/starter-1/bank/bank.go:55-221 | In every interleaving of any number of threads some one-at-a-time order of the calls, in which a call that finished before another began comes first, gives every finished call its result and every account its balance, and later orders extend earlier ones |
| `BankAnswers.AnswersAgree` | ALL_CODE_350/starter-1/bank/bank.go:55-221 | In every interleaving each finished call took effect in one step of its own, between its beginning and its end, and its answer says what that step did to the balances: for every call, every branch and every account, on balances alone |
| `BankAnswers.TransferAnswer` | ALL_CODE_350/starter-1/bank/bank.go:141-187 | A finished Transfer answered true exactly if both accounts existed, were different and the sender had the amount or might overdraw; then the amount moved, else nothing changed |
| `BankTheorems.DeadlockIff` | ALL_CODE_350/starter-1/bank/bank.go:77-187 | Some thread can step if and only if some unfinished call does not wait, directly or behind others, for an account that a finished call left locked; nothing is asked of the amounts |
| `BankTheorems.DoomedForever` | ALL_CODE_350/starter-1/bank/bank.go:77-187 | A call that does wait in this way never takes another step |
| `BankTheorems.DeadlockFree` | ALL_CODE_350/starter-1/bank/bank.go:77-187 | While some call is unfinished and nobody waits for an account of a finished call, some thread can step |
| `BankTheorems.DeadlockFreeIfNonNegative` | ALL_CODE_350/starter-1/bank/bank.go:77-187 | In particular if no Withdraw has a negative amount |
| `BankTheorems.LeakIff` | ALL_CODE_350/starter-1/bank/bank.go:110-115 | A Withdraw returns with its account locked if and only if the balance it finds is negative and at least the amount |
| `BankTheorems.LeakedForever` | ALL_CODE_350/starter-1/bank/bank.go:110-115 | From then on nobody who waits for that account ever steps |
| `BankLeak.NegativeWithdrawDeadlocks` | ALL_CODE_350/starter-1/bank/bank.go:110-115 | The deadlock is real: a reachable state with an unfinished call in which no thread can step |
| `BankTheorems.MoneyIsConserved` | ALL_CODE_350/starter-1/bank/bank.go:75-204 | The balances sum to the deposits minus the successful withdrawals, whenever no transfer is between its two writes |
| `BankTheorems.NoNegativeBalance` | ALL_CODE_350/starter-1/bank/bank.go:75-204 | With amounts that are not negative and no overdraw allowed no balance is ever negative, even inside a transfer |
| `BankTheorems.DepositAndCompareCount` | ALL_CODE_350/starter-1/bank/bank.go:189-204 | n calls of amount a > 0 and threshold T >= 1 on a fresh account return false exactly min(n, (T-1)/a) times in every interleaving, whatever calls on other accounts run beside them |
| `BankTheorems.RunInv` | ALL_CODE_350/starter-1/bank/bank.go:55-221 | Who holds which lock, what each thread still has to do and the order of effects agree in every reachable state |
| `BankTheorems.FlowIsExact` | ALL_CODE_350/starter-1/bank/bank.go:55-204 | One call changes the sum of balances by exactly its flow; a Transfer by nothing |
| `BankMethods.Bank.constructor` | ALL_CODE_350/starter-1/bank/bank.go:30-33 | A new bank has no accounts |
| `BankMethods.Bank.CreateAccount` | ALL_CODE_350/starter-1/bank/bank.go:55-72 | A new account with balance 0, or a panic and no change if the id is taken |
| `BankMethods.Bank.Deposit` | ALL_CODE_350/starter-1/bank/bank.go:75-97 | When the locks it takes are free, adds the amount to a known account, changes no other and leaves every lock as it was |
| `BankMethods.Bank.Withdraw` | ALL_CODE_350/starter-1/bank/bank.go:100-138 | True exactly if the account is known, has the amount and is not negative, a panic exactly if it is unknown; the amount is taken exactly on true; the account stays locked exactly in the leaking case |
| `BankMethods.Bank.Transfer` | ALL_CODE_350/starter-1/bank/bank.go:141-187 | True exactly if both accounts are known and different and the sender has the amount or may overdraw; on true the amount goes from one to the other, else nothing changes; no lock stays |
| `BankMethods.Bank.Exchange` | ALL_CODE_350/starter-1/bank/bank.go:151-177 | From the first account lock on: both balances, or neither |
| `BankMethods.Bank.DepositAndCompare` | ALL_CODE_350/starter-1/bank/bank.go:189-204 | Adds a positive amount to a known account and compares the new balance with the threshold; false and no change otherwise |
| `BankMethods.Bank.GetBalance` | ALL_CODE_350/starter-1/bank/bank.go:207-221 | The balance, or a panic for an unknown account |
| `LockStore.QueueIsHistory` | ALL_CODE_350/starter-1/raft-lock/lockStore.go:14-61 | After any history of lock and unlock calls a key's queue is exactly the ids whose lock is not yet followed by an unlock, without duplicates, by first lock since their last unlock; no key has an empty queue |
| `LockStore.OneMore` | ALL_CODE_350/starter-1/raft-lock/lockStore.go:51-61 | How one more call changes who waits and since when |
| `LockStore.HeadAskedFirst` | ALL_CODE_350/starter-1/raft-lock/lockStore.go:41-49 | The head of a queue asked before everyone else in it |
| `LockStore.FilterOrder` | ALL_CODE_350/starter-1/raft-lock/lockStore.go:24-37 | Filtering keeps the order and adds no duplicates |
| `LockStore.Store.GetLockOwner` | ALL_CODE_350/starter-1/raft-lock/lockStore.go:41-49 | Answers the waiting id that asked first, nobody if and only if nobody waits, and never indexes out of range |
| `LockStore.Store.LockKey` | ALL_CODE_350/starter-1/raft-lock/lockStore.go:51-57 | The table is that of the history with this lock added |
| `LockStore.Store.UnlockKey` | ALL_CODE_350/starter-1/raft-lock/lockStore.go:59-61 | The table is that of the history with this unlock added |
| `LockStore.Store.Put` | ALL_CODE_350/starter-1/raft-lock/lockStore.go:14-16 | Appends to the key's queue, all else unchanged |
| `LockStore.Store.CleanEmpty` | ALL_CODE_350/starter-1/raft-lock/lockStore.go:18-22 | Drops the key exactly when its queue is empty |
| `LockStore.Store.FilterKey` | ALL_CODE_350/starter-1/raft-lock/lockStore.go:34-37 | Filters one queue and drops it if nothing is left |
| `LockStore.Exists` | ALL_CODE_350/starter-1/raft-lock/lockStore.go:5-12 | True exactly when some element satisfies the predicate |
| `LockStore.FilterLoop` | ALL_CODE_350/starter-1/raft-lock/lockStore.go:24-32 | The elements that satisfy the predicate, in order |
| `LockOverRaft.ExactlyOnceOverRaft` | ALL_CODE_350/starter-1/raft-lock/server.go:67-129 | End to end, over the Raft system itself: every returned Lock or Unlock is applied exactly once, after all earlier calls of its clerk and in the clerk's order, by every server that has applied as much of what its Raft peer sent, however often it was retried and for every state machine; the answering server is one of them |
| `LockOverRaft.ReplicasAgree` | ALL_CODE_350/starter-1/raft-lock/server.go:98-129 | Of what two servers have applied one is always a prefix of the other |
| `LockOverRaft.AnswerableIff` | ALL_CODE_350/starter-1/raft-lock/server.go:67-94 | The same over the Raft system itself |
| `LockService.ExactlyOnce` | ALL_CODE_350/starter-1/raft-lock/server.go:67-129 | Every returned Lock or Unlock is applied exactly once, after all earlier calls of its clerk and in the clerk's order, by every replica whose applied prefix includes the entry it was answered for, however many copies the log holds and for every state machine |
| `LockService.AnswererApplied` | ALL_CODE_350/starter-1/raft-lock/server.go:67-94 | The answering server had applied that entry |
| `LockService.AnswerableIff` | ALL_CODE_350/starter-1/raft-lock/server.go:67-94 | In every run a waiting clerk can be answered by exactly those servers that applied its call, Lock or Unlock, at exactly the indices where they did |
| `LockService.ReplayIsFold` | ALL_CODE_350/starter-1/raft-lock/server.go:98-129 | A replica that filters by request id is in the state of the plain state machine on the filtered list |
| `LockService.PrefixApplies` | ALL_CODE_350/starter-1/raft-lock/server.go:98-129 | On every log prefix the filtered calls of a clerk are an initial part of the calls it issued |
| `LockService.RunInv` | ALL_CODE_350/starter-1/raft-lock/server.go:67-129 | The log holds only issued requests, each after its clerk's earlier ones, in every reachable state |
| `LockServer.Server.constructor` | ALL_CODE_350/starter-1/raft-lock/server.go:187-208 | A new server has applied nothing |
| `LockServer.Server.ApplyNext` | ALL_CODE_350/starter-1/raft-lock/server.go:98-129 | One turn of the loop: state and request table become those of the log with this entry, and the result slot for its index was empty and gets the op |
| `LockServer.NewIsHighest` | ALL_CODE_350/starter-1/raft-lock/server.go:113-121 | On every log an entry takes effect exactly if its request id is above those of all the earlier entries of its client |
| `LockServer.Server.Register` | ALL_CODE_350/starter-1/raft-lock/server.go:67-81 | The slot for the index exists afterwards and no other one changes |
| `LockServer.Server.Collect` | ALL_CODE_350/starter-1/raft-lock/server.go:83-94 | Without a timeout and with an op in the slot: success exactly if the entry this server applied at that index has the client and the request id of the issued call; the slot is emptied. Otherwise no success and no change |
| `LockServer.Clerk.constructor` | ALL_CODE_350/starter-1/raft-lock/clerk.go:25-33 | Request numbers start at 0 and server 0 is asked first |
| `LockServer.Clerk.SendMutex` | ALL_CODE_350/starter-1/raft-lock/clerk.go:48-70 | The same new request id goes to server after server, round robin from the last leader, up to the first that answers, who becomes the leader |
| `LockServer.RoundRobin` | ALL_CODE_350/starter-1/raft-lock/clerk.go:59-68 | Whichever server leads, one of the next attempts, no more than there are servers, asks it |
| `MapReduceTheorems.DistributedEqualsSequential` | ALL_CODE_350/starter-1/mr/worker.go:108-175 | For every map function, every reduce function that ignores the order of values, every nReduce >= 1 and every run: once Done() is true the mr-out files together hold exactly the lines the sequential program prints, each key once |
| `MapReduceTheorems.OutputIsReduction` | ALL_CODE_350/starter-1/mr/worker.go:108-175 | Once Done() is true the output files print the reduction of all pairs of all inputs |
| `MapReduceTheorems.Barrier` | ALL_CODE_350/starter-1/mr/coordinator.go:46-157 | Each task is handed out at most once; a reduce task only after all map tasks completed; then its list holds mr-m-r.json exactly once for every map task m and nothing else |
| `MapReduceTheorems.NothingIsMissing` | ALL_CODE_350/starter-1/mr/coordinator.go:116-157 | No worker is ever given a file that does not exist, and no report stops the coordinator |
| `MapReduceProgress.RequestIsServed` | ALL_CODE_350/starter-1/mr/coordinator.go:46-114 | In every run a worker that asks (ten seconds after the zero time or later) gets the first map task nobody has taken while a map task is not completed, then the first such reduce task with all its files, and is told to leave exactly if there is none |
| `MapReduceProgress.UnassignedIsFresh` | ALL_CODE_350/starter-1/mr/coordinator.go:54-65 | In every run a task nobody has taken has the zero start time, so the ten second test never holds it back |
| `MapReduceProgress.CanFinishIff` | ALL_CODE_350/starter-1/mr/coordinator.go:46-211 | Done() can become true, already with one worker, exactly if the job has an input file |
| `MapReduceTheorems.PairsPermute` | ALL_CODE_350/starter-1/mr/worker.go:108-175 | The order in which map tasks complete only permutes the pairs |
| `MapReduceTheorems.GatheredIsBucket` | ALL_CODE_350/starter-1/mr/worker.go:108-175 | What a reduce task gathers over all map tasks is its bucket of all pairs |
| `MapReduceRun.RunInv` | ALL_CODE_350/starter-1/mr/coordinator.go:46-157 | Task states, files on disk, what each worker holds and the output files agree in every reachable state |
| `MapReduceRun.FilingNames` | ALL_CODE_350/starter-1/mr/coordinator.go:134-140 | Filing the names of one map task adds one name to every reduce task's list and changes nothing else |
| `MapReduceJobs.BucketReduces` | ALL_CODE_350/starter-1/mr/worker.go:125-127 | Reducing one bucket gives the full reduction restricted to the keys that hash there |
| `MapReduceJobs.ReducedIgnoresOrder` | ALL_CODE_350/starter-1/mr/worker.go:141-175 | The reduction depends on the multiset of pairs only |
| `MapReduceJobs.DoMap` | ALL_CODE_350/starter-1/mr/worker.go:108-139 | File r holds exactly the pairs whose key hashes to r, in order; the names are those the coordinator scans back to r |
| `MapReduceJobs.DoReduce` | ALL_CODE_350/starter-1/mr/worker.go:141-175 | The output prints the reduction of all pairs in the files, whatever order the map is walked in |
| `MapReduceJobs.Sequential` | ALL_CODE_350/starter-1/mr-main/mrsequential.go:40-89 | The sequential program collects all pairs, sorts them and prints the reduction, keys ascending |
| `MapReduceJobs.GroupRuns` | ALL_CODE_350/starter-1/mr-main/mrsequential.go:70-86 | One line for every run of equal keys of the sorted list is one line for every key with all its values |
| `MapReduceJobs.SortByKey` | ALL_CODE_350/starter-1/mr-main/mrsequential.go:20-25 | Sorted by key and a permutation |
| `MapReduceJobs.LessEqIsLexical` | ALL_CODE_350/starter-1/mr-main/mrsequential.go:20-25 | The order of the keys is the lexical one: one begins the other, or the first difference decides |
| `Coordinator.CoordinatorServer.constructor` | ALL_CODE_350/starter-1/mr/coordinator.go:249-284 | One unassigned map task for each input and nReduce unassigned, empty reduce tasks |
| `Coordinator.CoordinatorServer.RequestTask` | ALL_CODE_350/starter-1/mr/coordinator.go:46-114 | While a map task is not completed the reply is the first map task that is unassigned and was not started in the last ten seconds, with its files, and it is now in progress from this time; then the same for reduce tasks; AllDone and no change if there is none |
| `Coordinator.CoordinatorServer.FindFree` | ALL_CODE_350/starter-1/mr/coordinator.go:54-56 | The first task that is unassigned and not recently started |
| `Coordinator.FirstFree` | ALL_CODE_350/starter-1/mr/coordinator.go:54-56 | The first task that is unassigned and whose start time is more than ten seconds ago, or none |
| `Coordinator.CoordinatorServer.ReportTaskDone` | ALL_CODE_350/starter-1/mr/coordinator.go:116-157 | The reported task is completed and its names are filed, AllDone exactly if all tasks of both kinds were completed, the error answer, and exactly when the process stops |
| `Coordinator.CoordinatorServer.FileAll` | ALL_CODE_350/starter-1/mr/coordinator.go:134-140 | The loop over the reported names; it gets through exactly if every name can be filed |
| `Coordinator.CoordinatorServer.FileNext` | ALL_CODE_350/starter-1/mr/coordinator.go:138-139 | One name goes to the reduce task its second number says |
| `Coordinator.CoordinatorServer.Done` | ALL_CODE_350/starter-1/mr/coordinator.go:168-211 | True exactly when every map and every reduce task is completed |
| `Coordinator.CoordinatorServer.AllTasksDone` | ALL_CODE_350/starter-1/mr/coordinator.go:214-244 | True exactly when every task of the list is completed |
| `FileNames.NameRoundTrip` | ALL_CODE_350/starter-1/mr/coordinator.go:301-308 | Scanning the name printed for (x, y) gives x and y back, for all natural numbers |
| `FileNames.NamesDiffer` | ALL_CODE_350/starter-1/mr/worker.go:117-117 | Different pairs of indices have different file names |
| `FileNames.DecimalReads` | ALL_CODE_350/starter-1/mr/coordinator.go:301-308 | The digits printed for n read as n |

## Left out

- Crash and restart, persist and readPersist: `election()` does not persist its vote, so safety across crashes does not
  hold of this code; all Raft runs here are crash-free.
- Timers, tickers, Kill, randomised timeouts: a timeout is a step that may happen at any time.
- Liveness of Raft, of the lock service and of MapReduce: it depends on timing, a batch can be refused by a peer with a
  later uncommitted entry, and the coordinator never hands a lost task out again.
- labrpc and labgob: a message set, with encoding and decoding assumed to be faithful.
- Sharing of memory between a request's entries and the leader's log (a slice of it, encoded after the lock is
  released): requests are values.
- Blocking on the `Commit` and `applyCh` channels: a signal may be served at any time, a send does not block.
- Integer width: all integers are unbounded.
- RaftHeartbeat.Heartbeat: states what the loop does when no other handler of the two peers comes between and only
  finitely many RPCs are lost; interleaved turns are the Send, Deliver and Respond steps of `RaftSystem`.
- RaftNode.Raft.Election: the same for the election loop; interleaved turns are the Vote, Count and Win steps.
- An index out of range ends the process in the source; in `RaftSystem` such a step is not enabled, and the run goes on
  without it. `RaftNecessity.DeposedSenderOverruns` is a run that gets there, `RaftReplication.RepliesInRange` says when
  none does.
- A panic of CreateAccount, GetBalance or Withdraw ends only its thread's call in the model; in the source it would end
  the process. Withdraw of an unknown account panics because it unlocks through a missing account (line 134).
- BankMethods.Bank.Deposit: it and the other methods of the class are stated for a call whose locks are free and that no
  other thread interrupts; waiting for a lock and interleaving are `BankSystem`.
- giveLockToOwner, ReceiveLock and events: they depend on the empty applyToStateMachine and on calls to clients.
- LockServer.Clerk.SendMutex: assumes that some attempt is answered; the source loops for ever otherwise.
- LockService.ExactlyOnce: takes it as given that every server sees the same committed log; `LockOverRaft` does not.
- JSON, files, sockets, plugins and the FNV hash: files are sequences of pairs or lines, mapf, reducef and ihash are
  arbitrary functions, and opening or writing a file succeeds if it exists.
- MapReduceJobs.SortByKey: sort.Sort is not part of the repository; an insertion sort on values stands for it, and only
  sortedness and permutation are used.
- FileNames.NameRoundTrip: of the white space Sscanf skips before a number only the blank is modelled.
- The coordinator's reduceDone flag, which nothing reads, and its log output.
- ws aggregators, word count tools and configuration files: simple sums, tickers and set-up code.
