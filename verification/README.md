# Rustchain: a verified model of its consensus, storage and ledger

This project models the core of Rustchain in Dafny 4.11 and proves what it promises: the Raft
engine, the leaderless voting mode, the account ledger with undo, the block keeper and its block
directory, the effect queue that connects them, and block synchronization.

`dafny verify dfyconfig.toml` checks everything.

## How it is organised

| files | what they hold |
|---|---|
| `Types`, `Blocks` | peers, transactions, blocks, log entries, messages, effects; block verification |
| `RaftLog` | the log as a value, and the merge of an accepted append |
| `RaftNode` | one participant: each handler as a function from state and input to state and effects |
| `RaftEngine` | the engine with its mutable fields and loops (`RaftConsensus`); every method is proved to compute the function of `RaftNode` |
| `RaftNodeRuns`, `RaftAnswers`, `RaftStaging` | one node: commit stream and durability over any inputs; what each handler must answer; no commit without staging |
| `CatchUp` | how a follower's log comes to be the leader's |
| `Cluster` | a fixed set of nodes and the set of all packets ever sent; delivery is arbitrary |
| `ClusterInvariant`, `ClusterMoves`, `ClusterReigns`, `ClusterStep` | the inductive invariant, over a history of votes and of one growing log per term, and its preservation by every step |
| `ClusterSafety` | election safety, log matching, truthful acknowledgements: no hypotheses on the run |
| `Prudence` | the two hypotheses of agreement, by what can be seen before a step, and what each amounts to |
| `ClusterCommit`, `ClusterAgreement` | leader completeness and state machine safety, under those hypotheses |
| `ClusterScenario`, `CommitClamp`, `StaleRefusal` | why neither hypothesis can be dropped: for each, a run that observes the other and breaks agreement |
| `Ledger`, `LedgerRollback`, `LedgerReplay` | balances, transactions and undo; rollback in any order and what it leaves behind; when a list replays |
| `BlockNames`, `BlockKeeping`, `BlockChanges`, `BlockRecovery`, `BlockStore` | block-file names and their order, where transactions live, what each operation changes, what a restart reads back, the keeper itself |
| `BlockStaging`, `PeerEffects`, `AppendAck`, `BlockBooking` | running the effects of consensus on ledger and keeper; the acknowledgement of an append; the ledger's share |
| `Voting`, `VotingSources`, `VotingOrder` | ballots, finality, latency; whose votes they are and what is announced; when the order of votes matters |
| `Synchronization` | fetching missing blocks |

The clock is an input: whether an election timeout or a heartbeat interval has elapsed is a
boolean. Hash-map iteration order, disk success, signatures and the network are inputs as well.
Hashes are numbers and the hash function is a parameter; a result that needs it to be
collision-free says so. Transaction ids are signatures; `BlockKeeping.NothingLost` assumes that an
id belongs to one transaction.

## What is proved of Raft

In any run of a cluster with a fixed, common set of peers and no restarts, under arbitrary delay,
reordering, duplication and loss: at most one leader per term (section 5.2 of "In Search of an
Understandable Consensus Algorithm", extended version), log matching (5.3), appends in flight are
slices of their leader's log, and success replies are truthful. Every one of these relates any two
instants of the run.

Agreement (5.4) is different, because the engine departs from the paper in two places.

- A follower clamps the leader's commit index to the end of its own log
  (`src/peer/consensus/raft/replication.rs:147-149`), not to the last entry it has just checked.
  Since a batch holds at most five entries, a stale suffix can fall under it.
  `CommitClamp.CommittedLogsCanDiverge` is a run of three peers, without any stale refusal, that
  ends with two of them having committed different entries at index 6.
  `Prudence.PrudentDelivery` says for every delivered append exactly when this overreach happens.
- A request of an old term is refused with the responder's current term and a match index computed
  from the old request (`src/peer/consensus/raft/replication.rs:12-23`); a leader of that term
  records it (lines 244-245). `StaleRefusal.StaleRefusalsCanDiverge` is a run of five peers in
  which every append stays within its batch, and two peers commit different entries at index 1.
  `Prudence.StaleRefusalIff` and `Prudence.ReplyOrigin` say which refusals in flight do this:
  those whose request was of an earlier term than the peer that refused it.

`ClusterAgreement.StateMachineSafety` and `ClusterAgreement.LeaderCompleteness` hold for every run
whose steps are `Prudent`: no accepted append raises the commit index past the entries it carried,
and no leader records a refusal of an older term's request.

The comment at `src/peer/consensus/raft/replication.rs:72-74` says that effects stop at the first
error, so that the acknowledgement is only sent after staging succeeded. The code of `execute_all`
goes on past errors. `AppendAck.AckRegardless` says what follows: the success reply always goes
out last, and the staging before it has failed if and only if some entry's block does not link to
what the keeper holds at its turn; `AppendAck.AckWithoutBlock` is such an append.

Safety leaves open that a node does nothing. `RaftAnswers` states what each handler must send and
record, and `CatchUp.CatchesUp` what that comes to: as long as the follower does not commit past
what an offer carries, one exchange and one more for every five entries of the leader's log bring a
follower up to it, whatever the leader believed and however the logs had diverged.
`RaftStaging.StagedBeforeCommit` says that over any run no block is committed that was not staged,
created here, or in the log from the start.

## Other results that are not what one might expect

- A restart finds the newest block exactly when the height is below 100000 or every digit of it
  but the last is a nine (`BlockRecovery.RecoveryIff`); at height 100000 it does not
  (`BlockRecovery.RecoveryFailsAt100000`).
- Blocks list transactions by id, and roll back in that order. `LedgerRollback.RollbackInAnyOrder`
  covers every order: while no addition overflows on the way back, the ledger is restored if and
  only if no subtraction saturates. `LedgerRollback.RollbackOrderMatters` is an instance where one
  does.
- A restored ledger keeps accounts it did not have. `LedgerRollback.RestoredAnswersIff` says
  exactly which transactions it then answers differently; `LedgerRollback.RollbackPinsAsset` is an
  instance.
- What was accepted replays in application order (`LedgerReplay.AcceptedReplays`); in any other it
  does if and only if each transaction passes guards that read only the starting ledger and the
  earlier part of the list (`LedgerReplay.ReplayIff`). `LedgerReplay.ReplayCanRefuse` is an
  instance in id order that does not.
- Two voting nodes can decide the same block differently from the same votes, if and only if both
  sides have enough votes to decide (`VotingOrder.OrderMattersIff`); `VotingOrder.OrderDecides` is
  the instance with four peers.
- Synchronization keeps the chain linked with each block it applies if and only if that block is
  for the next index (`Synchronization.LinkedIff`). After a failed write another one can get
  through (`Synchronization.FailedWriteBreaksChain`).

## Model

| member | source | states |
|---|---|---|
| `ClusterSafety.ElectionSafety` | src/peer/consensus/raft/election.rs:18-78 | over a whole run, two nodes that are leader of the same term, at any two instants, are the same node |
| `ClusterSafety.LogMatching` | src/peer/consensus/raft/replication.rs:98-145 | logs of any two nodes at any two instants that agree on the term at a position are identical up to it |
| `ClusterSafety.AppendsAreSlices` | src/peer/consensus/raft/replication.rs:331-359 | every append in flight is a contiguous slice, with the right previous term, of the log of its term's leader, who is its sender |
| `ClusterSafety.AcksAreTruthful` | src/peer/consensus/raft/replication.rs:39-79 | a success reply means that the sender's log agrees with the leader's up to the index it names, at any instant at which the sender is in that term and the reply has been sent |
| `ClusterSafety.RunHistories` | src/peer/consensus/raft/election.rs:118-153 | every run is accompanied by a growing history of write-once votes and one log per term that satisfies the invariant at each instant |
| `ClusterStep.NextKeepsInv` | src/peer/consensus/raft.rs:191-277 | every tick, created block and delivered message keeps the cluster invariant |
| `ClusterStep.AppendStep` | src/peer/consensus/raft/replication.rs:8-80 | a delivered append, admitted or refused, keeps the invariant |
| `ClusterStep.AppendResponseStep` | src/peer/consensus/raft/replication.rs:217-251 | a delivered append reply keeps the invariant |
| `ClusterStep.RequestVoteStep` | src/peer/consensus/raft/election.rs:30-61 | a delivered vote request keeps the invariant: the vote is recorded once per term and carries the voter's log |
| `ClusterStep.VoteResponseStep` | src/peer/consensus/raft/election.rs:63-78 | a delivered vote keeps the invariant, including the step that makes a leader |
| `ClusterStep.ElectionStep` | src/peer/consensus/raft/election.rs:18-28 | starting an election keeps the invariant |
| `ClusterStep.MatchingIndexAgrees` | src/peer/consensus/raft/replication.rs:188-206 | the match index computed against a request of the node's own term is one up to which its log agrees with that term's leader |
| `ClusterInvariant.QuorumsMeet` | src/peer/consensus/raft/election.rs:151-153 | two majorities of one peer set share a peer |
| `ClusterReigns.MergeMove` | src/peer/consensus/raft/replication.rs:117-145 | taking a leader's entries into a follower's log keeps the invariant, in particular every earlier acknowledgement |
| `ClusterReigns.CrownMove` | src/peer/consensus/raft/election.rs:132-149 | becoming leader by a majority of votes starts the only reign of that term |
| `ClusterCommit.Completeness` | src/peer/consensus/raft/election.rs:58-61 | an entry of its own term acknowledged by a majority is in the log with which every later leader is elected |
| `ClusterAgreement.StateMachineSafety` | src/peer/consensus/raft/replication.rs:98-167 | in a prudent run no two nodes, at any two instants, have different entries at a position both have committed |
| `ClusterAgreement.LeaderCompleteness` | src/peer/consensus/raft/replication.rs:292-320 | in a prudent run everything committed is in the log of every leader of a later term, and of the same term from then on |
| `ClusterAgreement.NextKeepsCommit` | src/peer/consensus/raft/replication.rs:217-251 | a prudent step keeps every commit index and every offered commit index backed by a majority |
| `ClusterAgreement.PrudentHistories` | src/peer/consensus/raft/replication.rs:292-320 | at each instant of a prudent run every commit index is backed by majority acknowledgements |
| `Prudence.CommitWithinBatch` | src/peer/consensus/raft/replication.rs:147-149 | an accepted append keeps the commit index within what it carried, or where it was, if and only if the leader's commit index, or the log's end, is no further, or the batch brought something new |
| `Prudence.PrudentDelivery` | src/peer/consensus/raft/replication.rs:98-149 | a delivered append raises the commit index past the entries it carried if and only if it is admitted, valid, acceptable, brings nothing new, and stops short of both the log's end and the leader's commit index |
| `Prudence.StaleRefusalIff` | src/peer/consensus/raft/replication.rs:217-250 | a refusal violates the second hypothesis if and only if it reaches the leader of its term and answers a request of an earlier one; it sets the sender's entry to its claim, cut to the log |
| `Prudence.ReplyTells` | src/peer/consensus/raft/replication.rs:8-80 | the answer to an append is about an earlier term than it carries exactly when the request's term lay below the responder's, and is then a refusal vouching for the old request |
| `Prudence.ReplyOrigin` | src/peer/consensus/raft/replication.rs:8-97 | over any run every append reply in flight answers some earlier delivered request, in that sense |
| `CommitClamp.CommittedLogsCanDiverge` | src/peer/consensus/raft/replication.rs:147-149 | a run of three peers exists in which no leader records a stale refusal and after which two have committed different entries at index 6 |
| `StaleRefusal.StaleRefusalsCanDiverge` | src/peer/consensus/raft/replication.rs:244-250 | a run of five peers exists in which every append stays within its batch and after which two have committed different entries at index 1 |
| `StaleRefusal.RefusalAnswers` | src/peer/consensus/raft/replication.rs:12-23 | a request of an older term is refused in the current term with the old request's previous index, if the term there agrees |
| `StaleRefusal.Elect` | src/peer/consensus/raft/election.rs:18-78 | from any reached state of five peers, one that two others support can win the next term |
| `RaftNodeRuns.CommitStream` | src/peer/consensus/raft/replication.rs:113-166 | over any inputs to one node the commit effects are the block hashes between the first and last commit index, once each and in order; commit index, term and committed prefix never go back |
| `RaftNodeRuns.ReactKeeps` | src/peer/consensus/raft.rs:191-327 | every handler keeps the log well formed, the committed prefix and the durable copy, and emits exactly the newly committed hashes |
| `RaftNodeRuns.AdvanceCommitExact` | src/peer/consensus/raft/replication.rs:292-320 | the reverse scan yields the largest index above the old one whose entry has the current term and is held by a majority, or the old one if there is none |
| `RaftNodeRuns.AppendedStreams` | src/peer/consensus/raft/replication.rs:150-166 | an accepted append commits exactly the newly covered block hashes and rolls back exactly the discarded ones, in log order |
| `RaftNodeRuns.AppendedKeeps` | src/peer/consensus/raft/replication.rs:117-149 | an accepted append keeps the committed prefix and a well-formed log |
| `RaftNodeRuns.RestartRecovers` | src/peer/consensus/raft.rs:106-167 | after any inputs, rebuilding from the store gives the log and commit index in memory, whatever height is offered as a hint |
| `RaftNodeRuns.RunDurable` | src/peer/consensus/raft/replication.rs:208-210 | durability is kept by any sequence of handler calls although saving is conditional |
| `RaftNodeRuns.PersistDurable` | src/peer/consensus/raft_log_store.rs:91-108 | what is saved is what a load gives back |
| `RaftNodeRuns.AppendReplyClaims` | src/peer/consensus/raft/replication.rs:231-250 | a reply changes only its sender's entry in the leader's table, never above what it claims, and raises the commit index only by a majority in the current term |
| `RaftAnswers.AppendStagesAll` | src/peer/consensus/raft/replication.rs:113-118 | an accepted append stages exactly the sent entries with a block above the commit index, once each and in order |
| `RaftStaging.StagedBeforeCommit` | src/peer/consensus/raft/replication.rs:60-79 | over any run every committed block was staged by an earlier effect, created here, or waited in the starting log; and so was every block still waiting |
| `RaftAnswers.RefusalRetried` | src/peer/consensus/raft/replication.rs:244-250 | a refusal sets the sender's entry to what it vouches for, cut to the log, and is answered by one non-empty offer of at most five entries from there, or by nothing at the log's end |
| `RaftAnswers.AcceptanceCredited` | src/peer/consensus/raft/replication.rs:231-241 | an acceptance raises the sender's entry to what it claims, keeps the others, commits all that this allows and sends nothing |
| `RaftAnswers.AppendAnswered` | src/peer/consensus/raft/replication.rs:8-97 | an append gets exactly one reply, which succeeds and names the last index carried if and only if sender, term, known leader, payloads, previous entry, contiguity and committed history allow it |
| `RaftAnswers.AppendTaken` | src/peer/consensus/raft/replication.rs:98-149 | an acceptable append makes a follower of the sender, with every sent term in place and the commit index the leader's, as far as the log goes |
| `RaftAnswers.VouchedIndex` | src/peer/consensus/raft/replication.rs:188-206 | a refusal vouches for the largest sent index whose term agrees, else for the previous one if that agrees, else for none |
| `RaftAnswers.OwnEntryOffered` | src/peer/consensus/raft/replication.rs:253-279 | a leader's own entry is appended, counted as its own, offered to everyone with the commit index of before, and committed as far as majorities allow |
| `RaftAnswers.FollowerAppendsExact` | src/peer/consensus/raft/replication.rs:322-351 | one offer per other participant, from where its log is believed to end, with the term there, the next five entries and the commit index; nothing else |
| `RaftAnswers.TickAnswers` | src/peer/consensus/raft.rs:191-219 | offers to all exactly on a leader's due heartbeat, silence when nothing is due, and votes and table cut to the known peers |
| `RaftAnswers.TimeoutAnswers` | src/peer/consensus/raft.rs:204-216 | a timeout starts a candidacy of the next term and asks everyone with the end of the log; it wins at once only alone |
| `RaftAnswers.VoteAnswered` | src/peer/consensus/raft/election.rs:30-61 | exactly one answer in the newer term, granted if and only if the request is not older, its log no older, and the vote of that term not given to another |
| `RaftAnswers.VoteCounted` | src/peer/consensus/raft/election.rs:63-78 | a counted vote makes a leader if and only if it completes a majority |
| `RaftAnswers.LeaderBegins` | src/peer/consensus/raft/election.rs:132-149 | a new leader appends one entry without a block, knows only its own log, and offers it to everyone |
| `RaftAnswers.NewerTermObeyed` | src/peer/consensus/raft/election.rs:118-130 | a newer term in a vote or an answer is adopted, without leader, votes or role |
| `RaftAnswers.BlockTakenIff` | src/peer/consensus/raft/replication.rs:281-290 | a leader takes a new block if and only if no block of its log is uncommitted |
| `RaftAnswers.LeaderBacklog` | src/peer/consensus/raft/replication.rs:253-290 | while a node leads, its uncommitted blocks become more only from none to one, by a block created here |
| `RaftAnswers.BlockHashesExact` | src/peer/consensus/raft/replication.rs:128-137 | the hashes of a stretch of the log: one per entry with a block, each at its rank |
| `CatchUp.CatchesUp` | src/peer/consensus/raft/replication.rs:217-251 | from any pair of a leader and a follower with matching logs, after one exchange and one more per five entries the follower has the leader's log and the leader knows it, provided no exchange overreaches |
| `CatchUp.ExchangeAdvances` | src/peer/consensus/raft/replication.rs:98-145 | one exchange puts a follower in step, or moves one that is in step five entries on |
| `CatchUp.ExchangeHappens` | src/peer/consensus/raft/replication.rs:322-329 | a heartbeat always reaches the follower with an offer, and the follower always answers |
| `RaftLog.MergeShape` | src/peer/consensus/raft/replication.rs:117-145 | a merge keeps the log up to the previous index, has every sent entry's term in place, and changes nothing or ends at the last sent entry |
| `RaftLog.FirstNewExact` | src/peer/consensus/raft/replication.rs:118-120 | the replaced part starts exactly where terms first differ or the log ends |
| `RaftLog.MergeKeepsPrefix` | src/peer/consensus/raft/replication.rs:121-126 | a prefix that no conflict reaches survives the merge |
| `RaftLog.MergeWellFormed` | src/peer/consensus/raft/replication.rs:354-359 | contiguous entries keep index and position together |
| `RaftLog.MergeConserves` | src/peer/consensus/raft/replication.rs:127-137 | what is kept followed by what is discarded is the old log |
| `RaftEngine.RaftConsensus.constructor` | src/peer/consensus/raft.rs:106-167 | a node starts from the stored log, with the stored commit index or else the hint, cut to the log |
| `RaftEngine.RaftConsensus.PersistLog` | src/peer/consensus/raft/replication.rs:208-210 | the store holds log and commit index afterwards, nothing else changes |
| `RaftEngine.RaftConsensus.RefreshParticipants` | src/peer/consensus/raft/election.rs:8-16 | participants become the known peers and this one; votes and match entries of others are dropped |
| `RaftEngine.RaftConsensus.Resign` | src/peer/consensus/raft/election.rs:118-124 | a newer term clears role, vote, leader and votes |
| `RaftEngine.RaftConsensus.TakeOfficeIfMajority` | src/peer/consensus/raft/election.rs:132-149 | leader exactly on a majority of votes, with a table of its own last index and zeros |
| `RaftEngine.RaftConsensus.StartElection` | src/peer/consensus/raft/election.rs:18-28 | next term, own vote, and office at once if that is a majority |
| `RaftEngine.RaftConsensus.CastVote` | src/peer/consensus/raft/election.rs:30-56 | the vote granted and the new state are those of the node model for every requester |
| `RaftEngine.RaftConsensus.HandleRequestVote` | src/peer/consensus/raft.rs:221-237 | state and reply of the vote handler |
| `RaftEngine.RaftConsensus.AdmitAppend` | src/peer/consensus/raft/election.rs:80-116 | admitted exactly on a known sender-leader, a current term and no other live leader; then this node follows it |
| `RaftEngine.RaftConsensus.AdvanceCommitIndex` | src/peer/consensus/raft/replication.rs:292-320 | the loop from the log's end computes the declarative commit index and emits the newly committed hashes |
| `RaftEngine.RaftConsensus.AppendFor` | src/peer/consensus/raft/replication.rs:331-351 | an append is always possible and carries at most five entries after the follower's match index |
| `RaftEngine.RaftConsensus.OfferToFollowers` | src/peer/consensus/raft/replication.rs:322-329 | one append per other participant and nothing else |
| `RaftEngine.RaftConsensus.AppendOwnEntry` | src/peer/consensus/raft/replication.rs:253-279 | appends one entry of the own term, offers it as it stood before committing, commits what it can, and saves |
| `RaftEngine.RaftConsensus.HandleBlockCreated` | src/peer/consensus/raft.rs:181-189 | refused without change while a block is uncommitted, ignored by non-leaders, otherwise appended |
| `RaftEngine.RaftConsensus.HandleTick` | src/peer/consensus/raft.rs:191-219 | heartbeat, election or nothing, as the node model says |
| `RaftEngine.RaftConsensus.HandleRequestVoteResponse` | src/peer/consensus/raft.rs:239-253 | counts a vote or steps down |
| `RaftEngine.RaftConsensus.HandleAppendEntriesResponse` | src/peer/consensus/raft/replication.rs:217-251 | raises, records or ignores a match index and saves when the commit index moved |
| `RaftEngine.RaftConsensus.MatchingIndexFor` | src/peer/consensus/raft/replication.rs:188-206 | the largest sent index whose term agrees, else the previous index if it agrees, else zero |
| `RaftEngine.RaftConsensus.TakeEntry` | src/peer/consensus/raft/replication.rs:118-144 | one entry is already there, is next, cuts a conflicting suffix, or is refused on committed history |
| `RaftEngine.RaftConsensus.TakeEntries` | src/peer/consensus/raft/replication.rs:117-145 | the loop refines the merge, and a refusal in the middle of it leaves the log as it was |
| `RaftEngine.RaftConsensus.AppendToLog` | src/peer/consensus/raft/replication.rs:98-167 | accepted exactly when the specification accepts; then new log, commit index and effect list are the specified ones, otherwise nothing changes |
| `RaftEngine.RaftConsensus.ValidateReplicatedEntries` | src/peer/consensus/raft.rs:279-311 | the loop computes the validation and stops at the first bad payload |
| `RaftEngine.ValidateExact` | src/peer/consensus/raft.rs:279-311 | validation succeeds exactly when every entry is a signed empty no-op or carries its verified block; then every block entry has a verified block under its own hash |
| `RaftEngine.RaftConsensus.RetainBlocks` | src/peer/consensus/raft/replication.rs:60-70 | the blocks of staged entries move to the pending table |
| `RaftEngine.RetainCovers` | src/peer/consensus/raft/replication.rs:60-70 | every staged entry whose block was sent finds it in the table afterwards, repeated hashes included, and nothing already there is lost |
| `RaftEngine.RaftConsensus.HandleAppendEntries` | src/peer/consensus/raft/replication.rs:8-80 | the whole handler computes the node model's step and puts its one reply last |
| `RaftEngine.RaftConsensus.TakePendingBlock` | src/peer/consensus/raft.rs:342-344 | removes and returns a pending block |
| `RaftEngine.HashesBetweenExact` | src/peer/consensus/raft/replication.rs:312-319 | filtering the log by index gives the hashes of that stretch, in order |
| `RaftEngine.FindExact` | src/peer/consensus/raft/replication.rs:184-186 | a search by index in a well-formed log is an access by position |
| `Ledger.LastInFirstOut` | src/transactions.rs:215-240 | processing distinct new transactions, some refused, and rolling the same list back restores applied set and balances from any ledger; new accounts are empty, no subtraction saturates and no addition overflows on the way back, given that none overflowed before |
| `Ledger.RollbackAfterHistory` | src/transactions.rs:179-240 | the same after any earlier transactions, when all coins ever minted fit in 32 bits |
| `Ledger.UndoneIff` | src/transactions.rs:221-255 | undoing a transaction restores the ledger if and only if its addition did not overflow |
| `Ledger.UndoOne` | src/transactions.rs:221-255 | undo works from any state that has the processed one's accounts and only empty extra ones |
| `Ledger.Conservation` | src/transactions.rs:257-321 | over any transactions from empty, an asset's balances plus a full 32-bit range per overflow equal the coins minted, self-sends included |
| `Ledger.MintBound` | src/transactions.rs:257-282 | if an asset's minted total fits in 32 bits no addition overflowed and its balances sum to it |
| `Ledger.BalancedIff` | src/transactions.rs:257-321 | balances sum to the minted coins if and only if nothing overflowed |
| `Ledger.ProcessTotal` | src/transactions.rs:284-321 | one transaction changes an asset's total by what it mints, less a range if it overflows |
| `Ledger.ProcessOutcome` | src/transactions.rs:179-208 | a refused transaction changes nothing, an accepted one is remembered, and no account changes its asset |
| `Ledger.RefusedFor` | src/transactions.rs:257-321 | which refusal a transaction meets, in the order in which the guards are looked at |
| `Ledger.TotalAfter` | src/transactions.rs:179-208 | what any list does to an asset's total, from any ledger |
| `LedgerRollback.RollbackInAnyOrder` | src/transactions.rs:210-255 | distinct new transactions applied without overflow and rolled back in any order: if no step saturates or overflows the ledger is restored; while no addition overflows on the way back, it is restored if and only if no subtraction saturates |
| `LedgerRollback.RollbackBalances` | src/transactions.rs:210-255 | the same with overflows: restored if and only if on every account the coins kept by saturation equal a full 32-bit range per overflow on the way back |
| `LedgerRollback.UndoAllSurplus` | src/transactions.rs:242-255 | a saturated subtraction leaves some account above its exact balance to the end |
| `LedgerRollback.RollbackOrderMatters` | src/transactions.rs:210-219 | a deposit and the payment that spends it, rolled back in id order, saturate and are not restored |
| `LedgerRollback.RestoredAnswersIff` | src/transactions.rs:179-321 | a restored ledger answers a transaction differently if and only if it deposits another asset to a leftover account, pays out of one, or would pay into one of another asset; and accepts what the original refuses, or the other way round, exactly in the stated cases |
| `LedgerRollback.RollbackPinsAsset` | src/transactions.rs:242-246 | an account emptied by a rollback keeps its asset and refuses what the original ledger accepts |
| `Ledger.ReplayProcesses` | src/transactions.rs:327-338 | a replay that succeeds reaches the processed ledger, and it succeeds exactly when no transaction is refused in turn |
| `LedgerReplay.ReplayIff` | src/transactions.rs:257-338 | a replay succeeds if and only if every transaction passes its guards, read off the starting ledger and the earlier list: accounts opened, assets agreeing, and starting balance plus earlier credits minus earlier debits, as 32 bits hold it, covering the amount |
| `LedgerReplay.AcceptedReplays` | src/transactions.rs:327-338 | the accepted transactions of any list replay in application order to the same ledger |
| `LedgerReplay.ReplayCanRefuse` | src/transactions.rs:327-338 | two accepted transactions in one block, replayed in id order, are refused because the first fails its guard |
| `Ledger.TransactionProcessor.constructor` | src/transactions.rs:168-172 | the processor starts empty |
| `Ledger.TransactionProcessor.AddCoin` | src/transactions.rs:257-282 | credits, opens an account, or refuses another asset |
| `Ledger.TransactionProcessor.SendCoins` | src/transactions.rs:284-321 | the four refusals in order, otherwise debit then credit |
| `Ledger.TransactionProcessor.ProcessTransaction` | src/transactions.rs:179-208 | state and error are those of the specification, and a refusal leaves the state alone |
| `Ledger.TransactionProcessor.ReverseAddCoin` | src/transactions.rs:242-246 | a saturating subtraction on an existing account |
| `Ledger.TransactionProcessor.ReverseSendCoins` | src/transactions.rs:248-255 | recipient down, then sender up |
| `Ledger.TransactionProcessor.RollbackTransaction` | src/transactions.rs:221-240 | undoes a remembered transaction and skips any other |
| `Ledger.TransactionProcessor.RollbackTransactions` | src/transactions.rs:215-219 | the reverse loop undoes the list last first |
| `Ledger.TransactionProcessor.ReadState` | src/transactions.rs:327-338 | the nested loops replay all blocks up to the first refusal |
| `BlockKeeping.NothingLost` | src/storage.rs:241-327 | over any interleaving of admissions, external blocks, commits and rollbacks, every admitted transaction is in the mempool, pending, or a committed block on disk, given that an id belongs to one transaction |
| `BlockKeeping.PendingIsStaged` | src/storage.rs:254-327 | with a collision-free hash every pending transaction is listed by a staged block |
| `BlockKeeping.MempoolBounded` | src/storage.rs:241-252 | over any run the mempool stays below its size, also when a rollback refills it |
| `BlockKeeping.StepLocates` | src/storage.rs:241-327 | each operation keeps every located transaction located and locates the one it admits |
| `BlockKeeping.RollbackCovers` | src/storage.rs:317-327 | a rollback, with the blocks it may create on the way, leaves every pending transaction in a staged block |
| `BlockKeeping.ReadmitAllCovers` | src/storage.rs:321-325 | after n transactions of a rolled-back block only the remaining ones may be pending without a staged block |
| `BlockKeeping.CommitLocates` | src/storage.rs:294-315 | a commit loses no transaction: those leaving the pending set are in the file it writes |
| `BlockKeeping.ByIdExact` | src/storage.rs:254-259 | a new block lists each pooled transaction once, in increasing id order |
| `BlockKeeping.NewBlockIsAddable` | src/storage.rs:254-276 | a block created here verifies and can be added by every peer at the same point of the chain |
| `BlockKeeping.CanBeAddedMeaning` | src/storage.rs:360-378 | a block can be added for some hash-map order exactly when it extends the chain or a staged block below it, and for every order when that staged block is the only one |
| `BlockChanges.AddChanges` | src/storage.rs:241-276 | short of a full mempool an admission only pools; at the size it stages one verified block of exactly the pool on top of the last commit and makes the pool pending |
| `BlockChanges.StageChanges` | src/storage.rs:278-292 | an external block is staged if and only if its hash is right, and takes exactly what it lists from the mempool to pending |
| `BlockChanges.CommitChanges` | src/storage.rs:294-315 | a commit unstages the block, settles exactly its transactions, writes one file and moves height and hash on |
| `BlockChanges.RollbackStage` | src/storage.rs:317-327 | after a rollback every staged block was staged before under another hash, or is one of at least the mempool's size made while readmitting; all others stay |
| `BlockChanges.RollbackChanges` | src/storage.rs:317-327 | while the mempool cannot fill, a rollback removes exactly the block, returns exactly its pending transactions, and the block can no longer be committed |
| `BlockNames.LastNameIff` | src/storage.rs:114-116 | the newest name sorts last among all earlier ones if and only if the index is below 100000 or all its digits but the last are nines |
| `BlockNames.NameRoundTrip` | src/storage.rs:199-203 | a name matches the pattern and reads back as its index |
| `BlockNames.SameLengthOrder` | src/storage.rs:396-410 | byte order is numeric order between numbers of equal length |
| `BlockRecovery.RecoveryIff` | src/storage.rs:195-228 | from a directory without blocks, after any run, a restart recovers the live height and hash if and only if the height is below 100000 or all its digits but the last are nines |
| `BlockRecovery.RecoveryFailsAt100000` | src/storage.rs:195-228 | a run to height 100000 exists and its restart does not recover |
| `BlockRecovery.RunFiles` | src/storage.rs:294-315 | commits fill consecutive fresh indices and the newest file carries the live hash |
| `BlockRecovery.RecoveryUnique` | src/storage.rs:195-214 | the directory determines what is recovered |
| `BlockStore.ListAllBlocks` | src/storage.rs:396-410 | the block names of a listing, each as often as it occurs, in byte order |
| `BlockStore.PushSorted` | src/storage.rs:404-407 | inserting keeps the order and adds exactly the name |
| `BlockStore.BlockKeeper.constructor` | src/storage.rs:195-228 | a keeper opens with empty pools at the recovered height and hash |
| `BlockStore.BlockKeeper.AddTransaction` | src/storage.rs:241-252 | pools the transaction; a block is created exactly when the pool is full, and it is staged under its hash |
| `BlockStore.BlockKeeper.CreateNewBlock` | src/storage.rs:254-276 | stages the sorted block on top of the last commit and marks its transactions pending |
| `BlockStore.BlockKeeper.AddExternalBlock` | src/storage.rs:278-292 | refuses an unverified block without change, otherwise moves its pooled transactions to pending and stages it |
| `BlockStore.BlockKeeper.CommitBlock` | src/storage.rs:294-315 | fails without change on an unknown hash or a failed write, otherwise writes the next file and settles its transactions |
| `BlockStore.BlockKeeper.RollbackBlock` | src/storage.rs:317-327 | the loop readmits each pending transaction, blocks created meanwhile included |
| `BlockStore.BlockKeeper.BlockCanBeAdded` | src/storage.rs:360-378 | the linkage check, and that a block let through extends the chain or a staged block |
| `BlockStaging.AcceptedAppendStages` | src/peer/effects.rs:234-271 | the local effects of an accepted append never meet a missing or unverified block, whatever ledger and keeper hold, repeated hashes included |
| `BlockStaging.AcceptedPayloads` | src/peer/consensus/raft/replication.rs:60-70 | after an accepted append the pending table has a verified block for every entry to stage |
| `BlockStaging.StagesAll` | src/peer/effects.rs:234-271 | with every block at hand, staging fails only on the chain-linkage check |
| `BlockStaging.RunVerified` | src/peer/consensus/raft.rs:279-311 | over any validated inputs the pending table holds only verified blocks under their own hashes |
| `BlockStaging.StagingFailsIff` | src/peer/effects.rs:234-271 | with every block at hand, staging fails if and only if some entry's block does not link to what the keeper holds once the blocks before it are in |
| `AppendAck.AckRegardless` | src/peer/consensus/raft/replication.rs:72-79 | carrying out the effects of an accepted append attempts exactly its list; the success reply comes last and goes out; the staging before it fails if and only if some entry's block does not link at its turn |
| `AppendAck.AckWithoutBlock` | src/peer/effects.rs:118-141 | a block claiming index 5 on an empty chain is logged, not staged, and acknowledged |
| `BlockBooking.StageEntryBooks` | src/peer/effects.rs:239-270 | an entry's transactions are booked, by each asset's total and by replay, if and only if its block is staged by it; its payload leaves the table |
| `BlockBooking.ReceiverBooks` | src/peer/effects.rs:71-91 | a peer that only receives blocks ends with the ledger in which all blocks it staged are booked, in order |
| `BlockBooking.StageThenRollback` | src/peer/effects.rs:190-202 | rolling back a block right after staging it restores the ledger, for new transactions that do not overflow |
| `BlockBooking.LastCompleted` | src/peer/effects.rs:185-202 | the last completed block is the last one rolled back or committed without failure |
| `BlockBooking.ClientBooks` | src/peer/effects.rs:216-225 | a client transaction is taken if and only if its signature and the ledger's guards hold; then it is booked once and pooled or in a new block |
| `BlockBooking.SyncedBooks` | src/peer/effects.rs:94-109 | a fetched block is booked if and only if it passes the linkage check, even if it then fails |
| `PeerEffects.QueueShrinks` | src/peer/effects.rs:124-141 | working off one effect lowers the measure of stagings, proposals and length |
| `PeerEffects.AttemptsBounded` | src/peer/effects.rs:124-141 | the number of attempts is bounded by a cost of the initial effects, however the queue grows |
| `PeerEffects.PeerEffects.constructor` | src/peer/effects.rs:25-41 | nothing is completed at the start |
| `PeerEffects.ServedAsGiven` | src/peer/effects.rs:124-141 | a list in which nothing queues anything is attempted exactly as given |
| `PeerEffects.PeerEffects.ExecuteAll` | src/peer/effects.rs:124-141 | terminates for both engines; attempts exactly the initial effects followed by everything queued, once each and in order, also past failures; each attempt starts from the state the last one left and fails exactly when its effect does; counts every failure; in voting mode within a fixed cost |
| `PeerEffects.PeerEffects.ExecuteEffect` | src/peer/effects.rs:143-214 | each effect's result on ledger, keeper and pending table, when it fails, and exactly what it queues: a completed block is proposed or appended by the engine, a proposal is voted on, anything else queues nothing |
| `PeerEffects.PeerEffects.StageRaftEntries` | src/peer/effects.rs:234-271 | the loop stages entries up to the first error |
| `PeerEffects.PeerEffects.StageClientTransaction` | src/peer/effects.rs:216-225 | refused without change on a bad signature or by the ledger, otherwise booked and pooled |
| `PeerEffects.PeerEffects.ApplyBlockTransactions` | src/peer/effects.rs:78-91 | all transactions are processed in order, refusals skipped |
| `PeerEffects.PeerEffects.ApplySynchronizedBlock` | src/peer/effects.rs:94-109 | linkage check, booking, staging, commit, and what each failure leaves behind |
| `PeerEffects.RaftAnswers` | src/peer/consensus/raft/replication.rs:253-269 | a block created in Raft mode queues only messages and commits |
| `PeerEffects.VotingAnswers` | src/peer/consensus/voting.rs:97-104 | a local proposal in voting mode queues at most one decision and its announcement |
| `Voting.Finality` | src/peer/consensus/voting.rs:106-166 | over any run the decisions emitted for a hash are exactly its ballot's outcome: at most one, never both; approvals and rejections stay disjoint sets of participants |
| `Voting.DecidedInTime` | src/peer/consensus/voting.rs:68-81 | over any run a ballot is decided once 3f participants have been heard, and at the first if f is zero |
| `Voting.OneVoteShort` | src/peer/consensus/voting.rs:68-81 | for every set of peers with f at least one, some run hears 3f - 1 participants and decides nothing |
| `Voting.OpenBallotBound` | src/peer/consensus/voting.rs:68-81 | an open ballot has fewer than 3f votes, none if f is zero |
| `Voting.RunCounts` | src/peer/consensus/voting.rs:139-166 | until decided, a ballot has counted exactly the participants heard |
| `VotingOrder.OrderMattersIff` | src/peer/consensus/voting.rs:42-81 | for any peers and any disjoint approvers and rejecters, all orders of their votes lead a node to the same decision if and only if not both sides are enough: 2f + 1 approvals, and f rejections but at least one |
| `VotingOrder.OneSideSettles` | src/peer/consensus/voting.rs:68-81 | when at most one side is enough, every order gives the outcome that the counts alone determine |
| `VotingOrder.FirstSideWins` | src/peer/consensus/voting.rs:42-66 | when both are enough, one order approves and another rejects |
| `VotingOrder.OrderDecides` | src/peer/consensus/voting.rs:73-80 | four peers, three approvals and one rejection: both outcomes occur |
| `Voting.HandleKeeps` | src/peer/consensus/voting.rs:139-166 | a vote keeps ballots sound and announces exactly the decision it records |
| `VotingSources.VotesAsCast` | src/peer/consensus/voting.rs:106-166 | over any run a peer stands among the approvals only if it approved, and among the rejections only if it rejected; this node rejects a proposal only as invalid |
| `VotingSources.CountedAsCast` | src/peer/consensus/voting.rs:139-152 | while a ballot is open a participant that only approved is counted for it, and one that only rejected against it |
| `VotingSources.AnnouncedAsDecided` | src/peer/consensus/voting.rs:155-165 | over any run all that a node does and broadcasts about a block is its outcome, once, with the matching announcement |
| `VotingSources.Thresholds` | src/peer/consensus/voting.rs:68-81 | f is the most with 3f + 1 participants; more than 2f approvals approve, otherwise f rejections reject |
| `Voting.VotingConsensus.constructor` | src/peer/consensus.rs:63-68 | no ballots at the start |
| `Voting.VotingConsensus.MakeVote` | src/peer/consensus/voting.rs:42-66 | the ballot after a vote and the verdict returned; a decided ballot repeats its outcome |
| `Voting.VotingConsensus.HandleVote` | src/peer/consensus/voting.rs:139-166 | opens the ballot at the first vote, ignores repeated votes, announces a decision |
| `Voting.VotingConsensus.OnBlockProposalValidated` | src/peer/consensus/voting.rs:106-126 | the proposer's approval, then the own vote unless that decided |
| `Voting.VotingConsensus.OnLocalBlockProposed` | src/peer/consensus/voting.rs:97-104 | the own approval |
| `Voting.VotingConsensus.OnBlockVote` | src/peer/consensus/voting.rs:128-137 | another peer's vote |
| `Synchronization.CheckAndRetrieveMissingBlocks` | src/synchronization.rs:62-105 | from a linked chain with nothing staged and a working disk, any fetched blocks leave it so; success means the maximum of start and network height, failure exactly three errors; attempts are blocks gained plus errors, at most the missing count plus three |
| `Synchronization.TryBlock` | src/synchronization.rs:88-103 | an attempt succeeds exactly on the next verified link |
| `Synchronization.AppliedIffFits` | src/peer/effects.rs:94-109 | with nothing staged a fetched block is applied if and only if it is the next verified link; the chain stays linked either way |
| `Synchronization.GetMaxIndex` | src/synchronization.rs:40-46 | the largest reported height, zero if none |
| `Synchronization.LinkedIff` | src/peer/effects.rs:94-109 | whatever is staged and whether or not the disk works, from a linked chain: applying a block keeps it linked if and only if it fails or the block is for the next index, and it fails exactly on linkage, hash or disk |
| `Synchronization.FailedWriteBreaksChain` | src/storage.rs:360-378 | after a failed write a later block can fill the index of the staged one without sitting on the block below |

## Left out

- Restarts and membership changes in the cluster results: terms and votes are not persisted and membership follows discovery, so election safety does not extend to them; restart is modelled for one node's log and for the block directory.
- StateMachineSafety: holds for prudent runs only; neither half of the hypothesis can be dropped, but not every imprudent run disagrees.
- LeaderCompleteness: holds for prudent runs only.
- Liveness: nothing is said about elections or commits eventually happening.
- Wall-clock time and random jitter: booleans chosen freely.
- A store that fails to save the Raft log: the model's store always succeeds.
- HTTP server, discovery, REST and local networks, the runtime and the client: not modelled; messages are an abstract set.
- ECDSA, SHA-256, serde and hex: signatures are booleans, hashing is a parameter, decoding either succeeds or not.
- 64-bit terms and indexes and the 32-bit block height: unbounded numbers. Ledger amounts are 32-bit and wrap as in a release build; a debug build would stop there.
- Forwarding a client transaction to the leader and dispatch by message kind: would only add forwarding members.
- The keeper's `previous_hash` field: written and never read.
- Which peers synchronization asks for a block and how it compares their answers: any block, or none, may come back.
- BlockStore.BlockKeeper.constructor: a block name whose number exceeds 32 bits, on which the source stops, is opened like any other.
- PeerEffects.PeerEffects.ExecuteEffect: says nothing of the bytes put on the wire; whether an append can be sent depends on its blocks being staged or on disk; an unreadable block file met by the search is not modelled.
- Chain linkage of commits outside synchronization: the keeper does not check index or previous hash when it commits.
- Agreement between nodes in voting mode: it does not hold; only when the same votes decide alike is stated.
- Order of messages within one batch of effects to different peers: it follows hash-set iteration and is free.
