# Floyd, verified

Floyd is a Raft library: servers elect a leader per term, the leader copies its log to the others, counts
copies, commits, and every server applies what is committed to a key-value store with lease locks and a
member list. Log and meta data live in one ordered key-value store. This project models that protocol, the
objects below it and the state machine above it in Dafny 4.11, and proves what they keep. `dafny verify
dfyconfig.toml` checks all of it.

## How it is built

* `Types`, `Protocol`, `Cluster`: the values, what each handler does to one node, and a cluster of any number
  of nodes as a state machine whose steps are an election timeout, a vote request handled, a vote reply
  handled, a client command, one AppendEntries exchange (with or without its reply) and an apply.
* `Elections`, `Logs`, `Replication`, `Steps`, `Locks`, `Commits`: invariants of all reachable states, proved
  step by step. The history variables are the log each candidate stood with, the author and the longest log of
  each term, and how far each node stored entries of a term in that term. The heart is in `Replication`
  (a follower always truncates to the previous index, so what a leader and a peer agree on must never reach
  beyond the next message to that peer) and in `Locks` (an entry that a blocking set of nodes stored in its own
  term is in the log of every later leader).
* `Safety`, `Completeness`, `Answers`: the results about whole runs. `CatchUp`: catching up within a reign. `Terms`:
  when numbers go down. `Traces`, `Moves`, `Trios`: building runs. `CommitRule`: the exact worth of the commit guard.
  `Handover`: when a term can have two leaders. `Outcomes`, `Roles`: what each message leaves behind, and who follows whom.
* `Keys`, `Disk`, `LogStore`: byte keys and their order, the store on values, and the classes `RaftLog` and
  `RaftMeta`. `Quorum`: collect, sort, take the middle. `FloydNode`: a server as a class whose handlers compute
  the functions of `Protocol` on its abstract state, over the real store layout.
* `StateMachine`, `Replay`, `Leases`, `Membership`, `SingleMode`: the state machine and its clients.

## Environment assumptions

* Fixed member set and no restart inside cluster runs: `vote_for_` is kept in memory only
  (floyd/src/floyd_impl.h:105), and votes are counted against the configured members while match indices are
  counted over the live peers. `Cluster.Config` fixes both.
* A queued task counts as sent (floyd/src/floyd_primary_thread.cc:138-139): messages are built when they are
  queued, so only candidates ask for votes, once per peer and candidacy, and only leaders send entries.
* Vote messages may be delayed, reordered or lost. `Cluster.Timely` is the one restriction on them: no denial
  with a smaller term reaches a candidate. `Terms.TermsRiseExactlyWhenTimely` shows that this is exactly the
  condition under which terms do not go down.
* One AppendEntries exchange is one step that may lose its reply; each peer has one thread and a blocking call.
* Checking for leadership and appending a client's entry are one step; an apply round is one step of a cluster.
* Store writes succeed, except where a method takes the outcome of a write as a parameter.
* `Safety.ObeysCommitRule` restricts runs of clusters with five or more members only: each rise of a leader's
  commit index lands on an entry of the leader's own term.

## What was found

* The commit guard (floyd/src/floyd_peer_thread.cc:318) tests the last entry of the acknowledged batch, not the
  entry at the quorum index. State machine safety therefore holds without a hypothesis on commits exactly for
  clusters of at most four members (`CommitRule.AgreeExactlyUpToFour`).
* A leader has not recorded its own vote, so a term can have two leaders, one after the other. That happens only
  when the first has granted the term to the second (`Handover.SecondLeaderWasGranted`), and it can happen exactly in
  clusters with an odd number of members, three or more (`Handover.OneLeaderPerTermExactly`). There are never two at
  once (`Safety.OneLeaderAtATime`), and never two authors (`Safety.UniqueAuthor`).
* A commit index can go down: in a cluster exactly when a node accepts a message from a leader that knows less
  (`Terms.CommitFallsExactly`), in single mode exactly when two clients write it out of order
  (`SingleMode.CommitFallsOutOfOrder`). What is applied is never lost (`Safety.AppliedStays`).
* A command is answered when the applied index reaches its index, whatever was applied there. The answer is right as
  long as the node is still in the term of the command (`Answers.AnsweredInTerm`), and in general exactly when the
  applied entry is of that term (`Answers.AnsweredExactly`); there are runs in which an answered command is lost
  (`Answers.AnsweredCommandIsLost`).
* The result of `RaftLog::Append` is compared with 0, so a failed write is noticed only when the log was empty: a leader
  takes the command for appended (`FloydNode.FloydNode.ExecuteCommand`), and a follower answers success for entries that
  it does not hold (`FloydNode.FloydNode.ReplyAppendEntries`). A failed `TruncateSuffix` leaves the last index out of step with the
  store (`LogStore.RaftLog.TruncateSuffix`).
* A granted vote is saved before it is noted, so the store says that there is no vote
  (`FloydNode.FloydNode.GrantVote`). The vote that counts is the one in `vote_for_`.
* Opening a store finds the last index exactly when the log is empty or no meta key is missing (`Disk.ReopenExactly`).
* `TruncateSuffix(0)` would not end. No message that a leader builds leads to it: previous index 0 comes with
  previous term 0 (`Protocol.AppendRequestOf`).

## Model

| member | source | states |
|---|---|---|
| `Safety.StateMachineSafety` | floyd/src/floyd_apply.cc:62-94 | in every timely run that obeys the commit rule, what any two nodes have applied up to any two moments never differs at an index: one sequence is a prefix of the other |
| `CommitRule.AgreeExactlyUpToFour` | floyd/src/floyd_peer_thread.cc:313-323 | over all timely runs with no hypothesis on commits, for every cluster and all batch limits: all nodes always agree on what they apply if and only if there are at most four members |
| `CommitRule.SmallClusterAgrees` | floyd/src/floyd_peer_thread.cc:313-323 | with at most four members the guard alone gives state machine safety |
| `Safety.AppliedStays` | floyd/src/floyd_impl.cc:826-859 | no log is ever cut or changed at or below what its node has applied |
| `Safety.AppliedIsPrefix` | floyd/src/floyd_apply.cc:62-94 | what a node has handed to its state machine is exactly its log up to the applied index, in order and without gaps, although truncations happen in between |
| `Safety.LeaderCompleteness` | floyd/src/floyd_impl.cc:735-749 | an entry that a strict majority acknowledged in its own term is, with everything before it, in the log of every leader of a later term, elected before or after |
| `Safety.LogMatching` | floyd/src/floyd_impl.cc:817-875 | in every reachable state logs with the same term at an index are identical up to it |
| `Safety.UniqueAuthor` | floyd/src/floyd_impl.cc:740-759 | all client entries stamped with one term are appended by one node, even when the term changes leaders |
| `Safety.EntryOrigin` | floyd/src/floyd_impl.cc:112-140 | every entry in any log was appended by an earlier client step of a node that was in the entry's term |
| `Safety.OneLeaderAtATime` | floyd/src/floyd_peer_thread.cc:141-154 | at every moment at most one node leads a term, for every cluster size and every order and loss of vote messages |
| `Safety.MatchSoundness` | floyd/src/floyd_peer_thread.cc:313-323 | while a node leads, match indices stay within its log, and every peer that is in no later term agrees with its log through the peer's match index |
| `Safety.MatchAcknowledged` | floyd/src/floyd_peer_thread.cc:313-323 | every match index of a leader was stored by that peer, in the leader's term, with the leader's entries |
| `Safety.CommitHasMajority` | floyd/src/floyd_peer_thread.cc:196-204 | whenever a leader's commit index rises, a strict majority with the leader in it had stored identical entries up to it in the leader's term |
| `Safety.TermsNeverGoDown` | floyd/src/floyd_context.cc:28-50 | terms never go down along a timely run |
| `Safety.RunSafe` | floyd/src/floyd_impl.cc:789-893 | the joint invariant of elections, logs, peers and locks holds in every state of every timely run |
| `Locks.StepSafe` | floyd/src/floyd_impl.cc:789-893 | every timely step keeps the joint invariant, and histories only grow |
| `Commits.StepCommits` | floyd/src/floyd_impl.cc:778-787 | every step that obeys the commit rule keeps committed and applied entries backed by a blocking set, and keeps what every node has applied |
| `Commits.PairLocks` | floyd/src/floyd_peer_thread.cc:318-321 | with at most four members a leader and one acknowledging peer already block every later election of a node without the entry |
| `Replication.PeerDelivered` | floyd/src/floyd_impl.cc:826-859 | a delivered message keeps everything that leader and follower agree on, although the follower always truncates |
| `Replication.ExchangePair` | floyd/src/floyd_peer_thread.cc:313-338 | an exchange, answered or not, keeps the leader's next message reaching over all that both logs agree on |
| `Elections.StepElection` | floyd/src/floyd_impl.cc:714-776 | every timely step keeps: one vote per term and node, votes counted once, a majority behind every leader |
| `CatchUp.CaughtUp` | floyd/src/floyd_peer_thread.cc:220-349 | while a leader and its log stand and a peer is in no later term, next index plus log length delivered exchanges make the logs equal, whatever else happens in between, and they stay equal |
| `CatchUp.RoundEffect` | floyd/src/floyd_peer_thread.cc:313-338 | an answered exchange fails exactly when the logs differ up to the previous index; a failure strictly lowers the next index but never below 1, none follows a success, every non-empty batch moves forward, the next index ends above every index on which the logs agree, and the remaining work shrinks |
| `CatchUp.LostRound` | floyd/src/floyd_peer_thread.cc:288-297 | an exchange whose reply is lost does not undo progress |
| `Terms.LowersExactlyAtStaleDenial` | floyd/src/floyd_peer_thread.cc:155-163 | in any state, a step lowers some term if and only if it delivers a denial with a smaller term to a candidate |
| `Terms.TermsRiseExactlyWhenTimely` | floyd/src/floyd_peer_thread.cc:128-163 | terms never go down in a run if and only if its vote replies are timely |
| `Terms.RepliesCarryTerms` | floyd/src/floyd_impl.cc:723-734 | every vote reply carries a term at least its request's |
| `Terms.StaleDenialIsLate` | floyd/src/floyd_peer_thread.cc:155-163 | a denial that lowers a term answers an earlier candidacy |
| `Terms.TermCanFall` | floyd/src/floyd_peer_thread.cc:155-163 | in every cluster of three there is a run after which such a denial lowers a term |
| `Terms.AppliedNeverGoesDown` | floyd/src/floyd_apply.cc:62-94 | the applied index never goes down, in every run |
| `Terms.CommitCanFall` | floyd/src/floyd_impl.cc:880-884 | in every cluster of three there is a run in which a follower's commit index goes from 1 to 0 |
| `Terms.CommitFallsExactly` | floyd/src/floyd_impl.cc:880-884 | in every timely run that obeys the commit rule a node's commit index goes down at a step if and only if it accepts a message from a leader of no earlier term whose commit index is smaller |
| `Roles.KnownLeaderLed` | floyd/src/floyd_impl.cc:805-815 | in every run a node whose leader is x is in a term that x has led |
| `Roles.ReceiverFollows` | floyd/src/floyd_impl.cc:797-815 | in every timely run, after an exchange with a peer of no later term the peer is a follower in the sender's term and follows the sender, unless it already followed another leader of that term |
| `Roles.ReceiverCommits` | floyd/src/floyd_impl.cc:880-884 | in every timely run that obeys the commit rule, after an accepted exchange the receiver's commit index is the smaller of the leader's and its own last index, and otherwise unchanged |
| `Roles.SenderStepsDown` | floyd/src/floyd_peer_thread.cc:305-312 | in every timely run, after an answered exchange with a peer of a later term the sender is a follower in that peer's term, without leader, and all else is as before |
| `Roles.CandidateTakesReply` | floyd/src/floyd_peer_thread.cc:128-163 | in every run, a candidate that takes a reply is afterwards a candidate, a leader or a follower, each under its exact condition, and in which term |
| `Roles.CandidateHasNoLeader` | floyd/src/floyd_context.cc:42-50 | in every run a candidate names no leader |
| `Roles.NamesItselfWhileLeading` | floyd/src/floyd_context.cc:52-56 | in every timely run a node names itself as leader exactly while it leads |
| `Outcomes.FollowerOutcome` | floyd/src/floyd_context.cc:28-40 | every field of a node that becomes follower |
| `Outcomes.CandidateOutcome` | floyd/src/floyd_context.cc:42-50 | every field of a node that becomes candidate |
| `Outcomes.LeaderOutcome` | floyd/src/floyd_context.cc:52-56 | every field of a node that becomes leader, with its view of the peers |
| `Outcomes.ClientOutcome` | floyd/src/floyd_impl.cc:608-618 | a command adds one entry of the node's term and changes nothing else |
| `Outcomes.ApplyOutcome` | floyd/src/floyd_apply.cc:62-94 | the applied index becomes the greater of itself and the commit index, and nothing else changes |
| `Outcomes.VoteRequestOutcome` | floyd/src/floyd_impl.cc:714-776 | every field after a vote request, and the exact condition of a grant |
| `Outcomes.VoteReplyOutcome` | floyd/src/floyd_peer_thread.cc:128-163 | every field after a vote reply, and the exact conditions for each role |
| `Outcomes.AppendOutcome` | floyd/src/floyd_impl.cc:789-893 | every field after a message of an earlier, the same or a later term, with or without the previous entry |
| `Outcomes.AppendReplyOutcome` | floyd/src/floyd_impl.cc:789-893 | term, success and last index of the answer |
| `Outcomes.AppendReplyTaken` | floyd/src/floyd_peer_thread.cc:299-348 | every field after an answer, for a leader and for any other node |
| `Outcomes.RequestOutcome` | floyd/src/floyd_peer_thread.cc:229-259 | every field of a message |
| `Outcomes.BatchExactly` | floyd/src/floyd_peer_thread.cc:261-278 | a batch stops at the end of the log or with the first entry that reaches the limit on entries or on bytes, and nowhere else |
| `Handover.OneLeaderPerTermExactly` | floyd/src/floyd_context.cc:42-50 | over all timely runs, no term ever has two leaders if and only if the number of members is even or one |
| `Handover.SecondLeaderWasGranted` | floyd/src/floyd_impl.cc:751-769 | when two nodes lead a term at different moments, the earlier one has granted the term to the later one |
| `Handover.TwoLeadersInTurn` | floyd/src/floyd_peer_thread.cc:65-70 | in every cluster of odd size from three on there is a run in which two nodes lead term 1 one after the other |
| `Completeness.AcknowledgedIsComplete` | floyd/src/floyd_impl.cc:735-749 | an entry that at least half of the members held while in its own term, whether or not a leader learned of it, is with everything before it in the log of every leader of a later term |
| `Completeness.RunStored` | floyd/src/floyd_impl.cc:861-875 | in every state of every timely run, a log that ends in its node's current term was stored in that term |
| `Answers.AnsweredExactly` | floyd/src/floyd_impl.cc:632-651 | what was applied at the index of an answered command is that command if and only if the entry there is of the term in which the command was appended |
| `Answers.AnsweredInTerm` | floyd/src/floyd_impl.cc:632-651 | a command answered while its node is in the term of the command was applied at its index |
| `Answers.AnsweredCommandIsLost` | floyd/src/floyd_impl.cc:632-651 | in every cluster of three there is a run obeying the commit rule in which a command is answered and no log holds it |
| `Protocol.BatchBounds` | floyd/src/floyd_peer_thread.cc:261-278 | a batch is empty exactly when the next index is beyond the log, and never exceeds the log |
| `Protocol.BatchGrows` | floyd/src/floyd_peer_thread.cc:261-278 | a batch that is built again after the log has grown covers the earlier one |
| `Protocol.AppendRequestOf` | floyd/src/floyd_peer_thread.cc:229-259 | a message carries a slice of the sender's log right after the previous index, and index 0 comes with term 0 |
| `Quorum.QuorumMatchIndex` | floyd/src/floyd_peer_thread.cc:178-192 | returns the greatest index that a strict majority of the peers and the leader hold, for every non-empty set of peers and all match indices |
| `Quorum.Sort` | floyd/src/floyd_peer_thread.cc:190-190 | in place, an ordered permutation |
| `Quorum.QuorumMeetsVoters` | floyd/src/floyd_peer_thread.cc:65-70 | the holders of an index that a majority holds meet every set of voters that is accepted |
| `FloydNode.FloydNode.constructor` | floyd/src/floyd_impl.cc:299-305 | opening a store gives back the saved term, vote, commit index, applied index and exactly the stored log; the role is follower and `vote_for_` is empty |
| `FloydNode.FloydNode.RecoverInit` | floyd/src/floyd_context.cc:19-26 | reads back what was saved, the vote included |
| `FloydNode.VoteRoundTrip` | floyd/src/floyd_context.cc:19-26 | a saved vote is read back as it was |
| `FloydNode.FloydNode.BecomeFollower` | floyd/src/floyd_context.cc:28-40 | new term, follower, the given leader; nothing else changes |
| `FloydNode.FloydNode.BecomeCandidate` | floyd/src/floyd_context.cc:42-50 | next term, candidate, no leader, one vote; nothing else changes |
| `FloydNode.FloydNode.BecomeLeader` | floyd/src/floyd_context.cc:52-56 | leader, with all next indices after the log and all match indices 0 |
| `FloydNode.FloydNode.UpdatePeerInfo` | floyd/src/floyd_peer_thread.cc:72-77 | every next index is after the log and every match index 0 |
| `FloydNode.FloydNode.LaunchCheckLeader` | floyd/src/floyd_primary_thread.cc:101-123 | a leader does nothing; a server alone leads its current term; a node whose leader is silent stands for the next term and asks every peer; term and vote are saved |
| `FloydNode.FloydNode.NoticePeers` | floyd/src/floyd_primary_thread.cc:138-158 | one request to every peer, with the candidate's term and the end of its log |
| `FloydNode.FloydNode.ReplyRequestVote` | floyd/src/floyd_impl.cc:714-776 | grants exactly when the term is no earlier, the candidate's log is at least as up to date and the term's vote is free or already its own; a grant or a later term makes a follower without leader; the reply carries the greater term |
| `FloydNode.FloydNode.GrantVote` | floyd/src/floyd_impl.cc:758-767 | notes the vote for the term; what is saved as the vote is empty |
| `FloydNode.FloydNode.CheckAndVote` | floyd/src/floyd_peer_thread.cc:65-70 | counts a vote of the current term and tells whether it makes a majority of the configured members |
| `FloydNode.FloydNode.TakeVoteReply` | floyd/src/floyd_peer_thread.cc:122-174 | a later term, or a denial to a candidate, makes a follower of the reply's term without leader; a candidate stays one exactly when the vote was granted in no later term and does not complete a majority of its own term, and leads exactly when it does |
| `FloydNode.FloydNode.BuildAppendEntries` | floyd/src/floyd_peer_thread.cc:220-278 | builds the protocol's message for a peer, and none exactly when there is nothing new and the peer was sent something recently |
| `FloydNode.FloydNode.CollectBatch` | floyd/src/floyd_peer_thread.cc:261-278 | copies the longest batch that the limits allow |
| `FloydNode.FloydNode.ReplyAppendEntries` | floyd/src/floyd_impl.cc:789-893 | an earlier term is refused and changes nothing; otherwise the node is in the sender's term and follows the sender exactly if the term was later or it had no leader; log and commit index follow from the previous entry; a failed write is answered as a heartbeat, and reported exactly when the message builds on index 0 |
| `FloydNode.FloydNode.StoreEntries` | floyd/src/floyd_impl.cc:817-885 | succeeds exactly when the log holds the previous entry and no write error is noticed; then the log is cut there and extended by what was written, otherwise it loses that entry and all after it |
| `FloydNode.FloydNode.AdvanceFollowerCommitIndex` | floyd/src/floyd_impl.cc:778-787 | commit index becomes the smaller of the leader's and the last index, and is saved |
| `FloydNode.FloydNode.AdvanceLeaderCommitIndex` | floyd/src/floyd_peer_thread.cc:196-204 | commit index rises to the greatest index that a strict majority holds if that is greater, and is saved |
| `FloydNode.FloydNode.TakeAppendReply` | floyd/src/floyd_peer_thread.cc:299-348 | a leader that sees a later term becomes follower of that very term, saved, and keeps log, votes and views; an acknowledged batch moves match and next index to its end and may raise the commit index to the greatest index that a majority holds; a refusal moves the next index back |
| `FloydNode.FloydNode.ExecuteCommand` | floyd/src/floyd_impl.cc:608-620 | appends the command in the current term; when the write fails nothing changes, and the failure is reported if and only if the log is empty |
| `FloydNode.FloydNode.ApplyStateMachine` | floyd/src/floyd_apply.cc:62-94 | applies the entries from the applied to the commit index in order and records that; after a failure the store holds the entries before it and nothing is recorded; with nothing to apply, even when the commit index has fallen, the store is untouched |
| `Keys.BigEndianRoundTrip` | floyd/src/raft_log.cc:22-33 | decoding gives the encoded number back |
| `Keys.FromBigEndianRoundTrip` | floyd/src/raft_log.cc:22-33 | every byte string is the encoding of what it decodes to |
| `Keys.BigEndianOrder` | floyd/src/raft_log.cc:22-27 | the encoding preserves and reflects order |
| `Keys.IndexBeforeMeta` | floyd/src/raft_meta.cc:19-23 | every index below 0x41 * 2^56 sorts before each of the five meta keys |
| `Keys.FiveBack` | floyd/src/raft_log.cc:39-49 | from the last key five back is the key of the last log index, or nothing for an empty log |
| `Disk.HistoryReopens` | floyd/src/raft_log.cc:35-136 | after any history of appends, failed appends, truncations and meta writes the store holds exactly the plain sequence's log, and reopening finds its last index |
| `Disk.HistoryKeepsMeta` | floyd/src/raft_meta.cc:55-137 | after any history a meta key holds what was last written to it, and otherwise what it held before |
| `Disk.AppendLayout` | floyd/src/raft_log.cc:57-76 | a write batch appends, and leaves the meta data alone |
| `Disk.TruncateLayout` | floyd/src/raft_log.cc:120-136 | a delete batch keeps the entries before the index, and leaves the meta data alone |
| `LogStore.RaftLog.constructor` | floyd/src/raft_log.cc:35-52 | opening any store of log and meta keys finds the only last index that fits it if and only if the log is empty or no meta key is missing |
| `Disk.ReopenExactly` | floyd/src/raft_log.cc:39-49 | five back from the last key leads to the last log index if and only if the log is empty or no meta key is missing |
| `LogStore.RaftLog.RecoverLast` | floyd/src/raft_log.cc:39-49 | computes where five steps back from the last key lead |
| `LogStore.RaftLog.Append` | floyd/src/raft_log.cc:57-76 | the log is extended by the entries, or nothing changes when the write fails; the result is the last index |
| `LogStore.RaftLog.GetLastLogIndex` | floyd/src/raft_log.cc:78-80 | the length of the log |
| `LogStore.RaftLog.GetEntry` | floyd/src/raft_log.cc:82-94 | the entry at an index from 1 to the last one, and nothing elsewhere |
| `LogStore.RaftLog.GetLastLogTermAndIndex` | floyd/src/raft_log.cc:96-115 | term and index of the last entry, 0 and 0 for an empty log |
| `LogStore.RaftLog.TruncateSuffix` | floyd/src/raft_log.cc:120-136 | ends for every index from 1 on and keeps the entries before it; after a failed write the store no longer fits the last index |
| `LogStore.RaftMeta.Init` | floyd/src/raft_meta.cc:37-53 | afterwards all five keys exist, and no number, no vote and no log entry has changed |
| `LogStore.RaftMeta.GetCurrentTerm` | floyd/src/raft_meta.cc:55-64 | the saved term, 0 if there is none |
| `LogStore.RaftMeta.SetCurrentTerm` | floyd/src/raft_meta.cc:66-71 | changes that key only |
| `LogStore.RaftMeta.GetCommitIndex` | floyd/src/raft_meta.cc:105-114 | the saved commit index, 0 if there is none |
| `LogStore.RaftMeta.SetCommitIndex` | floyd/src/raft_meta.cc:116-120 | changes that key only |
| `LogStore.RaftMeta.GetLastApplied` | floyd/src/raft_meta.cc:122-131 | the saved applied index, 0 if there is none |
| `LogStore.RaftMeta.SetLastApplied` | floyd/src/raft_meta.cc:133-137 | changes that key only |
| `StateMachine.ReplayIsHarmless` | floyd/src/floyd_apply.cc:62-115 | for write, delete and read entries, any number of tries that stop early followed by the whole batch gives the same store as the batch once |
| `StateMachine.LastTouchWins` | floyd/src/floyd_apply.cc:104-115 | a key holds what the last entry that touches it says, and otherwise what it held before |
| `StateMachine.LockReplayDiffers` | floyd/src/floyd_apply.cc:116-162 | a batch of two lock entries whose replay gives the lock to another holder |
| `Replay.ReplayWithLocks` | floyd/src/floyd_apply.cc:62-162 | for batches of any entries in which every key that is unlocked is also written or deleted: any number of early tries, each at one instant before the last, followed by the whole batch while the clock goes on give the same store as the batch once |
| `Replay.TimePassesInATry` | floyd/src/floyd_apply.cc:116-137 | when a lease ends between two entries of a try, replay can give the lock to another holder |
| `StateMachine.RangeIsAll` | floyd/src/floyd_apply.cc:75-88 | for key-value entries the apply loop's result does not depend on the clock |
| `StateMachine.RangeEmpty` | floyd/src/floyd_apply.cc:71-73 | a range that ends where it begins or before leaves the store alone |
| `Leases.PossessionsDisjoint` | floyd/src/floyd_apply.cc:116-162 | with a clock that never goes back and a key that is only locked and unlocked, among any other entries, the possession of an earlier grant has ended when the lock is granted again |
| `Leases.GrantsApart` | floyd/src/floyd_apply.cc:116-162 | between two grants the first lease has ended strictly before the second, or its own holder released it within the lease |
| `Leases.GrantStays` | floyd/src/floyd_apply.cc:116-162 | until such a release or a new grant the store keeps holder and lease |
| `Leases.HolderWasGranted` | floyd/src/floyd_apply.cc:116-162 | what is stored under a lock was put there by a grant that nothing has ended |
| `Membership.ViewsAgree` | floyd/src/floyd_apply.cc:163-180 | after every sequence of add and remove entries the stored list has no duplicates, is the context's set, and the peers are that set without this server |
| `Membership.LastChangeDecides` | floyd/src/floyd_apply.cc:163-180 | after any sequence of entries a server is a member if and only if the last entry that names it adds it, or none names it and it was one before; list and peers say the same |
| `Membership.ChangedExactly` | floyd/src/floyd_apply.cc:203-220 | an addition appends a new name, a removal puts the last name in its place, and nothing else moves |
| `Membership.RemovedDropsOne` | floyd/src/floyd_apply.cc:203-214 | moving the last name into the removed one's place drops exactly that name and creates no duplicate |
| `Membership.Members.MembershipChange` | floyd/src/floyd_apply.cc:190-226 | edits the stored list in place into the changed list, or reports that there is none |
| `Membership.Members.AddNewPeer` | floyd/src/floyd_impl.cc:219-233 | adds a peer unless it is this server |
| `Membership.Members.RemoveOutPeer` | floyd/src/floyd_impl.cc:235-248 | removes a peer unless it is this server |
| `Membership.Members.Apply` | floyd/src/floyd_apply.cc:163-180 | an add entry puts the server into the list, the set and, unless it is this server, the peers; a remove entry takes it out of all three; agreement is kept, and without a stored list nothing changes |
| `SingleMode.ReadsLinearize` | floyd/src/floyd_impl.cc:608-663 | in every interleaving, a read issued after another command was answered sees a log prefix that holds that command and, if it was a read, all that it saw |
| `SingleMode.ReadSeesPrefix` | floyd/src/floyd_impl.cc:640-655 | an answered read is the key's value after a log prefix that contains its own entry |
| `SingleMode.AnsweredBeforeIssued` | floyd/src/floyd_impl.cc:631-638 | everything an answer can have seen comes before the entry of any command issued later |
| `SingleMode.StepKeepsInv` | floyd/src/floyd_apply.cc:62-94 | every step of a client or of the apply thread keeps the store equal to a log prefix, though commit writes race |
| `SingleMode.OneRoundApplies` | floyd/src/floyd_apply.cc:62-94 | from every reachable state with an idle apply thread and something committed but not applied, one round of the apply thread applies exactly up to the commit index, and then every waiting client up to it can be answered |
| `SingleMode.RoundEnds` | floyd/src/floyd_apply.cc:75-93 | a round under way can always run to its target |
| `SingleMode.ClientStepsOutcome` | floyd/src/floyd_impl.cc:632-663 | an answer gives a read the value of its key and a write nothing; answering and giving up change that client only |
| `SingleMode.CommitFallsOutOfOrder` | floyd/src/floyd_impl.cc:623-626 | in every run the commit index falls at a step if and only if that step is a client's write and the last write before it was of a greater index |
| `SingleMode.CommitFallsExactly` | floyd/src/floyd_impl.cc:623-626 | in any state a step lowers the commit index if and only if a client writes a smaller one |
| `SingleMode.CommitCanGoBack` | floyd/src/floyd_impl.cc:623-626 | two clients can make the commit index go from 2 to 1 |

## Left out

- Restart and membership change inside cluster runs: votes are not restored and member counts are mixed, so the cluster results do not extend to them. Reopening a store and membership entries are covered on one server.
- Serialisation (`floyd.pb`), connection pool, worker dispatch, logging, options and tools. Messages and entries are datatypes; encoding is the identity.
- RocksDB internals: a store is a map with bytewise ordered keys, and a write batch is atomic. An iterator that has left the store stays outside.
- Integers are unbounded. Log indices stay below 0x41 * 2^56; terms are not bounded.
- The size of a message header is constant; in the original its encoding grows with the numbers in it.
- FloydNode.FloydNode.ReplyAppendEntries: asks that a message with previous index 0 carries previous term 0, because the original would not return from any other.
- LogStore.RaftLog.TruncateSuffix: asks for an index of at least 1, because the loop of the original does not end for 0.
- FloydNode.FloydNode.ApplyStateMachine: membership entries leave its table alone and the peers of the object are fixed; `Membership.Members.Apply` is what they do.
- Replay.ReplayWithLocks: is not an exact condition; some batches that unlock without overwriting replay harmlessly as well, depending on holders and leases.
- The debug line that reads the first four match indices, and `QuorumMatchIndex` without any peer, which throws.
- `GetNewFencingToken`: its key would break the layout that reopening relies on, and nothing calls it.
- The values that `ExecuteCommand` reads for lock and membership commands, and redirection to the leader.
- Agreement of replicas on locks: each replica uses its own clock. `Leases` is about one replica.
- A plain value that is read as a lock counts as an empty lock; lock keys are meant to be used for locks only.
- Membership.Members.MembershipChange: a slot past the live end of the list reads as an empty name, and server names are not empty.
- Apply failures in single mode, and timers: a timeout may happen at any time.
- The apply thread reads entries one by one without the global lock; in cluster runs an apply round is one step. `SingleMode` has the finer steps.
- `voted_for_ip` and `voted_for_port` never decide anything and are not part of the abstract state of a node.
