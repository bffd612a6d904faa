# Verified model of the replicated canvas

A cluster of replicas keeps one ordered log of drawing commands by the Raft protocol, applies the committed
part of it to a canvas, and compacts it into snapshots. This project models that core in Dafny and proves it,
at levels that rest on one another. `dafny verify dfyconfig.toml` checks everything.

## Levels

**The cluster** (`RaftTypes`, `Logs`, `Quorums`, `Protocol`, `Cluster`, then `Invariants`, `Frames`, `CoreSteps`,
`CoreReplication`, `Steps`, and `AnyRun`, `Safety`, `Reads`, `Delivery`), with logs that are never compacted.
`Protocol` holds one function for every stretch of code that a replica runs without awaiting anything.
`Cluster.Step` lists the steps of a run: starting and finishing an election, delivering a vote request,
submitting, sending entries or a snapshot, delivering them, consuming the reply (with the commit rule), beginning
and finishing a read, and crashing, including crashes between adopting a term and answering, and between cutting
and writing the log. A crash keeps term, vote and log; the commit index comes back as any snapshot index up to the
former one. What compaction can do to a request is part of a delivery: the term of the previous entry may be
missing, and the receiver may trust a previous entry inside its snapshot, wherever below the commit index that
ends. Messages are never removed from the network, so they may be lost, delayed, reordered and repeated, and every
timer is a free choice. A history beside the state records who led a term, that leader's log (which only grows
within the term), votes, confirmations and commits; no step looks at it.

`Cluster.IsRun` is any such run of two or more replicas. `AnyRun` proves over all of them, with an invariant of
its own, what does not depend on match indexes: one leader a term, log matching, and which entry stands where one
was submitted. In those runs a replica takes no batch on the strength of a term that its leader did not send
(`Protocol.TakenAsSent`); in timely runs that holds by itself (`Steps.TrustIsJustified`). `Delivery` adds, also
over all of them, in what order requests arrive. `Cluster.IsTimelyRun` is a run in which no reply misleads a
leader (see below); `Steps.StepKeeps` is the inductive invariant for those, and `Safety` and `Reads` state what
follows.

**One replica** (`Storage`, `Replicas`, `Deployment`). `Storage.Disk` is what the three tables hold;
`Storage.Represents` says which uncompacted log it stands for. `Replicas.RaftNode` is the replica as an object
with its fields, its store and its state machine. The handlers are proved to keep `Valid()` and to do, on the
uncompacted log, exactly the step that `Protocol` describes; `HandleAppendEntries` does so exactly unless the
batch is not safely placed, and then its contract says what is left. `Deployment` states what the network delivers
in a timely run: it satisfies all that the handlers require, and what arrives in order is safely placed.

**Both together** (`CompactedCluster`). A `System` is the cluster with a store and a state machine for each replica.
Its events are described by the predicates that the contracts of the handlers ensure (`Replicas.Answered`, `Sends`,
`Took`, and soundness of the store), and by what `start()` finds on a disk that a crash left behind. Every event is a
step of the cluster without compaction, and every run of the system is one of its timely runs, in which every
store stands for its replica's log. The canvases that replicas really have are then prefixes of one history, and
show whatever was submitted before an answered read began.

**The state machine** (`Canvas`, `StateMachines`, `Deduplication`, `LogHistory`). The incremental object is
proved against functions on the whole log; those are then characterised independently.

`Conduct` spells out, on the fields of a replica and without the definitions in `Protocol`, what each handler does and
answers; the methods of `Replicas.RaftNode` ensure the same. It also says which campaigns succeed. `CommitScan`
proves the commit rule against an independent description, and `BackOff` how a leader brings a follower up to date,
by entries or by its snapshot. `Trails` and `Counterexamples` build concrete runs in which something goes wrong.

## Hypotheses, and where the code falls short

* *No confirmation misleads a leader* (`Cluster.Timely`): a leader does not take a confirmation of an earlier
  term for one of an entry of its own term. The code checks only that the replica leads
  (`replicas/raft/RaftNode.js:311`). All other stale replies are harmless and are allowed: refusals, higher terms,
  replies about snapshots (`replicas/raft/RaftNode.js:341-345`), and confirmations that reach no entry of the
  leader's own term. `Steps.MatchStaysTrueExactlyIf` shows that a misleading one makes a match index false unless
  the peer happens to have confirmed as much again. `Counterexamples.StaleReplyLosesCommitted` is a run of five
  replicas where such a reply makes a leader commit an entry that only two replicas hold, and the next leader
  lacks it.
* *A crash between cutting and writing hits no batch that begins below our stored rows* (`Storage.SafelyCut`). The
  handler deletes from the first entry that it misses, and then writes (`replicas/raft/RaftNode.js:481-483`). A
  compacted index reads as missing, so for such a batch, in order and safely placed though it may be, every row
  goes first. `Storage.CutRefinesExactlyIf` and `Replicas.CrashInsideCutRecovers` show that the store is cut like
  the uncompacted log exactly under this condition (or when that log, too, is cut down to the snapshot), and that
  otherwise only the snapshot is left. `Replicas.CutLosesCommitted` is a replica that loses a committed and
  confirmed entry in this way, to a request that brings only one entry which it does not hold, behind all others.
* *A batch does not end below our last index when it begins below our stored rows* (`Storage.SafelyPlaced`). A
  compacted index reads as missing, so such a batch makes the store forget entries. `Storage.WriteRefinesExactlyIf`
  shows that the store follows the uncompacted log exactly under this condition, once it has written.
  `Delivery.NotSafelyPlacedWasOvertaken` shows for every run that a batch without it was overtaken by a longer
  request of the same leader and term which the receiver has confirmed, and `Delivery.InOrderIsSafelyPlaced` that
  delivery in the order of sending is enough.
* *A reading leader holds no entry of an older term above its commit index* (`Reads.NothingOlderAbove`). The code
  lets a read pass when the last committed entry is of the leader's own term, which implies the condition
  (`Reads.CurrentTermLeavesNothingOlder`), and also when the commit index lies in the snapshot
  (`replicas/raft/RaftNode.js:538-540`), which does not. Both branches are steps of the model.
  `Reads.ReadsMissOnlyOlderEntries` says what an answered read can miss at all: only entries of older terms that
  the leader holds above its commit index. `Counterexamples.SnapshotLetsStaleReadThrough` is a proper run with a
  read that misses one, against the comment at `replicas/raft/RaftNode.js:6` and line 97 of the repository's own
  `README.md`, which promise linearizable reads.
* *Installing a snapshot is atomic.* The handler truncates before it saves
  (`replicas/raft/RaftNode.js:517-524`). `Storage.InstallCrashKeepsLogExactlyIf` says when a crash in between
  is harmless: only when nothing was stored above the old snapshot.
* *The resolved index of submit() is the submitted entry's while its leader keeps leading the term.*
  The wait ends as soon as the commit index is high enough, before role and term are looked at
  (`replicas/raft/RaftNode.js:248-253`). `Counterexamples.AnsweredWithAnotherEntry` is a proper run where the
  leader lost and regained office and the answer names somebody else's entry. `AnyRun.SubmittedEntryStands`
  gives the exact condition, and `Safety.SubmitIsHonest` the case of an uninterrupted term.
* *Exactly-once needs room in the dedupe table.* Line 96 of the repository's own `README.md` promises
  exactly-once writes; a client that was evicted from the table draws again
  (`Deduplication.ForgottenClientDrawsTwice`).
  `Deduplication.RepetitionIsDroppedExactlyWhileRecent` gives the exact condition.
* *A command may bring along its own field called* `index`, which replaces the entry's
  (`replicas/raft/StateMachine.js:68-69`). `LogHistory.HistoryInGeneral` says what the history is for every log,
  and `LogHistory.HistoryIsExactIff` that it is exact, at any moment, exactly when no applied and drawn command
  does that with another value.
* The term sent along for the previous entry is missing in one case, after a crash between saving a snapshot and
  truncating (`Storage.PrevTermIsTrueExactlyIf`). A follower without that entry in its snapshot then refuses, and
  the leader backs off to a snapshot; one with it takes the batch, rightly (`Steps.TrustIsJustified`). A replica
  also confirms a request that was placed behind its leader's log when its own snapshot reaches further by then;
  that confirmation is true (`Steps.ConfirmationIsTrue`).
* The comment at `replicas/raft/StateMachine.js:14-16` calls the dedupe table a stub; the code implements it,
  and the model follows the code.

## Model

| member | source | states |
|---|---|---|
| AnyRun.ElectionSafety | replicas/raft/RaftNode.js:164-194 | In every run, no term has two leaders, at any two moments, crashes between voting and replying included |
| AnyRun.LogMatchingHolds | replicas/raft/RaftNode.js:441-494 | In every run, two logs with one term at one index are identical up to it; terms along a log never decrease and never exceed the owner's |
| AnyRun.StepKeepsBase | replicas/raft/RaftNode.js:164-580 | Every step whatsoever keeps the invariant about votes, leaders, leader logs, log contents and requests |
| Safety.LeaderCompleteness | replicas/raft/RaftNode.js:361-380 | In every run where no confirmation misleads a leader: whatever any replica regarded as committed at any moment is in the log of every leader of a later term, at any moment |
| Safety.StateMachineSafety | replicas/raft/RaftNode.js:382-391 | Any two replicas, at any two moments and across restarts, hold equal logs through every index that both regard as committed |
| Safety.CommittedStays | replicas/raft/RaftNode.js:473-491 | What a replica once regarded as committed stays in its log for the rest of the run |
| Safety.CommitIndexGrows | replicas/raft/RaftNode.js:487-491 | The commit index never passes the last index, and no step but a crash of the replica lowers it |
| Safety.StepKeepsCommitted | replicas/raft/RaftNode.js:473-485 | Without compaction, no step, not even a crash between cut and write, truncates a committed entry |
| AnyRun.SubmittedEntryStands | replicas/raft/RaftNode.js:246-256 | In every run, at an index that a replica holds at any moment, the submitted entry is there exactly when the entry there has the submission's term |
| Safety.SubmitIsHonest | replicas/raft/RaftNode.js:210-244 | A wait that ends while the leader still leads the submission's term names the submitted entry, for all replicas that ever commit that index |
| Reads.ReadsMissOnlyOlderEntries | replicas/raft/RaftNode.js:532-580 | An answered read, let through by either branch, misses an index that some replica had committed at some moment before it began exactly when that entry is of an older term and the leader holds it above its commit index |
| Reads.ReadsAreLinearizable | replicas/raft/RaftNode.js:532-580 | Without such entries in the leader's log when the read begins, it returns at least every index committed before |
| Reads.CurrentTermLeavesNothingOlder | replicas/raft/RaftNode.js:537-543 | The current-term branch leaves no such entries; neither does a commit index in the snapshot right in front of the leader's own first entry |
| Reads.AnswerIsCovered | replicas/raft/RaftNode.js:545-546 | The answer is the commit index of the leader when the read began, and its commit index still covers it while it leads |
| Steps.StepKeeps | replicas/raft/RaftNode.js:164-580 | Every step in which no confirmation misleads a leader keeps the invariant and only moves the history forward |
| Steps.InitOk | replicas/raft/RaftNode.js:33-60 | A cluster of fresh replicas satisfies the invariant |
| Steps.FinishElectionKeeps | replicas/raft/RaftNode.js:181-194 | Winning with granted votes of one term, or losing or stepping down, keeps the invariant |
| Steps.DeliverAppendKeeps | replicas/raft/RaftNode.js:441-494 | Answering append entries, with the confirmation it records, keeps the invariant, even if the request lacks the term in front or the replica trusts its snapshot instead |
| Steps.ReceivedOk | replicas/raft/RaftNode.js:455-459 | Trusting the snapshot is right: what is accepted that way is cut out of the log of the request's leader, which reaches that far |
| Steps.TrustIsJustified | replicas/raft/RaftNode.js:455-459 | Under the invariant, no batch is ever taken that was not meant for the log, however much was compacted |
| Steps.ConfirmationIsTrue | replicas/raft/RaftNode.js:441-494 | After a successful reply the receiver's log agrees with the log of the request's leader through all that the request covers, given from inside a snapshot or not |
| Steps.DeliverReplyKeeps | replicas/raft/RaftNode.js:309-347 | Consuming any reply that does not mislead, of whatever term, keeps the invariant |
| Steps.MatchStaysTrueExactlyIf | replicas/raft/RaftNode.js:315-318 | Recording a confirmation keeps the match indexes true exactly when it does not mislead, or the peer confirmed as much in the leader's own term as well |
| Steps.SnapshotMayBeRecorded | replicas/raft/RaftNode.js:341-345 | Replies about snapshots never claim an entry of the leader's own term falsely, however late they come |
| Delivery.NotSafelyPlacedWasOvertaken | replicas/raft/RaftNode.js:473-485 | In every run, a batch that would harm a compacted store was overtaken: the receiver holds an entry of the request's term behind it and has confirmed a longer request of that leader |
| Delivery.InOrderIsSafelyPlaced | replicas/raft/RaftNode.js:295-303 | In every run, a request that arrives in the order of sending is safely placed in any store |
| Steps.CrashInsideWriteKeeps | replicas/raft/RaftNode.js:481-483 | Without compaction, or when the batch is safely cut, a crash after cutting the log and before writing the rest keeps the invariant |
| Steps.ConfirmedNotSuperseded | replicas/raft/RaftNode.js:558-571 | A majority of successful probe answers rules out that a majority had left the read's term when the read began |
| CoreSteps.GrantVote | replicas/raft/RaftNode.js:421-439 | A granted vote vouches that the candidate's log holds whatever committable entries the voter confirmed |
| CoreSteps.WinElection | replicas/raft/RaftNode.js:123-147 | A candidate with the votes of a majority holds every committable entry, and its term was free |
| CoreReplication.LeaderAppends | replicas/raft/RaftNode.js:197-202 | Appending one's own entry extends the term's leader log and endangers nothing committable |
| CoreReplication.FollowerWrites | replicas/raft/RaftNode.js:473-485 | A follower's write makes its log agree with the leader's through the batch, and loses nothing it had confirmed and nothing committed |
| CoreReplication.FollowerCuts | replicas/raft/RaftNode.js:481-483 | Nor does the cut alone, of a log that is not compacted |
| CoreReplication.FollowerCommits | replicas/raft/RaftNode.js:487-491 | Clamping the leader's commit index to one's own last index is safe |
| CoreReplication.LeaderCommits | replicas/raft/RaftNode.js:361-380 | What the scan commits is of the current term and confirmed by a majority |
| Quorums.QuorumsMeet | replicas/raft/RaftNode.js:173-173 | Any two majorities share a replica |
| Quorums.PeersOf | replicas/raft/RaftNode.js:36-36 | The peers of a replica: everybody else, each once |
| Conduct.VoteIsGrantedIff | replicas/raft/RaftNode.js:421-439 | A vote is granted exactly to a candidate that is not outdated, to whom no other vote of its term stands in the way, and whose log is lexicographically at least as good; with term, vote and role afterwards |
| Conduct.CampaignEndsSo | replicas/raft/RaftNode.js:181-194 | An outdated campaign changes nothing, the first higher term ends it, more than half of all replicas win it, and nothing else does |
| Conduct.CampaignSucceedsIff | replicas/raft/RaftNode.js:164-194 | When nobody reached is in a later term, a campaign succeeds exactly when more than half of all replicas, the candidate included, may vote for it |
| Conduct.RequestCarries | replicas/raft/RaftNode.js:273-303 | A request carries the leader's commit index and everything from the peer's next index on, be that nothing |
| Conduct.RequestIsAnsweredSo | replicas/raft/RaftNode.js:441-494 | When a request is accepted, what is answered, and role, term, vote and commit index afterwards |
| Conduct.AcceptedBatchIsHeld | replicas/raft/RaftNode.js:473-485 | After acceptance the log holds the whole batch by term, and it is unchanged exactly if it did so before |
| Conduct.CommitCatchesUp | replicas/raft/RaftNode.js:487-491 | Whoever accepts a request, with or without entries, has afterwards the larger of its own and the leader's commit index |
| Conduct.TrustInsideSnapshot | replicas/raft/RaftNode.js:450-459 | Inside its snapshot a replica accepts every request that is not outdated, and takes all others as they come |
| Conduct.ReplyIsTakenSo | replicas/raft/RaftNode.js:309-324 | A higher term ends the leadership and empties the vote; a confirmation sets match and next index of that peer alone, a refusal its next index alone |
| Conduct.SnapshotReplyIsTakenSo | replicas/raft/RaftNode.js:341-345 | Without a higher term, match and next index of that peer alone become the snapshot's index and the one behind it |
| Conduct.ReadConfirmedIff | replicas/raft/RaftNode.js:558-575 | A read is confirmed exactly by more than half of all replicas, without a higher term, in the term in which it began |
| Conduct.ReadEndsSo | replicas/raft/RaftNode.js:559-565 | The first higher term among the answers ends the leadership and empties the vote; otherwise nothing changes |
| Protocol.ScanCommit | replicas/raft/RaftNode.js:364-379 | The highest index above the commit index that may be committed, or the commit index itself |
| CommitScan.ScanIsOrderStatistic | replicas/raft/RaftNode.js:361-380 | The scan reaches the k-th largest of match indexes and own last index exactly when that is progress and its entry has the current term, and otherwise changes nothing |
| CommitScan.ConfirmationCommits | replicas/raft/RaftNode.js:315-319 | A confirmation advances the leader exactly to the majority index that it makes known, if the entry there has the current term |
| CommitScan.NewLeaderIsNotBlocked | replicas/raft/RaftNode.js:139-140 | Once a majority holds the NOOP of a new leader, everything is committed and reads may begin |
| CommitScan.OldTermsBlock | replicas/raft/RaftNode.js:356-359 | Entries of earlier terms alone never move the commit index |
| CommitScan.HeldByMajorityIff | replicas/raft/RaftNode.js:367-372 | Counting replicas at an index reaches a majority exactly up to that order statistic |
| CommitScan.DescendingSorts | replicas/raft/RaftNode.js:350-353 | The sorting behind the order statistic sorts, and keeps all values |
| BackOff.YesIffAgreed | replicas/raft/RaftNode.js:450-471 | With matching logs, a follower accepts exactly when the logs agree in front of the entries sent, unless the leader has lost the term there |
| BackOff.ShippingTeaches | replicas/raft/RaftNode.js:327-345 | After a snapshot and its reply the follower holds, as committed, everything through it, the leader knows exactly that, and knows of the other peers what it knew before |
| BackOff.ConvergesAtCommonPrefix | replicas/raft/RaftNode.js:273-325 | From any next index, and whatever the leader compacted, requests and replies end with agreement through the leader's last index, a commit index that is the larger of the two, and a match index that says exactly what is held; the number of requests is stated exactly, one snapshot for a follower that needs rows which are gone included |
| Logs.AlreadyHeld | replicas/raft/RaftNode.js:475-479 | How many leading entries of a batch are held already, by term, and that the next one is not |
| Logs.AcceptAgrees | replicas/raft/RaftNode.js:473-485 | After accepting a leader's batch the log agrees with the leader's through its end, and is otherwise unchanged |
| Storage.MaxOf | replicas/raft/Persistence.js:81-81 | The largest stored index |
| Storage.MinOf | replicas/raft/Persistence.js:82-82 | The smallest stored index |
| Storage.QueriesAnswerForLog | replicas/raft/Persistence.js:117-147 | Last index, last term, first index and single entries on the store are those of the log it stands for |
| Storage.RangeIsSlice | replicas/raft/Persistence.js:150-153 | A range query up to the end is the corresponding slice of the log |
| Storage.PrevTermIsTrueExactlyIf | replicas/raft/RaftNode.js:283-293 | The previous term sent along is the true one exactly unless rows begin inside the snapshot and exactly the first of them is next; then it is -1 |
| Storage.FirstToWriteIsAfterHeld | replicas/raft/RaftNode.js:474-479 | Among stored rows, the first conflict on the store is the first entry that the log does not hold |
| Storage.WriteRefinesExactlyIf | replicas/raft/RaftNode.js:473-485 | The store accepts a leader's batch like the uncompacted log exactly when the batch is safely placed |
| Storage.CutRefinesExactlyIf | replicas/raft/RaftNode.js:475-482 | After the cut and before the write, the store stands for the log as it would be cut without compaction exactly when the batch is safely cut; otherwise for the snapshot alone |
| Storage.CompactionIsCrashSafe | replicas/raft/RaftNode.js:408-410 | Before the save, between save and truncation and after both, the store stands for the same log |
| Storage.InstallCrashKeepsLogExactlyIf | replicas/raft/RaftNode.js:517-524 | Truncating for a snapshot without saving it keeps the log exactly when nothing above the old snapshot was stored |
| Storage.InstallIsAccept | replicas/raft/RaftNode.js:515-524 | Installing a newer snapshot of a leader's log is accepting that log's prefix |
| Storage.Persistence.constructor | replicas/raft/Persistence.js:56-66 | A new file is blank; an existing one keeps what it holds |
| Storage.Persistence.SaveTermAndVote | replicas/raft/Persistence.js:107-109 | Term and vote change together, and nothing else |
| Storage.Persistence.GetRange | replicas/raft/Persistence.js:150-153 | The stored entries of a range, in index order |
| Storage.Persistence.AppendEntries | replicas/raft/Persistence.js:160-171 | A batch is put in, replacing rows of the same index |
| Storage.Persistence.TruncateFrom | replicas/raft/Persistence.js:174-176 | Rows from an index on are gone, and no others |
| Storage.Persistence.TruncateUpTo | replicas/raft/Persistence.js:179-181 | Rows up to an index are gone, and no others |
| Storage.Persistence.TruncateAll | replicas/raft/Persistence.js:184-186 | No rows are left |
| Storage.Persistence.SaveSnapshot | replicas/raft/Persistence.js:189-201 | Snapshot and its meta data change together, and nothing else |
| Replicas.RaftNode.constructor | replicas/raft/RaftNode.js:33-60 | A new replica is a follower of term 0 that knows nothing |
| Replicas.RaftNode.Start | replicas/raft/RaftNode.js:63-88 | Recovery yields the replica before the crash as a follower, with commit index and state machine at the snapshot |
| Replicas.RaftNode.BecomeFollower | replicas/raft/RaftNode.js:97-111 | A higher term is adopted and stored with no vote; a lower or equal one changes the role only |
| Replicas.RaftNode.BecomeCandidate | replicas/raft/RaftNode.js:113-121 | The next term, with a stored vote for oneself |
| Replicas.RaftNode.ResetPeers | replicas/raft/RaftNode.js:128-134 | Every peer's next index is one past the last, and its match index -1; no other keys remain |
| Replicas.RaftNode.BecomeLeader | replicas/raft/RaftNode.js:123-147 | Taking office resets the bookkeeping and then appends a NOOP of the new term |
| Replicas.RaftNode.AppendLocal | replicas/raft/RaftNode.js:197-202 | The log grows by exactly one entry, with the next index, the current term, and kind and payload as they were given |
| Replicas.RaftNode.StartElection | replicas/raft/RaftNode.js:164-179 | The vote request carries last index and term of the whole log, compacted or not |
| Replicas.RaftNode.FinishElection | replicas/raft/RaftNode.js:181-194 | Stale campaigns are ignored, the first higher term steps down, more than half of all replicas take office, as `Conduct.CampaignEnded` spells out |
| Replicas.RaftNode.HandleRequestVote | replicas/raft/RaftNode.js:421-439 | Reply and new state are those of the replica without compaction; the vote is granted exactly as `Conduct.Voted` spells out, and stored |
| Replicas.RaftNode.MaybeSnapshot | replicas/raft/RaftNode.js:398-418 | When enough was applied, the snapshot becomes the state of the state machine at lastApplied with the term there, exactly the rows behind it are left, and the store stands for the same log; otherwise nothing changes |
| Replicas.RaftNode.ApplyCommitted | replicas/raft/RaftNode.js:382-391 | Everything committed gets applied: no committed entry above lastApplied is ever missing from the store; then the store is compacted if that is due |
| Replicas.CrashInsideCompactionRecovers | replicas/raft/RaftNode.js:398-418 | A crash at any point of a compaction, followed by recovery, finds the same log and the fold of it up to the recovered snapshot |
| Replicas.CrashInsideCutRecovers | replicas/raft/RaftNode.js:475-483 | A crash between cut and write, followed by recovery, finds the log as it would be cut without compaction exactly when the batch is safely cut; otherwise only what the snapshot holds |
| Replicas.CutLosesCommitted | replicas/raft/RaftNode.js:475-483 | A replica and a safely placed request of a leader it follows, with nothing to cut, where such a crash loses a committed entry |
| Replicas.RaftNode.SendAppendEntries | replicas/raft/RaftNode.js:273-303 | Out goes the peer's missing suffix, empty or not, with the leader's commit index, and without the term in front exactly when that is lost; or the snapshot as a fold of a committed prefix when part of it was compacted away |
| Replicas.RaftNode.SendInstallSnapshot | replicas/raft/RaftNode.js:327-336 | The snapshot sent is the fold of the log's prefix up to the snapshot index |
| Replicas.RaftNode.OnAppendReply | replicas/raft/RaftNode.js:309-324 | Steps down, records the match and advances the commit index, or backs off by one but not below 0 |
| Replicas.RaftNode.RecordMatch | replicas/raft/RaftNode.js:316-318 | Match index and next index of one peer, and of no other |
| Replicas.RaftNode.BackOff | replicas/raft/RaftNode.js:321-322 | The next index of one peer goes back by one from that of the request |
| Replicas.RaftNode.OnSnapshotReply | replicas/raft/RaftNode.js:341-345 | Steps down; or records for that peer alone the snapshot index as the match and the one behind it as the next index |
| Replicas.RaftNode.CountHolders | replicas/raft/RaftNode.js:367-370 | Oneself plus the peers whose match index reaches n |
| Replicas.RaftNode.MaybeAdvanceCommitIndex | replicas/raft/RaftNode.js:361-380 | The downward scan over the store finds what the scan over the whole log finds, applies it, and compacts if that is due |
| Replicas.PrevStoredIff | replicas/raft/RaftNode.js:450-471 | The check on the store passes exactly when the entry before the batch matches, taking it to match inside the snapshot |
| Replicas.BelievedAsSent | replicas/raft/RaftNode.js:455-459 | For a request cut out of a leader's log, trusting the snapshot changes nothing |
| Replicas.BelievedIsCut | replicas/raft/RaftNode.js:450-471 | A batch that is accepted was cut out of the leader's log, even if its request lacked the term in front |
| Replicas.RaftNode.FirstConflict | replicas/raft/RaftNode.js:474-479 | The index of the first entry that is missing or of another term, or -1 |
| Replicas.RaftNode.WriteEntries | replicas/raft/RaftNode.js:473-485 | Rows from the first conflict on are replaced by the rest of the batch |
| Replicas.RaftNode.HandleAppendEntries | replicas/raft/RaftNode.js:441-494 | For every request of a leader, with or without the term in front: the reply of the replica without compaction that takes the previous entry to match inside the snapshot; its log and commit index too, with newly committed entries applied and the store compacted if that is due, unless the batch is accepted and not safely placed, and then only the batch is left of the rows: a shorter log, or a store that ends below the commit index |
| Replicas.RaftNode.HandleInstallSnapshot | replicas/raft/RaftNode.js:500-529 | For a snapshot of a leader's log: the same as being sent the whole prefix; a newer one replaces snapshot and state machine, and exactly the rows behind it stay, if its last entry was among them |
| Replicas.ReplayRebuilds | replicas/raft/RaftNode.js:515-526 | After a snapshot moved lastApplied back, replaying the entries kept rebuilds exactly the former state |
| Replicas.RaftNode.Submit | replicas/raft/RaftNode.js:210-232 | Refused without leadership; answered from the table exactly when the command is covered there, with the index of an accepted command of that client with at least that number, and exactly it unless a higher one was accepted; otherwise appended as one entry with kind and payload as given |
| Replicas.RaftNode.CheckCommit | replicas/raft/RaftNode.js:246-256 | Success means that the index is committed, with the submitted entry exactly if the entry there has its term; while the leader keeps leading the term, the wait is not given up, and success is success with the entry |
| Replicas.RaftNode.AnswerSubmit | replicas/raft/RaftNode.js:235-243 | The answer is the index in the table if the command is known there and one's own otherwise, and counts as deduped exactly when that is another index. When the entry at the index is the submitted one, the answer names an applied command of that client with at least that number, exactly it unless a higher one was accepted; the command named was accepted unless the client has been evicted since |
| Replicas.RaftNode.BeginReadIndex | replicas/raft/RaftNode.js:532-557 | A read starts exactly when the committed entry is of the current term or lies in the snapshot; the probe is placed at the last index of the whole log |
| Replicas.RaftNode.FinishRead | replicas/raft/RaftNode.js:558-575 | Confirmed exactly by a majority of acknowledgements in the same term; a higher term steps down |
| Replicas.RaftNode.CheckApplied | replicas/raft/RaftNode.js:576-578 | When the wait is over, the canvas shows every entry through the read index |
| Deployment.DeliveredRequestFits | replicas/raft/RaftNode.js:295-303 | In every timely run, a request in a term that its receiver has not left satisfies all that the handler requires, also without the term in front, and is safely placed in any store when it arrives in order |
| Deployment.SentSnapshotFits | replicas/raft/RaftNode.js:327-336 | In every timely run, a snapshot that was the fold of the sender's log when sent satisfies all that the receiving handler requires whenever it arrives, and stands for the same prefix |
| Deployment.CanvasesAgree | replicas/raft/StateMachine.js:51-73 | Of two replicas at two moments, across restarts, one canvas is a prefix of the other; equally far applied, the states are equal, table included |
| Deployment.ReadSeesSubmission | replicas/raft/RaftNode.js:532-580 | A read that begins after a submission was settled in its leader's uninterrupted term, with no older entry above the commit index, returns at least its index; whoever applied through the answer holds the entry and shows what it drew |
| Deployment.RetryDrawsNothing | replicas/raft/StateMachine.js:54-66 | In every run, of two submissions of one keyed command, to whatever leaders, the one that stands later in a replica's log draws nothing there while the table names the client |
| Deployment.ReportedHistoryIsExactIff | replicas/logHistory.js:1-14 | The history that a replica reports from its canvas and its compacted store is that of its log, at any moment and over every range, exactly when no applied and drawn command brings along a foreign index |
| CompactedCluster.EventSimulates | replicas/raft/RaftNode.js:164-580 | Every event of compacted replicas, crashes inside a compaction or a safely cut write included, is a step of the cluster without compaction, and keeps every store standing for its log |
| CompactedCluster.RunSimulates | replicas/raft/RaftNode.js:164-580 | Every run of compacted replicas with delivery in order is a timely run of the cluster; at every moment every store stands for its replica's log and every canvas is the fold of what was applied |
| CompactedCluster.ArrivalIsPossible | replicas/raft/RaftNode.js:441-494 | Whatever is under way can arrive, with an answer as the handler promises it, so that these runs are not cut short |
| CompactedCluster.CommittedStaysStored | replicas/raft/RaftNode.js:398-529 | What a replica once regarded as committed stays in its store, as a row or inside the snapshot, for the rest of the run |
| CompactedCluster.RealCanvasesAgree | replicas/raft/StateMachine.js:51-94 | Of the canvases of two replicas at two moments, one is a prefix of the other; equally far applied, the states are equal, table included |
| CompactedCluster.RealCanvasShowsSubmission | replicas/raft/RaftNode.js:532-580 | A submission settled before an answered read began shows on the canvas of every replica that has applied through the answer |
| StateMachines.StateMachine.constructor | replicas/raft/StateMachine.js:22-28 | A new state machine is empty |
| StateMachines.StateMachine.GetDedupeIndex | replicas/raft/StateMachine.js:31-35 | The index of the client's last accepted command, if its number covers the one asked for |
| StateMachines.StateMachine.TouchDedupe | replicas/raft/StateMachine.js:37-44 | The client moves to the end of the table, and the oldest is dropped when the table is over its limit |
| StateMachines.StateMachine.Apply | replicas/raft/StateMachine.js:51-73 | One step of the fold over the log: repeated entries and covered commands change nothing but the position |
| StateMachines.StateMachine.GetSnapshot | replicas/raft/StateMachine.js:82-87 | Strokes and table, in order |
| StateMachines.StateMachine.RestoreSnapshot | replicas/raft/StateMachine.js:90-94 | Exactly the snapshot's state at the given position |
| Canvas.SnapshotRoundTrip | replicas/raft/StateMachine.js:82-94 | Snapshot, restore, and applying the rest with any replay of covered entries equals applying the whole log, table order included |
| Canvas.PrefixCanvas | replicas/raft/StateMachine.js:51-73 | A prefix of the log draws a prefix of the canvas |
| Canvas.ReplayChangesNothing | replicas/raft/StateMachine.js:46-52 | Applying entries again changes nothing |
| Deduplication.TableIsLeastRecentlyUsed | replicas/raft/StateMachine.js:37-44 | After any log, the table holds each listed client's last acceptance, strictly sorted by index, and misses a client only when it is full of more recent ones |
| Deduplication.ExactlyOnce | replicas/raft/StateMachine.js:54-69 | While the log names at most dedupeMaxClients clients, the canvas holds exactly the unkeyed commands and those that set a new maximum for their client, in log order |
| Deduplication.RepetitionIsDroppedExactlyWhileRecent | replicas/raft/StateMachine.js:59-66 | A command covered by its client's last acceptance is drawn again exactly when at least dedupeMaxClients clients were accepted since |
| Deduplication.SecondDrawsNothing | replicas/raft/StateMachine.js:54-66 | A command that stands in the log again, while the table names its client in between, changes nothing but the position |
| Deduplication.NamedExactlyWhileRecent | replicas/raft/StateMachine.js:37-44 | The table names a client exactly while fewer than dedupeMaxClients clients were accepted since its last acceptance |
| Deduplication.LatestAnswersItself | replicas/raft/RaftNode.js:237-243 | The last accepted command of a client that the table names is answered with its own index |
| Deduplication.DedupedAnswerIsHonest | replicas/raft/RaftNode.js:223-229 | The index from the table is that of an accepted command of the client with at least that number, and exactly that one unless a higher one was accepted |
| Deduplication.ForgottenClientDrawsTwice | replicas/raft/StateMachine.js:40-43 | With room for one client, a repeated command is drawn twice |
| LogHistory.CanvasDepictsLog | replicas/raft/StateMachine.js:51-73 | For every log, the strokes are those of the accepted entries, each once, in log order |
| LogHistory.HistoryInGeneral | replicas/logHistory.js:1-14 | For every log, the history consists of the accepted entries whose strokes lie in the range, in log order, with the term of the row stored under the stroke's index |
| LogHistory.HistoryIgnoresCompaction | replicas/logHistory.js:6-12 | Compaction shows in nothing but missing terms |
| LogHistory.HistoryIsExactIff | replicas/logHistory.js:1-14 | At any moment, the history is exactly the accepted strokes of each range, in increasing index order and with true terms where the entry is still stored, exactly when no applied and drawn command brings along a foreign index |
| Counterexamples.StaleReplyLosesCommitted | replicas/raft/RaftNode.js:309-319 | A run where a reply from an earlier leadership breaks leader completeness |
| Counterexamples.AnsweredWithAnotherEntry | replicas/raft/RaftNode.js:246-256 | A proper run where submit() is answered with another entry |
| Counterexamples.SnapshotLetsStaleReadThrough | replicas/raft/RaftNode.js:537-543 | A proper run in which a read passes by its commit index in the snapshot, is confirmed and answered, and misses an entry that was committed before it began |

## Left out

- HandleAppendEntries: after a batch that leaves the store ending below the commit index, what the replica does next is not followed.
- HandleInstallSnapshot: one atomic step; a crash inside it is described by `Storage.InstallCrashKeepsLogExactlyIf` only, and is not an event of the system.
- StepKeepsCommitted: on a log that is not compacted, as CrashInsideWriteKeeps and FollowerCuts; a compacted store is cut alike exactly when the batch is safely cut (`Storage.CutRefinesExactlyIf`).
- CrashInsideWriteKeeps: see StepKeepsCommitted.
- FollowerCuts: see StepKeepsCommitted.
- RunSimulates: crashes between cut and write that hit a batch which is not safely cut, and confirmations that mislead, are no part of these runs; the code does not exclude them. Elections, submissions, replies and the rest of a read are events through what their handlers promise, not through their code a second time.
- LogMatchingHolds: of logs without compaction, as SubmittedEntryStands; where a misled leader has broken the agreement of committed entries, a compacted replica may trust its snapshot wrongly and take a batch that does not fit, which is no step of `Cluster.IsRun`.
- LeaderCompleteness: over runs in which no confirmation misleads a leader, as are StateMachineSafety, CommittedStays, SubmitIsHonest and the theorems about reads; the code does not enforce that.
- FinishElection: the answers are those of the peers that were reached, in the order in which the broadcast returns them; the same holds for FinishRead.
- Start: loads a disk value; opening the database and counting restarts are not modelled.
- GetSnapshot: the snapshot is a value; that the source hands out its own stroke array by reference is not captured.
- Apply: everything in a command but clientId, seq and a field named index is one opaque text; numbers are integers.
- ConvergesAtCommonPrefix: the follower's own log is not compacted; one that is may accept earlier, inside its snapshot (`Conduct.TrustInsideSnapshot`).
- CheckCommit: the condition only; the five-second timer, the event emitter and the promise around it are not modelled, nor is the error that the timer raises.
- CheckApplied: the condition of the waiting loop at the end of readIndex(); the polling itself is not modelled.
- SQLite, write-ahead logging and JSON: every store call is one atomic, durable change of a value.
- Timers and their durations, and with them liveness, apart from the termination of back-off.
- The HTTP shell, gateway, frontend, dashboard, logger, event log and benchmarks.
- The `/heartbeat` and `/sync-log` shims of `replicas/replicaServer.js`, which are not Raft messages.
- Membership change, and the cluster of one replica, in which no reply ever triggers the commit scan.
- The leaderId hint, status reports and the snapshot counter.
- The stop flag: a stopped replica is one that takes no further steps.
