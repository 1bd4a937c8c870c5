# OmniPaxos key/value stores, modelled and proved

A Dafny model of four connected parts of the repository, with proofs about every run, every
input or every log:

1. **The replicated log** (`a2-omnipaxos`): ballot leader election and sequence paxos as a step
   system with crashes, lost sessions and any number of leaders. Main results: agreement,
   leader completeness, validity, exact reconstruction of logs from the pieces that are sent,
   recovery of a follower to its leader's log.
2. **The sharded store** (`a3b-sharding/shardkv`): groups at different configuration numbers
   that pull shards from each other. Main results: one owner per shard, all groups together act
   as one map, each request takes effect at most once in the whole system.
3. **The shard controller** (`a3b-sharding/shardctrler`): greedy rebalancing. Main results: it
   ends, balanced, after a number of moves fixed in advance that no other balanced assignment
   can beat; every configuration of every run is owned in equal shares up to one.
4. **The key/value service** (`a3-kvpaxos`): a fold over the decided log with duplicate
   suppression, and the printer and parser of request identities.

`dafny verify dfyconfig.toml` checks everything.

## How it is laid out

| files | content |
|---|---|
| `Sets` | sizes of finite sets |
| `Ballots`, `Replica`, `Handlers` | ballots; one server's handlers as functions; the server as a class whose methods are proved equal to those functions |
| `Cluster`, `Rounds`, `Validity` | servers and queues as a step system; what holds in all its runs |
| `Exchanges`, `Rejoining` | what every message is answered with, in any state; what chains of messages achieve |
| `Invariant` | the inductive invariant over an auxiliary history |
| `Progress`, `Streams`, `Frame`, `Followers`, `Quorums`, `Adoption`, `Entering`, `Leaders`, `Proposals`, `Recovery` | every step keeps the invariant |
| `Agreement`, `Completeness` | the theorems about runs |
| `Runs`, `LatePromiseRun`, `ReconnectRun` | two concrete runs in which agreement fails, one for each of the two conditions below |
| `ShardGroup`, `ShardKV` | one group as functions; the server as a class |
| `Deployment`, `Ownership`, `ShardInvariant`, `ShardServing`, `ShardMoves`, `ShardSafety` | all groups, drafts, deletions and clients as a step system, its invariant, the theorems about runs |
| `LateDeletion` | a concrete run in which an acknowledged write is lost |
| `Counting`, `Rebalance`, `Controller`, `ShardCtrler` | counting owners; rebalancing; the controller's commands and runs; the controller as a class |
| `Writes` | what a list of writes leaves at a key, said without replaying them |
| `RequestIds`, `KeyValue`, `Service` | request identities; the apply loop; what agreement of the logs means for the service |

## Where the code falls short of what it is for

Three properties fail of the code as it stands. In each case the code is modelled as it is, a
concrete run shows the failure, and the theorem is proved for all runs that meet a condition on
the step at fault.

* **Late promises** (a2-omnipaxos/omnipaxos.go:528-534). A promise that reaches a leader in its
  accept phase, from a follower that accepted last in the same round as the adopted promise, is
  answered from the adopted promise's log length. If the follower's log is shorter, a gap
  remains and two servers decide different commands (`LatePromiseRun`). Answering it keeps the
  invariant if and only if the promise is at least that long, or its sender has left the round or
  accepted in it since (`Leaders.LatePromiseIff`), which is the condition `Cluster.LateHarmless`;
  the same condition decides whether the piece that is sent completes the follower's log
  (`Completeness.LateRebuildsIff`).
* **Reconnections** (a2-omnipaxos/omnipaxos.go:714-716). A follower that is told its session was
  lost stops accepting only if it regards the sender as elected. If it has seen a higher ballot
  that did not lead to a new round, it goes on accepting; if entries were lost, it does so behind
  a gap (`ReconnectRun`). Taking the notice keeps the invariant, and with it the gapless flow of
  entries to the follower, if and only if the notice is heeded or the queue behind it resumes
  exactly where the follower's log ends (`Recovery.ReconnectedIff`), which is the condition
  `Cluster.ReconnectHarmless`.
* **Deletions** (a3b-sharding/shardkv/apply.go:110-114). A request to drop a shard that arrives
  after the donor was given the shard again, and gave it up once more, can erase the current copy
  (`LateDeletion`). It does so if and only if the donor owns the shard at the one configuration
  that the groups' configuration numbers determine for it, and has something stored
  (`Ownership.Harmful`, `ShardSafety.DeletionHarmlessIff`). A deletion that arrives before the
  donor regains the shard never does (`ShardSafety.TimelyIsHarmless`). The theorems about the one
  map hold in all runs, for every shard that no such deletion has hit; ownership and at-most-once
  do not depend on deletions at all.

Two more limits of the code appear as exact statements: the vote threshold is that of a majority
if and only if the cluster has odd size (`Quorums.ThresholdIsMajority`; runs are those of odd
clusters), and rebalancing with no group never settles, however long it goes on
(`Rebalance.NoGroupNeverSettles`; a join needs a group). The documentation in a2-omnipaxos/README.md does not mention any of these.

## Model

| member | source | states |
|---|---|---|
| `Ballots.Compare` | a2-omnipaxos/omnipaxos.go:179-191 | the three-way comparison decides the strict order on ballots, its converse and equality |
| `Ballots.MaxBallot` | a2-omnipaxos/omnipaxos.go:322-330 | the scan returns a greatest candidate in whatever order the map is enumerated |
| `Replica.Entries` | a2-omnipaxos/omnipaxos.go:621-629 | entries handed to the service carry consecutive indices and the log's commands |
| `Handlers.OmniPaxos.Make` | a2-omnipaxos/omnipaxos.go:909-947 | a new or restarted server has the stored record and replays its decided entries |
| `Handlers.OmniPaxos.AddToApplyChan` | a2-omnipaxos/omnipaxos.go:621-629 | appends exactly the entries of the range to the channel |
| `Handlers.OmniPaxos.TriggerLeader` | a2-omnipaxos/omnipaxos.go:359-400 | takes the state through the election function and sends its outbox |
| `Handlers.OmniPaxos.CheckLeader` | a2-omnipaxos/omnipaxos.go:332-357 | the same for a greatest candidate of the ballots heard |
| `Handlers.OmniPaxos.TimerRound` | a2-omnipaxos/omnipaxos.go:778-799 | one locked timer round is one tick step, followed by reconnection notices, which only an elected server sends, and once after a start by requests to prepare; the ballots heard are forgotten |
| `Handlers.OmniPaxos.UpdateMissedHbsAndReconnect` | a2-omnipaxos/omnipaxos.go:824-869 | notices go exactly to the servers heard of again after more than three missed rounds; misses are forgotten or counted, in whatever order ballots are enumerated |
| `Handlers.OmniPaxos.Proposal` | a2-omnipaxos/omnipaxos.go:237-285 | buffers, appends and sends, or refuses, as the proposal function; returned index, ballot and leader flag |
| `Handlers.OmniPaxos.PrepareHandler` | a2-omnipaxos/omnipaxos.go:402-446 | new state and promise sent, for every prepare |
| `Handlers.OmniPaxos.MaxPromise` | a2-omnipaxos/omnipaxos.go:750-758 | the scan returns a promise that no promise beats, in any enumeration order |
| `Handlers.OmniPaxos.PromiseHandler` | a2-omnipaxos/omnipaxos.go:448-559 | all four branches: ignored, filed, entering the accept phase, late |
| `Handlers.OmniPaxos.AcceptSyncHandler` | a2-omnipaxos/omnipaxos.go:561-593 | the follower's log is cut and continued, and acknowledged |
| `Handlers.OmniPaxos.AcceptHandler` | a2-omnipaxos/omnipaxos.go:679-705 | the entry is appended without an index check, and acknowledged |
| `Handlers.OmniPaxos.DecideHandler` | a2-omnipaxos/omnipaxos.go:595-619 | the decided index moves and the new entries are handed over, or nothing happens |
| `Handlers.OmniPaxos.HasMajorityAccepted` | a2-omnipaxos/omnipaxos.go:669-677 | counts the acknowledgements that reach a length |
| `Handlers.OmniPaxos.AcceptedHandler` | a2-omnipaxos/omnipaxos.go:631-667 | acknowledgement filed; on a majority, entries decided, handed over and announced; exactly when the code would stop with an index error |
| `Handlers.OmniPaxos.ReconnectedHandler` | a2-omnipaxos/omnipaxos.go:707-722 | recovery only if the sender is the elected server |
| `Handlers.OmniPaxos.PrepareReqHandler` | a2-omnipaxos/omnipaxos.go:724-743 | a leader offers its round again |
| `Quorums.ThresholdIsMajority` | a2-omnipaxos/omnipaxos.go:479-481 | any two sets that reach the threshold meet if and only if the cluster size is odd |
| `Agreement.InitInv` | a2-omnipaxos/omnipaxos.go:909-947 | the invariant holds initially, with all ballots zero as read from empty storage |
| `Agreement.StepInv` | a2-omnipaxos/omnipaxos.go:332-743 | every guarded step keeps the invariant, and the history only grows |
| `Followers.PrepareStep` | a2-omnipaxos/omnipaxos.go:402-446 | handling a prepare keeps the invariant |
| `Leaders.PromiseStep` | a2-omnipaxos/omnipaxos.go:448-559 | handling a promise, unless it is late and harmful, keeps it |
| `Leaders.LatePromiseIff` | a2-omnipaxos/omnipaxos.go:526-543 | answering a late promise keeps it if and only if the promise fits, or its sender has left the round or accepted in it since |
| `Followers.AcceptSyncStep` | a2-omnipaxos/omnipaxos.go:561-593 | handling a sync keeps it |
| `Followers.AcceptStep` | a2-omnipaxos/omnipaxos.go:679-705 | handling an entry keeps it, although the entry's index is not looked at |
| `Proposals.AcceptedStep` | a2-omnipaxos/omnipaxos.go:631-667 | handling an acknowledgement keeps it |
| `Followers.DecideStep` | a2-omnipaxos/omnipaxos.go:595-619 | handling a decision keeps it |
| `Proposals.ProposeStep` | a2-omnipaxos/omnipaxos.go:237-285 | a proposal keeps it |
| `Recovery.TickStep` | a2-omnipaxos/omnipaxos.go:332-400 | an election keeps it, for any ballots heard |
| `Recovery.RestartStep` | a2-omnipaxos/omnipaxos.go:874-882 | a crash and restart keeps it |
| `Recovery.ReconnectedStep` | a2-omnipaxos/omnipaxos.go:707-722 | handling a reconnection that is heeded, or behind which nothing was lost, keeps it |
| `Recovery.ReconnectedIff` | a2-omnipaxos/omnipaxos.go:707-722 | handling a reconnection keeps it, and keeps the flow of entries to the follower without gap, if and only if the notice is heeded or nothing was lost |
| `Recovery.DropStep` | a2-omnipaxos/omnipaxos.go:824-869 | losing the tail of a session keeps it, a leader opening the next session with a notice |
| `Agreement.RunsAgree` | a2-omnipaxos/omnipaxos.go:359-705 | agreement: in every state of every guarded run, of the decided logs of any two servers one is a prefix of the other |
| `Agreement.RunsAgreeAcrossTime` | a2-omnipaxos/omnipaxos.go:359-705 | the same for any two servers at any two moments |
| `Agreement.DecidedGrows` | a2-omnipaxos/omnipaxos.go:595-619 | over any stretch of a run, crashes included, promised and elected ballots and the decided log never go back |
| `Rounds.StepNotBehind` | a2-omnipaxos/omnipaxos.go:332-423 | no step, guarded or not, lowers the promised ballot, the elected ballot or the decided index |
| `Rounds.RunNotBehind` | a2-omnipaxos/omnipaxos.go:332-423 | so over any stretch of any run, guarded or not, crashes included |
| `Rounds.StorageIsCurrent` | a2-omnipaxos/omnipaxos.go:874-882 | in every state of every run storage equals the server's state |
| `Agreement.ApplyStream` | a2-omnipaxos/omnipaxos.go:595-629 | the service was handed exactly the decided entries, with consecutive indices |
| `Agreement.RestartReplays` | a2-omnipaxos/omnipaxos.go:936-937 | a restart hands over the same entries again |
| `Agreement.SameRoundPrefix` | a2-omnipaxos/omnipaxos.go:561-593 | servers that accepted last in the same round have comparable logs |
| `Agreement.AcknowledgedIsHeld` | a2-omnipaxos/omnipaxos.go:631-645 | what a leader counts as acknowledged by a follower, the follower holds while it is in that round |
| `Agreement.AcknowledgedInRange` | a2-omnipaxos/omnipaxos.go:649-652 | an acknowledgement never points past the leader's log, so handing over entries never runs off its end |
| `Rounds.OneLeaderPerRound` | a2-omnipaxos/omnipaxos.go:359-382 | in every run a leader leads the round it promised last, accepted at most that, and no round has two leaders |
| `Rounds.BeginsAbove` | a2-omnipaxos/omnipaxos.go:332-382 | only an election begins a round, and above all its server promised |
| `Rounds.RoundBeginsOnce` | a2-omnipaxos/omnipaxos.go:332-400 | no round is begun twice in any run |
| `Validity.NothingIsInvented` | a2-omnipaxos/omnipaxos.go:237-278 | in every run, guarded or not, whatever is in a log, a buffer or a message, or was handed to the service, was proposed before |
| `Validity.PendingEntersLog` | a2-omnipaxos/omnipaxos.go:251-254 | when a leader enters its accept phase its log ends with everything proposed to it in that round so far, in the order of the proposals, in all runs |
| `Validity.ProposalEntersLog` | a2-omnipaxos/omnipaxos.go:255-281 | a proposal in the accept phase makes the leader's log the old one followed by the command, sent with its position to every promiser; other servers refuse it |
| `Exchanges.PrepareReqAnswered` | a2-omnipaxos/omnipaxos.go:724-743 | in any state a leader answers a request to prepare with its round, accepted round, log length and decided index; others are silent |
| `Exchanges.PrepareAnswered` | a2-omnipaxos/omnipaxos.go:402-446 | in any state the server promises a round not below its own, and sends what the leader lacks, written out |
| `Exchanges.PromiseFiled` | a2-omnipaxos/omnipaxos.go:454-481 | a promise of another round is ignored; one that completes no majority is filed and nothing is sent |
| `Exchanges.MajorityEnters` | a2-omnipaxos/omnipaxos.go:476-524 | a promise that completes a majority takes the leader into its accept phase, and every other promiser is sent the part of the new log it lacks |
| `Exchanges.LatePromiseAnswered` | a2-omnipaxos/omnipaxos.go:526-554 | a late promise is answered with the part of the log it lacks and, if its sender has decided less, with the leader's decided index |
| `Exchanges.SyncTaken` | a2-omnipaxos/omnipaxos.go:561-593 | the follower that waits for it takes the piece behind the start of its own log, and acknowledges the length |
| `Exchanges.AcceptTaken` | a2-omnipaxos/omnipaxos.go:679-705 | the follower appends the entry and acknowledges the length |
| `Exchanges.AcceptedTaken` | a2-omnipaxos/omnipaxos.go:631-677 | the acknowledgement is filed; if a majority, counted as a set of servers, has acknowledged more than is decided, it is decided, handed over, and every other promiser is told |
| `Exchanges.DecideTaken` | a2-omnipaxos/omnipaxos.go:595-619 | the follower decides what it is told, as far as its log goes, and hands it over |
| `Exchanges.ReconnectedAnswered` | a2-omnipaxos/omnipaxos.go:707-722 | the server asks the sender to prepare, and recovers exactly if it regards the sender as elected |
| `Exchanges.ElectionWon` | a2-omnipaxos/omnipaxos.go:332-400 | a server whose ballot is the greatest, above the elected one and its promise, begins to lead with only its own promise, and asks every other server to promise |
| `Exchanges.ElectionNotWon` | a2-omnipaxos/omnipaxos.go:332-363 | otherwise it follows a greater ballot, raises its own above an elected one that is gone, notices that it is disconnected, or does nothing; it sends nothing |
| `Adoption.LeaderCompleteness` | a2-omnipaxos/omnipaxos.go:476-504 | whatever may be chosen in an earlier round is in the new log, for every quorum of promises and every result of the scan |
| `Completeness.LeaderHasAllChosen` | a2-omnipaxos/omnipaxos.go:476-504 | over runs: what each member of a quorum held in a round, at any time so far, is in the log of every leader of that or a later round |
| `Completeness.LeaderRebuilds` | a2-omnipaxos/omnipaxos.go:484-500 | over runs: a leader's new log continues the whole log of the server whose promise it adopted, unless that server has accepted in that or a later round since, and what the leader decided |
| `Completeness.SyncRebuilds` | a2-omnipaxos/omnipaxos.go:506-543 | the piece sent on a promise completes the start of the follower's log to exactly the leader's log |
| `Completeness.LateRebuildsIff` | a2-omnipaxos/omnipaxos.go:526-543 | over runs: the piece that answers a late promise, of a sender still in the round, completes the sender's log to exactly the leader's if and only if the promise fits or the sender has accepted in the round since |
| `Completeness.EntriesArriveInOrder` | a2-omnipaxos/omnipaxos.go:679-705 | over runs: an entry that a follower takes is the next of its log, so the index check left out of the handler would never fire |
| `Rejoining.Recovers` | a2-omnipaxos/omnipaxos.go:402-743 | in any state of a guarded run, the request to prepare, the offer, the promise and the answer, delivered one after the other, leave the follower accepting in the leader's round with exactly the leader's log, if its own was long enough |
| `Rejoining.CatchesUp` | a2-omnipaxos/omnipaxos.go:546-553 | the decision sent along brings the follower to what the leader has decided |
| `Rejoining.Decides` | a2-omnipaxos/omnipaxos.go:237-281 | a command proposed to a leader, delivered to a follower in step with it and acknowledged, is decided and handed over at its position once the rest of a majority has acknowledged as much |
| `LatePromiseRun.LatePromiseBreaksAgreement` | a2-omnipaxos/omnipaxos.go:526-543 | a run that keeps the condition on reconnections but not the one on late promises, in which two servers decide different commands |
| `ReconnectRun.ReconnectBreaksAgreement` | a2-omnipaxos/omnipaxos.go:707-722 | a run that keeps the condition on late promises but not the one on reconnections, in which two servers decide different commands |
| `ShardGroup.MergeTables` | a3b-sharding/shardkv/apply.go:84-87 | the merged table has the greater entry for every client, a missing one counting as zero |
| `ShardServer.CopyMap` | a3b-sharding/shardkv/server.go:174-178 | copying entry by entry in any order is overlaying |
| `ShardServer.MergePrev` | a3b-sharding/shardkv/apply.go:84-87 | raising entries one by one in any order is merging |
| `ShardServer.ShardKV.ApplyPut` | a3b-sharding/shardkv/apply.go:29-41 | refuses, repeats or executes a put, as the group function |
| `ShardServer.ShardKV.ApplyAppend` | a3b-sharding/shardkv/apply.go:43-55 | the same for an append |
| `ShardServer.ShardKV.ApplyGet` | a3b-sharding/shardkv/apply.go:57-74 | the same for a read, with the value or the missing-key error |
| `ShardServer.ShardKV.Reconfigure` | a3b-sharding/shardkv/apply.go:76-108 | only the next configuration is installed, with table and shards merged; reports the shards to delete at their donors |
| `ShardServer.ShardKV.DropShard` | a3b-sharding/shardkv/apply.go:110-114 | drops a shard the group does not own |
| `ShardServer.ShardKV.HandOver` | a3b-sharding/shardkv/server.go:146-166 | hands over exact copies of all shards and of the table, unless behind |
| `ShardServer.ShardKV.ShardsToTransfer` | a3b-sharding/shardkv/reconf.go:92-112 | exactly the donors of gained shards, each with its shards in increasing order |
| `ShardServer.ShardKV.GetChangeOp` | a3b-sharding/shardkv/reconf.go:43-90 | the answers of the donors put together in some order; complete if and only if all donors answered |
| `ShardServer.Clerk.NewRequestId` | a3b-sharding/shardkv/client.go:66-72 | numbers go up by one |
| `ShardGroup.Key2ShardRemains` | a3b-sharding/shardkv/client.go:23-30 | the shard of a key is what remains of its first byte when multiples of the number of shards are taken off |
| `ShardSafety.StepInv` | a3b-sharding/shardkv/apply.go:29-114 | every step of the deployment keeps the invariant, up to the shard of which a deletion drops the current copy |
| `ShardSafety.SingleOwner` | a3b-sharding/shardkv/reconf.go:50-68 | in every reachable state at most one group accepts operations on a shard |
| `ShardSafety.ConfigurationsInOrder` | a3b-sharding/shardkv/apply.go:80-82 | groups go through the configurations one by one |
| `ShardSafety.GroupsActAsOneMap` | a3b-sharding/shardkv/apply.go:29-108 | what the groups hold of a shard changes by the effect of executed operations on it and by no other step, whatever configuration changes, transfers and deletions move it around, in all runs and for every shard not hit |
| `ShardSafety.ServesOneMap` | a3b-sharding/shardkv/apply.go:29-74 | whichever group serves a shard holds exactly its part of the one map, in all runs and for every shard not hit |
| `ShardSafety.ReadsOneMap` | a3b-sharding/shardkv/apply.go:57-74 | every served read of a shard not hit returns what the one map holds |
| `ShardSafety.ReadsSeeWrites` | a3b-sharding/shardkv/apply.go:29-74 | every served read of a shard not hit is answered with the last value put at the key by any group and what was appended since, in order of execution; with the missing-key error exactly if nothing was written |
| `ShardSafety.WritesAreAnswered` | a3b-sharding/shardkv/apply.go:29-55 | an operation is refused exactly by a group that does not own its shard; a write that is not refused is answered OK |
| `ShardSafety.DonorsAreAsked` | a3b-sharding/shardkv/apply.go:89-105 | installing a change asks exactly the previous owners of the shards that brought data to drop them |
| `ShardSafety.NothingLost` | a3b-sharding/shardkv/reconf.go:43-90 | at every moment some group holds the current copy of every shard written and not hit, also while none serves it |
| `ShardSafety.CopiesAreOld` | a3b-sharding/shardkv/apply.go:90-91 | laying the current shard over any group's copy gives exactly the current shard |
| `ShardSafety.AtMostOnce` | a3b-sharding/shardkv/apply.go:6-12 | each request takes effect at most once in the whole system, in all runs with retries and shard movement |
| `ShardSafety.AnsweredIsExecuted` | a3b-sharding/shardkv/apply.go:34-37 | an answered request has taken effect; if not by this step, then before it |
| `ShardSafety.DeletionHarmlessIff` | a3b-sharding/shardkv/apply.go:110-114 | a deletion leaves the current copy alone if and only if it has no effect, its donor does not own the shard at its seat, or nothing was written |
| `ShardSafety.TimelyIsHarmless` | a3b-sharding/shardkv/apply.go:92-104 | a deletion that arrives before the donor regains the shard drops no current copy, in all runs |
| `ShardSafety.TimelyHitsNothing` | a3b-sharding/shardkv/apply.go:92-104 | in a run in which all deletions arrive that early no shard is ever hit, so the results about the one map hold for all shards |
| `ShardMoves.TimelyMissesHolder` | a3b-sharding/shardkv/apply.go:92-104 | a deletion that arrives before the donor regains the shard never meets the current copy |
| `Ownership.SeatUnique` | a3b-sharding/shardkv/apply.go:15-17 | the groups' configuration numbers determine, for every shard, the one configuration whose owner may serve it or holds it |
| `Ownership.MoveKeepsSeats` | a3b-sharding/shardkv/server.go:150-154 | a group that moves on after its donors have leaves every shard with one configuration whose owner may serve it |
| `LateDeletion.LateDeletionLosesWrite` | a3b-sharding/shardkv/apply.go:110-114 | a run in which an acknowledged write is lost to a late deletion |
| `Rebalance.ScansUnique` | a3b-sharding/shardctrler/server.go:177-216 | both scans have one possible result, whatever order the map is enumerated in |
| `Rebalance.MoveHelps` | a3b-sharding/shardctrler/server.go:241-252 | every move keeps the lists a partition that agrees with the shards and brings the assignment exactly one closer |
| `Rebalance.BalanceResult` | a3b-sharding/shardctrler/server.go:241-252 | rebalancing ends with no shard on group 0 and sizes within one, after exactly as many moves as the assignment was away |
| `Rebalance.DistanceIsLeast` | a3b-sharding/shardctrler/server.go:241-252 | every balanced assignment over the same groups changes at least that many owners |
| `Rebalance.FewestMoves` | a3b-sharding/shardctrler/server.go:218-252 | rebalancing changes no more owners than any other balanced assignment |
| `Rebalance.NoShardMovesTwice` | a3b-sharding/shardctrler/server.go:241-252 | no shard is moved twice |
| `Rebalance.MovedIsChanged` | a3b-sharding/shardctrler/server.go:241-252 | the shards moved are exactly those with a new owner in the end |
| `Rebalance.LowestShardsMove` | a3b-sharding/shardctrler/server.go:246-249 | no shard is moved before a lower one of the same owner |
| `Rebalance.NoGroupNeverSettles` | a3b-sharding/shardctrler/server.go:241-252 | with no group the recursion goes on for ever: after any number of moves it has not settled |
| `Controller.JoinIsBestBalanced` | a3b-sharding/shardctrler/server.go:218-239 | a join balances over the groups it lists, with fewest changes, also after moves |
| `Controller.JoinMovesLowest` | a3b-sharding/shardctrler/server.go:228-234 | a group that gives up shards in a join gives up its lowest ones |
| `Controller.LeaveMovesDeparting` | a3b-sharding/shardctrler/server.go:254-297 | a leave moves exactly the shards of departing groups, to remaining groups if any, and keeps sizes within one |
| `Controller.JoinGood` | a3b-sharding/shardctrler/server.go:218-252 | a join keeps ownership by current groups and sizes within one over all groups, also those without shards |
| `Controller.LeaveGood` | a3b-sharding/shardctrler/server.go:254-297 | so does a leave |
| `Controller.RunsStayGood` | a3b-sharding/shardctrler/server.go:314-350 | in every run of joins, leaves and queries every configuration is owned by its current groups, or by none exactly if there are none, with sizes within one |
| `Controller.RunsNumber` | a3b-sharding/shardctrler/server.go:157-175 | configuration i has number i, and configurations are never changed, whatever the commands |
| `Controller.FreshIff` | a3b-sharding/shardctrler/server.go:322-325 | a command is carried out exactly if its number is positive and above all earlier ones of its client, so at most once |
| `Controller.RepetitionChangesNothing` | a3b-sharding/shardctrler/server.go:339-342 | a repetition changes nothing and is answered as old |
| `Controller.CommandsMakeNext` | a3b-sharding/shardctrler/server.go:157-175 | a fresh join, leave or move makes one configuration, numbered one up, and answers with it |
| `Controller.QueryAnswers` | a3b-sharding/shardctrler/server.go:306-312 | a fresh query for the latest configuration, or one not yet made, is answered with the one of greatest number so far, any other with the one asked for |
| `Controller.MoveMoves` | a3b-sharding/shardctrler/server.go:299-304 | a fresh move gives the shard to the group and changes no other owner and no group |
| `Controller.GroupsByCommands` | a3b-sharding/shardctrler/server.go:218-283 | after any commands a group is there exactly if some join named it and no later leave did, with the servers of the last join that named it |
| `Controller.RegularIsApplicable` | a3b-sharding/shardctrler/server.go:314-350 | no join of some group, leave or query gets stuck in such a run |
| `ControllerServer.SortedKeys` | a3b-sharding/shardctrler/server.go:195-202 | every key once and as many padding zeros as keys, in increasing order |
| `ControllerServer.MaxGroupOf` | a3b-sharding/shardctrler/server.go:177-193 | the scan over the padded keys finds the one group the rebalancing takes from |
| `ControllerServer.MinGroupOf` | a3b-sharding/shardctrler/server.go:204-216 | the scan over the padded keys finds the one group it gives to, unless that has 2^32 - 1 shards or more, the starting value |
| `ControllerServer.RebalanceShards` | a3b-sharding/shardctrler/server.go:241-252 | the recursion, in place, ends and computes the rebalancing |
| `ControllerServer.ShardCtrler.ApplyJoin` | a3b-sharding/shardctrler/server.go:218-239 | appends the joined configuration |
| `ControllerServer.ShardCtrler.Remove` | a3b-sharding/shardctrler/server.go:268-283 | the remaining groups with their shards, whatever order they are visited in |
| `ControllerServer.ShardCtrler.AssignLeft` | a3b-sharding/shardctrler/server.go:285-297 | the nested loops give each freed shard to the smallest remaining group |
| `ControllerServer.ShardCtrler.ApplyLeave` | a3b-sharding/shardctrler/server.go:254-266 | appends the configuration without the leaving groups |
| `ControllerServer.ShardCtrler.ApplyMove` | a3b-sharding/shardctrler/server.go:299-304 | appends a configuration with one owner changed |
| `ControllerServer.ShardCtrler.ApplyQuery` | a3b-sharding/shardctrler/server.go:306-312 | the asked configuration, or the latest |
| `ControllerServer.ShardCtrler.ApplyCommand` | a3b-sharding/shardctrler/server.go:314-350 | the new list of configurations is a function of the old one and the command, repeated requests change nothing; so replicas agree |
| `ControllerServer.ShardCtrler.ApplyLog` | a3b-sharding/shardctrler/server.go:314-350 | a log of commands is folded |
| `ControllerServer.Replicate` | a3b-sharding/shardctrler/server.go:314-343 | two controllers that start alike and apply the same log end with the same configurations, whatever orders their maps are enumerated in |
| `RequestIds.PrintParse` | a3-kvpaxos/server.go:232-237 | parsing inverts printing, for all 64-bit client and request numbers |
| `RequestIds.PrintInjective` | a3-kvpaxos/client.go:60-63 | different requests have different identities |
| `RequestIds.ItoaAtoi` | a3-kvpaxos/server.go:234-235 | a printed number reads back, or as the nearest in range |
| `RequestIds.AtoiOther` | a3-kvpaxos/server.go:234-235 | text that is no number reads as zero, since errors are ignored |
| `RequestIds.FieldsOf` | a3-kvpaxos/server.go:232-237 | of an identity with more fields the first two are read; one without separator cannot be read |
| `RequestIds.Clerk.GetId` | a3-kvpaxos/client.go:60-63 | the next identity parses to the client and the next number |
| `KeyValue.ResponsesAlign` | a3-kvpaxos/server.go:197-230 | response i belongs to log entry i and, for a read, has the value at that point |
| `KeyValue.ReadsSeeWrites` | a3-kvpaxos/server.go:199-228 | for every log, the response to a read is the last value put at its key before it by an entry that counts, followed by what such entries appended since, in log order; the response to a write is empty |
| `KeyValue.ReadsSeeFirstWrites` | a3-kvpaxos/server.go:199-228 | the same of first occurrences, if every client's numbers first appear in increasing order |
| `KeyValue.MapHoldsWrites` | a3-kvpaxos/server.go:212-222 | a key is in the map exactly if an entry that counts wrote to it |
| `KeyValue.TableIsGreatest` | a3-kvpaxos/server.go:206-222 | the table holds the greatest number seen of every client |
| `KeyValue.AtMostOnce` | a3-kvpaxos/server.go:212-222 | a request changes the map at most once, for every log |
| `KeyValue.OnlyEffectiveWrites` | a3-kvpaxos/server.go:212-222 | an entry without effect leaves the map as it is |
| `KeyValue.FilterIsFirstOccurrence` | a3-kvpaxos/server.go:212-222 | the filter lets through exactly the first occurrences if and only if every client's numbers first appear in increasing order |
| `KeyValue.DuplicatesDoNotMatter` | a3-kvpaxos/server.go:197-230 | then the map is that of applying every request once, where it first appears |
| `KeyValue.KVServer.ApplyOne` | a3-kvpaxos/server.go:199-228 | one message does to map, table and responses what the fold does |
| `KeyValue.KVServer.ReadApply` | a3-kvpaxos/server.go:197-230 | the loop computes the fold |
| `Service.ServersAnswerAlike` | a3-kvpaxos/server.go:197-230 | in every guarded run of the cluster, for any reading of the commands handed over, the response lists of any two servers agree as far as both have got, and servers equally far hold the same map |

## Left out

- Transport, encoding and timers: messages travel in one queue per ordered pair of servers, in order; messages are lost only when a session ends, and then from some point on; heartbeats are replaced by arbitrary sets of ballots, so which server is elected and when is free.
- Recovery.DropStep: a leader opens the next session with a notice, in the model after every lost tail; the code sends one only after more than three missed rounds, and a loss that goes unnoticed leaves a gap. Notices and requests to prepare may also be sent at any other time.
- Self-addressed messages: a leader's synchronisation, decision and prepare request to itself (a2-omnipaxos/omnipaxos.go:507, 654, 863-866) are not sent.
- Crashes in the middle of a handler: a handler, with its write to storage and its sends, is one step; storage holds an exact copy of the record.
- Even clusters: runs start from an odd number of servers, since the threshold is no majority otherwise.
- Handlers.OmniPaxos.Proposal: the index returned while preparing is not that of the command, and nothing is claimed about it beyond its value.
- Uniqueness of commands: a command may be in the log twice, since a leader that adopts its own promise appends its undecided suffix again; agreement does not need uniqueness.
- Liveness and heartbeat freshness: nothing is said about when something is decided.
- Replicas within a shard group: a group is one state machine, as its log makes it; a transfer reads the group's current state.
- Building a change: a group builds the change to configuration c + 1 while at c; the catch-up loop (a3b-sharding/shardkv/reconf.go:23-25) also asks for later configurations once it has moved on, and such a change is refused when applied unless the group has meanwhile reached the configuration before it. Then it is installed with donors computed from an older configuration; that case is not modelled.
- Ownerless shards: from configuration 1 on every shard has a group; after all groups have left, the next owner would start from its own old copy.
- Clients of the sharded store have one request outstanding each, as their retry loops ensure; request numbers do not wrap around.
- ControllerServer.ShardCtrler.ApplyJoin: requires a group to balance over, since the code would not return otherwise.
- ControllerServer.ShardCtrler.ApplyCommand: requires the same of a join, a shard of a move, and of a query a number or the latest.
- ControllerServer.ShardCtrler.ApplyLog: requires the same of every command of the log.
- ControllerServer.Replicate: requires the same of every command of the log.
- Moves to unknown groups, and the empty reply to a repeated query (a3b-sharding/shardctrler/server.go:120-122): the first are not part of the balance theorems, the second only as "old".
- Server names inside configurations are carried along by joins and leaves and otherwise unused.
- Waiting for results (a3-kvpaxos/server.go:60-136 and both propose functions): channels and time limits; so nothing is claimed about replies end to end.
- Go slices shared between the log and messages: messages carry immutable sequences.
- `a1-futures`, the test harnesses and the performance scripts.
