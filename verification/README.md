# A verified model of a fault-tolerant dataflow pipeline

The repository is a distributed pipeline that answers five queries over bank transactions: sharded and
replicated workers, connected by queues that deliver every message at least once, any of which may crash
at any moment. This project models the parts that carry its hard guarantees and proves them in Dafny.
`dafny verify dfyconfig.toml` checks everything.

| files | what they model |
|---|---|
| `RingNode`, `RingProtocol`, `RingInvariant`, `RingTheorems`, `RingCrashes`, `RingCleanup` | the ring that decides when a stage has processed everything and makes it flush: N replicas, data messages and tokens interleaved arbitrarily, every message ever sent redeliverable at any later moment; then with replicas that crash, and the round that cleans a client up |
| `StageChain` | stages one after the other, each waiting for the count of the one before |
| `StatefulWorker` | the replica itself, as the object it is: counters, seen-sets, state and log updated in place, each handler proved against the ring and log models |
| `WorkerLog`, `ExactlyOnce`, `WorkerKinds`, `FlushCrash`, `StateStore` | the write-ahead log: replay, compaction, snapshots, torn tails; exactly-once effect, for a count, a table of maxima and a set; flushes interrupted by crashes |
| `ShardedFlush`, `Routing`, `Ids` | the content-determined partition of a flush into batches, the message ids, and what the next stage receives |
| `Query4Model`, `Query4Reference`, `Query4Workers`, `Query4Plan`, `Query4Run` | the scatter-gather query as a five-stage distributed plan, against the single scan of `build_expected.py` |
| `BankMax`, `BankMaxRun`, `Query2Ids` | the two-level maximum per bank, against the single scan, and the ids of its results |
| `SideInput`, `SideInputWorkers`, `JoinKinds` | the join of a main stream with a side table that arrives later: tracker, spill files, late callback, recovery |
| `Election`, `ElectionIds`, `ElectionFailover` | the bully election of the watchdogs, and what happens when the highest of them die |
| `ClientResults`, `Upload` | the client's result handling and stop-and-wait upload, and the gateway's part in both |
| `Options`, `Collections`, `Arithmetic` | helpers |

How to read it. Where the source updates objects in place there is a class whose methods are proved
against specification functions (`RingNode`, `WorkerLog`, `SideInput.Step`, `ClientResults.OnResult`,
`Election.OnMessage`); whole runs are folds of those functions over arbitrary sequences of actions, and the
theorems hold after every such sequence. In the ring every message once sent stays deliverable, so
redelivery at any moment is part of every run.

Assumptions, all stated in the contracts:

- A handler (its sends, its log record and its change of memory) is one step, except where crashes inside
  a handler are modelled explicitly: the flush and the handling of data (`FlushCrash`, `RingCrashes`), the
  side-input handlers (`SideInput`) and the append of a record (`StateStore`).
- `hash_of` is an arbitrary function to the naturals, nowhere assumed injective. Where the source hashes
  a key, the hash is only assumed to depend on that key.
- A redelivered message carries the payload it carried before, and a stage's EOF carries the number of
  its messages. The latter is then proved for every later stage (`StageChain.ChainExact`) and, for the
  first one, for the upload (`Upload.UploadIsExact`).
- JSON is an abstract codec: decoding inverts encoding, and no encoding is empty or contains a newline.
- Dictionaries and sets are enumerated in an arbitrary order. Amounts are reals.

Where the source does what one might expect of it only under a condition, the condition is proved exact:

- Query 2 can be completed on all inputs if and only if the number of bank mappers divides the number of
  bank-max reducers, for a hash function that takes all values; for any other, if and only if a bank's
  reducer decides its mapper (`Query2Ids.Query2CompletesIff`). On an input for which two results share an
  id, the client drops one as a duplicate and does not complete the query (`Query2Ids.QueryCompletes`);
  on every other it does, once everything has arrived. The comment in
  `src/common/idempotency/ids.py:20-21` that each consumer only sees its own shard does not hold for the
  client, which gets the ids passed on by all the mappers.
- At quiescence the highest watchdog is the one leader, always (`Election.UniqueLeaderAtQuiescence`). All
  watchdogs also name it in `_leader_id`, in every run, if and only if there are at most two
  (`ElectionIds.IdsAgreeIff`); with more, in every run in which no watchdog between the lowest and the
  highest gives up waiting for an answer.
- In a cleanup round each replica forgets the client exactly once, and one final EOF is sent, if and only if
  no token is redelivered to a replica that has forgotten it (`RingCleanup.CleanupCompletes`): forgetting
  takes the record of the token with it. Otherwise the round repeats, and cleans up again.
- The client counts and writes a message once only if it has an id (`ClientResults.AlwaysRightIff`). All
  results do: flush ids and root ids are never empty (`Ids.DataIdsAreNonempty`).

## Model

| member | source | states |
|---|---|---|
| `RingTheorems.NoPrematureElection` | src/common/worker/stateful_worker.py:113-136 | In every run (any interleaving of data, EOF and token deliveries, any redelivery), a token that names a coordinator exists only when every node has processed all messages routed to it and no node holds an unreported processed or sent count. |
| `RingTheorems.LiveTokenConserves` | src/common/worker/stateful_worker.py:78-83 | Until the final EOF the newest token carries exactly the ring-wide sums of what the nodes have reported as processed and as sent. |
| `RingTheorems.ExactFlushRound` | src/common/worker/stateful_worker.py:161-188 | No node flushes twice; at most one final EOF is sent, only after all N nodes have flushed, and the coordinator is the last to flush. |
| `RingTheorems.FinalCountIsExact` | src/common/worker/stateful_worker.py:166-176 | The final EOF carries the number of distinct (destination, id) messages the whole stage has sent, and these are exactly what its data messages and its flushes produce. |
| `RingTheorems.TerminatesExactly` | src/common/worker/stateful_worker.py:150-188 | Once all input is processed, whatever duplicates are delivered in between, at most N further deliveries of the live token name a coordinator and exactly N more send the final EOF; every other delivery changes nothing. |
| `RingTheorems.OthersStutter` | src/common/worker/stateful_worker.py:194-197 | With all input processed, every delivery other than that of the live token is recognised as a duplicate and leaves the whole system as it is; the live token itself is never mistaken for one. |
| `RingTheorems.CountDecreases` | src/common/worker/stateful_worker.py:150-160 | One delivery of the live token in the count phase keeps the invariant and brings the final EOF one delivery nearer. |
| `RingTheorems.FlushDecreases` | src/common/worker/stateful_worker.py:161-188 | One delivery of the live token in the flush round keeps the invariant and brings the final EOF one delivery nearer. |
| `RingInvariant.RunInv` | src/common/worker/stateful_worker.py:138-188 | The protocol invariant (token shape and ids, per-node counters, conservation of both totals, exactness of outputs) holds after every run. |
| `RingInvariant.DataStep` | src/common/worker/stateful_worker.py:305-306 | Processing (or recognising) a data message at any moment keeps the invariant, even while a token is under way. |
| `RingInvariant.EofStep` | src/common/worker/stateful_worker.py:265-303 | Starting the ring keeps the invariant: the first token reports the starting node, under the first count id. |
| `RingInvariant.TokenStep` | src/common/worker/stateful_worker.py:190-209 | Delivering any token ever sent, new or old, keeps the invariant. |
| `RingInvariant.CountStep` | src/common/worker/stateful_worker.py:150-160 | A count-phase hop keeps the invariant: the node reports, and either names itself coordinator with flush id 0 or passes the token on under the next count id. |
| `RingInvariant.FlushStep` | src/common/worker/stateful_worker.py:161-188 | A flush hop keeps the invariant: the node flushes once, its sends are added to the total, and the coordinator ends the round. |
| `RingInvariant.ReachedMeansComplete` | src/common/worker/stateful_worker.py:124-128 | If the reported total has reached the expected count, every node has processed its whole inbox and reported it. |
| `RingInvariant.FlushHasEffect` | src/common/worker/stateful_worker.py:164-188 | The exact successor state of a flush hop: node, outputs, flush order, next token or final EOF. |
| `RingProtocol.DestCovers` | src/common/worker/stateful_worker.py:262-263 | N consecutive hops visit every node of the ring. |
| `RingProtocol.DestInjective` | src/common/worker/stateful_worker.py:262-263 | N consecutive hops visit no node twice. |
| `RingNode.FlushOutcome` | src/common/worker/stateful_worker.py:161-188 | A flush token under id `hop` is answered by the next flush id with the sent total grown by the unreported sends, or by the final EOF at the coordinator. |
| `RingCrashes.RingSurvivesCrashes` | src/common/worker/stateful_worker.py:190-209 | With replicas that restart and compact their logs at any moment between handlers, and crash inside the handling of a data message or a flush after part of the sends, the ring is at every moment in a state of the undisturbed run: same nodes, tokens, flushes and final EOF; only messages that are sent anyway may have been sent early. |
| `RingCrashes.CrashedRingIsExact` | src/common/worker/stateful_worker.py:161-188 | In such runs no replica flushes twice, at most one final EOF is sent, and it counts exactly the distinct messages sent, which are exactly what the data and the flushes produce. |
| `RingCrashes.HandlerNode` | src/common/worker/stateful_worker.py:190-209 | What a handler leaves at a replica and its log is what the ring protocol leaves at its node. |
| `RingCleanup.CleanupRound` | src/common/worker/stateful_worker.py:138-188 | A ring started with the expected count -1, in every run (data in between, redelivery of anything at any moment): the node after the starting one is the one coordinator, nothing is flushed, every final EOF is -1, and is sent only after every node has forgotten the flow. |
| `RingCleanup.CleanupCompletes` | src/common/worker/stateful_worker.py:161-188 | Once every token sent has been delivered, every node has forgotten the flow and a final EOF of -1 has been sent; each node exactly once, and exactly one EOF, if and only if no token was handled twice, that is, redelivered to a node that has forgotten it. |
| `RingCleanup.HandlingForgets` | src/common/worker/stateful_worker.py:161-163 | A token of the round leaves its node without seen ids and counts, whatever was there, and sends nothing to the next stage. |
| `RingCleanup.CleanupPassesThrough` | src/common/worker/stateful_worker.py:169-176 | Along a chain of rings and stateless workers of any length a -1 that enters reaches the end as -1, and every node of every ring on the way has forgotten the flow and flushed nothing. |
| `RingCleanup.RoundAnswer` | src/common/worker/stateful_worker.py:161-187 | A node's answer to a token of the round: the next id, or at the coordinator the final EOF -1. |
| `StageChain.ChainExact` | src/common/worker/stateful_worker.py:91-111 | For a chain of ring stages of any length, a sharder standing only first (where the ids are still the gateway's): if the first stage is told the true number of its messages, so is every later one, and each final EOF counts exactly the distinct messages its stage sent. |
| `StageChain.StageExact` | src/common/worker/stateful_worker.py:169-176 | One stage, flushing or sending while it processes: the final EOF counts the distinct messages sent, and none of them has the id of the EOF that follows. |
| `StageChain.SetupTraceable` | src/common/idempotency/ids.py:15-22 | The outputs of flushing replicas, and of a sharder on distinct input ids, are pairwise different as (destination, id). |
| `StageChain.RouteTotal` | src/common/worker/stateful_worker.py:332-350 | Every message is addressed to exactly one inbox of the next stage: the inbox sizes add up to the number of messages. |
| `Ids.DataIdFormats` | src/common/idempotency/ids.py:10-22 | Root and flush ids as they are written. |
| `Ids.RingIdFormats` | src/common/idempotency/ids.py:25-27 | Ring ids as they are written, phase by phase. |
| `Ids.EofIdFormats` | src/common/idempotency/ids.py:41-55 | EOF ids as they are written, for a flow and for its cleanup, with and without a discriminator. |
| `Ids.NoHopNumber` | src/common/idempotency/ids.py:30-38 | Root ids, EOF ids and the empty id carry no hop number: -1. |
| `Ids.RingSeqRoundTrip` | src/common/idempotency/ids.py:25-38 | The hop number put into a ring id is the one read back, whatever the client id and phase contain. |
| `Ids.RingIdInjective` | src/common/idempotency/ids.py:25-27 | Ring ids of one client with different phase or hop differ. |
| `Ids.FlushIdInjective` | src/common/idempotency/ids.py:15-22 | A flush id determines its producing replica and its bucket. |
| `Ids.RootIdInjective` | src/common/idempotency/ids.py:10-12 | Root ids of one client with different batch index differ. |
| `Ids.EofIdIsFresh` | src/common/idempotency/ids.py:41-45 | The EOF id of a client differs from all its root ids and flush ids. |
| `Ids.FinalEofIdIsFresh` | src/common/idempotency/ids.py:41-55 | The id of no final EOF, of a flow or of its cleanup, is the id of a data message. |
| `Ids.CleanupEofIsNew` | src/common/idempotency/ids.py:48-55 | The EOF of a cleanup is not dropped as a duplicate of the flow's own EOF. |
| `Ids.StrRoundTrip` | src/common/idempotency/ids.py:30-38 | Parsing the decimal form of an integer gives the integer back. |
| `ShardedFlush.Partition` | src/common/worker/stateful_worker.py:332-350 | The flush sends every nonempty bucket of every shard exactly once, with exactly its items, and never twice under one (shard, bucket); each shard's items are spread over as many buckets as batches of the given size are needed. |
| `ShardedFlush.FlushIsSpread` | src/common/worker/stateful_worker.py:336-349 | For a shard that holds c items there is one n, the least from 1 with n batches of the given size holding c items, such that every item is in the batch of bucket (hash / shards) mod n; at most n messages go to the shard. |
| `ShardedFlush.FlushIsPartition` | src/common/worker/stateful_worker.py:332-350 | The batches form a multiset partition of the items, and every item goes to the shard its hash names. |
| `ShardedFlush.FlushDeterministic` | src/common/worker/stateful_worker.py:326-331 | Permuting the items changes no message: same shards, same ids, same bags of items, same number of batches. |
| `ShardedFlush.GroupBy` | src/common/worker/stateful_worker.py:332-343 | A dictionary of lists filled in item order has exactly the nonempty groups, each with its items in order. |
| `ShardedFlush.ItemHasABatch` | src/common/worker/stateful_worker.py:332-350 | Every item is in some batch of its home shard. |
| `Routing.Routed` | src/common/worker/stateful_worker.py:332-350 | Whatever the order and number of deliveries, a replica ends up with exactly the items, of all sending replicas, whose key hashes to it. |
| `FlushCrash.CrashIdempotentFlush` | src/common/worker/stateful_worker.py:161-208 | Any number of flush attempts cut short by crashes, each recovered from the log and restarted by the redelivered token, then a complete one: downstream has the same set of (shard, id, bag of items) as after a crash-free flush, and state, log and forwarded token are the same too. |
| `WorkerLog.RecoveryEquivalence` | src/common/idempotency/state_log.py:89-112 | After every run with any redeliveries, compactions and restarts, replaying the log yields every flow not cleaned up: its seen-sets, its four counters, and its state unless it has been flushed. |
| `WorkerLog.CleanupRecovers` | src/common/idempotency/state_log.py:89-95 | Nothing logged before a cleanup comes back: replay gives what was logged after it. |
| `WorkerLog.CompactionRecovers` | src/common/idempotency/state_log.py:57-81 | Replaying one snapshot per flow key rebuilds exactly those flows, and nothing else. |
| `WorkerLog.DataReplays` | src/common/worker/worker.py:69-88 | The record a data message logs, replayed, does to the flow what handling it did. |
| `WorkerLog.EofReplays` | src/common/worker/stateful_worker.py:295-303 | The two records of an EOF, replayed in turn, do what handling it did. |
| `WorkerLog.TokenReplays` | src/common/worker/stateful_worker.py:199-208 | The record of a ring token, replayed, restores the counters the handling left. |
| `WorkerLog.StepRecoverable` | src/common/idempotency/state_log.py:89-112 | Each step (message, redelivery, compaction, restart) keeps the log able to recover each flow. |
| `ExactlyOnce.ExactlyOnceEffect` | src/common/worker/worker.py:57-82 | Through redeliveries, compactions and crashes the state of a flow is the fold of the deltas of its distinct logged messages, each once, in any order if deltas commute; the processed count is their number. |
| `ExactlyOnce.FoldOrderIndependent` | src/common/idempotency/state_log.py:89-100 | For commuting deltas the fold over a set of messages does not depend on their order. |
| `ExactlyOnce.AckedIsLogged` | src/common/worker/worker.py:69-82 | Once a data or EOF message has been acknowledged its id is in what the log recovers, at every later moment. |
| `ExactlyOnce.RunAccounts` | src/common/worker/worker.py:57-78 | In every run the seen-set is exactly the ids taken, the processed count their number, the state the fold of their deltas, and the sent count the sum of what they caused to be sent (the last two until the flow is flushed). |
| `WorkerKinds.CountExactlyOnce` | src/workers/low_amount_aggregator/main.py:67-92 | A non-idempotent count: after any run it is the number of amounts below the threshold in the distinct messages logged. |
| `WorkerKinds.CountBelow` | src/workers/low_amount_aggregator/main.py:67-80 | What a batch adds: the number of its amounts below the threshold. |
| `WorkerKinds.MaximaExactlyOnce` | src/workers/bank_max_aggregator/main.py:59-97 | A table of maxima: after any run it is the maximum, bank by bank, over the payments of the distinct messages logged. |
| `WorkerKinds.CollectedExactlyOnce` | src/workers/account_frequency_filter/main.py:105-133 | A set of edges (or paths, or accounts): after any run it is the union of the payloads of the distinct messages logged. |
| `WorkerKinds.SentExactlyOnce` | src/common/worker/stateful_worker.py:109-111 | The sent count of a worker that sends while it processes: after any run of a flow not yet flushed it is what the distinct messages logged have caused to be sent. |
| `WorkerKinds.SharderSentExactlyOnce` | src/workers/bidirectional_sharder/main.py:100-119 | The same for the sharder, which keeps no other state. |
| `WorkerKinds.CountingLawful` | src/workers/low_amount_aggregator/main.py:86-92 | The count is restored by its snapshot, and its deltas commute. |
| `WorkerKinds.MaximisingLawful` | src/workers/bank_max_aggregator/main.py:78-97 | The table of maxima is restored by its snapshot, and its deltas commute. |
| `WorkerKinds.CollectingLawful` | src/workers/account_frequency_filter/main.py:118-133 | The set is restored by its snapshot, in whatever order it is listed, and its deltas commute. |
| `StatefulWorkers.StatefulWorker.constructor` | src/common/worker/stateful_worker.py:26-40 | A new worker has no flow and a log that recovers it. |
| `StatefulWorkers.StatefulWorker.GetTotalProcessedCount` | src/common/worker/stateful_worker.py:78-83 | Adds what this node has not reported yet to the total, and marks it reported. |
| `StatefulWorkers.StatefulWorker.GetTotalSentCount` | src/common/worker/stateful_worker.py:91-101 | The same for the sent count. |
| `StatefulWorkers.StatefulWorker.ReportToRing` | src/common/worker/stateful_worker.py:113-136 | The updated token and the reported counters, as the protocol model has them; no other flow changes. |
| `StatefulWorkers.StatefulWorker.HandleEofMessage` | src/common/worker/stateful_worker.py:265-303 | Sends the first token with this node's counts, reports them, and leaves a log that recovers every flow. |
| `StatefulWorkers.StatefulWorker.HandleControlEofMessage` | src/common/worker/stateful_worker.py:138-188 | The whole effect of a token: count and elect, flush or clean up, and the one message it sends, as the protocol model has it; a cleanup round back at its coordinator ends with the final EOF -1 and nothing else. |
| `StatefulWorkers.StatefulWorker.HandleControlMessage` | src/common/worker/stateful_worker.py:190-212 | A duplicate token changes and sends nothing; a new one has exactly the modelled effect; afterwards the log recovers every flow that has not been cleaned up. |
| `StatefulWorkers.StatefulWorker.TakeToken` | src/common/worker/stateful_worker.py:198-208 | A new token has exactly the modelled effect on its flow, and the log recovers every flow afterwards. |
| `StatefulWorkers.StatefulWorker.HandleData` | src/common/worker/worker.py:57-82 | A duplicate changes nothing; a new data message updates state, counters and seen-set exactly once, and the log still recovers every flow. |
| `StatefulWorkers.StatefulWorker.HandleEof` | src/common/worker/worker.py:57-82 | A duplicate EOF starts nothing; a new one starts the ring once, and the log still recovers every flow. |
| `StatefulWorkers.StatefulWorker.FlushData` | src/workers/account_frequency_filter/main.py:70-81 | Pops the flow's state and sends exactly the batches of its items; the sent count grows by their number. |
| `StatefulWorkers.StatefulWorker.FlushSharded` | src/common/worker/stateful_worker.py:315-350 | Sends exactly the batches of the partition under the flush ids of this node, and counts each. |
| `StatefulWorkers.StatefulWorker.FlushAndReport` | src/common/worker/stateful_worker.py:164-168 | One node's turn in the flush round: state emptied, batches sent, sends reported into the token. |
| `StatefulWorkers.StatefulWorker.ForgetFlow` | src/common/idempotency/state_log.py:42-46 | The flow is gone: seen-sets, counters and state; no other flow changes. |
| `StatefulWorkers.StatefulWorker.CleanupFlow` | src/common/idempotency/state_log.py:48-52 | Forgets the flow and logs that. |
| `StatefulWorkers.StatefulWorker.FlowKeys` | src/common/worker/stateful_worker.py:236-244 | Every flow that differs from the empty one is among the keys, so no compaction drops it. |
| `StatefulWorkers.StatefulWorker.SnapshotFlow` | src/common/worker/stateful_worker.py:246-252 | The snapshot record of the live flow. |
| `StatefulWorkers.StatefulWorker.Compact` | src/common/idempotency/state_log.py:76-81 | Afterwards the log recovers exactly the live flows. |
| `StatefulWorkers.StatefulWorker.Append` | src/common/idempotency/state_log.py:83-87 | The record is logged; at every ten-thousandth append the log is replaced by one that recovers exactly the live flows. |
| `StatefulWorkers.StatefulWorker.RestoreSnapshot` | src/common/worker/stateful_worker.py:254-260 | What replaying a snapshot does to a flow. |
| `StatefulWorkers.StatefulWorker.ReplayRecord` | src/common/worker/stateful_worker.py:308-313 | What replaying any record does to its flow, and that it touches no other. |
| `StatefulWorkers.StatefulWorker.CrashAndRecover` | src/common/idempotency/state_log.py:102-112 | A crash and the recovery after it, including its compaction: every flow is what the log says, which for a flow not cleaned up is what it was (its state as long as it was not flushed). |
| `Query4Plan.Query4Exact` | build_expected.py:266-327 | For any transactions, shard counts, hash function, batching, order and duplication, what the pipeline sends to the client is exactly the reference answer, each account once over all duplicate filters. |
| `Query4Plan.ResultsAreAnswer` | src/workers/path_frequency_filter/main.py:45-61 | The path filters together flush an account if and only if it is in the reference answer. |
| `Query4Plan.PairsFound` | src/workers/path_frequency_filter/main.py:45-61 | A path filter finds a pair exactly if the pair is a scatter-gather pair of the whole input and the filter is its home. |
| `Query4Plan.CreatedPaths` | src/workers/path_mapper/main.py:45-69 | The path mappers together create a path exactly if both transfers exist, the ends differ and both ends passed the pruning. |
| `Query4Plan.KeptEdges` | src/workers/account_frequency_filter/main.py:45-68 | The frequency filters together keep an edge exactly if its far end has the required number of partners in the whole input. |
| `Query4Plan.SharderRouted` | src/workers/bidirectional_sharder/main.py:66-98 | A frequency filter has an edge exactly if some transaction has it and the filter is the home of the edge's account. |
| `Query4Plan.TransfersMeaning` | src/workers/bidirectional_sharder/main.py:66-98 | The transfers the plan is about are exactly those of the transactions that have their four fields. |
| `Query4Model.AnswerMeaning` | build_expected.py:272-320 | The answer in terms of transfers alone: the ends of every two different accounts that at least k, and at least one, accounts connect. |
| `Query4Model.GatherersReceiveEnough` | src/workers/account_frequency_filter/main.py:55-59 | Pruning is lossless: a destination reached through k middle accounts has in-degree at least k. |
| `Query4Reference.BuildQuery4` | build_expected.py:272-320 | The single scan computes exactly the accounts at either end of a scatter-gather pair. |
| `Query4Reference.ScatterMap` | build_expected.py:272-282 | The scatter map holds, for every sender, the set of its receivers. |
| `Query4Reference.IntermediateToScatter` | build_expected.py:290-293 | The inverted map. |
| `Query4Reference.ScatterGatherMap` | build_expected.py:295-307 | The middle accounts of every (source, destination) pair. |
| `Query4Reference.UniqueAccounts` | build_expected.py:309-320 | The ends of all different pairs with enough middle accounts. |
| `Query4Workers.CreateEdgesByShard` | src/workers/bidirectional_sharder/main.py:66-98 | On the raw fields: of every transaction with all four, the sender's edge is in the list of the sender's shard and the receiver's in that of the receiver's; every edge listed comes from such a transaction and is in its account's shard; in order. |
| `Query4Workers.AccountEdges.AddEdge` | src/workers/account_frequency_filter/main.py:94-103 | Adds exactly one edge to the client's set, and touches no other client. |
| `Query4Workers.AccountEdges.ApplyDelta` | src/workers/account_frequency_filter/main.py:118-122 | Adds exactly the delta's edges, duplicates and order notwithstanding. |
| `Query4Workers.AccountEdges.StateAsDelta` | src/workers/account_frequency_filter/main.py:124-133 | Lists exactly the stored edges, none twice. |
| `Query4Workers.CreateEdges` | src/workers/account_frequency_filter/main.py:45-68 | Exactly the edges of accounts with at least k partners in that direction, turned round, none twice. |
| `Query4Workers.CreatePaths` | src/workers/path_mapper/main.py:45-69 | Exactly the combinations of a way in and a way out of one account with different ends, none twice. |
| `Query4Workers.PathStore.AddPath` | src/workers/path_frequency_filter/main.py:87-99 | Adds exactly one path to the client's set. |
| `Query4Workers.PathStore.ApplyDelta` | src/workers/path_frequency_filter/main.py:114-124 | Adds exactly the delta's paths. |
| `Query4Workers.CreateResults` | src/workers/path_frequency_filter/main.py:45-61 | Exactly the ends of the pairs with at least k middle accounts. |
| `Query4Workers.DuplicateAccountFilter.ApplyDelta` | src/workers/duplicate_account_filter/main.py:83-86 | Adds exactly the delta's accounts. |
| `Query4Workers.DuplicateAccountFilter.PopAccounts` | src/workers/duplicate_account_filter/main.py:45-56 | Empties the client's table and lists its accounts, each once. |
| `Query4Run.RunPlan` | src/workers/path_frequency_filter/main.py:45-124 | The workers' own methods, carried out stage by stage, are an execution of the plan; the client gets exactly the reference answer. |
| `Query4Run.PlanAndScan` | build_expected.py:272-320 | Pipeline and single scan, run on the same transfers, give the same accounts, the pipeline each of them once. |
| `Query4Run.Collect` | src/workers/account_frequency_filter/main.py:94-122 | An edge-keeping replica ends with exactly the edges of the messages it received. |
| `Query4Run.RunSharder` | src/workers/bidirectional_sharder/main.py:66-119 | What the sharder sends for all its batches. |
| `BankMaxRun.TwoLevelsAndScan` | build_expected.py:179-196 | Aggregators, reducers and the single scan, run on the same payments: each bank's home reducer, and no other, ends with the entry the scan finds. |
| `BankMaxRun.RunTwoLevels` | src/workers/bank_max_reducer/main.py:48-95 | What the aggregators' and reducers' methods do is an execution of the two-level plan. |
| `BankMaxRun.Partials` | src/workers/bank_max_aggregator/main.py:99-109 | The flushed list holds exactly the table's entries, none twice. |
| `BankMax.TwoLevelMaximum` | src/workers/bank_max_reducer/main.py:48-95 | A bank's home reducer, and no other, has a result for it, and that is the amount and account the single scan finds, under any batching, order and duplication. |
| `BankMax.BuildQuery2Maxima` | build_expected.py:179-196 | The single scan yields, for every bank, the one entry that no other beats: the largest amount, of equal ones the account first in the order of strings. |
| `BankMax.BatchMaxima` | src/workers/bank_max_aggregator/main.py:59-72 | A batch's delta is the maximum over its complete transactions, ties going to the first account. |
| `BankMax.PartialMaxima` | src/workers/bank_max_reducer/main.py:48-58 | A batch's delta is the maximum over its partial maxima, ties going to the first account. |
| `BankMax.BeatsTotal` | src/workers/bank_max_aggregator/main.py:55-57 | Of two different entries exactly one beats the other; none beats itself. |
| `BankMax.BeatsTransitive` | src/workers/bank_max_aggregator/main.py:55-57 | Beating is transitive. |
| `BankMax.MaximumMeaning` | build_expected.py:179-196 | A table of maxima holds for every bank the largest amount, and of the accounts with that amount the first one in the order of strings: no account with the same amount comes before it. |
| `BankMax.StrLessMeaning` | src/workers/bank_max_aggregator/main.py:55-57 | The order of strings, index by index: at the first difference one ends or has the smaller character. |
| `BankMax.EntriesMeaning` | src/workers/bank_max_aggregator/main.py:48-53 | The entries taken are those of the payments that have all three fields. |
| `BankMax.MaximumUnique` | build_expected.py:179-196 | A set of entries has only one table of maxima. |
| `BankMax.MergeMaximum` | src/workers/bank_max_aggregator/main.py:78-89 | Merging the maxima of two sets gives the maximum of their union. |
| `BankMax.MergeCommutes` | src/workers/bank_max_aggregator/main.py:78-89 | Deltas may be merged in any order. |
| `BankMax.Maxima.ApplyDelta` | src/workers/bank_max_aggregator/main.py:78-89 | The client's table becomes the merge; no other client's changes. |
| `BankMax.Maxima.HandleTransactions` | src/workers/bank_max_aggregator/main.py:59-72 | Table and delta are the maxima of everything taken, and of the batch. |
| `BankMax.Maxima.HandlePartials` | src/workers/bank_max_reducer/main.py:48-58 | The same for partial maxima. |
| `SideInput.EmissionsUseCompleteTable` | src/common/worker/side_input_stateless_worker.py:69-129 | In every run (interleavings, redeliveries, crashes inside handlers, compactions) nothing is emitted before the side input is complete, and each emission is its batch joined with the complete table. |
| `SideInput.NothingIsLost` | src/common/worker/side_input_stateless_worker.py:109-129 | Once the ready callback is through, every accepted batch has been emitted with the complete table and the spill file is empty. |
| `SideInput.ExactlyOnceWithoutCrashes` | src/workers/anomaly_filter/main.py:139-188 | Without crashes every accepted batch is waiting or has been emitted, exactly once, and nothing else is. |
| `SideInput.ReadyFiresOnce` | src/common/worker/utils/side_input_tracker.py:47-60 | The callback is scheduled once per process, exactly when the EOF and all side batches have been logged, and recovery restores memory and readiness exactly. |
| `SideInput.ReadyIsFinal` | src/workers/anomaly_filter/main.py:139-155 | After readiness nothing more is spilled, the table stands and readiness stays, also across crashes. |
| `SideInput.EmissionIsDetermined` | src/common/worker/side_input_stateless_worker.py:69-129 | Two emissions of one batch, in two runs with different orders and crashes, have the same content if the side batches agree. |
| `SideInput.CompleteTable` | src/workers/anomaly_filter/main.py:168-173 | If the side batches agree, the complete table has every key with its one value, in either policy. |
| `SideInput.CleanupRecovers` | src/common/worker/side_input_stateless_worker.py:116-124 | Nothing logged before a cleanup comes back. |
| `SideInput.CompactDurable` | src/common/worker/side_input_stateless_worker.py:44-63 | A snapshot restores seen-sets, counts, readiness and table. |
| `SideInput.TableRestores` | src/workers/bank_mapper/main.py:96-116 | The table written as a list of entries restores the table, whether the last or the first entry wins. |
| `SideInput.RunInv` | src/common/worker/side_input_stateless_worker.py:69-129 | The invariant of the join holds after every run in which the client is not cleaned up. |
| `SideInputWorkers.SideInputTracker.TrackBatch` | src/common/worker/utils/side_input_tracker.py:11-14 | Counts one batch; the flow is ready if it was or as many batches as expected have been counted; reports whether this switched readiness on; no other flow changes. |
| `SideInputWorkers.SideInputTracker.SetExpected` | src/common/worker/utils/side_input_tracker.py:16-19 | Sets the expected count and reports whether this switched readiness on. |
| `SideInputWorkers.SideInputTracker.RestoreFlow` | src/common/worker/utils/side_input_tracker.py:39-45 | Restores the counts and recomputes readiness. |
| `SideInputWorkers.SideInputTracker.Drop` | src/common/worker/utils/side_input_tracker.py:33-37 | The flow is as new. |
| `SideInputWorkers.SideInputTracker.CheckReadyOf` | src/common/worker/utils/side_input_tracker.py:47-60 | True exactly when this call switches readiness on. |
| `SideInputWorkers.BatchSpill.Write` | src/common/worker/utils/spill.py:30-35 | Appends one batch to the client's file, and leaves the others. |
| `SideInputWorkers.BatchSpill.Lines` | src/common/worker/utils/spill.py:37-46 | Reads exactly what was written, in order, after closing the handle. |
| `SideInputWorkers.BatchSpill.Discard` | src/common/worker/utils/spill.py:49-53 | The file is gone, and with it the handle. |
| `SideInputWorkers.JoinWorker.HandleMain` | src/workers/anomaly_filter/main.py:139-155 | A main batch has exactly the modelled effect (duplicate, emit, or spill) on its client and none on others. |
| `SideInputWorkers.JoinWorker.HandleSide` | src/common/worker/side_input_stateless_worker.py:69-114 | A side batch, a side EOF or a cleanup has exactly the modelled effect; the result says whether the callback is due. |
| `SideInputWorkers.JoinWorker.ApplySideDelta` | src/workers/anomaly_filter/main.py:168-173 | Enters the delta into the client's table under the worker's policy. |
| `SideInputWorkers.JoinWorker.OnSideInputReady` | src/workers/anomaly_filter/main.py:175-188 | Emits every spilled batch in order with the table as it is, and removes the file. |
| `SideInputWorkers.JoinWorker.ReplayRecord` | src/common/worker/side_input_stateless_worker.py:116-124 | What replaying a record does to its client's memory. |
| `SideInputWorkers.JoinWorker.RestoreSnapshot` | src/common/worker/side_input_stateless_worker.py:52-63 | What replaying a snapshot does. |
| `SideInputWorkers.JoinWorker.Recover` | src/common/worker/side_input_stateless_worker.py:131-133 | After a crash every client's memory is what the log says, the log is compacted to one snapshot per client with memory, and the drain is due for exactly the ready clients. |
| `SideInputWorkers.JoinWorker.CompactLog` | src/common/idempotency/state_log.py:76-81 | Afterwards the log has exactly one snapshot of the live memory for every flow key, and nothing else. |
| `SideInputWorkers.JoinWorker.SnapshotFlow` | src/common/worker/side_input_stateless_worker.py:44-50 | The snapshot record of the live memory, the table listed once. |
| `SideInputWorkers.JoinWorker.DrainReadyFlows` | src/common/worker/side_input_stateless_worker.py:126-129 | No ready client keeps a spilled batch: the flow keys cover them all. |
| `SideInputWorkers.JoinWorker.Forget` | src/workers/anomaly_filter/main.py:190-201 | The client's memory and spill file are gone. |
| `JoinKinds.AnomaliesAreExact` | src/workers/anomaly_filter/main.py:109-188 | In any run, what is emitted for a message is exactly, in order, the transactions of its batch below the threshold times the true average of their format. |
| `JoinKinds.AnomaliesUseLatest` | src/workers/anomaly_filter/main.py:168-188 | Without any assumption on the averages: of several entries for one format the last one logged counts. |
| `JoinKinds.Filter` | src/workers/anomaly_filter/main.py:109-129 | The loop keeps exactly the anomalous transactions, in order. |
| `JoinKinds.AnomaliesMeaning` | src/workers/anomaly_filter/main.py:100-104 | The filter on a table of averages, in terms of the averages themselves, order and multiplicity included. |
| `JoinKinds.MapNames` | src/workers/bank_mapper/main.py:118-141 | The loop computes what the join emits for a batch; `BankNamesAreExact` says what that is. |
| `JoinKinds.BankNamesAreExact` | src/workers/bank_mapper/main.py:101-167 | In any run, an emission has one row per maximum of its batch, in order, with its account and amount and the name that the first entry for its bank gives, in the order in which all the client's side batches were logged; "Unknown" if no side batch names the bank. |
| `JoinKinds.TableNames` | src/workers/bank_mapper/main.py:101-116 | The complete table gives every bank the name of its first entry. |
| `JoinKinds.NamesStand` | src/workers/bank_mapper/main.py:101-116 | Once a bank has a name no later side batch changes it. |
| `Election.UniqueLeaderAtQuiescence` | src/watchdog/main.py:106-167 | In every run, whenever the top watchdog has started and no message is in flight, it is the one and only leader. |
| `Election.CascadeTerminates` | src/watchdog/main.py:93-104 | Between timeouts and disconnects at most Measure messages are handled, in whatever order; when no more are in flight the top watchdog is the one leader. |
| `Election.LosingTheLeader` | src/watchdog/main.py:169-174 | A watchdog told that the peer it follows is gone asks every higher watchdog and waits for an answer, or at the top leads and claims to all others; any other disconnect changes nothing. |
| `Election.WaitingInVain` | src/watchdog/main.py:138-142 | Without an answer a watchdog leads and claims to all others; with an answer but no claim it asks again; otherwise there is no timeout. |
| `Election.GettingAMessage` | src/watchdog/main.py:144-167 | What each message makes its receiver do and send: answer and claim or ask, wait for the claim, accept a claim from above, ask after one from below. |
| `Election.StartingUp` | src/watchdog/main.py:125-136 | A watchdog starts by asking every higher one, or at the top by leading. |
| `ElectionFailover.FailoverIsSafe` | src/watchdog/main.py:125-174 | When all watchdogs above h die, and a survivor that followed one of them is told so: in every run of the survivors from then on, whenever nothing is in flight and h is not waiting, h is the one leader. |
| `ElectionFailover.FailoverHappens` | src/watchdog/main.py:125-174 | From every state of such a run some deliveries and timeouts lead there. |
| `ElectionFailover.RunSurvives` | src/watchdog/main.py:125-174 | In every run of the survivors each lower leader stays challenged by the highest survivor, and an alerted highest survivor stays so. |
| `Election.HandlingIsLighter` | src/watchdog/main.py:125-167 | Handling a message sends strictly less weight than the message had; a message from above sends nothing. |
| `Election.QuiescenceIsReached` | src/watchdog/main.py:157-167 | From every reachable state with all watchdogs up there is a bounded sequence of deliveries to quiescence. |
| `ElectionIds.IdsAgreeIff` | src/watchdog/main.py:106-174 | Whenever all are up and nothing is in flight, in every run, all watchdogs name the top in `_leader_id`: this holds if and only if there are at most two of them. |
| `ElectionIds.IdsAgreeWhenPatient` | src/watchdog/main.py:138-155 | For any number of watchdogs it holds in every run in which no watchdog between the lowest and the top gives up waiting for an answer. |
| `ElectionIds.LeaderIdsMayDisagree` | src/watchdog/main.py:151-155 | With any watchdog between the lowest and the top there is a run that ends with all up and nothing in flight, in which the lowest follows that one: its claim arrived late. |
| `ElectionIds.RunAware` | src/watchdog/main.py:125-174 | In such patient runs every watchdog that is up names the top or has a message in flight that will make it do so. |
| `ElectionIds.OthersDrain` | src/watchdog/main.py:157-167 | While one link is slow, handling everything else, the oldest first, ends. |
| `Election.RunKeeps` | src/watchdog/main.py:125-174 | The invariant (a lower leader is always contested by a coordinator message in flight, to or from the top) holds after every run. |
| `Election.Watchdog.BroadcastCoordinator` | src/watchdog/main.py:100-104 | One coordinator message to every other watchdog. |
| `Election.Watchdog.BecomeRole` | src/watchdog/main.py:106-119 | The new role, leader and phase, and the broadcast of a leader. |
| `Election.Watchdog.StartAnElection` | src/watchdog/main.py:125-136 | One election message to each higher watchdog, or leadership at the top. |
| `Election.Watchdog.HandleElectionTimeout` | src/watchdog/main.py:138-142 | Leadership without an answer, a new election without a coordinator. |
| `Election.Watchdog.HandleElectionMessage` | src/watchdog/main.py:144-149 | An answer, and a broadcast by a leader or an election by a follower. |
| `Election.Watchdog.HandleMessage` | src/watchdog/main.py:157-167 | The reaction to each kind of message. |
| `Election.Watchdog.HandleDisconnect` | src/watchdog/main.py:169-174 | An election if the leader is gone, nothing otherwise. |
| `StateStores.TornTail` | src/common/persistence/state_store.py:13-31 | Whatever number of bytes a crash leaves of a log, loading gives exactly the records whose newline survived and cuts the file to exactly their encoding. |
| `StateStores.LogIsDurable` | src/common/persistence/state_store.py:13-56 | Through any sequence of appends, compactions, crashes at any byte and reloads, the file is the encoding of exactly the records it should hold, and loads as them. |
| `StateStores.BadLineFails` | src/common/persistence/state_store.py:19-26 | A complete line that does not parse makes loading fail, after any number of records and whatever follows. |
| `StateStores.BlankLineSkipped` | src/common/persistence/state_store.py:24-26 | Blank lines are skipped. |
| `StateStores.SurvivorsMeaning` | src/common/persistence/state_store.py:19-26 | k records survive n bytes exactly if their encoding fits into n bytes. |
| `StateStores.StateStore.Load` | src/common/persistence/state_store.py:13-31 | The records of all complete lines, or the parser's error with the file untouched; otherwise the file is cut after its last newline. |
| `StateStores.StateStore.Append` | src/common/persistence/state_store.py:33-38 | The file grows by one line. |
| `StateStores.StateStore.Compact` | src/common/persistence/state_store.py:40-56 | The file is the encoding of the given records. |
| `ClientResults.ClientCompletion` | src/client/main.py:204-234 | With distinct, nonempty ids and an end that carries their number, under any order, duplication and reconnection, the query is finalized exactly when end and all messages have arrived, and every arrived message's rows are written once. |
| `ClientResults.SharedIdsNeverComplete` | src/client/main.py:206-216 | If more messages are announced than there are distinct ids, the query is never finalized. |
| `ClientResults.AlwaysRightIff` | src/client/main.py:204-234 | The client is right about a query in every history of it (complete exactly when everything has arrived, no rows written twice) if and only if no message lacks an id, or the only message there is lacks it and has no records. |
| `ClientResults.EmptyIdCounts` | src/client/main.py:206-216 | n deliveries of a message without id count n times and write its rows n times. |
| `ClientResults.ClientAccounts` | src/client/main.py:204-234 | After any events the seen ids, the count, the expectation and completion are what the distinct arrivals say. |
| `ClientResults.Client.HandleQueryResult` | src/client/main.py:204-217 | Effect on the one query, acknowledgement in every case, other queries untouched, row totals kept. |
| `ClientResults.Client.HandleQueryEnd` | src/client/main.py:219-223 | Effect on the one query, and the acknowledgement. |
| `ClientResults.Client.MaybeFinalizeQuery` | src/client/main.py:228-233 | Finalized if it was, or if the expected number has arrived. |
| `ResultDelivery.NoResultLost` | src/gateway/internal/client_handler.py:102-153 | Over any number of connections a produced result is still with the broker or has been processed by the client. |
| `ResultDelivery.ResultsGetThrough` | src/gateway/internal/client_handler.py:102-153 | From every reachable state one connection that lasts empties the queue, and the client has then processed exactly what was produced. |
| `ResultDelivery.PendingAcks.Register` | src/gateway/internal/client_handler.py:142-147 | A fresh delivery id for the message. |
| `ResultDelivery.PendingAcks.OnResultAck` | src/gateway/internal/client_handler.py:149-153 | The broker is told once; unknown and repeated acknowledgements change nothing. |
| `Upload.UploadIsExact` | src/client/main.py:125-152 | Across any number of broken connections and late forwards by old handlers: when a stream's EOF has been forwarded, exactly the ids of its batches have been, as many as the EOF says. |
| `Upload.AckedIsForwarded` | src/gateway/internal/client_handler.py:55-81 | An acknowledged message has been forwarded. |
| `Upload.ForwardedIsPrefix` | src/client/main.py:125-138 | What has been forwarded is an initial piece of the upload. |
| `Upload.UploadGetsThrough` | src/client/main.py:125-138 | From every reachable state one connection that lasts completes the upload. |
| `Upload.SameIndexSameBatch` | src/client/main.py:125-138 | All forwards of an index carry the same batch, over any number of connections and old handlers, because the pending message is kept. |
| `Upload.RootIdsSize` | src/gateway/internal/internal_router.py:12-19 | n batches have n different ids. |
| `Query2Ids.Query2CompletesIff` | src/workers/bank_mapper/main.py:143-154 | Query 2 can be completed by the client on all inputs if and only if a bank's reducer decides its mapper: for a hash function that takes all values, if and only if the number of bank mappers divides the number of bank-max reducers. |
| `Query2Ids.Query2IdsDistinct` | src/common/idempotency/ids.py:15-22 | For any hash function: the result ids are distinct on all inputs if and only if a bank's reducer decides its mapper. |
| `Query2Ids.OneMapperIff` | src/workers/bank_max_reducer/main.py:85-95 | Divisibility suffices for that with any hash function, and is necessary for one that takes all values. |
| `Query2Ids.QueryCompletes` | src/client/main.py:204-234 | For any flushes of all the reducers and any history of deliveries: the client finalizes exactly if the result ids are distinct and the end and all results have arrived. |
| `Query2Ids.CompletableIff` | src/client/main.py:204-234 | Some history completes the query if and only if its result ids are distinct. |
| `Query2Ids.DistinctIfOneMapper` | src/workers/bank_max_reducer/main.py:85-95 | If the reducer decides the mapper, all results of all reducers have different ids. |
| `Query2Ids.CollideIfTwoMappers` | src/workers/bank_max_reducer/main.py:85-95 | Otherwise any two banks of one reducer with different mappers, alone on it, are flushed under one id. |

## Left out

- Crashes between a send and its log record in the ring's start and count phases (`src/common/worker/stateful_worker.py:180-208`, `279-303`), and between an EOF's control record and its own record: a rolled-back report may be sent again under a reused id, so the ring theorems do not hold there. They treat those handlers as one step.
- RingCleanup.CleanupRound: the cleanup round and an ordinary round of the same client are not modelled in one run; the nodes' earlier history is arbitrary, and data may arrive in between. Crashes inside the round's handlers are not modelled beyond redelivery.
- WorkerLog.RecoveryEquivalence: makes no claim about a flow after its cleanup, because the handler adds the token's id to a seen-set that the cleanup has detached and logs a record behind the cleanup's, so live and recovered memory differ; nor about the accumulated state of a flow already flushed, which replay rebuilds.
- SideInput.RunInv: covers runs without a cleanup of the client; the handlers model it (`JoinWorker.HandleSide`).
- StatefulWorkers.StatefulWorker.FlushSharded: computes all batches before it sends the first, where the source interleaves the two; crashes between sends are the subject of `FlushCrash`.
- RingCrashes.RingSurvivesCrashes: the replicas are workers of the log model (`WorkerLog`), whose steps `StatefulWorker`'s handlers are proved to take; N objects exchanging messages are not assembled into a run.
- StageChain.ChainExact: a sharder behind another stage is not covered, because the ids it passes on are then unique only per destination.
- ShardedFlush.Partition: does not claim that a batch has at most `batch_size` items, because buckets are chosen by hash and may hold more. The ceiling of the division is taken exactly, where the source goes through a float.
- Ids.RingSeqRoundTrip: is about ids the system builds; that Python's `int` also accepts spaces and underscores in foreign ids is not modelled.
- Election.UniqueLeaderAtQuiescence: is about roles, since with three or more watchdogs the `_leader_id` fields need not agree (`ElectionIds.IdsAgreeIff`). Connections neither lose messages nor start late; deaths are modelled in `ElectionFailover`, of the highest watchdogs while nothing is in flight.
- Watchdog ids are ranks 0 to n-1; starting and stopping the health monitor and responder has no effect in the model.
- BankMax.TwoLevelMaximum: is about the normalised bank id and the maxima; the resolution of bank names against the reference is not modelled, and differs for missing or conflicting names.
- JoinKinds.AnomaliesAreExact: transactions without the required fields are assumed filtered out, and payment formats normalised, before the join.
- SideInputWorkers.BatchSpill.Lines: spill files are sequences of batches; their encoding and torn lines in them are not modelled.
- StateStores.StateStore.Load: the file is consumed to its end in one call, where the source is a generator.
- Upload.UploadIsExact: the client process itself does not crash during an upload.
- Queries 1, 3 and 5 beyond the anomaly join: amounts below a threshold, averages, currency rates, rounding and date filters.
- RabbitMQ, sockets, serialisation formats, threads and locks as such (a handler under its lock is a step), health pings, container revival, signals, configuration and deployment.
- The one-pass filters and field mappers, the client registry, the reaper and the proxy: they would only add easy members.
- Messages of an unexpected type, and exceptions raised inside handlers.
