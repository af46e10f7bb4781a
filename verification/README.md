# Verification model of the relay

A Dafny model of the core of the relay: the two ledgers it keeps between a TON-like chain
and EVM chains, the protocols around them, and the arithmetic they rest on.

- **Shards** (`ShardUtils.dfy`): the prefix arithmetic that decides which shard holds an
  account, from the byte loop up to a partition theorem over all trees of splits.
- **Message delivery** (`PendingMessagesQueue.dfy`, `QueueInterleaving.dfy`,
  `TonSubscriber.dfy`, `EngineContext.dfy`, `MessageDelivery.dfy`): the queue of external
  messages with its cached minimum, as sequential code and under every interleaving of its
  shared accesses; the block handler that delivers and expires; the resend loop; and all of
  them together in one run.
- **EVM confirmation** (`EthEvents.dfy`, `TopicsMap.dfy`, `EthSubscriber.dfy`,
  `EthRounds.dfy`): log parsing and the check against the vote, log subscriptions, one
  round of the engine, and runs in which requests arrive while a round fetches.
- **Bridge events** (`EventBase.dfy`, `BridgeEvents.dfy`, `BridgeRuns.dfy`,
  `BridgeCounter.dfy`, `BridgeVoters.dfy`, `BridgeStranding.dfy`, `BridgeVotes.dfy`,
  `BridgeOutcomes.dfy`, `BridgeDelivery.dfy`): the pending events, the tasks that race for
  them, what every vote rests on, across the bridge and the engines, what makes a relay vote,
  and the way of its vote to the chain.
- **Configurations** (`BridgeRegistry.dfy`) and **code hashes** (`CodeHash.dfy`): the
  registry of event configurations with its collector, and the bit-level reader that finds
  event contracts among all accounts. `LogCoverage.dfy` follows a configuration to its logs.
- **Retry** and **metrics** (`Retry.dfy`, `Metrics.dfy`): the number of retries against the
  delays really waited, and the double-buffered publication of metrics.

Where the source changes an object in place, the model has a class with the same fields and
methods, and each method is proved against a function of the old state. The theorems are
about these functions, folded over arbitrary sequences of steps: a run is a list of
actions, and every list is a run. Channels are ticket numbers and their answers are part of
the state. Hash functions, signatures, ABI decoding, the node and the network are
parameters of the steps. `Words.dfy` writes out machine words and bit operators, which wrap
as in a release build; `Maps.dfy` and `Wrappers.dfy` hold small helpers.

Some results say that the code promises less than one might read into it:

- `find_account` depends on the iteration order exactly when the map holds shards of
  several workchains, because `contains_account` ignores the workchain
  (`ShardUtils.OrderIrrelevantIffOneWorkchain`). The note at
  src/utils/shard_utils.rs:37-38 expects a suitable shard in most cases; within one
  workchain there always is one.
- The scan cursor moves back when the last block plus `max_block_range` wraps around 64
  bits; `EthRounds.TargetBounds` gives the exact condition, and
  `EthRounds.CursorCanMoveBack` a run.
- The retry count saturates at the largest u32; `Retry.RetriesFitTotalTime` gives the exact
  condition under which it fits the total time, and `Retry.DefaultBackoffMisses` times that
  the default backoff misses.
- A configuration that becomes active while a log query is out can miss the logs in the
  range of that query, because the filter is built before the request. `LogCoverage.CoveredIffSafe`
  gives the exact condition, and `LogCoverage.LogsCanBeMissed` a run.
- For the same reason as `find_account`, a block of another workchain can expire a message;
  `MessageDelivery.ExpiryAtHomeIff` says exactly when that cannot happen.
- A pending event may stay without a vote: the flag of `start_processing` is never cleared,
  so the one voter of an insertion decides. The event is left behind exactly when that voter
  cannot await the contract, finds it initializing, meets a failing getter, or cannot sign,
  queue, broadcast or await its message (`BridgeStranding.LeftWithoutVoteIff`,
  `BridgeStranding.VotingIsOverIff`). The note at src/engine/bridge/mod.rs:394-395 says that
  updating twice is harmless, which is true, but the second update does nothing.

`dafny verify dfyconfig.toml` checks the whole project.

## Model

| member | source | states |
|---|---|---|
| `ShardUtils.AccountPrefix` | src/utils/shard_utils.rs:78-97 | the byte loop with its masks and shifts returns the top `len` bits of the 256-bit account, left-aligned in 64 bits, for every account and every `len` up to 64; all shifts are in range |
| `ShardUtils.CheckContainsAccount` | src/utils/shard_utils.rs:66-76 | the shift-and-compare check decides the bitwise definition: every bit of the shard prefix equals the account's bit, and the full shard contains every account |
| `ShardUtils.ContainsIffTopBits` | src/utils/shard_utils.rs:66-76 | an account is contained exactly when its top prefix-length bits, as a number, are the shard prefix |
| `ShardUtils.ChildPrefix` | src/utils/shard_utils.rs:131-165 | splitting a shard appends one bit to its prefix |
| `ShardUtils.SplitPartitions` | src/utils/shard_utils.rs:131-165 | an account is in a shard exactly when it is in one of its two children, and never in both |
| `ShardUtils.LeavesPartition` | src/utils/shard_utils.rs:131-165 | for every tree of splits below any shard, as deep as 64-bit prefixes go, each account of the shard is in exactly one leaf and every other account in none |
| `ShardUtils.FindAccount` | src/utils/shard_utils.rs:35-50 | the search over the map of shards, in the order it is visited, answers as its specification: the first shard that contains the account decides, and without one there is an error |
| `ShardUtils.FoundIff` | src/utils/shard_utils.rs:36-64 | the answer comes from the first shard that contains the account: its contract, nothing when it has no record or an empty one, an error when its state cannot be read; without such a shard there is an error of its own |
| `ShardUtils.OrderIrrelevantIffOneOwner` | src/utils/shard_utils.rs:35-50 | the search gives the same answer for every iteration order and every content exactly when at most one shard of the map contains the account |
| `ShardUtils.OneOwnerPerWorkchain` | src/utils/shard_utils.rs:35-50 | containment ignores the workchain: over the split trees of any workchains an account has one owner per workchain |
| `ShardUtils.OrderIrrelevantIffOneWorkchain` | src/utils/shard_utils.rs:35-50 | for every map holding the shards of distinct workchains, however they were split, and every account, the answer of the search is independent of the iteration order exactly when there is at most one workchain |
| `ShardUtils.SingleWorkchainFindsTheOwner` | src/utils/shard_utils.rs:35-50 | with the shards of one workchain the search always finds a shard, the only one that contains the account, in every order |
| `PendingMessagesQueue.RunConserves` | src/utils/pending_messages_queue.rs:35-119 | over every sequence of operations each accepted message is pending under one id or answered, never both |
| `PendingMessagesQueue.AnswersAreFinal` | src/utils/pending_messages_queue.rs:35-119 | an answer once sent is never changed by later operations |
| `PendingMessagesQueue.AnswerMeaning` | src/utils/pending_messages_queue.rs:63-119 | Delivered is answered only by a delivery of that id, Expired only by an update whose shard contains the account at a time later than the expiry |
| `PendingMessagesQueue.ScanExpiresLate` | src/utils/pending_messages_queue.rs:94-119 | an update leaves a message alone exactly while the time is not past its expiry or the shard is another one; a message that it removes is answered Expired, and nothing else changes |
| `PendingMessagesQueue.PendingUntilDecided` | src/utils/pending_messages_queue.rs:35-119 | over every sequence of operations an accepted message stays pending, under its ticket and with the expiry it was added with, until its delivery or a late block of its shard |
| `PendingMessagesQueue.FirstDecisionCounts` | src/utils/pending_messages_queue.rs:35-119 | whichever of these comes first is its answer for good, Delivered or Expired |
| `PendingMessagesQueue.EarlyExitIsScan` | src/utils/pending_messages_queue.rs:94-98 | skipping the scan at or before the minimum expiry changes nothing |
| `PendingMessagesQueue.ComputeMinimum` | src/utils/pending_messages_queue.rs:79-91 | the recomputing loop finds the least expiry, the largest u32 when nothing is pending |
| `PendingMessagesQueue.Retain` | src/utils/pending_messages_queue.rs:100-119 | the retain pass answers exactly the due messages, keeps exactly the others, and finds the least expiry kept |
| `PendingMessagesQueue.PendingMessagesQueue.AddMessage` | src/utils/pending_messages_queue.rs:35-61 | refines the queue without caches: a pending id is refused without any change, anything else gets a new ticket; minimum and counter stay exact |
| `PendingMessagesQueue.PendingMessagesQueue.DeliverMessage` | src/utils/pending_messages_queue.rs:63-92 | refines the queue without caches, unknown ids included; minimum and counter stay exact |
| `PendingMessagesQueue.PendingMessagesQueue.Update` | src/utils/pending_messages_queue.rs:94-119 | the update with its early exit on the cached minimum does what a scan of all entries does; minimum and counter stay exact |
| `QueueInterleaving.StepRefines` | src/utils/pending_messages_queue.rs:35-119 | with every shared access a step of its own, except that the retain pass with its answers is one step under the lock, each step either leaves the reference queue alone or applies the whole call of its thread to it |
| `QueueInterleaving.ExecutionsRefineReference` | src/utils/pending_messages_queue.rs:35-119 | every interleaving of any number of calls is equivalent to a sequence of atomic calls on the queue without caches, although `update` reads the minimum without the lock |
| `QueueInterleaving.OutcomesAreReferenceOutcomes` | src/utils/pending_messages_queue.rs:35-119 | what a finished call returned is what the reference queue gives at the moment the call took effect |
| `QueueInterleaving.CacheExactWhenUnlocked` | src/utils/pending_messages_queue.rs:54-119 | whenever nobody holds the lock, the cached minimum and the entry counter are exact |
| `QueueInterleaving.ExecutionsConserve` | src/utils/pending_messages_queue.rs:35-119 | conservation holds in every interleaving |
| `QueueInterleaving.CallFinishes` | src/utils/pending_messages_queue.rs:35-119 | no call gets stuck: in every interleaving a call that finds the lock free, or holds it, is over after seven steps of its own |
| `TonSubscriber.CountedIffDelivered` | src/engine/ton_subscriber/mod.rs:390-448 | the block scan delivers an id exactly when the block holds an ordinary, not aborted transaction of the account with an external inbound message of that hash |
| `TonSubscriber.DispatchedIff` | src/engine/ton_subscriber/mod.rs:425-470 | every living observer is told about every ordinary, not aborted transaction with a readable inbound message, and about nothing else |
| `TonSubscriber.DispatchedInOrder` | src/engine/ton_subscriber/mod.rs:406-470 | observers are told in the order of the transactions |
| `TonSubscriber.SubscribedAllObserves` | src/engine/ton_subscriber/mod.rs:148-172 | after subscribing, every listed account is observed, and nobody loses an observer or a receiver |
| `TonSubscriber.DeliveryBeatsExpiry` | src/engine/ton_subscriber/mod.rs:262-321 | a message with a counted transaction in the block and a living observer is answered Delivered, however late the block is |
| `TonSubscriber.BlockFate` | src/engine/ton_subscriber/mod.rs:262-321 | a block answers a pending message Delivered exactly if it holds a counted transaction for an account of its shard that a living observer watches, Expired exactly if it does not and its time is past the expiry in that shard, and leaves it otherwise |
| `TonSubscriber.ReportedIff` | src/engine/ton_subscriber/mod.rs:279-318 | of a block's accounts exactly those of its shard are published whose state can be read and has a receiver besides the subscription; dispatches go exactly to living observers, for ordinary, not aborted transactions with a readable inbound message |
| `TonSubscriber.KeptIff` | src/engine/ton_subscriber/mod.rs:279-285 | a subscription survives a block exactly while somebody else holds a receiver or an observer lives, and keeps exactly its living observers |
| `TonSubscriber.TonSubscriber.AddTransactionsSubscription` | src/engine/ton_subscriber/mod.rs:148-172 | the loop over accounts leaves the subscriptions the specification describes |
| `TonSubscriber.TonSubscriber.HandleBlock` | src/engine/ton_subscriber/mod.rs:390-473 | the loop over the transactions of an account delivers the counted ones to the queue and tells each living observer about the handled ones, and does nothing else |
| `TonSubscriber.TonSubscriber.HandleSubscription` | src/engine/ton_subscriber/mod.rs:279-318 | dead observers are pruned, a subscription without observers and receivers ends, the state goes to receivers exactly when there are some, and only an observed account delivers |
| `TonSubscriber.TonSubscriber.ScanSubscriptions` | src/engine/ton_subscriber/mod.rs:277-319 | the retain loop, in any order of accounts, keeps the living subscriptions, delivers the counted messages of all observed accounts, and reports every published state and every dispatch |
| `TonSubscriber.TonSubscriber.HandleShardBlock` | src/engine/ton_subscriber/mod.rs:262-324 | before the subscriber is ready, or when the block cannot be read, nothing changes; otherwise it first delivers and then expires |
| `EngineContext.EngineContext.SendTonMessage` | src/engine/mod.rs:230-256 | a message that is not external, has no address prefix or does not serialize changes nothing; any other is queued before it is broadcast, and stays queued when broadcasting fails |
| `EngineContext.SendMeans` | src/engine/mod.rs:230-256 | which messages are refused, without any change; any other one is in the queue with its expiry under a new ticket, also when broadcasting fails, and the result is what its ticket was answered |
| `EngineContext.EngineContext.DeliverMessage` | src/engine/mod.rs:258-294 | the resend loop over any attempts leaves the queue, the outcome and the sent messages the specification describes |
| `EngineContext.DeliveryResendsOnlyExpired` | src/engine/mod.rs:258-294 | every message goes out after a condition of its own and under a new ticket, all but the last were answered Expired first, and the loop ends with the one delivered message or with none |
| `MessageDelivery.StepKeepsInv` | src/engine/ton_subscriber/mod.rs:262-321 | every step of pending events, resend loops, block scans and expiry passes keeps observers subscribed and scans complete |
| `MessageDelivery.TurnDelivers` | src/engine/ton_subscriber/mod.rs:390-448 | the turn of an account in a scan delivers each counted message of it that a loop waits for |
| `MessageDelivery.ExpiredIsSound` | src/engine/ton_subscriber/mod.rs:262-321 | in every run Expired comes from a block of a shard containing the account, later than the expiry, and no scan met a counted transaction of the message while it was pending and an observer lived |
| `MessageDelivery.DeliveredIsSound` | src/engine/ton_subscriber/mod.rs:390-448 | in every run Delivered comes from a scan, with a counted transaction of the message in a block of its shard, that met it while it was pending and an observer lived |
| `MessageDelivery.PassExpiresLate` | src/engine/ton_subscriber/mod.rs:320-321 | in every run the expiry pass of a block answers Expired exactly the messages that are late in its shard |
| `MessageDelivery.LoopsStartAndEnd` | src/engine/mod.rs:258-294 | a loop starts only for a pending event, with its observer, and is gone once it ends |
| `MessageDelivery.ResumeFollowsAnswer` | src/engine/mod.rs:277-290 | a resend loop waits for its answer, ends on Delivered, and sends again on Expired |
| `MessageDelivery.SendIsQueued` | src/engine/mod.rs:265-281 | what it sends is queued with its expiry under a ticket of its own that the loop waits for; a pending id ends it |
| `MessageDelivery.ReceiversFollow` | src/engine/ton_subscriber/mod.rs:174-200 | waiting for a state takes one receiver more, opening the subscription if need be, and gives back just that |
| `MessageDelivery.ExpiredInOwnShard` | src/engine/ton_subscriber/mod.rs:285-321 | Expired comes from a block whose shard prefix the top bits of the account agree with, the workchain aside |
| `MessageDelivery.ExpiryAtHomeIff` | src/engine/ton_subscriber/mod.rs:285-321 | over all runs on blocks of some workchains, messages, which are all addressed to workchain 0, expire only by blocks of workchain 0 exactly when no other workchain is among them |
| `MessageDelivery.ForeignBlockExpires` | src/engine/ton_subscriber/mod.rs:320-321 | a run in which an empty block of any other workchain expires the message |
| `MessageDelivery.ExpiryOfAwaited` | src/engine/mod.rs:277-281 | the message whose expiry a loop learns is one of its own account, and the loop was waiting for it when the expiry pass found it due |
| `MessageDelivery.ResendIsSafe` | src/engine/mod.rs:258-294 | the resend loop itself keeps the observer, hence the subscription, alive: when it resends, no scan of the account's shard since it began to wait met the message |
| `MessageDelivery.PassFindsNothingDelivered` | src/engine/ton_subscriber/mod.rs:310-321 | when the expiry pass of a block runs, no message awaited since before its scan is counted in that block |
| `EthEvents.ParsedConcat` | src/engine/eth_subscriber/mod.rs:767-779 | parsing logs is independent of how they are batched |
| `EthEvents.ParsedIff` | src/engine/eth_subscriber/models.rs:38-95 | a log is an event exactly if it has a transaction hash and an index, and is removed or has a topic, block number and block hash; only a removed one withdraws the event |
| `EthEvents.FindLastFinds` | src/engine/eth_subscriber/mod.rs:606-615 | the search from the end finds the last event with the id, and nothing exactly when there is none |
| `EthEvents.FindLastLog` | src/engine/eth_subscriber/mod.rs:606-615 | the same in terms of the raw logs, of which unusable ones are skipped |
| `EthEvents.LogProvesIffChecked` | src/engine/eth_subscriber/mod.rs:732-755 | `check` accepts a log exactly when it agrees with the vote on emitter, topic, index, transaction, block number, block hash and decoded data |
| `EthEvents.VerdictIffProof` | src/engine/eth_subscriber/mod.rs:582-616 | the verdict is Exists exactly when the transaction succeeded, one of its logs agrees with the vote on every field, and no later log takes that event's place |
| `TopicsMap.TopicsMap.MakeFilter` | src/engine/eth_subscriber/mod.rs:647-659 | no query exactly when no entry is live; otherwise the query lets exactly those logs through, in the inclusive range, that have the address of a live entry and the topic of one, so every log of a live entry |
| `TopicsMap.TopicsMap.AddEntry` | src/engine/eth_subscriber/mod.rs:661-674 | the entry becomes live, and the lists stay duplicate-free projections of the live entries |
| `TopicsMap.TopicsMap.RemoveEntries` | src/engine/eth_subscriber/mod.rs:676-693 | exactly the named entries stop being live, and the lists stay duplicate-free projections |
| `TopicsMap.LiveIffLastSubscribed` | src/engine/eth_subscriber/mod.rs:661-693 | over every sequence of calls an entry is live exactly when the last call that names it subscribed it |
| `TopicsMap.ApplyTopics` | src/engine/eth_subscriber/mod.rs:294-310 | any sequence of subscribe and unsubscribe calls on a fresh map ends with exactly the live entries |
| `EthSubscriber.StatusAfterConcat` | src/engine/eth_subscriber/mod.rs:466-502 | how log events are split into batches makes no difference to a confirmation's status |
| `EthSubscriber.StatusAfterLog` | src/engine/eth_subscriber/mod.rs:466-481 | a log with the id of the request makes its status Valid if it agrees with the vote on every field, and Invalid if it does not or withdraws the event; any other log changes nothing |
| `EthSubscriber.StatusOfLogs` | src/engine/eth_subscriber/mod.rs:466-481 | after any logs a new request is Valid exactly if the last log with its id agrees with the vote, Invalid exactly if it does not, and in process without one |
| `EthSubscriber.LeftAfterRound` | src/engine/eth_subscriber/mod.rs:504-540 | after a round a confirmation is left exactly when it is not due yet, or its last verdict is not Invalid and its receipt could not be fetched |
| `EthSubscriber.AnsweredByRound` | src/engine/eth_subscriber/mod.rs:512-535 | a due confirmation with an Invalid last verdict is answered NotExists whatever the node says, any other one by its receipt |
| `EthSubscriber.EthSubscriber.Verify` | src/engine/eth_subscriber/mod.rs:316-357 | a request for a pending event takes its place and drops the earlier waiter; count and map stay in step |
| `EthSubscriber.EthSubscriber.SelectBlocks` | src/engine/eth_subscriber/mod.rs:417-448 | the range to query, with the wrapping u64 sum, and none when the height is not above the cursor |
| `EthSubscriber.EthSubscriber.ProcessBlocks` | src/engine/eth_subscriber/mod.rs:552-580 | without subscriptions no query is made; otherwise the events are those of a query for the wanted logs, or the query's failure |
| `EthSubscriber.EthSubscriber.ApplyEvents` | src/engine/eth_subscriber/mod.rs:466-502 | the loop over log events leaves each confirmation with the status of the specification |
| `EthSubscriber.EthSubscriber.RetainUnresolved` | src/engine/eth_subscriber/mod.rs:504-522 | the retain pass answers and removes exactly the due Invalid confirmations, and lists exactly the other due ones for lookup |
| `EthSubscriber.EthSubscriber.ResolveChecked` | src/engine/eth_subscriber/mod.rs:522-540 | the looked-up confirmations are answered in any order; failed lookups stay |
| `EthSubscriber.EthSubscriber.FinishRound` | src/engine/eth_subscriber/mod.rs:464-550 | the part of a round under the lock does what the specification of a round says, and the count equals the map size |
| `EthRounds.RunConserves` | src/engine/eth_subscriber/mod.rs:323-353 | with requests arriving at any point of a round, every call is pending, superseded or answered, exactly one of these, and answered once |
| `EthRounds.RunKeepsVerdicts` | src/engine/eth_subscriber/mod.rs:466-502 | in every run a pending confirmation is due at the block of the event plus the blocks to confirm, and its status is Valid exactly if the last log with its id among all rounds since its call agrees with the vote, Invalid exactly if it does not |
| `EthRounds.RoundSettles` | src/engine/eth_subscriber/mod.rs:466-535 | in every run the end of a round answers a pending call NotExists exactly if it is due and the last log with its id since the call disproves the vote, or a fetched receipt does not prove it; Exists exactly if it is due, not disproved, and the receipt proves it; and leaves it exactly if it is not due or its receipt could not be fetched |
| `EthRounds.TargetBounds` | src/engine/eth_subscriber/mod.rs:417-448 | there is something to query exactly below the height; without a range the round ends at the height, with one at the nearer of the height and the sum; it moves the cursor forward exactly when the range is positive and the u64 sum does not wrap |
| `EthRounds.CursorCanMoveBack` | src/engine/eth_subscriber/mod.rs:417-435 | a run in which the wrapping sum takes the cursor from block 1 to block 0 |
| `EthRounds.RoundsStayInBounds` | src/engine/eth_subscriber/mod.rs:417-463 | the same for every round of every run |
| `EthRounds.FailureIsRetried` | src/engine/eth_subscriber/mod.rs:437-463 | a failed round changes nothing, and the next one asks for blocks from the same cursor |
| `EthRounds.EveryBlockScanned` | src/engine/eth_subscriber/mod.rs:417-463 | in every run the inclusive ranges of successful rounds join up: every block from the start to the cursor was queried |
| `EthRounds.CatchUpRounds` | src/engine/eth_subscriber/mod.rs:417-448 | repeating the target computation for a fixed height and a positive range, while no sum on the way wraps, arrives at the height after exactly the rounded-up quotient of distance and range |
| `EthRounds.CatchUpReachesIff` | src/engine/eth_subscriber/mod.rs:417-448 | it arrives there in that number of repetitions exactly when no sum on the way wraps |
| `EthRounds.RunCatchesUp` | src/engine/eth_subscriber/mod.rs:417-463 | in every run, from any moment between two rounds and while the node's height stays, the cursor after some number of successful rounds is that of as many repetitions, whatever requests and failures come in between |
| `EthRounds.RunReachesHeightIff` | src/engine/eth_subscriber/mod.rs:417-463 | so in every such run the cursor is at the height with the round of that number exactly when no sum on the way wraps, and while none does, with that round and not before |
| `EthRounds.UndisturbedCursor` | src/engine/eth_subscriber/mod.rs:417-463 | any number of undisturbed rounds in a row takes the cursor where as many repetitions take it, so the rounds that are needed do happen |
| `EthRounds.AnswersAreJustified` | src/engine/eth_subscriber/mod.rs:484-535 | in every run each answer rests on a round after its call within the block of the event plus the blocks to confirm: Exists on a receipt that proves the request and no disproving log, NotExists on a last log that disproves the vote or a receipt that does not prove it |
| `EventBase.VoteIff` | src/engine/bridge/mod.rs:1383-1408 | the relay votes exactly on a votable contract of version 2 that lists its key among those who have not voted; Nop exactly while initializing; errors exactly where a needed getter fails |
| `BridgeEvents.EventsState.AddPendingEvent` | src/engine/bridge/mod.rs:1162-1189 | refuses a pending account; any other is inserted with the flag clear and its observer subscribed to transactions; the counter follows the map |
| `BridgeEvents.EventsState.StartProcessing` | src/engine/bridge/mod.rs:1230-1235 | true exactly for a pending event nobody started, whose flag is then set |
| `BridgeEvents.EventsState.Remove` | src/engine/bridge/mod.rs:1237-1241 | a pending event is erased and counted once, anything else changes nothing |
| `BridgeEvents.EventsState.ProcessEvent` | src/engine/bridge/mod.rs:253-366 | a transaction removes the event exactly if the event is rejected, is confirmed (of the TON kind: and closed), has relay keys without ours, or carries our confirm or reject; it asks for voting exactly if the relay keys hold ours and the event is not over; unknown accounts are ignored |
| `BridgeOutcomes.HandleOutcome` | src/engine/bridge/mod.rs:253-366 | the same for every transaction in a run: the entry is erased and somebody counts it down, somebody starts on it, or nothing changes |
| `BridgeOutcomes.AddedIff` | src/engine/bridge/mod.rs:930-1020 | a deployed event is added exactly unless it is pending; one found by the start-up scan exactly if, besides, it is not over and its configuration is known |
| `BridgeOutcomes.AddedGoesOn` | src/engine/bridge/mod.rs:368-398 | a deployed event is looked at first, a found one is started right away; the look starts it exactly when a vote is due and removes it exactly when it is over |
| `BridgeOutcomes.RemovalErases` | src/engine/bridge/mod.rs:1237-1241 | a removing task erases the event, and counts it down exactly if it was pending |
| `BridgeCounter.CounterTracksMap` | src/engine/bridge/mod.rs:1180-1188 | in every run, map and counter updates being separate steps, the map size is the counter plus increments still to come minus decrements still to come, modulo the word |
| `BridgeCounter.QuietCounterIsExact` | src/engine/bridge/mod.rs:1180-1241 | with nothing in flight the counter is the map size |
| `BridgeCounter.EffectBalanced` | src/engine/bridge/mod.rs:262-301 | every single step keeps that balance |
| `BridgeVoters.VotersNeverOutnumberInsertions` | src/engine/bridge/mod.rs:1230-1235 | in every run of start-up scan, preprocessing and relay-key messages at most one task passes `start_processing` per insertion, so voters of an account never outnumber its insertions |
| `BridgeVoters.EndedVoterIsLast` | src/engine/bridge/mod.rs:400-418 | once the voter of an insertion ended, nobody ever votes for that insertion again |
| `BridgeStranding.VotingIsOverIff` | src/engine/bridge/mod.rs:1230-1235 | voting for an insertion is over, its flag used up and its voter gone, exactly when no continuation of the run has a voter for it |
| `BridgeStranding.VoterEndsIff` | src/engine/bridge/mod.rs:400-518 | a step of a voter leaves its event pending, flagged and without the voter exactly when the contract could not be awaited, was initializing or failed a needed getter, or the message could not be signed, queued, broadcast or awaited, or when the message was delivered; after that nobody votes for the insertion |
| `BridgeStranding.LeftWithoutVoteIff` | src/engine/bridge/mod.rs:400-633 | in every run a pending event is left behind without a delivered vote exactly when its voter met one of these failures in one of its steps |
| `BridgeStranding.EventsCanStrand` | src/engine/bridge/mod.rs:997-1017 | a run in which it happens: an event found initializing by the start-up scan ends pending, flagged, and without any task |
| `BridgeVotes.SendFollowsCheck` | src/engine/bridge/mod.rs:504-517 | in every run each message of a voter, resent ones included, follows a check of its own that found the event pending |
| `BridgeVotes.OriginStep` | src/engine/bridge/mod.rs:400-518 | the data a task carries was made by one step of that task, and nothing else changes it |
| `BridgeVotes.EthVoteIsJustified` | src/engine/bridge/mod.rs:400-518 | in every run an ETH confirm or reject was preceded by four steps of its task, each taking it from the state before to the state after: examining the account, process said Vote; configuration and chain engine were known and gave the request; the engine was asked and issued the ticket; and the answer to that ticket was one that a round of the engine decided. A confirm rests on a successful receipt agreeing with the vote, at a height past event block plus blocks to confirm |
| `BridgeVotes.AnswerRests` | src/engine/eth_subscriber/mod.rs:417-535 | the round behind an answer reached the target block and did not pass the height it read |
| `BridgeVotes.TonVoteIsJustified` | src/engine/bridge/mod.rs:521-633 | a TON vote was due when its task examined the account, and is a signature or a rejection as the configuration registered at its decision maps the event data |
| `BridgeOutcomes.VoterRemovesIff` | src/engine/bridge/mod.rs:400-633 | in every run a voter turns to removing its event exactly when process said Remove, the configuration is not registered or its chain has no engine, or the engine dropped its request |
| `BridgeOutcomes.VerdictIsVoted` | src/engine/bridge/mod.rs:477-502 | in every run a waiting voter goes on to confirm exactly when its ticket is answered Exists, and to reject exactly when NotExists |
| `BridgeOutcomes.DueVoteGoesOn` | src/engine/bridge/mod.rs:400-424 | when a vote is due the voter goes on with the data of its event, or ends if that cannot be read |
| `BridgeOutcomes.EthConfigurationIsUsed` | src/engine/bridge/mod.rs:426-470 | a registered configuration whose chain has an engine becomes the request, field by field |
| `BridgeOutcomes.TonConfigurationIsUsed` | src/engine/bridge/mod.rs:546-612 | a registered configuration becomes a signed vote on the mapped data, or a rejection where mapping fails |
| `BridgeOutcomes.RequestIsPut` | src/engine/eth_subscriber/mod.rs:316-353 | in every run a request is put to the engine of its chain, and the voter waits for the ticket issued for it |
| `BridgeOutcomes.BallotIsSent` | src/engine/bridge/mod.rs:504-517 | a decided vote on a pending event goes out in three more steps of its task, after a check |
| `BridgeOutcomes.VerdictIsSent` | src/engine/bridge/mod.rs:477-517 | so a verdict of the engine on a pending event is sent to its contract, confirm or reject, by the task's own steps |
| `BridgeDelivery.VoteResentAfterExpiry` | src/engine/mod.rs:258-294 | in every joint run of bridge and delivery a voting task resends only after its own message expired in a late block of a shard whose prefix its event account has, while no scan that got to the account met a counted transaction of the message |
| `BridgeDelivery.RunKeepsInv` | src/engine/bridge/mod.rs:502-517 | in every joint run pending events and kept observers agree, and each sending task has a resend loop of its own, for its account, that waits exactly while the task does |
| `BridgeDelivery.BridgeSideIsRun` | src/engine/bridge/mod.rs:400-518 | the bridge side of a joint run is a bridge run |
| `BridgeDelivery.BroadcastOutcome` | src/engine/mod.rs:230-256 | a voting task waits for its message once the queue took it, and ends if the queue refused it |
| `BridgeDelivery.WakeOutcome` | src/engine/mod.rs:277-290 | it ends when its message was delivered, and checks again before the next one when it expired |
| `BridgeRegistry.Bridge.AddEventCodeHash` | src/engine/bridge/mod.rs:1311-1329 | a code hash is registered once and refused with another type |
| `BridgeRegistry.Bridge.AddEthEventConfiguration` | src/engine/bridge/mod.rs:803-864 | checks in the order of the code; a new configuration is counted, subscribed with its chain's engine and observed for transactions, and the code hash stays registered even when the configuration existed |
| `BridgeRegistry.Bridge.AddTonEventConfiguration` | src/engine/bridge/mod.rs:866-928 | checks in the order of the code; a new configuration is counted and observed for transactions, an expired one is ignored without an error |
| `BridgeRegistry.Bridge.ProcessEventConfiguration` | src/engine/bridge/mod.rs:771-800 | the type getter, then the connector, then the kind of the configuration |
| `BridgeRegistry.Bridge.SetEndBlockNumber` | src/engine/bridge/mod.rs:209-216 | only the end block of a known configuration changes |
| `BridgeRegistry.Bridge.SetEndTimestamp` | src/engine/bridge/mod.rs:241-248 | only the end timestamp of a known configuration changes |
| `BridgeRegistry.Bridge.CollectExpired` | src/engine/bridge/mod.rs:1138-1155 | the retain loop, in any order, removes exactly the configurations with an end timestamp before now and lowers the counter by as many |
| `BridgeRegistry.NoSharedCode` | src/engine/bridge/mod.rs:1281-1286 | no ETH and TON configuration share code |
| `BridgeRegistry.RunKeepsRegistry` | src/engine/bridge/mod.rs:803-928 | over all operations, active configurations' code is registered with their own type, active ETH configurations are subscribed with their chain, and both counters are the map sizes |
| `BridgeRegistry.TonEntryAfter` | src/engine/bridge/mod.rs:866-928 | each operation adds a TON configuration exactly if it comes from a known connector, is new and complete, has not ended, and its code is not registered for the other type; it removes one exactly if it collects at a time past the end; it changes nothing but the end timestamp |
| `BridgeRegistry.TonRegisteredIff` | src/engine/bridge/mod.rs:1138-1155 | in every run a TON configuration is registered exactly when some operation accepted it and no collection since came at a time past its end |
| `BridgeRegistry.EthEntryAfter` | src/engine/bridge/mod.rs:803-864 | the same for ETH configurations, which nothing removes |
| `BridgeRegistry.EthRegisteredIff` | src/engine/bridge/mod.rs:803-864 | in every run an ETH configuration is registered exactly when some operation accepted it |
| `BridgeRegistry.SubscriptionsAfter` | src/engine/bridge/mod.rs:854-855 | an operation adds exactly the log subscription of the ETH configuration it accepts, contract and topic, with the engine of its chain |
| `BridgeRegistry.ProcessSucceedsIff` | src/engine/bridge/mod.rs:771-801 | processing a configuration succeeds exactly when it is accepted, or is a TON configuration past its end, which changes nothing |
| `BridgeRegistry.TypesAreFinal` | src/engine/bridge/mod.rs:1311-1329 | a code hash never changes its type |
| `LogCoverage.ProcessHonestly` | src/engine/eth_subscriber/mod.rs:552-580 | with a node that answers from its ledger, the events of a range are those of the wanted logs of the ledger |
| `LogCoverage.NoLogIsMissed` | src/engine/bridge/mod.rs:803-864 | in every run of the registry and an engine, each safe block that the cursor reaches after a configuration became active is in a later round whose events include all of the configuration's logs that the ledger held for the block; a block is safe if no query was out at that moment, or its addresses and topics let the configuration's logs through, or its range ended before the block |
| `LogCoverage.CoveredIffSafe` | src/engine/eth_subscriber/mod.rs:552-580 | whenever a configuration is active, a block ahead of the cursor is asked for in every continuation that reaches it, by a later round that lets the configuration's logs through, exactly when the block is safe |
| `LogCoverage.UnsafeIsMissed` | src/engine/eth_subscriber/mod.rs:417-580 | otherwise the round that is out ends at or past the block, having wanted none of the configuration's logs there |
| `LogCoverage.LastBlockIsAskedAgain` | src/engine/eth_subscriber/mod.rs:417-463 | the last block of the range of a query that was out is asked for again, for the configuration too, once the cursor gets past it, because ranges are inclusive at both ends |
| `LogCoverage.LogsCanBeMissed` | src/engine/bridge/mod.rs:854-855 | a run in which a configuration becomes active while a query is out, and a log of it in the ledger is in no event of the only round over its block, which the cursor passes |
| `CodeHash.CodeHashOfAccount` | src/engine/bridge/mod.rs:1331-1379 | for every account serialized by the TL-B scheme, whatever follows it, the result is the code cell's hash for an active account with a plain standard address and code, and None for all others; both cursors stay aligned over every optional field |
| `CodeHash.TruncationNeverMisleads` | src/engine/bridge/mod.rs:1331-1379 | an account cut off anywhere, in bits or references, is an error or still read correctly |
| `CodeHash.SliceData.ReadCodeHash` | src/engine/bridge/mod.rs:1331-1379 | the cursor walk over a slice object, with its early returns and errors, computes that function |
| `CodeHash.SkipStorageInfoPut` | src/engine/bridge/mod.rs:1342-1349 | skipping storage statistics, last payment and optional due payment lands on what follows them |
| `CodeHash.SkipCurrenciesPut` | src/engine/bridge/mod.rs:1354-1355 | skipping the balance consumes the extra-currency reference exactly when there is one |
| `Retry.SaturationTime` | src/utils/retry.rs:72-78 | the closed form is the sum of the delays before saturation |
| `Retry.FloorLogIsFloor` | src/utils/retry.rs:75-76 | the saturation step count is the floor of the logarithm |
| `Retry.ShortfallBounds` | src/utils/retry.rs:74-81 | the two delays around saturation together lack less than one maximum delay |
| `Retry.RetriesFitTotalTime` | src/utils/retry.rs:62-81 | for every capped backoff growing at least twofold with a maximum of at least twice the start, and every total time, the delays of the computed count differ from the total by less than one maximum delay exactly while the total is in reach of a u32 of retries |
| `Retry.DefaultBackoffFits` | src/utils/retry.rs:36-49 | the default configuration fits every total time up to eighty thousand years |
| `Retry.DefaultBackoffMisses` | src/utils/retry.rs:36-49 | the default configuration misses every total time from ten million million seconds on, where the count saturates |
| `Retry.DefaultSaturation` | src/utils/retry.rs:74-76 | one second doubling up to 600 seconds saturates after the nine steps the comment names |
| `Metrics.ReadsAreSnapshots` | src/engine/metrics_exporter/mod.rs:210-253 | with one writer and any number of readers interleaved, every read returns a published snapshot with all texts of its round and nothing else, or the initial empty one, no older than the one current when its reader loaded the index |
| `Metrics.ReadsNeverGoBack` | src/engine/metrics_exporter/mod.rs:225-231 | a read begun after another one was over never returns an older snapshot |
| `Metrics.NewReadersDoNotBlock` | src/engine/metrics_exporter/mod.rs:211-223 | a reader that came after the last publication is never on the buffer the writer waits for |
| `Metrics.RoundPublishes` | src/engine/metrics_exporter/mod.rs:211-253 | a round of the writer that finds nobody on the other buffer publishes exactly the texts it writes and makes that buffer current |
| `Metrics.ReaderGetsLatest` | src/engine/metrics_exporter/mod.rs:225-231 | a reader that is not interrupted gets the last published snapshot |
| `Metrics.Buffers.Publish` | src/engine/metrics_exporter/mod.rs:211-253 | a round of the writer makes the joined texts current and leaves the snapshot that was current before untouched |

## Left out

- Nothing is said about schedulers: `BridgeOutcomes.VerdictIsSent` and its like say which steps lead to a vote, not that they are made. One account may have several voters over several insertions.
- One voter per insertion is about `start_processing`: the tasks before it, which only look at the contract, are not limited.
- The tasks of a bridge run carry one configuration snapshot each, taken in one step, as the code does under its lock.
- A bridge run has events of one kind; the two kinds share no state but the engines and the registry, which a run lets others change.
- `BridgeRuns` sends a message as one step and takes its answer from outside; `BridgeDelivery` takes it from the queue. A joint run has no resend loops but those of voting tasks.
- `PendingMessagesQueue.PendingMessagesQueue.Update`: takes the shard as its membership test; `ShardUtils` is about that test.
- `QueueInterleaving.StepRefines`: the retain pass of an update and the answers it sends are one step; in the code the answers go out one after another under that lock, so a receiver may see one before the next is sent.
- `EngineContext.EngineContext.DeliverMessage`: works on a list of attempts, a bounded piece of a loop that has no bound, and takes what others do to the queue meanwhile as part of an attempt.
- `TonSubscriber.TonSubscriber.HandleShardBlock`: does not model what is inside account states, or how observers parse transactions into contract events.
- `MessageDelivery.ExpiredIsSound`: the transactions of one account in a block are scanned in one step.
- `EthSubscriber.EthSubscriber.FinishRound`: the lookups of a round are a function of the event id, and their results arrive in an arbitrary order; retries inside one lookup are part of its result.
- The index of a log is a number here; the conversion to u32 in src/engine/eth_subscriber/models.rs that may panic is not modelled.
- Removing the oneshot sender from an entry before use is modelled by tickets: a ticket is answered once or dropped.
- Iteration orders of hash maps are arbitrary.
- `CodeHash.CodeHashOfAccount`: the primitives of `ton_block` are not part of the repository; they follow the TL-B scheme of "Telegram Open Network Blockchain", and the tree of cells behind a reference is its hash.
- `Retry.RetriesFitTotalTime`: reads floats as exact reals, and covers growth factors of at least 2 and maxima of at least twice the start delay, which the default configuration meets; the count for a fixed delay is a division.
- `Metrics.ReadsAreSnapshots`: a panic while a buffer is written is not modelled, nor are several writers.
- `BridgeRegistry.RunKeepsRegistry`: nothing in the repository unsubscribes an ETH configuration, so runs do not; the registry holds configuration fields that later code reads and leaves the others out.
- `LogCoverage.NoLogIsMissed`: is about a node that answers a query from its ledger at one moment; logs that arrive in an earlier block later are in no round. Nothing is claimed about blocks that are not safe, beyond `LogCoverage.CoveredIffSafe`.
- Shutting down, where weak references stop to upgrade, ends tasks and loops at their next step; it is covered as a failing step or condition.
- Staking, elections and relay address verification: timers and contract calls.
- Key storage, signing, ABI conversion, RPC, HTTP, configuration files, logging and the metric formatter: library calls and plumbing.
