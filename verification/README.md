# A model of the Joltify bridge node

One validator node of a bridge between the Joltify chain, which is a Cosmos chain, and two EVM chains.
The answers of the chains (heights, nonces, balances, prices, "is it recorded?", the outcome of a
threshold signature) are parameters or nondeterministic events. What the node decides from them is
modelled and proved. Queues, schedules, caches, loops and byte buffers are classes and methods over
mutable state, each tied to a function or a predicate. Fees, decimals and key order are functions.
Concurrent protocols are state machines over single steps, with theorems over every run.

| file | part of the node |
|---|---|
| `Rendezvous.dfy`, `Broadcaster.dfy` | batch signing: n workers, one collector, one channel of capacity n |
| `NonceOrder.dfy` | sending a signed batch in nonce order |
| `Lifecycle.dfy`, `RequestLife.dfy`, `BatchOutcome.dfy` | the books of every request, over whole runs and restarts, and what a batch does to them |
| `InboundBatch.dfy`, `OutboundBatch.dfy`, `MintBatch.dfy`, `Quorum.dfy` | what becomes of the items of one batch |
| `RetryQueue.dfy`, `BatchOrder.dfy`, `DecimalKeys.dfy`, `KeyedStore.dfy` | the retry maps and their order |
| `PoolWindow.dfy`, `MoveFundSchedule.dfy`, `TwoRotations.dfy`, `MoveFund.dfy`, `FundRuns.dfy` | pool rotation and emptying old pools |
| `Throttle.dfy` | when the event loop feeds a batch |
| `Decimals.dfy`, `Fee.dfy`, `ValueFlow.dfy` | fixed-point arithmetic, fees, amounts |
| `Signature.dfy` | signature bytes and recovery ids |

## What holds only under a condition

Where a promise is not kept on all inputs, the model keeps the code as it is, and the exact condition or
a counterexample is proved:

- A failed worker posts "done", while the collector filters "none". The signed batch is free of "done" exactly
  when no worker gave up before its hash was ready (`Rendezvous.DoneIsSignedIff`; a run that signs one:
  `Rendezvous.DoneIsSigned`).
- Inbound feeding clears its "done" flag after every attempt. Over any run, feeding has stopped for good
  exactly when some attempt was made whose signer check or account query did not succeed
  (`Throttle.StalledIff`); one failed account query is enough (`Throttle.OneFailedQueryStalls`).
- Both pool windows match the chain after every block from the second on exactly when the answer rotates at
  most once from block to block, and the second answer is at most one rotation away from the first one with
  its two pools swapped (`PoolWindow.WindowTracksIff`). So a rotation between the first two blocks is not
  tracked (`PoolWindow.RotationAfterFirstFill`).
- Fund-moving jobs of one rotation never collide. Over two successive rotations at heights L1 < L2, and for
  pops at non-decreasing heights, no job ever replaces that of another pool exactly when L2 - L1 is 2 modulo 3
  (`TwoRotations.TwoRotationsIff`); what goes wrong otherwise goes wrong after the second rotation, never
  before or at it (`TwoRotations.SafeUntilRotation`). Two jobs of different pools are safe exactly when their
  heights differ modulo 3 (`MoveFundSchedule.NeverCollideIff`).
- Two map keys read as the same number only when a height is 0 (`DecimalKeys.TieIff`); no separator stands
  between height and hash, so different requests can share a key (`DecimalKeys.KeysCollide`,
  `DecimalKeys.SameKeyIff`).
- The quorum answer is unique, and all nodes dispose of a recorded item alike, exactly unless there are 2 or 4
  validators (`Quorum.UniqueIff`, `OutboundBatch.AgreementIff`).
- An outbound item leaves the books exactly when its record exists but no transaction in it has a quorum
  (`OutboundBatch.LostIffBelowQuorum`). An inbound item leaves them exactly on a failed dial, or when its hash
  was not found and a later item of its batch has the same hash (`InboundBatch.LostIff`).
- A minted item is reported with the hash of its own transaction when the filtered batch is a contiguous run
  of the popped one, and with all transactions accepted only then (`MintBatch.MintFiltered`).
- A transfer can be queued with a payout of 0 (`ValueFlow.PaysNothingIff`).
- The parity bit of a recovery value is recovered for all 64-bit chain ids but four
  (`Signature.RecoversParityIff`). A recovery value of more than one byte overwrites the end of S, harmlessly
  exactly when its leading bytes agree with it (`Signature.RecoveryKeepsHalvesIff`).

The comment on `MoveFound` (pubchain/move_fund.go:27-29) says that a pool is always tried at least twice;
the code lets it go after the first attempt that ends with empty balances, and the model follows the code.

## Model

| member | source | states |
|---|---|---|
| Rendezvous.StepKeepsInv | bridge/bridge_service.go:735-837 | each interleaved step of workers, collector and closer keeps the protocol invariant: one message per worker on the channel, subscriptions, bookings, submit lock, and what the collector may have seen |
| Rendezvous.RoomToPost | bridge/bridge_service.go:739-740 | a worker about to post, first or last message, finds at most n - 1 of the n places taken and the channel open |
| Rendezvous.SendsNeverBlock | pubchain/tx_send.go:264-272 | the hash, and the "done" after it, can be sent at once in every reachable state, so nobody has to read the channel after the n-th message |
| Rendezvous.BroadcastReachesWaiters | pubchain/broadcast.go:44-52 | at the broadcast every waiting worker is subscribed with an empty slot, gets the reply and can go on; the channel has been drained of first messages |
| Rendezvous.CollectIsFresh | bridge/bridge_service.go:806-815 | the collector never hears twice from one index, so it takes exactly n messages and then signs |
| Rendezvous.NoDeadlock | bridge/bridge_service.go:735-837 | a state in which no step is possible is one in which every worker and the collector have finished and the channel is closed; a confirmed worker can only wait for the submit lock, which its holder can always release |
| Rendezvous.StepDecreases | bridge/bridge_service.go:735-837 | every step lowers a natural-number measure |
| Rendezvous.EveryRunFinishes | bridge/bridge_service.go:735-837 | for every n >= 1 and every interleaving: no double subscription, no send on a closed channel, at most 11n + 4 steps, and a stop only at the end |
| Rendezvous.EachItemEndsOnce | bridge/bridge_service.go:755-796 | when the round is over every item is confirmed or on hold, exactly one of them, exactly once |
| Rendezvous.BooksOfARound | bridge/bridge_service.go:755-796 | over every run, an item is booked as confirmed exactly when its status check succeeded, which needs a successful sending of a transaction whose hash was signed in this round; it is on hold exactly when its worker put it there |
| Rendezvous.WakesWithTheSignature | bridge/bridge_service.go:831-835 | what a worker wakes up with is the outcome of the signing of this round |
| Rendezvous.EndsOpen | bridge/bridge_service.go:755-796 | a worker that sent can be confirmed or hold its item, one that did not can only hold it |
| Rendezvous.GoodRound | bridge/bridge_service.go:735-837 | a whole run in which the hash is signed ends with the item confirmed and nothing on hold |
| Rendezvous.BuildBatch | bridge/bridge_service.go:816-821 | the batch is the multiset of received payloads other than "none", in whatever order the map is ranged over |
| Rendezvous.BatchHoldsEveryWorker | bridge/bridge_service.go:816-821 | the batch has n messages: the hash of each worker that waits, and a "done" for each that gave up |
| Rendezvous.DoneIsSignedIff | bridge/bridge_service.go:816-821 | "done" is in the batch exactly when some worker gave up before its hash was ready |
| Rendezvous.DoneIsSigned | pubchain/tx_send.go:266-272 | a run from the start that ends with "done" as the whole batch |
| Broadcasting.Broadcaster.Subscribe | pubchain/broadcast.go:20-32 | a second subscription under an id fails and changes nothing; the first gets an empty slot |
| Broadcasting.Broadcaster.Unsubscribe | pubchain/broadcast.go:34-42 | exactly that id is removed |
| Broadcasting.Broadcaster.Broadcast | pubchain/broadcast.go:44-52 | every subscriber with an empty slot gets the reply, full slots are skipped, so no send blocks under the lock |
| NonceOrder.WaitToSend | pubchain/tx_send.go:26-58 | success exactly when the first observed nonce that is not below the target equals it; "already passed" exactly when it is above; failure when there is none |
| NonceOrder.ObserveIsOnePoll | pubchain/tx_send.go:32-50 | one poll of a worker is one observation of its waiting loop: ready at its own nonce, quit above it, waiting below |
| NonceOrder.EveryoneCanSend | pubchain/tx_send.go:90-101 | polled and sending in turn, every worker of a batch gets its nonce |
| NonceOrder.RunKeepsInv | pubchain/tx_send.go:90-101 | over every interleaving with other senders, taken nonces only grow and each own transaction sits at its own nonce |
| NonceOrder.NothingJumpsTheQueue | pubchain/feed.go:27-31 | when a worker's turn came, every lower nonce of the batch was taken, by its holder or by another party; a worker counts as sent exactly when its transaction has its nonce |
| NonceOrder.MissingNonceBlocks | pubchain/tx_send.go:42-49 | without other senders, a worker's turn comes only after every earlier worker sent |
| NonceOrder.QuitIsFinal | pubchain/tx_send.go:52-57 | a worker that quit never sends; one that sends has polled first |
| Lifecycle.StepKeepsInv | bridge/bridge_service.go:696-797 | observing, feeding, taking, finishing, dumping, rechecking, shutdown and restart all keep every request in exactly one place, under its own key |
| Lifecycle.EveryRequestIsInOnePlace | bridge/bridge_service.go:840-897 | after any run, restarts included, each request ever observed is in one of map, channel, workers, on-hold, recheck, saved, settled, dropped, once; and nothing else is anywhere |
| Lifecycle.DropsOnlyAtExits | bridge/pubchain_routine.go:125-136 | requests are dropped only by an equal-index overwrite, a feed failing after the pop, a let-go verdict (which items get one is said by the `BatchOutcome` rows), or a shutdown with queued batches or clashing on-hold indices |
| Lifecycle.NoExitNoLoss | bridge/pubchain_routine.go:109-142 | a run without those exits drops nothing |
| RequestLife.ExactlyOnePlace | bridge/bridge_service.go:696-897 | a request is at exactly one place of the books |
| RequestLife.StepMoves | bridge/bridge_service.go:696-897 | every step moves every request as its own life says: observed, fed, taken, finished, dumped, rechecked, saved, restarted |
| RequestLife.SettledByEvents | bridge/bridge_service.go:855-861 | over every run a request is settled exactly as often as a worker saw it confirmed or a recheck found it |
| RequestLife.StaysInMap | bridge/bridge_service.go:883-891 | once in the map a request stays there until it is fed, overwritten by an equal index, or the node stops |
| RequestLife.EntersAndLeaves | bridge/pubchain_routine.go:125-141 | observing puts a request in the map, a successful feed into the channel, a take into the workers' hands |
| RequestLife.WorkersPut | bridge/bridge_service.go:696-797 | where a worker's verdict puts a request |
| RequestLife.HeldIsRechecked | bridge/bridge_service.go:840-897 | a dumped item that is found is settled, and one that is not found is back in the map |
| RequestLife.EveryAnswerIsPossible | bridge/bridge_service.go:840-897 | no answer of a worker, a recheck or a feed is ruled out beforehand |
| RequestLife.FedBatchIsOfItsChain | cosbridge/oppy_item_process.go:42-50 | a fed batch is of one chain outbound, and holds all its requests unless it is full |
| RequestLife.FirstFedFirstTaken | bridge/bridge_service.go:585-601 | over every run without a shutdown, batches reach the workers whole and in the order in which they were fed |
| RequestLife.CanStillBeSettled | bridge/bridge_service.go:840-897 | from every reachable state, running or stopped, each request that is neither settled nor dropped can still be settled |
| Lifecycle.OverwritesNothingIff | bridge/bridge_service.go:266-274 | putting a list back overwrites nothing exactly when its indices are distinct and new to the map |
| Lifecycle.PutAllIsStoreAll | bridge/bridge_service.go:229-246 | the step-by-step loading used in the books is the same map as the loading used by the queue classes |
| Lifecycle.ShutdownRestart | bridge/bridge_service.go:266-286 | shutdown and restart bring back the map with the on-hold items merged in, with nothing lost or doubled, for any export order |
| InboundBatch.ProcessInbound | bridge/bridge_service.go:623-694 | what goes on hold: all items when minting could not be tried, otherwise the last one of each hash that was to be minted and that the chain was asked for and did not have; an item is neither there nor known to the chain exactly on a failed dial, or when its hash was not found and a later item has the same hash |
| InboundBatch.LostIff | bridge/bridge_service.go:661-692 | the fate of an item is to be lost exactly then |
| InboundBatch.DistinctHashesLoseOnlyOnDial | bridge/bridge_service.go:667-671 | with distinct hashes, only failed dials lose an item |
| OutboundBatch.Check | bridge/bridge_service.go:707-726 | what one item comes to is possible for its record, with the transaction chosen by `GetPubChainSubmittedTx` in whatever order the record is ranged over |
| OutboundBatch.Precheck | bridge/bridge_service.go:697-729 | every popped item comes to something its record allows, and exactly those to be processed are handed on |
| OutboundBatch.LostIffBelowQuorum | bridge/bridge_service.go:707-726 | however the pass goes, an item is let go exactly when its record exists and no transaction in it has enough entries |
| OutboundBatch.DispositionAgrees | bridge/bridge_service.go:716-726 | with a decisive number of validators all nodes that see an honest record dispose of the item alike |
| OutboundBatch.DispositionsDiffer | bridge/bridge_service.go:716-726 | with 2 or 4 validators, an honest record that one node settles and another sends again |
| OutboundBatch.AgreementIff | cosbridge/submit_outboundtx.go:67-77 | agreement on all honest records holds exactly unless there are 2 or 4 validators |
| BatchOutcome.FinishBatch | bridge/bridge_service.go:593-601 | one step per item takes exactly the batch out of the workers' hands and puts each item where its verdict says |
| BatchOutcome.TakeAndFinish | bridge/bridge_service.go:585-601 | a batch taken by idle workers leaves them idle again, with the books in order |
| BatchOutcome.GoesThere | bridge/bridge_service.go:623-797 | which requests of a batch end in which place |
| BatchOutcome.InboundOutcome | bridge/bridge_service.go:623-694 | processInbound is such a run, and drops exactly the items with a failed connection, or with a hash not found that a later item stands for |
| BatchOutcome.WorkOffInbound | bridge/bridge_service.go:623-694 | a call of processInbound with its run: the requests that go on hold sit where the items it put on hold do, and the dropped ones are neither there nor known to the chain |
| BatchOutcome.OutboundOutcome | bridge/bridge_service.go:696-797 | first pass and finished signing round together are such a run: an item goes on hold exactly when its worker had a hold event, is settled exactly when a transaction of its record, or of its worker, was confirmed, and is dropped exactly when its record exists without a quorum |
| BatchOutcome.HeldIff | bridge/bridge_service.go:755-796 | the place of an item to be sent, in terms of what its own worker did in the round |
| Quorum.GetPubChainSubmittedTx | cosbridge/submit_outboundtx.go:67-77 | a named transaction has enough entries, and the empty answer means that none has, or that the empty key has, for any order of iteration |
| Quorum.Threshold | cosbridge/submit_outboundtx.go:68-68 | the threshold is the largest number of entries not above two thirds of the validators |
| Quorum.ReachesIff | cosbridge/submit_outboundtx.go:72-72 | having a quorum, 3 * entries + 2 >= 2 * validators, is reaching the threshold |
| Quorum.TwoEntriesFit | cosbridge/submit_outboundtx.go:71-76 | the entry lists of two transactions together have at most n validators |
| Quorum.UniqueIff | cosbridge/submit_outboundtx.go:67-77 | over all honest records the answer is unique exactly unless there are 2 or 4 validators |
| RetryQueue.OutBoundReq.constructor | common/requests_queue.go:26-40 | a new request has nonce 0, the empty transaction hash, and the index printed from its height and the Keccak of receiver and transaction |
| RetryQueue.InBoundReq.constructor | common/requests_queue.go:80-92 | a new request has sequence 0, and the index printed from its height and its hash |
| RetryQueue.OutBoundReq.SetItemNonce | common/requests_queue.go:56-59 | assigning pool and nonce changes neither index nor hash |
| RetryQueue.OutBoundReq.RecordSubmitted | bridge/bridge_service.go:795-795 | recording the submitted hash changes neither index nor hash |
| RetryQueue.InBoundReq.SetAccountInfo | common/requests_queue.go:100-105 | assigning account, sequence and pool changes neither index nor hash |
| RetryQueue.OutboundQueue.AddItem | cosbridge/oppy_item_process.go:36-38 | the request is stored under its own index and nothing else changes |
| RetryQueue.OutboundQueue.AddOnHoldQueue | cosbridge/oppy_item_process.go:10-14 | the item is appended |
| RetryQueue.OutboundQueue.DumpQueue | cosbridge/oppy_item_process.go:16-25 | everything on hold is returned in order, and the queue is empty |
| RetryQueue.OutboundQueue.PopItem | cosbridge/oppy_item_process.go:40-77 | the min(n, size) smallest keys of the chain, sorted, with the requests stored under them; exactly the rest stays, for any order of iteration |
| RetryQueue.OutboundQueue.ExportItems | cosbridge/oppy_item_process.go:27-34 | every stored request once, in some order |
| RetryQueue.OutboundQueue.Shutdown | bridge/bridge_service.go:266-280 | the on-hold items go back to the map, and the export lists the resulting map |
| RetryQueue.OutboundQueue.Restart | bridge/bridge_service.go:223-234 | loading an export, in any order, rebuilds the saved map |
| RetryQueue.InboundQueue.AddInBoundItem | pubchain/public_items_process.go:10-12 | the request is stored under its own index and nothing else changes |
| RetryQueue.InboundQueue.PopItem | pubchain/public_items_process.go:53-87 | the min(n, size) smallest keys, sorted, and exactly the rest stays, for any order of iteration |
| RetryQueue.SeqNo | cosbridge/feed.go:40-46 | the i-th number of a batch is the first plus i on 64-bit words, and the first is the queried one |
| RetryQueue.InboundQueue.FeedTx | cosbridge/feed.go:13-49 | a batch comes out exactly when the node signs, the account query succeeds and the map is not empty; its first item carries the queried sequence, and the others the next ones in batch order; otherwise nothing is popped |
| RetryQueue.FeedOutbound | pubchain/feed.go:11-33 | the first item carries the queried pending nonce and the others the next ones in batch order, with the pool address; on a failed query no item changes |
| RetryQueue.NoncesDistinct | pubchain/feed.go:27-31 | the nonces of one batch are pairwise different even when they wrap |
| BatchOrder.SortKeys | cosbridge/oppy_item_process.go:51-55 | sorting gives a permutation in which no value decreases |
| BatchOrder.PrefixIsBatch | pubchain/public_items_process.go:60-75 | the first n of any correct sort of any listing of the keys is a batch: distinct keys, smallest values, nothing smaller left behind |
| BatchOrder.BatchIsStrict | pubchain/public_items_process.go:60-64 | with distinct values a batch is strictly increasing and strictly below what it leaves |
| BatchOrder.DeterministicIff | cosbridge/oppy_item_process.go:40-77 | every order of iteration and every correct sort give the same batch exactly when no two keys read as one number |
| BatchOrder.NonZeroHeightsAreDeterministic | cosbridge/oppy_item_process.go:40-77 | requests with heights other than 0 give one and the same batch on every node |
| DecimalKeys.DecimalCanonical | common/requests_queue.go:49-51 | a printed natural number has no leading zero and reads back as itself |
| DecimalKeys.CanonicalIsPrinted | cosbridge/oppy_item_process.go:52-53 | a digit string without a leading zero is what its value prints as |
| DecimalKeys.KeyReads | common/requests_queue.go:43-53 | the number a key reads as, for positive, zero and negative heights |
| DecimalKeys.NonZeroHeightsNeverTie | common/requests_queue.go:43-53 | away from height 0, keys read alike exactly when they are equal |
| DecimalKeys.TieIff | common/requests_queue.go:72-78 | different keys read alike exactly when one height is 0 and its hash is the value of the other key |
| DecimalKeys.SameKeyIff | common/requests_queue.go:43-53 | when requests share a key; with hashes of equal length only if height and hash agree |
| DecimalKeys.KeysCollide | common/requests_queue.go:49-52 | two requests with different heights and hashes and one key |
| DecimalKeys.OlderFirst | common/requests_queue.go:72-78 | between hashes of equal length, the older height sorts first, then the smaller hash |
| DecimalKeys.YoungerMayComeFirst | common/requests_queue.go:72-78 | a shorter hash can put a younger request first |
| KeyedStore.StoreAllDistinct | bridge/bridge_service.go:229-232 | storing entries with distinct keys stores each of them and leaves the others alone |
| KeyedStore.Rebuild | bridge/bridge_service.go:223-246 | storing the entries of a map, in any order, into an empty map gives that map |
| MintBatch.BatchGenSendTx | cosbridge/bridge.go:52-168 | whatever the order of the signatures, message i goes out under sequence accSeq + i, exactly for the signed digests; a failed signing or a wrong count gives nothing |
| MintBatch.AllSigned | cosbridge/bridge.go:133-166 | when each digest came back once, every sequence has its message |
| MintBatch.SendAll | cosbridge/helper.go:188-241 | the hashes are filed under the sequences of the accepted transactions |
| MintBatch.DoProcessInBound | cosbridge/mint.go:25-72 | every item is reported, under its hash, with what was found under its own sequence; the last item of a hash counts |
| MintBatch.ReportedTransaction | cosbridge/mint.go:56-69 | item j is reported with the transaction of item kept[j] - kept[0] of the filtered batch, and with none when there is no such item |
| MintBatch.AlignedIffContiguous | bridge/bridge_service.go:636-652 | the transaction under every item's sequence carries its own message exactly when the surviving items are a contiguous run of the popped batch |
| MintBatch.ReportedByPlace | cosbridge/mint.go:64-69 | item j is reported with the answer for the transaction of item kept[j] - kept[0], and with the empty hash when there is none |
| MintBatch.ReportedIffContiguous | cosbridge/mint.go:64-69 | so each reported hash is that of the item's own transaction if the survivors are contiguous, and with all transactions accepted only then |
| MintBatch.MintFiltered | cosbridge/mint.go:25-72 | the same for a whole call of DoProcessInBound on a filtered batch of distinct hashes, for any order of signatures |
| MintBatch.UnfilteredIsContiguous | cosbridge/feed.go:43-46 | in particular when nothing was filtered |
| MoveFundSchedule.ItemKeyInjective | pubchain/move_fund.go:310-314 | the key "height:chain" determines height and chain |
| MoveFundSchedule.MoveFundQueue.AddMoveFundItem | pubchain/move_fund.go:310-314 | the job is stored under the key of its own height and chain |
| MoveFundSchedule.MoveFundQueue.ExportMoveFundItems | pubchain/move_fund.go:316-324 | every job once, in some order |
| MoveFundSchedule.MoveFundQueue.PopMoveFundItemAfterBlock | pubchain/move_fund.go:327-344 | a least-height job of that chain, found under the rebuilt key and the only one removed, exactly when some job of the chain is more than 30 blocks old |
| MoveFundSchedule.RunKeepsInv | pubchain/move_fund.go:52-164 | over every run of pops, retries and restarts, heights keep their class modulo 3 and each job is in one place |
| MoveFundSchedule.RotationNeverLosesAJob | bridge/bridge_service.go:457-464 | the four jobs of a rotation, starting at L-25 and L-20, never overwrite each other in any run |
| MoveFundSchedule.NeverCollideIff | pubchain/move_fund.go:310-314 | two jobs of different pools on one chain both stay in one place in every run exactly when their heights differ modulo 3 |
| TwoRotations.TidyNeverReplaces | pubchain/move_fund.go:310-314 | with one residue class per pool no re-add ever replaces the job of another pool, over any run |
| TwoRotations.SafeUntilRotation | bridge/bridge_service.go:457-464 | whatever the two heights, no job replaces that of another pool up to the second rotation, nor at it |
| TwoRotations.UnsafeRuns | pubchain/move_fund.go:52-164 | unless L2 - L1 is 2 modulo 3, a run after the second rotation, at non-decreasing heights, in which the pool that left first is retried until its job replaces one of the second rotation |
| TwoRotations.TwoRotationsIff | bridge/bridge_service.go:457-464 | over every run through two successive rotations at L1 < L2, with pops at non-decreasing heights of the same chain, no job replaces that of another pool exactly when L2 - L1 is 2 modulo 3 |
| MoveFund.NativeEmptyWasSeen | pubchain/move_fund.go:239-308 | "empty" is reported only after a native balance was read at no more than a quoted fee; "moved" without "empty" only after sending |
| MoveFund.TokenEmptyWasSeen | pubchain/move_fund.go:203-237 | a token worker reports "empty" only after reading a zero balance |
| MoveFund.TokenWorkerIff | pubchain/move_fund.go:203-237 | a token worker reports empty exactly when it read the balance as gone, before sending or after a good receipt, and an error otherwise |
| MoveFund.NativeWorkerIff | pubchain/move_fund.go:239-308 | the native step reports empty exactly when the balance was read at no more than the quoted fee, the fee quoted again, or the fee after sending; moved also when the balance was sent off and more came in; an error otherwise |
| MoveFund.TokensEmptiedIff | pubchain/move_fund.go:46-159 | the token part of the attempt succeeds exactly when every listed token was read as gone |
| MoveFund.ReadEmptyWasSeen | pubchain/move_fund.go:46-170 | a pool read as empty had each listed non-native token read at zero and the native balance at no more than a fee |
| MoveFund.EmptyIsRead | pubchain/move_fund.go:46-170 | conversely, a pool whose first reads are empty, or whose balances are gone after good receipts, is read as empty |
| MoveFund.MoveFound | pubchain/move_fund.go:30-170 | with a known current pool the job leaves the schedule exactly when the reads of the attempt show the pool empty, and else comes back at height + 3; without one nothing is added; and, by the same reads, when the attempt counts as a move |
| MoveFund.RunWorkers | pubchain/move_fund.go:97-112 | the shared flag survives exactly when every token worker ended with an empty balance |
| MoveFund.MoveFundStep | bridge/pubchain_routine.go:37-77 | nothing is popped before the pools are known; a popped job is always back afterwards, at its own height after a failed dial or 3 blocks later, unless its pool was found empty; and when the step ends the block as a move |
| FundRuns.ScheduledUntilEmpty | pubchain/move_fund.go:30-170 | over every run of attempts and restarts after a rotation, a job is in the schedule exactly as long as no attempt on it found its pool empty, which happens once at most |
| FundRuns.LeftWasEmpty | pubchain/move_fund.go:203-308 | a pool that has left the schedule was seen empty: in one attempt each listed non-native token was read at zero and the native balance at no more than a quoted fee |
| FundRuns.StepIsRound | bridge/pubchain_routine.go:59-77 | every call of the fund-moving step is one round of such a run |
| PoolWindow.PoolCache.UpdatePool | cosbridge/tx_outbound.go:118-148 | the window shifts, a key that does not convert changes nothing, and the former slot 0 is returned |
| PoolWindow.NeedUpdate | bridge/helper.go:9-36 | whether the cached addresses differ from the answer, with the reversed order of the two lists; an inconvertible key means no |
| PoolWindow.BridgePools.ProcessPools | bridge/bridge_service.go:434-465 | one block applied to both caches and the schedule, with the panic on a missing pool ruled out and both caches kept equal |
| PoolWindow.BlockKeepsConsistent | bridge/bridge_service.go:434-465 | for any reported keys the block does not panic and the two caches stay equal |
| PoolWindow.FirstFill | bridge/bridge_service.go:438-449 | the first block fills both slots in the wrong order and the next one corrects them without scheduling a job |
| PoolWindow.TracksIff | bridge/bridge_service.go:451-465 | after a block a full window matches the chain exactly when it did before or there was one rotation, and then no update is needed |
| PoolWindow.RotationSchedules | bridge/bridge_service.go:456-464 | a rotation schedules the two old pools on both chains, at L-25 and L-20, and nothing else |
| PoolWindow.SuccessiveRotations | bridge/bridge_service.go:456-464 | at the next rotation the pool that stayed leaves, so the jobs are those of the two rotations in a row that `TwoRotations` starts from |
| PoolWindow.WindowTracksIff | bridge/bridge_service.go:434-465 | over every run, both windows equal [older, latest] after each block from the second on exactly when consecutive answers are at most one rotation apart, the first one taken with its pools swapped |
| PoolWindow.WindowTracksChain | pubchain/tx_inbound.go:322-325 | in particular when the answer does not change between the first two blocks |
| PoolWindow.RotationAfterFirstFill | bridge/bridge_service.go:438-465 | a rotation right after the first block makes the window skip a pool, then hold the new pool twice and schedule its funds |
| Throttle.InboundThrottled | bridge/bridge_service.go:525-562 | over every run at most one inbound batch is queued or running, and feed attempts are at least 8 + rollback gap blocks apart |
| Throttle.TooManyFailuresPause | bridge/bridge_service.go:506-523 | after more than 5 failures seen at height h nothing is fed below (h/100 + 1) * 100 in any continuation |
| Throttle.AttemptsIff | bridge/bridge_service.go:506-549 | a block makes a feed attempt exactly when all guards let it: failures, pause, gap, size, second look, flag, key generation |
| Throttle.SecondLook | bridge/bridge_service.go:531-538 | with open guards a group of fewer than 4 waits for one more block and is then attempted, and the wait starts anew after every attempt |
| Throttle.PauseProtocol | bridge/bridge_service.go:506-523 | more than 5 failures pause the loop and reset the count; the first block past the pause counts failures again |
| Throttle.FailuresCount | bridge/bridge_service.go:675-690 | k failures in a row count as k unless the loop is paused, and one success forgets them |
| Throttle.PauseMonotone | bridge/bridge_service.go:508-509 | a pause ends at the least multiple of 100 above the height |
| Throttle.AttemptStallsIff | bridge/bridge_service.go:553-560 | a block that passes the guards stalls the loop exactly when the signer check or the account query of FeedTx does not succeed |
| Throttle.StalledIff | bridge/bridge_service.go:540-560 | over every run, the loop is stalled exactly when it was or some attempt failed; otherwise the flag says exactly whether a batch is in flight |
| Throttle.OneFailedQueryStalls | cosbridge/feed.go:27-31 | from the start, one failed account query, and nothing is fed in any continuation |
| Throttle.StalledForever | bridge/bridge_service.go:540-544 | from then on no batch is ever fed |
| Throttle.InboundLoop.ProcessNewBlock | bridge/bridge_service.go:468-562 | the loop variables after a block are those of the state machine; a batch comes out exactly when all guards are open and both queries of FeedTx succeed, and it is the at most 4 smallest keys, taken out of the map, with sequences from the queried one on |
| Throttle.InboundLoop.Attempt | bridge/bridge_service.go:553-560 | the flag, the block and the first-time mark are set whatever FeedTx returned |
| Throttle.OutboundThrottled | bridge/pubchain_routine.go:97-142 | over both chains together at most one outbound batch is in flight, exactly while the flag is cleared, and batches of one chain are at least 4 processable blocks apart |
| Throttle.OutboundFailuresPause | bridge/pubchain_routine.go:79-93 | after more than 5 failures the chain whose block saw them is not fed below its next multiple of 100 |
| Throttle.OutAttemptsIff | bridge/pubchain_routine.go:79-142 | a block of a public chain feeds a batch exactly when all guards let it: failures, the pause of its chain, flag, key generation, gap, size, second look; and the chain has items whose pool address and nonce are found |
| Throttle.OutSecondLook | bridge/pubchain_routine.go:117-121 | with open guards a group of fewer than 4 waits for one more block, of either chain, and is then fed |
| Throttle.ChainsApart | bridge/pubchain_routine.go:79-142 | a block of one chain touches neither the pause nor the last batch of the other |
| Throttle.OutPauseProtocol | bridge/pubchain_routine.go:79-95 | more than 5 failures pause the chain of that block and reset the count; the first block past the pause counts failures again |
| Throttle.OutFailuresCount | bridge/bridge_service.go:792-794 | k failed items in a row count as k unless a pause is on, and one success forgets them |
| Throttle.OutboundLoop.PubchainProcess | bridge/pubchain_routine.go:79-142 | the loop variables after a public chain block are those of the state machine; the at most 4 smallest keys of the chain are popped exactly when all guards are open and there are any, and fed, with nonces from the queried one on, exactly when the pool address and the nonce were found |
| Decimals.ChopUnique | common/fee.go:10-15 | rounding to 18 digits is to nearest, ties to even, for both signs, and no other function is |
| Decimals.QuoRoundError | common/fee.go:14-15 | Quo followed by RoundInt, a truncation and two roundings, stays within 1/2 + 10^-18/2 + 10^-36 of the exact quotient |
| Fee.InitFeeModuleValid | common/fee.go:44-62 | exactly the two chains are configured, with 0 <= floor <= ceil |
| Fee.ConfiguredLimits | common/fee.go:44-62 | the configured share is a hundredth of a percent, the floors are 2.5 and 0.1 dollars, the ceilings 1000 dollars |
| Fee.LimitAtOneDollar | common/fee.go:26-31 | at a price of one dollar a limit of n dollars is n * 10^6 units of ujolt, and n * 10^18 of any other token |
| Fee.LimitErrorBound | common/fee.go:12-15 | each clamp amount is that close to limit * 10^decimal / price |
| Fee.LimitMonotone | common/fee.go:14-15 | the floor amount never exceeds the ceiling amount |
| Fee.LimitAntitone | common/fee.go:14-15 | clamp amounts do not increase with the price |
| Fee.ProportionalFee | common/fee.go:10-10 | the proportional fee is amount * ratio rounded once, half to even, in spite of two roundings in the code |
| Fee.FeeClamped | common/fee.go:9-35 | the fee is the proportional share, or the nearer clamp amount when the share lies outside |
| Fee.FeeMonotone | common/fee.go:9-35 | a larger transfer never has a smaller fee |
| Fee.NonPositivePrice | common/fee.go:14-15 | a zero price panics; a negative one never charges a fee |
| ValueFlow.AdjustConserves | common/decimals.go:9-15 | scaling in either direction creates nothing and loses less than one unit of the coarser side |
| ValueFlow.AdjustRoundTrip | pubchain/helper.go:334-350 | a token of at most 18 decimals survives scaling in and out |
| ValueFlow.ConservedUpTo18 | pubchain/tx_inbound.go:219-251 | amountIn * 10^(18-din) = fee + amountOut * 10^(18-dout) + dust with 0 <= dust < 10^(18-dout), and the fee is less than the amount |
| ValueFlow.PaysNothingIff | pubchain/tx_inbound.go:251-266 | a queued payout is 0 exactly when the net amount is below one unit of the destination token |
| ValueFlow.ProcessDstInbound | pubchain/tx_inbound.go:212-268 | for all answers, whether a deposit is queued, dropped, failed or panics; a queued one conserves value and carries the fee of its scaled amount |
| ValueFlow.ProcessOutBoundRequest | cosbridge/tx_outbound.go:17-106 | the same for deposits on the Joltify chain, whose amounts have 18 digits already |
| Signature.BytesFit | misc/helper.go:80-82 | a number takes at most k bytes exactly when it is below 256^k |
| Signature.SerializeSig | misc/helper.go:53-97 | the bytes are the left-padded R and low S, with the recovery value, of any length that fits, written up to the end if asked; the copies panic exactly when a number does not fit |
| Signature.MakeSignature | misc/helper.go:100-110 | the same layout for any R, S below 2^256, with the low 8 bits of V |
| Signature.SerializedDecodes | misc/helper.go:84-96 | reading the halves back gives R and S, and the last byte the recovery value |
| Signature.HalvesInjective | misc/helper.go:84-96 | equal bytes come from equal pairs only |
| Signature.LowSIsMinimal | misc/helper.go:71-76 | the serialised S is min(S, N - S), in the lower half, and S and N - S serialise alike |
| Signature.RecoveryKeepsHalvesIff | misc/helper.go:85-90 | a recovery value of k bytes leaves R and S readable exactly when its leading k - 1 bytes are those it overwrites; so always for k = 1 |
| Signature.WideRecoveryOverwritesS | misc/helper.go:89-89 | with a two-byte recovery value, R reads back and the last byte of S reads as the first byte of the value |
| Signature.RecoversParityIff | misc/helper.go:133-147 | 35 + 2c + y gives back y for every 64-bit chain id c, except four pairs (c, y) |
| Signature.RecoversUnprotected | misc/helper.go:124-147 | 27 + y and plain y give back y |
| Signature.RecoverUndoes | misc/helper.go:124-147 | for every chain id and value, the recovery id is the value, the value less 27, or the 64-bit word that 35 + 2c has to be added to |
| Signature.OrderOfTheGroup | misc/helper.go:71-72 | the order of the group, by its distance from 2^256 |

## Left out

- RPC, websocket, subscription, reconnect, health check, metrics, logging, configuration and password code: their answers are parameters or events.
- Threshold signing, Keccak, SHA-256, bech32, secp256k1 and ABI decoding: uninterpreted. Keccak is a function given to each request; the digests of one mint batch are assumed to be distinct.
- The key-generation queue (`prepareTssPool`, `CheckAndUpdatePool`), token lists and validator set copies.
- JSON saving and loading: the saved list is given, and the rebuild of the map is proved. A failed save leaves an older file behind, which is not modelled.
- Overflow panics of the decimal and integer types, and overflow of 64-bit heights. 64-bit nonces and sequences wrap as in the code where they are assigned, and mint sequences do not wrap in `MintBatch`.
- Wall-clock time-outs and backoff: a retry loop is a finite list of observations.
- A token worker of `MoveFound` that fails to dial (pubchain/move_fund.go:91-95) and goes on with a nil client.
- A missing fee module, which panics; the module is a parameter of the two payout methods.
- Failures to build one mint message or transaction (`continue` in cosbridge/mint.go:40-43 and cosbridge/bridge.go:95-114) and a signature that cannot be set.
- The workers of `MoveFound` follow the same rendezvous as `processEachOutBound` without the booking and the submit lock, so they have no separate state machine.
- Unsubscribing a worker that has an unread reply: the reply is dropped with its channel.
- RetryQueue.InboundQueue: its on-hold queue, export and loading work as in the outbound class and are not repeated.
- RetryQueue.OutboundQueue.PopItem: says which keys are popped; that the result is the same on all nodes is said by the lemmas of `BatchOrder`.
- BatchOrder.SortKeys: `sort.Slice` is known to its callers by its contract only, and its own algorithm is not modelled.
- Quorum.UniqueIff: an honest record lists a transaction only with at least one validator.
- Quorum.GetPubChainSubmittedTx: the float32 threshold is taken as floor(2n/3), which is the same number for realistic validator counts.
- Signature.SerializeSig: starts from the decoded numbers; base64 decoding and its errors are not modelled.
- OutboundBatch.Precheck: the goroutines are visited one by one, so the order of the result is not modelled, only its contents.
- NonceOrder.MissingNonceBlocks: holds without other senders of the pool account; with them, the gap can be filled by another party.
- MoveFundSchedule.RotationNeverLosesAJob: starts from an empty schedule; jobs of an earlier rotation are covered by `TwoRotations`.
- TwoRotations.TwoRotationsIff: speaks of two successive rotations of pools with different keys; a pool that is in both has jobs of both, and one of these may replace the other. Its failing runs have no pop between the two rotations.
- MoveFund.MoveFound: called without a current pool it drops its job; the only caller does not, as `MoveFundStep` says.
- MintBatch.MintFiltered: the "only then" needs every transaction accepted, under distinct hashes; rejected transactions are all reported as the empty hash.
- OutboundBatch.LostIffBelowQuorum: for records that do not name the empty transaction; with it, an item can also be let go when the empty key has a quorum.
