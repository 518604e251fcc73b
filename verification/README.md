# Centralized relay: a verified model

The relay moves messages between chains. A listener observes them on a source chain; they are cached
in memory and kept in a LevelDB message store; a router looks each one up at its destination and
starts a delivery; a callback moves delivered messages under finality watch or forgets them; failed
ones back off, are stored after the fifth try and come back by flushing. This project models that
engine, the stores under it, and three pieces of arithmetic it depends on: the EVM nonce tracker, the
height ranges and pages of two listeners, and the ICON hex codec.

Run `dafny verify dfyconfig.toml` in this directory.

## How the pieces fit

* `Engine.dfy` is a state machine over values. Every goroutine is cut wherever another one can run:
  at each call of a chain, each store write, each cache operation. A run is a list of labels; a label
  names a step and its environment's answers. `EngineIdentity`, `EngineInFlight`, `EngineRetry`,
  `EngineProgress`, `EngineBackoff`, `EngineConservation`, `EngineCauses`, `EnginePresence`, `EngineDurable`
  and `EngineFinality` prove what holds in every state of every run, or exactly when it does; `EngineRepick`
  holds the runs in which it does not. `EngineRestart` puts the runs of processes with different chains one
  after the other.
* `Lvldb.dfy`, `Stores.dfy` and `StoreKeys.dfy` are the ordered byte-string map, the three stores that
  share it, and their keys. `StoreRefinement.dfy` proves that they behave as three typed maps.
* `RelayObjects.dfy` and `Relayer.dfy` are the objects of the program: route messages, caches keyed by
  the identity of a sequence number object, chain runtimes, the relayer with its loops. `RelayLink`
  and `RelaySteps` tie that heap, down to the bytes of the database, to states of the machine. Each
  `Relayer` method is proved to be a run of the machine (`trace`, `model`), so what is proved for runs
  holds of the objects: `NothingLost`, `GoneForCause`, `DeletedForCause` and `OneGoroutineEach` say so.
  Every question to a provider is kept with its answer, and every write to the database with its outcome.
  The contracts say which questions and writes each method makes, and `RelayAnswers` that whatever the
  relayer claims is backed by one of them.
  `RelayFlush` says what a flush takes from the database.
* `BigInts`, `EvmNonce`, `EvmRoute`, `Heights`, `IconHex` and `IconAddress` stand alone.

## What the model assumes

* Each `RouteMessage` has a sequence number object of its own: listeners deliver fresh ones, and
  decoding a stored message makes one. Sequence numbers of messages are at least zero. Without that
  store keys can collide; `ScopedKeyEqual` says exactly when, for all integers.
* Caching and storing an observed message is one step, and the router iterates over a snapshot.
* JSON is a structural copy. `GetLastStoredBlock` gives the decoded height, as its test expects, although
  the source returns the variable beside the call that fills it.
* Chain answers, clock readings and the success of each store write are arbitrary. The records of answers
  and of writes are ghost fields; that only providers and the database extend them is a convention.
* `time.Duration` arithmetic is 64-bit and wraps; so are heights and the comparison in the finality pass.

## What the code does not do

* *Failure handlers can be overtaken.* `HandleMessageFailed` takes the processing mark off before it
  stores and evicts. By then the back-off, counted from the start of the delivery, can be over: 192
  seconds after the fifth try. If the router picks the object in between,
  * eviction removes the cache entry of an object in flight (`FlightStep` and `FlightStaysCached` are
    exact, `RepickLosesEntry` is a run);
  * the handler stores the message with its mark, and no copy of it is ever delivered (`CopiesStep` is
    exact, `MarkedCopyIsStuck`, `StuckForever`);
  * the retry bound can be passed (`RetryBound`, `PickDecidesBound` and `RetryBoundExact` are exact,
    `RepickBreaksBound` is a run). That takes an object more than 109 hours from its first delivery
    (`SixteenthTakesDays`), with handlers suspended for most of them, so it is a limit of the design and
    hardly of its operation; wrapping the counter would take centuries.
* *A success that cannot be recorded* leaves its object marked and cached for good (`UnrecordedIsStuck`);
  only another copy of the message, by a flush, is delivered.
* *A flush can starve.* It reads the first ten keys of a chain's scan and drops the stale ones afterwards.
  What lies behind ten others waits, and behind ten stale ones for as long as those stay
  (`FlushTakes`, `StarvedOut`, `StarvedStore`). After a restart such a message is in no cache (`Recover`).
* *A late clear.* A delivery whose record the finality pass has already given up still deletes the
  message store entry that regeneration or a new observation has put there. Conservation names this
  cause, `LateClear`, and a message so dropped was handed to regeneration before.
* *Regeneration is not durable.* Generated messages are cached, not stored, so a crash can take them:
  cause `LostInCrash`, which needs the record to have been given up or the first write refused.
* *Never-tried messages expire.* A zero last try counts as long past, so expiry can remove them.
* *A refresh hands out p - 1.* After a refresh to pending nonce p the tracker continues at p - 1
  (`RefreshRestarts`), and all nonces handed out are one object (`TwoGetsAlias`).
* *Chains whose names continue each other share scans*, because the scan prefix has no closing dash
  (`ScanExact`). A request with a negative number names another chain's message (`NegativeCollides`).
* *Manual relay with a height* reads the first generated message even if there is none.
* *Wasm paging* asks for one page too many when the total is a multiple of 25. A node that refuses pages
  out of range, or any other failing page, makes the search of that event fail; this is logged, the
  event's results are dropped, and the range counts as synced (`FetchPages`, `FetchBlockMessages`).
* *One bad transaction hides a range.* If one result of a wasm range does not parse, nothing of the range is
  delivered, and the loop goes on to the next one (`RangeDelivers`, `QueryDelivers`).
* *The finality pass can go by an old height.* It reads a chain's height once, before it reads the records;
  the chain can have gone back since. The height is still one that the chain had (`RemovedWhenMature`).
* *A chain left out at a restart* keeps its messages, records and height in the database: its messages are
  not flushed (`GoneChainWaits`), records of deliveries to it are not looked at (`GoneRecordWaits`), and
  messages for it are dropped when they are routed.
* *Height loops near 2^64* go on from a low height when the next start wraps (`LoopEnds`).
* *EVM start height* lies above the chain when the chain is lower than the finality wait (`StartIsFinal`).
* *`HexInt.Int64`* parses 32 bits, and `HexInt.BigInt` rejects what `NewHexInt` prints for negative
  numbers (`NewHexIntValue`, `NewHexIntBig`).

## Model

| member | source | states |
|---|---|---|
| EngineConservation.Conservation | relayer/relay.go:221-374 | In every state of every run each observed message is in the message store, under finality watch, with the finality pass, in a cache nobody is about to clear, or has at some point been settled or dropped for a named cause; losing everything in memory then loses only messages whose record was given up or whose first write was refused |
| EnginePresence.LeavesByNamedEvent | relayer/relay.go:221-374 | History aside: a message that is in some place of the engine is still in one after any step of any goroutine that is not a named event for it, with that event's condition: expiry more than 86400 seconds after the last try or with none, a request, a prune, a crash; an unknown destination or one that has the message; a success without finality wait or the last deletion of one; a mature record confirmed, a failed generation; a write for another message under its key |
| EnginePresence.PresentUntil | relayer/relay.go:221-374 | So over any run a message in the engine is there until such an event for it |
| EnginePresence.ObservedUntil | relayer/relay.go:260-270 | Every observation starts afresh: whatever became of the message earlier, it is in the engine from then until a later named event for it |
| EngineDurable.LeavesStores | relayer/relay.go:311-374 | A message leaves message store and finality watch only by expiry (more than 86400 seconds after its last try, or with none), a request, a prune, a delete for an unknown destination, one that has it or a finished delivery, a mature record confirmed or given up, or a write for another message under its key; by no crash and no eviction |
| EngineDurable.StoredUntil | relayer/relay.go:311-374 | So over any run, crashes included, a message in the database is there until such an event for it |
| EngineDurable.AcceptedUntil | relayer/relay.go:264-269 | Every observation whose write was accepted starts that afresh |
| EngineConservation.LocatedStep | relayer/relay.go:221-270 | No single step, from whichever goroutine, makes a located message unaccounted for |
| EngineConservation.DurableStep | relayer/relay.go:311-323 | At every single store write a message stays in a store until it is settled, dropped or handed to regeneration: the record is written before the message is deleted, a failed message before it is evicted |
| EngineConservation.LosslessRun | relayer/relay.go:221-374 | The inductive invariant behind both: whoever is about to delete a message has accounted for it |
| EngineRestart.ConservedAcross | relayer/relay.go:64-107 | Conservation and durability over any number of processes, each with any chains and finality waits |
| EngineRestart.RestartKeeps | relayer/relay.go:64-107 | A restart with other chains keeps every stored message and every record, those of chains that are gone included, and drops exactly what was in memory alone |
| EngineCauses.NamedStep | relayer/relay.go:221-374 | A step settles or drops a message only by the event its cause names, with the condition of that event: receipt, success without finality wait, confirmed mature record; unknown destination, expiry past a day, request, prune, failed generation, shared key, late clear, crash |
| EngineIdentity.ExclusiveRouting | relayer/relay.go:231-252 | In every interleaving no two active deliveries have the same object, each active object is marked as processing and is not being looked up, and each cache entry is filed under its own message's key, one entry per object |
| EngineIdentity.ToggleDirection | relayer/relay.go:236-244 | In every run a mark appears exactly at a pick and disappears exactly at a failed lookup or a failed delivery, although the operation is a toggle |
| EngineIdentity.SoundRun | relayer/types/types.go:136-190 | Key ownership, separation of store copies and exclusive routing are kept by every run from any state that has them |
| EngineInFlight.FlightStep | relayer/relay.go:185-356 | Among all steps of all goroutines exactly two lose the cache entry of an object in flight: a pick of something no longer cached, and an eviction of something picked since its failure |
| EngineInFlight.FlightStaysCached | relayer/relay.go:185-356 | Over whole runs every object in flight is cached in every state if and only if no step is one of those two |
| EngineInFlight.EvictKeepsFlight | relayer/relay.go:336-346 | Eviction at the end of a failure handler keeps every object in flight cached if and only if nobody has picked the evicted object meanwhile |
| EngineInFlight.CallbackFindsRouted | relayer/relay.go:295-324 | In those runs the callback finds in the cache exactly the object that was routed, and clearing its key removes that object and no other entry |
| EngineInFlight.CopiesStep | relayer/relay.go:336-346 | A marked message gets into the store by exactly one step: a handler that stores an object picked since the handler took its mark off |
| EngineInFlight.StuckForever | relayer/types/types.go:105-107 | A marked object that no goroutine handles is never delivered again, however the run goes on |
| EngineInFlight.MarkedCopyIsStuck | relayer/store/messageStore.go:107-118 | A copy read from the store is such an object if and only if the message was stored with its mark |
| EngineInFlight.UnrecordedIsStuck | relayer/relay.go:312-319 | So is, still cached, an object whose success could not be recorded |
| EngineRepick.RepickLosesEntry | relayer/relay.go:328-346 | For any observed message there is a run in which it is being delivered and its cache entry is gone |
| EngineRepick.RepickCounts | relayer/relay.go:328-346 | Overtaking its suspended handlers after each back-off an object reaches any number of tries |
| EngineRepick.RepickBreaksBound | relayer/relay.go:328-346 | So without a condition on picks the retry bound fails, for any observed message |
| EngineRetry.RetryBound | relayer/relay.go:205-219 | Without manual relay and with accepted writes, in every run whose picks take objects with fewer than fifteen tries, idle cached objects have at most 14 tries, all others and store copies at most 15, and no increment wraps the uint8 counter; overtaken handlers are allowed |
| EngineRetry.PickDecidesBound | relayer/relay.go:231-252 | The guard is exact at each pick: from any state such runs reach, letting a pick be delivered at once ends within the bound if and only if the object has fewer than fifteen tries |
| EngineRetry.RetryBoundExact | relayer/relay.go:328-329 | Over whole runs and every interleaving all states are within the bound if and only if no delivery starts with fifteen tries or more |
| EngineProgress.StartsBounded | relayer/relay.go:328-356 | From any reachable state, with no new input and every interleaving, the deliveries started plus the tries left at the end are at most the tries left at the start (at least one for an idle object) plus what picks of objects not idle, refused writes of failed messages and wraps of the counter add |
| EngineProgress.MeasureRun | relayer/relay.go:221-255 | The measure falls by at least one at each delivery start and rises only by the named surplus of those three steps |
| EngineBackoff.AttemptSpacing | relayer/types/types.go:87-107 | In every run the k-th delivery of a fresh object starts more than 6 * (2^k - 2) seconds after its first, as long as it has at most 30 |
| EngineBackoff.AttemptSpacingAlways | relayer/types/types.go:87-107 | The same for every k in runs whose picks take objects with fewer than fifteen tries |
| EngineBackoff.SixteenthTakesDays | relayer/types/types.go:87-107 | A fresh object needs more than 109 hours to come to its sixteenth delivery |
| RelayTypes.BackoffFitsInt64 | relayer/types/types.go:101-103 | The delay of 6 * 2^k seconds is exact in int64 nanoseconds if and only if the retry count k is at most 30, and otherwise off by a multiple of 2^64 |
| RelayTypes.NextTryWaits | relayer/types/types.go:87-107 | After a try an object counts as processing until its back-off is over, and afterwards only while it is marked |
| EngineFinality.RecordLeaves | relayer/relay.go:387-459 | In every step a record leaves the finality store only by a prune or by a pass that found it mature at the height it had read for the chain and confirmed or regenerated it, and enters only by a success |
| EngineFinality.RemovedWhenMature | relayer/relay.go:390-418 | In every run the height a pass goes by is one that the chain had at some point of the run, and any record it removes was mature at that height |
| EngineFinality.MatureIsPastFinality | relayer/relay.go:415-418 | The uint64 comparison means what is intended if and only if the sum does not wrap, or wraps above the height read |
| RelayObjects.Decode | relayer/store/messageStore.go:107-118 | A decoded message is a new object with a new number object, equal in every field |
| Relayer.Relayer.ProcessBlockInfo | relayer/relay.go:260-270 | The height is noted, the messages of the block count as observed, each is a fresh cached object without tries, mark or time of a last try and is so written to the store, one write each and in order, and the database is what those that succeeded leave; no existing cache entry is displaced; all of it one run of the machine |
| Relayer.Relayer.ObserveAndRoute | relayer/relay.go:221-270 | After a block the router's next round, at any time later, asks the destination of each new message about it, if that destination is known |
| Relayer.Relayer.GetActiveMessagesFromStore | relayer/relay.go:205-219 | Those with fewer than fifteen tries among the messages the limited scan visits, or an error when one does not decode |
| Relayer.Relayer.FlushMessages | relayer/relay.go:185-202 | Every cache keeps every entry it had, in flight or not, and gains exactly one copy of each message with fewer than fifteen tries among the first ten the scan gives, nothing else; the stores do not change |
| Relayer.Relayer.StoredToFlush | relayer/relay.go:205-219 | What a flush copies is in the store, with fewer than fifteen tries, and at most ten messages |
| Relayer.Relayer.FailAndFlush | relayer/relay.go:185-219 | A message stored after a failed delivery with five to fourteen tries, and among the first ten of its chain's scan, is cached again by the next flush |
| Relayer.Relayer.GoneChainWaits | relayer/relay.go:205-219 | A message whose source chain this relayer was not given is taken by no flush, where the scans of its chains are unambiguous |
| Relayer.Relayer.GoneRecordWaits | relayer/relay.go:388-398 | Nor does the finality pass of any of its chains look at the record of a delivery to a chain it was not given |
| Relayer.Relayer.CleanExpiredMessages | relayer/relay.go:496-513 | Only the message store shrinks, and only by messages that were never tried or whose last try is more than 86400 seconds ago; no cache and no record changes. Every chain has exactly one turn, and what is written is, turn after turn, the deletes for what its scan of the database as it then is gives and has expired |
| Relayer.Relayer.CleanExpiredChain | relayer/relay.go:497-512 | A delete is tried, in order, for each of the first ten messages of a chain's scan that was never tried or has its last try more than 86400 seconds back at the start, and for none of which that does not hold by then; those whose delete succeeded are gone from the store, nothing else is |
| Relayer.Relayer.ShouldSendMessage | relayer/chain_runtime.go:46-64 | Yes if and only if the object is not marked, was never tried or has its next try in the past, and both providers, asked in order, said yes; a marked or waiting one is asked about with nobody |
| Relayer.Relayer.ProcessMessage | relayer/relay.go:223-252 | Outcome and answers determine each other: cleared as received exactly when the destination said it has the message, sent exactly when it said it has not, lookup failed exactly when it gave no answer, nobody asked about an unknown destination or a waiting message; with the effect of each on mark, cache, database and goroutines, and exactly one delete tried for each message cleared, none otherwise |
| RelayAnswers.Outcomes | relayer/relay.go:223-252 | Destination and source are asked first, then whether the message was received; outcome and last answer determine each other; about a message that waits or has an unknown destination nobody is asked |
| Relayer.Relayer.RouteChain | relayer/relay.go:222-253 | Every cached message with a known destination that neither is marked nor waits is put to its destination's provider; what is written are deletes for the entries the cache has lost, one tried for each |
| Relayer.Relayer.ProcessMessages | relayer/relay.go:221-255 | Over all caches: every message with a known destination that neither is marked nor waits is put to its destination's provider; objects change only by being marked, so marked ones are left alone; each delivery started is for an object that was idle, one for each, whose destination said that it does not have the message; each entry lost has an unknown destination or one that said it has the message, a delete of its message has been tried, and nothing else is written; none with an unknown destination is left |
| Relayer.Relayer.RouteMessage | relayer/relay.go:328-334 | The destination's provider is asked once to route this message, and its answer decides: one more try in any case, the next one 6 * 2^k seconds after the k-th; on an error the mark comes off; without a successful callback caches and database stay as they are; and exactly the writes the answer calls for are made |
| Relayer.Relayer.HandleMessageFailed | relayer/relay.go:336-356 | Below five tries only the mark changes and nothing is written; from five on there is one write, of the message as it then is, and only if that succeeded the message is evicted |
| Relayer.Relayer.Callback | relayer/relay.go:295-326 | The object found is the one routed; with a finality wait the record is written first and then the message deleted, after a refused record nothing more is written and cache and store stay as they are; without a wait there is the delete alone; without the key nothing happens and nothing is written |
| Relayer.Relayer.MergeMessages | relayer/chain_runtime.go:33-38 | One fresh cached object for each generated message, without tries, mark or time of a last try, no entry displaced, the stores unchanged |
| Relayer.Relayer.ClearMessage | relayer/relay.go:363-374 | The key leaves the runtime's cache; one delete is tried for its message, and if it succeeds the message leaves the database; nothing else changes |
| Relayer.Relayer.CheckRecord | relayer/relay.go:403-473 | Every branch, with the answers that lead to it: no receipt is asked for before the record has waited out its finality at the height read; confirmed exactly when the receipt is good, left when it cannot be had, given up only when it is bad and then asked for at the source by the record's key and message height; a delete is tried exactly when it is confirmed or given up, and the record leaves the store exactly if that succeeds |
| Relayer.Verdicts | relayer/relay.go:403-473 | What each verdict comes to: nothing asked or written about a record that has not waited out its finality; otherwise its receipt first, whose status decides whether a delete is tried and the message asked for |
| Relayer.AskedAsItself | relayer/relay.go:462-470 | A record given up is asked for at its source as the message it is of, in every field of the key and at that message's own height |
| Relayer.Relayer.CheckChain | relayer/relay.go:388-474 | The log has a verdict for each of the first ten records of the scan, in order, by the height read at the start; what was asked and what was written is exactly what these verdicts call for; what left the store is exactly what the log confirms or regenerates |
| Relayer.Relayer.CheckFinality | relayer/relay.go:387-476 | A record leaves the finality store if and only if some chain's log confirms or regenerates it, which takes a record that has waited out its finality there and a receipt that was good, or bad and a generation asked for; the questions and the deletes of each log are on record, in order; every other record is unchanged and no cache entry is lost |
| Relayer.Relayer.SaveBlockHeight | relayer/relay.go:272-277 | Both heights are set and one write of the height is made, and the block store holds it exactly if that succeeded |
| Relayer.Relayer.RemoveMessage | relayer/socket/server.go:143-161 | Answers with what the store held under the key, for any integer; if there was a message one delete is tried, if not none; it is removed exactly if that succeeds; caches are left alone |
| Relayer.Relayer.RelayMessage | relayer/socket/server.go:162-199 | Without a height a copy of the stored message is cached, stale or not, if there is one; with a height the source is asked for exactly the number requested, and one object per message of its answer is cached; no entry is displaced |
| Relayer.Relayer.PruneDB | relayer/relay.go:358-361 | One batch is written, and messages, records and heights all go, or if it fails none does |
| Relayer.Relayer.LoadHeights | relayer/relay.go:88-92 | Each runtime starts from the height the block store holds, or zero |
| Relayer.Start | relayer/relay.go:64-107 | On an empty database the relayer stands for the machine's initial state |
| Relayer.Restart | relayer/relay.go:64-107 | On the database an earlier relayer left, at any later time and with any chains and finality waits, the new one stands for that relayer's state after a crash: empty caches, same stores, saved heights read back; with clearing, one batch and empty stores. With the same chains the run goes on; with others a new one begins, and the earlier ones stay on record |
| Relayer.Recover | relayer/relay.go:185-219 | After a restart, with any chains, and the first flush the caches hold a copy of exactly those messages that the flush takes from the database |
| RelayFlush.FlushTakes | relayer/relay.go:205-219 | And those are exactly the ones with fewer than fifteen tries among the first ten of their chain's scan, all of which decode |
| RelayFlush.StarvedOut | relayer/relay.go:205-219 | A stored message with ten others of its chain before it in key order is not flushed, stale or not |
| RelayFlush.StarvedStore | relayer/relay.go:205-219 | A store with ten stale messages and one never tried, of which a flush takes nothing |
| Relayer.Relayer.NothingLost | relayer/relay.go:260-374 | After any calls and restarts each observed message is in the bytes of the database, in some runtime's cache, settled by an answer on record, dropped for a cause or being regenerated; and unless a receipt on record said its delivery is gone, or a write of it is on record as refused, it does not depend on a cache and the cause is neither a crash nor a late clear |
| Relayer.Relayer.NoWriteFailed | relayer/relay.go:260-374 | So if no write on record failed, every observed message without a bad receipt is in the database, settled, or dropped on purpose |
| Relayer.Relayer.Backing | relayer/relay.go:239-459 | Settled, recorded, given up and lost in regeneration each rest on an answer on record that says so about that message: received, routed with that hash and height, bad receipt, generation asked for by its key and height and without it; an unknown destination on a relayer made without that chain; and unwritten on a write of that message that was refused |
| Relayer.Relayer.GoneForCause | relayer/relay.go:260-374 | A message observed at some point of the run and now in no store, cache or pass has been ended since by a named event for it |
| Relayer.Relayer.DeletedForCause | relayer/relay.go:260-374 | A message whose observation the database accepted and that is now not in it has been ended since by an event that deletes it from there |
| RelayAnswers.VouchedStep | relayer/relay.go:221-476 | No step of the machine other than a refused observation, a received lookup, a success, a confirmed, given up or generated record claims anything that would need an answer or a write |
| Relayer.Relayer.OneGoroutineEach | relayer/relay.go:236-252 | Two goroutines that route or call back have different objects, both marked |
| RelayLink.CacheAfterFile | relayer/types/types.go:168-172 | Filing by object identity in the heap is filing by place in the machine, for every runtime |
| RelayLink.CacheAfterUnfile | relayer/types/types.go:178-182 | Removing a key removes exactly the object whose key it is |
| RelaySteps.KeyFindsOwn | relayer/types/types.go:185-190 | The entry under an object's key, if any, is that very object |
| StoreKeys.ScopedKeyEqual | relayer/store/common.go:5-7 | For all integers, two numbered keys are equal if and only if chain and number are, once a negative sign is read as part of the name |
| StoreKeys.ScopedKeyInjective | relayer/store/common.go:5-7 | From zero on the key determines chain and number, dashes in the name or not |
| StoreKeys.NegativeCollides | relayer/store/common.go:5-7 | A negative number always collides with its absolute value on another chain name |
| StoreKeys.LessIs | relayer/lvldb/lvldb.go:33-35 | The order of the iterator is the order of bytes: a proper prefix first, otherwise the first byte that differs decides |
| StoreKeys.DecimalLeads | relayer/store/common.go:5-7 | Numbers in keys have no leading zero |
| StoreRefinement.KeyTexts | relayer/relay.go:24-26 | How the keys of the three stores read |
| StoreRefinement.KeysApart | relayer/relay.go:24-26 | Keys of the three stores never meet, and within each store a key belongs to one place |
| StoreRefinement.PutMessageRefines | relayer/store/messageStore.go:93-105 | Storing a message is a put on the typed message map; the other two maps are untouched |
| StoreRefinement.DeleteMessageRefines | relayer/store/messageStore.go:142-144 | Deleting likewise |
| StoreRefinement.PutTxRefines | relayer/store/finalityStore.go:46-58 | Storing a record is a put on the map keyed by destination and number; the other two are untouched |
| StoreRefinement.DeleteTxRefines | relayer/store/finalityStore.go:99-101 | Deleting likewise |
| StoreRefinement.PutBlockRefines | relayer/store/blockStore.go:27-33 | Storing a height is a put on the map keyed by chain; the other two are untouched |
| StoreRefinement.GetRefines | relayer/store/messageStore.go:107-118 | Reads of all three stores give what the typed maps hold, present or not |
| StoreRefinement.ScanExact | relayer/store/messageStore.go:120-140 | A scan visits exactly its chain's messages if and only if no other chain's key continues its prefix |
| StoreRefinement.PrefixFreeUnambiguous | relayer/store/messageStore.go:120-140 | Prefix-free chain names suffice |
| StoreRefinement.ScanInOrder | relayer/store/messageStore.go:120-140 | Then the scan decodes and gives, in key byte order, the first `limit` messages of the chain, all for limit zero |
| StoreRefinement.ScanTakesSmallest | relayer/store/messageStore.go:134-136 | What the limit cuts off comes after everything returned |
| StoreRefinement.ScansPartition | relayer/store/messageStore.go:75-91 | With prefix-free names the chains' scans are disjoint and together visit the whole store |
| Stores.MessageStore.GetMessages | relayer/store/messageStore.go:120-140 | The loop gives the limited scan, or an error when an entry in it does not decode |
| Stores.MessageStore.TotalCountByChain | relayer/store/messageStore.go:75-91 | The loop counts the keys with the prefix |
| Stores.FinalityStore.GetTxObjects | relayer/store/finalityStore.go:73-97 | The two loops give all records, or the first `limit`, where zero means none |
| Stores.BlockStore.GetLastStoredBlock | relayer/store/blockStore.go:36-43 | The decoded height under the chain's key |
| Lvldb.EntriesOrdered | relayer/lvldb/lvldb.go:33-35 | An iterator visits only keys with the prefix, once each, in byte order, with their values |
| Lvldb.EntriesComplete | relayer/lvldb/lvldb.go:33-35 | And it visits every such key |
| Lvldb.LVLDB.ClearStore | relayer/lvldb/lvldb.go:41-55 | The batch of all visited keys empties the map, or on failure changes nothing; one write either way |
| EvmNonce.NonceTracker.Get | relayer/chains/evm/types/types.go:54-70 | Within three minutes one more than the last nonce and the same object; after that one less than the pending nonce and the time of the refresh, or, if the refresh fails, the last nonce and time; other addresses are untouched |
| EvmNonce.NonceTracker.Set | relayer/chains/evm/types/types.go:72-80 | The caller's object is decremented and kept as Previous and Current, with the time |
| EvmNonce.TwoGetsAlias | relayer/chains/evm/types/types.go:66-70 | Two nonces handed out in the window are one object, so the first comes to read like the second |
| EvmNonce.WindowConsecutive | relayer/chains/evm/types/types.go:66-70 | Inside the window the values handed out have no gap and no repeat |
| EvmNonce.SetThenGets | relayer/chains/evm/types/types.go:72-80 | After Set(k) the window hands out k, k+1, k+2 and so on |
| EvmNonce.RefreshRestarts | relayer/chains/evm/types/types.go:58-65 | A refresh to pending p restarts the sequence at p-1 |
| EvmNonce.NextIsSuccessor | relayer/chains/evm/types/types.go:54-70 | When exactly a nonce is the successor of the last one, and when exactly it repeats it |
| EvmRoute.NonceErrors | relayer/chains/evm/route.go:170-184 | Which error texts, in the order of the checks, make the tracker start over: those that contain one of three texts and not a fourth |
| EvmRoute.Provider.Wallet | relayer/chains/evm/provider.go:154-167 | The key is restored once and its pending nonce set, one below it in the tracker; a failed query leaves a wallet without nonce; when it succeeds |
| EvmRoute.Provider.Route | relayer/chains/evm/route.go:25-113 | A transaction is sent if and only if there is a wallet with a nonce, a gas price, an estimate within both bounds and a known event; with the value the tracker held at its Get, although that object changes later; Route succeeds if and only if it was sent and not rejected, and panics if and only if there is a wallet without a nonce; after a nonce error the tracker is one below the pending nonce; the new state for every combination of answers |
| EvmRoute.RoutesTakeOneEach | relayer/chains/evm/route.go:25-46 | Over a run of Routes each takes exactly one nonce, sending or not, and nonces sent are increasing and never repeat |
| EvmRoute.RoutesSendConsecutive | relayer/chains/evm/route.go:25-46 | When all send, the nonces sent are consecutive |
| EvmRoute.RecoveryUsesPending | relayer/chains/evm/route.go:99-112 | After a too-low, too-high or underpriced error the next Route in the window that sends uses exactly the pending nonce |
| Heights.StartIsFinal | relayer/chains/evm/listener.go:191-218 | The start is at most latest minus finality if and only if that subtraction does not wrap, whatever is configured or saved |
| Heights.StartUses | relayer/chains/evm/listener.go:191-218 | Where it does not wrap: the configured height if it lies below the newest final one, else the saved one if that does, else the newest final one |
| Heights.BlockRequests | relayer/chains/evm/listener.go:91-95 | The loop's ranges chain without gap or overlap from the start to the latest height, each of 1 to batch heights |
| Heights.LoopEnds | relayer/chains/evm/listener.go:92-93 | It ends after its last range if and only if that range's start plus the batch is below 2^64; otherwise it goes on from a height below |
| Heights.Sanitized | relayer/chains/evm/provider.go:114-122 | The batch size the loop runs with is positive: 50 for zero, any other as configured |
| Heights.ScanTiled | relayer/chains/evm/listener.go:97-129 | Scanning chained ranges one by one gives what one scan of the interval gives, in order |
| Heights.Sync | relayer/chains/evm/listener.go:97-129 | The loop delivers the messages of the logs that parse, of every range that does not fail, range after range |
| Heights.MessageDelivered | relayer/chains/evm/listener.go:105-128 | A message is delivered if and only if some log that parses to it lies in a range that did not fail |
| Heights.SucceedingInPlace | relayer/chains/evm/listener.go:97-129 | Each range that does not fail is scanned exactly once, in its place |
| Heights.ParsedInPlace | relayer/chains/evm/listener.go:105-128 | Each log that parses gives its message exactly once, in its place |
| Heights.LogsInPlace | relayer/chains/evm/listener.go:97-104 | Each log of a range is scanned exactly once, in its place |
| Heights.SyncComplete | relayer/chains/evm/listener.go:91-129 | When no range fails every log from start to latest is delivered once |
| Heights.SyncDelivers | relayer/chains/evm/listener.go:105-109 | A log is delivered if and only if some range that did not fail holds its height |
| Heights.StartHeightSafe | relayer/chains/wasm/provider.go:499-514 | The wasm start is the configured height below the chain's, else the saved one, else the chain's; never above the chain and never above the saved height unless configured; an error exactly when the saved height is above the chain and nothing is configured below it |
| Heights.HeightStream | relayer/chains/wasm/provider.go:516-530 | Contiguous ranges of exactly one batch that pass the last height by less than a batch, none for an empty interval |
| Heights.ResumeOverlap | relayer/chains/wasm/provider.go:670-693 | Every height is covered, and resuming at last + 1 scans fewer than one batch twice |
| Heights.FetchPages | relayer/chains/wasm/provider.go:580-597 | Each result of one event's search exactly once and in order, or none as soon as one page cannot be had |
| Heights.ServedExactly | relayer/chains/wasm/provider.go:586-595 | All pages are had if and only if none asked for is down and not, at a node that refuses pages out of range, the total is a multiple of 25 above 25 |
| Heights.GetMessagesFromTxList | relayer/chains/wasm/provider.go:611-633 | The messages of all results in order, or an error exactly when one does not parse |
| Heights.MessagesInPlace | relayer/chains/wasm/provider.go:611-633 | Each result gives its messages exactly once, together and in its place |
| Heights.ServedInPlace | relayer/chains/wasm/provider.go:576-609 | So does each event its results, if all its pages were served |
| Heights.FetchBlockMessages | relayer/chains/wasm/provider.go:576-609 | The messages of the results of the events whose searches succeeded, in order, where a failed search fails nothing else; or an error when one of these results does not parse |
| Heights.RangeDelivers | relayer/chains/wasm/provider.go:599-633 | A range delivers a message if and only if every result of an event all of whose pages were served parses and one of them holds the message |
| Heights.RunBlockQuery | relayer/chains/wasm/provider.go:676-691 | The loop hands on, in order, one block for each range that did not fail and skips the others |
| Heights.QueryDelivers | relayer/chains/wasm/provider.go:676-691 | A block is handed on if and only if it has the end and the messages of a range that did not fail |
| Heights.BlocksInPlace | relayer/chains/wasm/provider.go:676-691 | Each range that did not fail gives exactly one block, in its place |
| IconHex.ParseBigInt | relayer/chains/icon/types/types.go:258-268 | The integer is overwritten with the value of the digits, signed, or left alone on an error |
| IconHex.DecodeHexNumber | relayer/chains/icon/types/types.go:242-256 | The bytes read base 256 are the digits read base 16, whatever the padding parity; an error exactly on a character that is no digit |
| IconHex.BigForms | relayer/chains/icon/types/types.go:232-256 | ParseBigInt on digits, signed or not, prefixed or not; the prefix alone is an error |
| IconHex.ParseSigned | relayer/chains/icon/types/types.go:218-226 | Value and Int64 on signed digits, with the range of their width |
| IconHex.Base16Leading | relayer/chains/icon/types/types.go:242-256 | A digit counts for as many powers of sixteen as digits follow it |
| IconHex.PrefixedDigits | relayer/chains/icon/types/types.go:216-256 | For "0x" and any digits both parsers give the base-16 value, Value exactly below 2^63 |
| IconHex.ParsersAgree | relayer/chains/icon/types/types.go:216-256 | Wherever both parsers succeed they agree |
| IconHex.NewHexIntValue | relayer/chains/icon/types/types.go:216-272 | Value undoes NewHexInt on every int64; Int64 does exactly on every int32 |
| IconHex.NewHexIntBig | relayer/chains/icon/types/types.go:232-272 | BigInt undoes NewHexInt if and only if the number is not negative |
| IconHex.FormatLeads | relayer/chains/icon/types/types.go:270-272 | NewHexInt writes no leading zero |
| IconHex.HexBytesRoundTrip | relayer/chains/icon/types/types.go:198-211 | Printing bytes and reading them back is the identity; what is printed is 0x and two lower-case digits for each byte, the high one first |
| IconAddress.Value | relayer/chains/icon/types/types.go:282-299 | The decoding loop into a 21-byte array computes the address value, with its errors and run-time panics |
| IconAddress.AcceptedAddresses | relayer/chains/icon/types/types.go:282-299 | Accepted exactly when there is a known prefix and forty hexadecimal digits, with the bytes they stand for |
| IconAddress.PrintThenRead | relayer/chains/icon/types/types.go:301-313 | NewAddress then Value is the identity on 21 bytes led by 0 or 1 |
| IconAddress.ReadThenPrint | relayer/chains/icon/types/types.go:282-313 | Value then NewAddress lower-cases the digits and changes nothing else |
| IconAddress.LowerHexLetters | relayer/chains/icon/types/types.go:301-313 | Lower-casing touches the letters A to F and no other digit |

## Left out

* RPC, websocket, gRPC and KMS clients, keystores, signing and generated bindings: only their answers appear.
* Command line, configuration files, the socket transport and its client, and the requests that do not
  change the engine's state.
* Tickers, channels and error groups: steps in any order and a monotone clock stand for them. In
  `Relayer` each method runs to its end; interleavings are those of the machine's runs.
* `SaveChainsBlockHeight` and `Start` beyond the calls they make; logging.
* Query strings, gas and step adjustment, coins, sorting, pagination offsets.
* The retry loop inside `getLogsRetry`, the wasm block subscription around `runBlockQuery`, and the parsing
  of event attributes.
- Heights.BlockRequests: requires that the last start plus the batch stays below 2^64, which `LoopEnds`
  shows to be exactly when the source's loop ends there; what it does after a wrap is not modelled.
- Heights.HeightStream: the same.
- EngineRetry.RetryBound: for runs without manual relay and with accepted writes of failed messages, and
  with the guard on picks that `PickDecidesBound` shows to be exact.
- EngineInFlight.CallbackFindsRouted: for the runs that `FlightStaysCached` shows to be exactly the right ones.
- Relayer.Relayer.ClearMessage: takes one key, as every caller passes one.
- Relayer.Relayer.RelayMessage: for a known chain; an unknown one is an error before anything happens,
  and the panic on an empty generated list is not modelled.
