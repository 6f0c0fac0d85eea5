# A verified model of Kingdom's delivery path and its stores

Hermes keeps task envelopes; Forge runs one executor process for each of them. These files
model the protocol between the two and the stateful components around it, and prove what
they promise over whole runs. `dafny verify dfyconfig.toml` checks everything.

| modules | what they model |
|---|---|
| `Wrappers`, `Runs`, `Ordering` | outcomes; runs of a step system; `ORDER BY` as the unique sorted arrangement of the selected rows |
| `SessionIds` | the two session-id builders of Forge |
| `Gateway` | Forge's deliver and resume handlers as one step system: a step is one access to shared memory, one store statement or one process event, so calls interleave as goroutines do |
| `GatewaySafety`, `GatewayProvenance`, `GatewayTheorems`, `GatewayAcks` | what every run of it keeps, and exactly which faults break which promise |
| `GatewayProgress`, `GatewayCleanup` | that no call is ever stuck and no gate stays taken; that dead handles leave the registry |
| `GatewayCalls` | the same handlers as code over a mutable `Forge` object, each method body, its wait for a taken gate included, shown to be a run of the step system |
| `Envelopes`, `EnvelopeTable`, `EnvelopeLaws`, `EnvelopeStore` | the envelope state machine, the table as a value, the laws of all histories, the store that updates it in place |
| `Worker`, `Handover` | the delivery worker as code; worker, lossy network, Forge, the table and all other writers as one system |
| `ActivityHub`, `HubProtocol` | the event ring with its fan-out; its locks and channels under concurrency |
| `NotifyStore` | bulk acknowledgement against single acknowledgements |
| `NotifyRouter`, `RouterRuns` | priority routing with a capped buffer; the same under concurrency |
| `Polling`, `SessionLanes` | cursor polling of append-only lanes; message order allocation with conflict retry |
| `AgentRecords`, `AgentHosts`, `AgentStore` | the agent registry record by record, per host, and as a store updated in place |
| `ProcessOutput` | an executor's output buffer and life cycle |

Several promises do not hold unconditionally. Each of these is stated with its exact
condition, as an if-and-only-if over all runs or inputs:

* at most one live executor per envelope: exactly when resume's second read cannot fail, its
  row update cannot fail without having taken effect, and Forge does not restart
  (`GatewayTheorems.OneExecutorExactly`);
* truthful acks and honest bindings: exactly when every delivery carries its envelope's
  stable id (`GatewayTheorems.TruthfulExactly`, `Handover.HonestExactly`);
* one ack, and one session, per delivery id: exactly when no id is posted again while under
  way, no ack is sent while the cache holds its 1000 entries, and Forge does not restart. A
  comment in deliver.go says that holding the lock during the check keeps two concurrent
  requests with one id apart; the code releases the lock before the session is made, so both
  get past it (`GatewayAcks.IdempotentExactly`);
* `done` means proven: exactly when the envelope was not inserted as an unproven `done`
  (`EnvelopeLaws.DoneProvenExactly`);
* exactly-once polling: exactly when ids are distinct and non-empty
  (`Polling.ExactlyOnceExactly`);
* the hub never panics: exactly when no subscription is closed twice; streams follow the
  ring's order: exactly when publishes do not overlap (`HubProtocol.CrashFreeExactly`,
  `HubProtocol.InOrderExactly`);
* a free router holds only low-priority payloads back: exactly when no webhook overlaps
  `SetFree` (`RouterRuns.NothingLeftBehindExactly`);
* pruning shows nowhere, parent edges included: exactly while no agent that shows has lost
  its parent, that is, had a record with a parent pruned and has not been given one since
  (`AgentRecords.PruneForgetsParentsExactly`);
* `ReadOutputTail(n)` returns the last n lines, as its comment says, exactly when the buffer
  has more than n newlines and ends with one, or there is nothing to return. With fewer
  newlines the code returns nothing, with an unterminated last line it returns one line too
  many (`ProcessOutput.TailMeetsDocumentationExactly`).

Conventions. Times are integers. A table row's JSON columns are its fields. A transaction on
the single Hermes connection is one step. Whatever the surroundings decide (database errors,
HTTP answers, process ids, which of several rows a query without a total order returns, other
connections' commits, whether a statement that reports an error took effect) is a parameter
or a free choice. Fault flags (`Faults`, `Usage`, `Care`)
say which events a run may contain.

## Model

| member | source | states |
|---|---|---|
| SessionIds.BuildersAgree | forge/internal/httpapi/deliver.go:250 | the format string and the concatenation build the same id, so a session registered by one handler is found by the other |
| SessionIds.SessionIdsAreInjective | forge/internal/httpapi/resume_handler.go:213-215 | equal ids mean equal envelope and pid, even for envelope ids that contain `-pid-` |
| SessionIds.ItoaRoundTrip | forge/internal/httpapi/resume_handler.go:214 | decimal text of a pid is digits only and reads back as the pid |
| GatewayTheorems.OneExecutorExactly | forge/internal/httpapi/registry.go:10-43 | no run ever has two live executors of one envelope, exactly when resume's second read cannot fail, its row update cannot fail without having taken effect, and Forge does not restart |
| GatewayTheorems.DependableIsSafe | forge/internal/httpapi/deliver.go:200-300 | with those three faults excluded, every interleaving of deliver and resume calls, exits, evictions and other store failures, writes that report an error after taking effect among them, keeps one executor per envelope |
| GatewayTheorems.FailingRefetchIsUnsafe | forge/internal/httpapi/resume_handler.go:120-125 | falling back on the row read before the gate lets two executors run |
| GatewayTheorems.FailingUpdateIsUnsafe | forge/internal/httpapi/resume_handler.go:174-180 | leaving the process up when its row was not updated lets two executors run |
| GatewayTheorems.RestartIsUnsafe | forge/internal/httpapi/registry.go:72-78 | an emptied registry lets two executors run |
| GatewayTheorems.RegisterHasOneRowPerEnvelope | forge/internal/httpapi/deliver.go:261-283 | the register holds at most one row per envelope, under an id built for it |
| GatewayTheorems.RegisterNeverRefuses | forge/internal/sessionstore/sqlite.go:98-111 | a write under the gate never meets a duplicate key, a missing row or a key clash |
| GatewayTheorems.IdleExecutorIsFound | forge/internal/httpapi/deliver.go:211-220 | between calls a running executor is named by its envelope's row and held by the registry, so the next call reuses it |
| GatewayTheorems.AcksAreBacked | forge/internal/httpapi/deliver.go:154-187 | whatever fails, no ack precedes the launch of a process of that envelope and the write of its session row; the cache never exceeds 1000 |
| GatewayTheorems.AcksAreForTheirEnvelope | hermes/internal/worker/worker.go:139-140 | with stable ids, an ack's delivery id names the envelope it acks |
| GatewayTheorems.AcceptedIsAcked | forge/internal/httpapi/deliver.go:133-147 | an accepted call returns an ack recorded under its own delivery id, replayed or fresh |
| GatewayTheorems.TruthfulExactly | forge/internal/httpapi/deliver.go:137-147 | every accepted delivery is answered with an ack for its own envelope, exactly when all delivery ids are stable ids |
| GatewayAcks.IdempotentExactly | forge/internal/httpapi/deliver.go:134-187 | a delivery id is only ever acked one way, and only ever with one session, exactly without overlapping posts of one id, cache evictions and restarts, whether or not pids are recycled |
| GatewayAcks.OverlapIsAckedTwice | forge/internal/httpapi/deliver.go:137-147 | two posts of one delivery both pass the cache check and get acks with different sessions |
| GatewayAcks.EvictionIsAckedTwice | forge/internal/httpapi/deliver.go:182-186 | after 1000 other deliveries the first id is acked anew, with another session once its executor has exited |
| GatewayAcks.RestartIsAckedTwice | forge/internal/httpapi/deliver.go:137-147 | a restart empties the cache, and the id is acked with another session |
| GatewayAcks.RunKeeps | forge/internal/httpapi/deliver.go:137-187 | one post at a time, no eviction, no restart: every ack stays cached and no call under way has a cached id |
| GatewayProgress.NoCallIsStuck | forge/internal/httpapi/registry.go:23-42 | from every state a run can reach, under every fault, any call can be brought to its answer without a restart |
| GatewayProgress.GateCanBeFreed | forge/internal/httpapi/deliver.go:200-226 | the holder of a gate can always be brought out of it by its own steps and the exit of a process it stops, all others standing still |
| GatewayProgress.StepMoves | forge/internal/httpapi/resume_handler.go:72-180 | every step of a call takes it strictly closer to its answer, along deliver as along resume, and leaves all other calls where they are |
| GatewayCleanup.DeadHandlesGo | forge/internal/httpapi/registry.go:80-99 | in every run, under every fault, the handle of an exited process has a clean-up pending that removes it and nothing else |
| GatewayCleanup.SuccessorsStay | forge/internal/httpapi/registry.go:87-98 | a clean-up that comes after the id was taken over changes no handle |
| GatewaySafety.RunKeeps | forge/internal/httpapi/registry.go:80-113 | every run keeps gates, rows, registry and calls consistent and every running executor accounted for |
| GatewaySafety.InsertSucceeds | forge/internal/sessionstore/sqlite.go:100-111 | for an envelope without a row the new id is free, and the insert leaves other envelopes alone |
| GatewaySafety.RekeySucceeds | forge/internal/sessionstore/sqlite.go:170-188 | re-keying the one row of an envelope cannot clash and leaves other envelopes alone |
| GatewaySafety.CleanUpKeeps | forge/internal/httpapi/registry.go:87-98 | removing a dead process by identity never unregisters its successor |
| GatewayProvenance.RunKeeps | forge/internal/httpapi/deliver.go:228-300 | in every run each row, held session, ack and cache entry is backed by a launched process and a written row, under every fault |
| GatewayProvenance.StepKeepsCalls | forge/internal/httpapi/deliver.go:104-195 | a call keeps its envelope and delivery id to its answer |
| GatewayCalls.Forge.Deliver | forge/internal/httpapi/deliver.go:104-195 | the handler, waiting for a taken gate while others go on, is a run of the step system; a known id is replayed without a launch; with the gate free, a fresh id is accepted exactly when the lookup, the launch and the write are in order (`EnsuredExactly` says when), under the live session of the row found or the new one, and the ack is cached; other processes are left alone; it has no answer only while the gate is taken |
| GatewayCalls.EnsuredExactly | forge/internal/httpapi/deliver.go:200-300 | when a delivery at its gate succeeds, in terms of the state and of what the surroundings do: the lookup succeeds and the row is alive, or the pid is positive and no live process has it, the write is confirmed and the register takes the id |
| GatewayCalls.Forge.EnsureSession | forge/internal/httpapi/deliver.go:200-226 | waits for the gate; under it: the live session of the row found, a new one, or none, just as `EnsuredExactly` says; the gate is free afterwards; the session is alive if nothing exits meanwhile |
| GatewayCalls.Forge.SpawnAndRegisterSession | forge/internal/httpapi/deliver.go:228-300 | row before registry, stop on a write that reports an error, whether it took effect or not; the new session exactly when the pid, the write and the register allow it, bound and, if nothing exits meanwhile, alive |
| GatewayCalls.Forge.Resume | forge/internal/httpapi/resume_handler.go:72-135 | the handler up to the injection, its wait included, is a run of the step system; with the gate free it succeeds exactly when the first read finds a row and the session can be resumed (`ResumableExactly` says when); it has no answer only while the gate is taken |
| GatewayCalls.ResumableExactly | forge/internal/httpapi/resume_handler.go:114-180 | when a resume under its gate succeeds: the row is alive, or the pid is positive and no live process has it, the update is confirmed, the row is the only one of its envelope and no other envelope has the new id |
| GatewayCalls.Forge.ResumeLocked | forge/internal/httpapi/resume_handler.go:114-135 | the row is read again under the gate, the known one stands in for a failed read; the live session of that row, a new one or none, just as `ResumableExactly` says; an answer names a session that is alive if nothing exits meanwhile |
| GatewayCalls.Forge.RespawnLocked | forge/internal/httpapi/resume_handler.go:155-180 | registry before row, the process left up on an error; the new session exactly when the pid, the update and the register allow it, bound and, if nothing exits meanwhile, alive |
| GatewayCalls.RegisterTakes | forge/internal/sessionstore/sqlite.go:98-188 | the register takes an unused id for a first row, and re-keys a sole row unless another envelope has the id |
| GatewayCalls.Forge.Running | forge/internal/httpapi/registry.go:108-113 | true exactly if the registered process is alive |
| GatewayCalls.Forge.GetByEnvelope | forge/internal/sessionstore/sqlite.go:122-127 | some row of the envelope, none exactly if there is none |
| GatewayCalls.HandlersStaySafe | forge/internal/httpapi/deliver.go:200-300 | handlers run from a reachable state stay within the states the safety theorem covers |
| GatewayCalls.NothingElseRefuses | forge/internal/httpapi/deliver.go:211-300 | in every state of a dependable run a delivery or resume with its lookup, launch and write in order succeeds: the register never stands in its way |
| Envelopes.Envelope.CanTransition | hermes/envelope/envelope.go:154-172 | permits a move exactly out of a non-terminal status to a known one, to `done` only when proven; the errors in the source's order |
| Envelopes.FirstMissing | hermes/envelope/envelope.go:161-166 | the first required key without proof, none exactly if all have one |
| EnvelopeLaws.RunEvolves | hermes/internal/envelopestore/sqlite.go:406-551 | rows are never removed, history and thread only grow at the end, a terminal envelope is frozen |
| EnvelopeLaws.RunIsRecorded | hermes/internal/envelopestore/sqlite.go:555-575 | the recorded from/to pairs of any history chain to the current status; only created to delivered goes unrecorded |
| EnvelopeLaws.PathsJoin | hermes/internal/envelopestore/sqlite.go:563-566 | recorded paths compose across silent deliveries |
| EnvelopeLaws.DoneProvenExactly | hermes/internal/envelopestore/sqlite.go:488-513 | `done` implies every required key proven and no proof empty, over any number of merging calls, exactly unless inserted as an unproven `done` |
| EnvelopeLaws.RunKeepsProof | hermes/envelope/envelope.go:139-172 | a row that is proven-if-done stays so under every operation |
| EnvelopeLaws.ProofIsWhatWasHandedIn | hermes/internal/envelopestore/sqlite.go:488-513 | over every history a row's proof is what it was inserted with and what accepted calls handed in since, key by key the latest |
| EnvelopeLaws.ProofKeysStay | hermes/internal/envelopestore/sqlite.go:488-496 | no proof key ever leaves a row |
| EnvelopeLaws.DoneAcceptedExactly | hermes/internal/envelopestore/sqlite.go:475-521 | after any history a move to `done` is accepted exactly when the row is not terminal and the proof it was inserted with, handed in since and submitted now covers every required key and has no empty value |
| EnvelopeLaws.ReadMarkSurvivesExactly | hermes/internal/envelopestore/sqlite.go:406-430 | over any history a read envelope stays marked throughout, exactly when no delivery is recorded over it |
| EnvelopeLaws.BindingComesFromDelivery | hermes/internal/envelopestore/sqlite.go:406-430 | a row's binding is its inserted one or was written by a delivery of that row |
| EnvelopeStore.Store.Insert | hermes/internal/envelopestore/sqlite.go:128-152 | validates, refuses a known id, adds exactly the row |
| EnvelopeStore.Store.NextCreated | hermes/internal/envelopestore/sqlite.go:240-247 | some created row, none exactly if there is none; every other created row was created later, or at the same time with a larger id |
| EnvelopeStore.Store.List | hermes/internal/envelopestore/sqlite.go:253-285 | exactly the rows with one of the statuses, all rows for no status, latest creation first and, among equals, larger id first |
| EnvelopeStore.QueueIsListingReversed | hermes/internal/envelopestore/sqlite.go:240-285 | the queue is the listing of `created` read backwards, so the next envelope is the last one listed |
| EnvelopeStore.QueueIsOldestFirst | hermes/internal/envelopestore/sqlite.go:240-245 | the queue is the created rows by creation time and id, ascending |
| Ordering.LessIsLexicographic | hermes/internal/envelopestore/sqlite.go:258-258 | the text order of the id columns: a proper prefix first, otherwise the first differing character decides |
| EnvelopeStore.Store.ListActiveSessions | hermes/internal/envelopestore/sqlite.go:298-338 | the project's active rows in listing order, projected |
| EnvelopeStore.ActiveSessionsShowRows | hermes/internal/envelopestore/sqlite.go:294-338 | what a project's listing shows: each delivered or in-progress row of the project, field by field, latest creation first |
| EnvelopeStore.Store.ListActiveSessionsForProjects | hermes/internal/envelopestore/sqlite.go:342-398 | for every requested project, and no other key, just what the single-project listing returns |
| EnvelopeStore.GroupIsListing | hermes/internal/envelopestore/sqlite.go:352-398 | a project's group of one global sort is that project's own sorted listing |
| EnvelopeStore.GroupByProject | hermes/internal/envelopestore/sqlite.go:366-398 | one pass appends every row to its project's entry, in order, and every project has an entry |
| EnvelopeStore.Store.MarkDelivered | hermes/internal/envelopestore/sqlite.go:406-430 | flips a created row and only such a row, with a fresh delivery record and the binding; nothing else changes |
| EnvelopeStore.Store.SetExecutorSessionId | hermes/internal/envelopestore/sqlite.go:438-462 | sets the id of a non-terminal row and tells a missing row from a terminal one |
| EnvelopeStore.Store.UpdateStatus | hermes/internal/envelopestore/sqlite.go:475-521 | accepted exactly for a non-terminal row, a known status and, for `done`, a complete merged proof; the merged proof is kept whatever the status; timestamps, read mark and history line as they follow; on refusal nothing is written |
| EnvelopeStore.ApplyTransitionSideEffects | hermes/internal/envelopestore/sqlite.go:555-575 | the row one transition leaves behind: timestamps, read mark, history line |
| EnvelopeStore.Store.AddHistory | hermes/internal/envelopestore/sqlite.go:525-551 | appends one note to the row's history |
| EnvelopeStore.Store.AppendMessage | hermes/internal/envelopestore/sqlite.go:693-727 | appends one message to the row's thread |
| EnvelopeStore.Store.GetThread | hermes/internal/envelopestore/sqlite.go:732-750 | the thread after the first message with the cursor's id, all for no cursor, nothing for an unknown one |
| Worker.TickOnce | hermes/internal/worker/worker.go:130-169 | with the query, the context and the flip in order and a 200 or 201 answer with a session id, the oldest created row is delivered under that id and the tick does not fail; for any other answer the table stays and the tick fails; an unconfirmed flip counts as a failure |
| Worker.DrainOnce | hermes/internal/worker/worker.go:94-114 | ends; has flipped a prefix of the queue, in order, each row once; the error count and the reason it stopped |
| Worker.DrainDelivers | hermes/internal/worker/worker.go:94-169 | what a drain leaves of a row: as it was, or delivered from created under the session id of a 200 or 201 answer |
| Worker.DrainTakesOldest | hermes/internal/worker/worker.go:94-131 | no created row a drain has left is older than one it has delivered |
| Worker.DrainFlipsEachOnce | hermes/internal/worker/worker.go:94-169 | n flips deliver n different rows |
| Worker.OutcomeMeans | hermes/internal/worker/worker.go:94-114 | no error: nothing is left to deliver or the context ended; an error: exactly one tick failed, all before it went through, and the count goes on from before only if it was the first |
| Worker.FullDrainDeliversAll | hermes/internal/worker/worker.go:92-114 | with a Forge that always acks, one drain delivers every created envelope once and leaves the others untouched |
| Worker.QueueAdvances | hermes/internal/worker/worker.go:130-169 | a delivery takes the head off the queue and moves nothing else |
| Handover.OneExecutorThroughout | hermes/internal/worker/worker.go:71-88 | in the whole system, too, an envelope has at most one executor |
| Handover.BindingsWereAcked | hermes/internal/worker/worker.go:150-166 | under loss, timeout, cancellation and crash, every binding the worker wrote was acked for that envelope's delivery id, and with stable ids a process and a row back it |
| Handover.HonestExactly | hermes/internal/worker/worker.go:139-166 | all bindings are backed for their own envelope exactly when all deliveries carry stable ids |
| Handover.TickIsARun | hermes/internal/worker/worker.go:130-169 | a successful tick, Forge's steps included, is a run of the system that leaves the table as `TickOnce` does |
| Handover.RunIsHistory | hermes/internal/worker/worker.go:130-169 | over every run of worker, network, Forge and other writers the table goes through a history of store operations whose deliveries are the worker's bindings |
| Handover.LawsHoldThroughout | hermes/internal/envelopestore/sqlite.go:406-575 | over every run of the whole system rows stay, logs only grow, terminal envelopes freeze, recorded changes form a path, proven-if-done is kept, and a new binding is one the worker wrote |
| Handover.WorkerFlipsCreatedOnly | hermes/internal/envelopestore/sqlite.go:406-430 | over any stretch without other writers a row is left alone or flipped once, under one of the recorded bindings, and only if it was still created |
| Handover.LostDeliveryIsRetried | hermes/internal/worker/worker.go:150-166 | whatever happens to a delivery before its flip, loss, error or crash, its row stays created and is the next one the worker takes, short of other writers |
| Handover.RowBindingsHaveASource | hermes/internal/envelopestore/sqlite.go:406-430 | every binding in the table was written by the worker or came with the insertion |
| ActivityHub.Hub.Publish | hermes/internal/activityhub/hub.go:53-79 | appends the stamped event to the log the ring refines; a subscriber's queue gets it exactly if the key matches or one of the two is empty and there is room |
| ActivityHub.Hub.Recent | hermes/internal/activityhub/hub.go:87-104 | the newest n of those of the last 1024 events that carry the reader's key or none, newest first; all of them for fewer; all keys for the empty one |
| ActivityHub.VisibleExactly | hermes/internal/activityhub/hub.go:87-104 | a reader sees each event of its key and each public one, and no other key's event |
| ActivityHub.RingAdvances | hermes/internal/activityhub/hub.go:58-64 | one write keeps the ring the last 1024 events of the log, through every wrap-around |
| ActivityHub.SlotOf | hermes/internal/activityhub/hub.go:95-97 | the backward index arithmetic visits the log from its newest event |
| ActivityHub.Hub.FanOut | hermes/internal/activityhub/hub.go:66-79 | each subscriber's queue gets the event if it matches and has room, otherwise stays |
| HubProtocol.NeverSendsOnClosed | hermes/internal/activityhub/hub.go:66-79 | no interleaving of publishers, subscribers and closers sends on a closed channel: whatever a publisher still has to serve is open |
| HubProtocol.CrashFreeExactly | hermes/internal/activityhub/hub.go:129-134 | no run panics, exactly when no subscription is closed twice |
| HubProtocol.InOrderExactly | hermes/internal/activityhub/hub.go:53-79 | all streams follow the ring's order without repeats, exactly when publishes do not overlap |
| HubProtocol.StreamsAreSound | hermes/internal/activityhub/hub.go:108-117 | pending events are the unread tail of those sent, at most 64, and no subscriber is sent another key's event |
| HubProtocol.NothingIsMissed | hermes/internal/activityhub/hub.go:66-79 | over the whole of a publish: every subscriber in the set when the read lock is taken whose key matches has been sent the event when it is over, or had 64 pending when its turn came |
| HubProtocol.SubscribersAreScoped | hermes/internal/activityhub/hub.go:66-79 | whatever happens after a `Subscribe` for a key began, its channel is sent public events and that key's only |
| HubProtocol.PublishedUnderItsKey | hermes/internal/activityhub/hub.go:53-64 | an event is recorded, and stays, under the key it was published with |
| HubProtocol.OpenHandlesAreSubscribed | hermes/internal/activityhub/hub.go:108-134 | a subscription `Subscribe` has returned is in the set publishers serve until a close of it begins |
| HubProtocol.PublisherCanFinish | hermes/internal/activityhub/hub.go:66-79 | no reader can hold a publisher up: with full queues, too, it serves its audience and gives the lock back |
| HubProtocol.QueueCanBeRead | hermes/internal/activityhub/hub.go:120-127 | a subscriber can read everything pending, oldest first |
| HubProtocol.RunKeeps | hermes/internal/activityhub/hub.go:66-134 | readers and the writer exclude each other, readers see only open, subscribed channels |
| NotifyStore.Store.BulkAcknowledge | hermes/internal/notifystore/store.go:266-286 | table and counters equal single acks one by one, with other callers' acks interleaved per chunk; in raw terms: rows of other keys change only by the others' acks, a row of this key is acknowledged exactly if it was, was requested or was raced, missing counts the requested positions whose id is absent or of another key, and a row is counted as acknowledged by who acknowledged it first; an error leaves only the others' acks |
| NotifyStore.ProcessAckChunk | hermes/internal/notifystore/store.go:291-308 | one chunk equals its single acks, also when others ack between lookup and update and the affected-row count is short |
| NotifyStore.ClassifyBulkAck | hermes/internal/notifystore/store.go:334-351 | the ids to acknowledge, each once across chunks, and the counts of missing and already acknowledged |
| NotifyStore.ChunkIds | hermes/internal/notifystore/store.go:353-363 | chunks concatenate to the list, all full but the last |
| NotifyStore.ChunkingIsInvisible | hermes/internal/notifystore/store.go:275-281 | without races, any cutting gives the result of single acks |
| NotifyStore.AckEachClosed | hermes/internal/notifystore/store.go:432-446 | a run of single acks marks the distinct owned unacknowledged ids; repeats count as already acknowledged |
| NotifyStore.AcksInScope | hermes/internal/notifystore/store.go:432-446 | single acks in a row acknowledge exactly the requested rows of the key, count each once, and count absent and foreign ids as missing |
| NotifyStore.TallyAddsUp | hermes/internal/notifystore/store.go:253-258 | requested = acknowledged + already acknowledged + missing, races or not |
| NotifyStore.Store.AcknowledgeForKey | hermes/internal/notifystore/store.go:432-446 | one scoped ack: not found and no change exactly unless the row is of this key and unacknowledged |
| NotifyRouter.Router.HandleWebhook | hermes/cmd/hermes-notify/router.go:53-67 | the loop flag makes a payload urgent; an undecodable body changes nothing; everything else is sent or buffered |
| NotifyRouter.Router.Route | hermes/cmd/hermes-notify/router.go:69-83 | urgent always goes out, normal only when free, the rest is buffered; every payload stays accounted for |
| NotifyRouter.GoesOutExactly | hermes/cmd/hermes-notify/router.go:14-31 | which statuses go out at once: blocked, failed and loop_detected always, done and awaiting_confirm when free, no other |
| NotifyRouter.Router.AddToBuffer | hermes/cmd/hermes-notify/router.go:94-101 | at the cap the oldest payload gives way |
| NotifyRouter.Router.SetFree | hermes/cmd/hermes-notify/router.go:113-119 | free, buffer empty, one message for what was buffered |
| NotifyRouter.Router.Flush | hermes/cmd/hermes-notify/router.go:132-146 | everything buffered goes out in one message, nothing for an empty buffer |
| NotifyRouter.PushKeepsLast | hermes/cmd/hermes-notify/router.go:94-101 | the buffer is the last 100 payloads buffered since the last flush, and what it drops is accounted for |
| NotifyRouter.Normalise | hermes/cmd/hermes-notify/router.go:60-63 | a set loop flag means urgent, otherwise the priority is unchanged |
| RouterRuns.PayloadsAreConserved | hermes/cmd/hermes-notify/router.go:69-146 | over every interleaving each routed payload is sent once, buffered, evicted or in a call's hands; no urgent one is buffered or evicted |
| RouterRuns.NothingLeftBehindExactly | hermes/cmd/hermes-notify/router.go:69-119 | an idle, free router holds back low-priority payloads only, exactly when no webhook overlaps `SetFree` |
| RouterRuns.OverlapLeavesBehind | hermes/cmd/hermes-notify/router.go:69-83 | a webhook that read the busy flag before `SetFree` buffers after its flush |
| RouterRuns.WebhookAlone | hermes/cmd/hermes-notify/router.go:53-101 | a webhook on its own routes as the handler does, status by status |
| RouterRuns.SetFreeAlone | hermes/cmd/hermes-notify/router.go:113-146 | a `SetFree` on its own frees the router and sends everything buffered in one message |
| Polling.ExactlyOnceExactly | hermes/internal/sessionstore/store.go:212-261 | under every interleaving of inserts and polls each message arrives once and in order, exactly for distinct, non-empty ids |
| Polling.PollsFollow | hermes/internal/sessionstore/store.go:228-249 | the poller has had just the lane so far and its cursor is the last id |
| Polling.Cut | hermes/internal/envelopestore/sqlite.go:738-750 | a poll starts after the first message with the cursor's id, at the start for no cursor, at the end for an unknown one |
| SessionLanes.Store.InsertMessage | hermes/internal/sessionstore/store.go:142-150 | refuses an unknown session; otherwise allocates and retries as the attempts against rivals say |
| SessionLanes.Store.InsertMessageWithRetry | hermes/internal/sessionstore/store.go:152-186 | up to five attempts, each undone on a conflict |
| SessionLanes.Store.NextInsertOrder | hermes/internal/sessionstore/store.go:188-197 | the scan for the maximum yields lane length + 1 |
| SessionLanes.InsertionGrows | hermes/internal/sessionstore/store.go:152-197 | whatever rivals commit during the attempts, lanes only grow at the end |
| SessionLanes.AcceptedIsLast | hermes/internal/sessionstore/store.go:152-197 | an accepted message is its lane's last, with order equal to the lane's length |
| SessionLanes.InsertsAreStored | hermes/internal/sessionstore/store.go:152-197 | what other connections insert is in the lanes, and whatever a lane gains is one of their messages at the next order |
| SessionLanes.QuietInsertion | hermes/internal/sessionstore/store.go:142-186 | undisturbed, the first attempt decides, and only a used id is refused |
| SessionLanes.UsedIdExhaustsRetries | hermes/internal/sessionstore/store.go:170-185 | a used id is retried like a taken order and fails after five attempts |
| SessionLanes.RefusalMeansRivals | hermes/internal/sessionstore/store.go:152-186 | a message with an unused id is refused only after losing to a rival in its lane at every attempt |
| SessionLanes.ViolatesExactly | hermes/internal/sessionstore/store.go:199-208 | the constraints fail exactly for a used id or an order taken meanwhile |
| SessionLanes.Store.GetMessages | hermes/internal/sessionstore/store.go:212-226 | the exact suffix of the lane after the cursor, also when others insert between the lookup of the cursor and the query; not found exactly for an unknown session |
| SessionLanes.Store.GetMessagesAfter | hermes/internal/sessionstore/store.go:228-249 | the order lookup and the later sorted query give that suffix of the lane as the query finds it, nothing for an id of another lane |
| SessionLanes.CutStays | hermes/internal/sessionstore/store.go:228-249 | messages inserted after the lookup do not move the cursor's place |
| SessionLanes.SuffixArranges | hermes/internal/sessionstore/store.go:238-261 | the rows beyond an order, sorted by order, are the lane's suffix |
| SessionLanes.LanesPollExactlyOnce | hermes/internal/sessionstore/store.go:212-261 | a lane polls exactly once in order, exactly unless a message has the empty id |
| AgentRecords.PruneIsUnobservable | hermes/internal/agentstore/store.go:255-267 | under a clock that never runs backwards, prunes at any moments change nothing that `Recent` and `Get` show, parent edges aside, ever after |
| AgentRecords.PruneForgetsParentsExactly | hermes/internal/agentstore/store.go:176-267 | under a clock that never runs backwards, after any run of snapshots and prunes, `Recent` and `Get` show just what they would without the prunes, parent edges included, exactly unless an agent that shows has lost its parent to a prune |
| AgentRecords.AppliedRecord | hermes/internal/agentstore/store.go:130-152 | a snapshot's effect on every id: last entry wins, parent kept if none named, absent records of its host stale unless newer |
| AgentRecords.LastEntryIsStored | hermes/internal/agentstore/store.go:164-182 | a reported id is stored as its last entry says, every field, with the snapshot's time and with the snapshot's host where the entry names none |
| AgentRecords.AbsentRecord | hermes/internal/agentstore/store.go:190-209 | a record without an entry goes stale exactly if it is of the snapshot's host, not stale yet and not seen later than the snapshot |
| AgentRecords.LastNamedParentIsStored | hermes/internal/agentstore/store.go:176-178 | the last parent an entry names is stored |
| AgentRecords.UnnamedParentStays | hermes/internal/agentstore/store.go:182-188 | with no parent named, the known one stays |
| AgentRecords.MergedRecord | hermes/internal/agentstore/store.go:164-188 | with repeated entries the last one wins and the last named parent sticks |
| AgentHosts.LatestSnapshotPerHost | hermes/internal/agentstore/store.go:130-237 | with host-disjoint ids and per-host clocks, an agent shows exactly if its host's last snapshot holds it within the TTL, as that snapshot reports it |
| AgentHosts.LatestEntryShows | hermes/internal/agentstore/store.go:130-250 | over every orderly run an agent shows, field by field, as the last entry of its host's last snapshot says, within the TTL, and not otherwise |
| AgentHosts.SilentHostShowsNothing | hermes/internal/agentstore/store.go:214-250 | agents of a host that has sent nothing do not show |
| AgentHosts.OtherHostsUntouched | hermes/internal/agentstore/store.go:190-209 | a snapshot leaves other hosts' records as they were |
| AgentRecords.ParentSurvives | hermes/internal/agentstore/store.go:176-188 | over any run of snapshots that name no other and of prunes, a known parent stays, the agent hidden or not, exactly unless a prune removes its record; then it does not come back by itself |
| AgentStore.Store.Apply | hermes/internal/agentstore/store.go:130-152 | the loops leave exactly the merged and marked records and return the merged ones in order |
| AgentStore.FanOutHolds | hermes/internal/agentstore/store.go:139-151 | every entry with an id has its merged record among those returned, in the snapshot's order |
| AgentStore.FanOutCounts | hermes/internal/agentstore/store.go:139-151 | and there is no other |
| AgentStore.Store.MarkAbsentAgentsStale | hermes/internal/agentstore/store.go:190-198 | marks exactly the records that should be, in any visiting order |
| AgentStore.Store.Recent | hermes/internal/agentstore/store.go:214-238 | exactly the agents neither stale nor past the TTL, each once: by host, then active, idle, exited and other states, then the latest start first; ties in any order |
| AgentStore.RecentIsSorted | hermes/internal/agentstore/store.go:229-237 | what the comparison means: host, state by state, and start |
| AgentStore.Store.Get | hermes/internal/agentstore/store.go:241-250 | the shown record of the id, not found exactly if hidden or absent |
| AgentStore.Store.Prune | hermes/internal/agentstore/store.go:255-267 | removes exactly the hidden records and counts them |
| ProcessOutput.OutputIsConserved | forge/internal/runner/runner.go:128-149 | everything read plus the buffer is the kept chunks, whole and in order; a chunk is dropped only at or over 100 MiB; the buffer stays within 100 MiB + 4095 bytes |
| ProcessOutput.Process.ReadOutput | forge/internal/runner/runner.go:200-211 | hands out the whole buffer and empties it |
| ProcessOutput.Process.ReadOutputTail | forge/internal/runner/runner.go:215-242 | with more than n newlines, the longest line-aligned suffix with exactly n; otherwise nothing; the buffer is unchanged |
| ProcessOutput.TailMeetsDocumentationExactly | forge/internal/runner/runner.go:213-215 | this is the documented tail exactly when the buffer has more than n newlines and ends with one, or there is nothing to return |
| ProcessOutput.UnterminatedGivesOneMore | forge/internal/runner/runner.go:226-240 | with more than n newlines and an unterminated last line n + 1 lines come back |
| ProcessOutput.ShortBufferGivesNothing | forge/internal/runner/runner.go:226-240 | a non-empty buffer with n or fewer newlines gives nothing |
| ProcessOutput.Process.Stop | forge/internal/runner/runner.go:271-293 | refuses before the start; otherwise returns once exited and drained, with the child's exit error, killed only when not in time |
| ProcessOutput.Process.Running | forge/internal/runner/runner.go:256-267 | started and not yet exited and drained |

## Left out

- HTTP decoding, status codes, authentication, field checks other than the ids, and working
  directories: only the outcomes that change state are modelled.
- OpenCode discovery, message injection and pushing executor session ids back to Hermes: no
  effect on the modelled state; a resume that spawned is counted as answered.
- SQLite, JSON columns, schema migrations and driver error texts: tables are maps, statements
  are filters, sorts and guarded updates, and a transaction is one step. The two statements of
  `SetExecutorSessionID` are one step.
- Envelope fields no modelled operation reads or writes (creator, domain, nodes, steps, input),
  the other agent fields (pid, directory, project, title, CPU and memory shares) and the text
  of history lines: an entry carries its statuses and note instead of rendered text.
- `errorBackoff` and the sleeping loop of the worker's `Run`: timers; the worker's ticks are
  modelled, their spacing is not.
- Delivery of a permanently failing envelope: the worker retries it for ever and the rows
  behind it wait, so no such promise is made.
- The `autoFlush` ticker and the chat commands of the notification router: they only call
  `SetFree`, `SetBusy` and `Flush`, which may happen at any time.
- Keystore, project store, configuration, icons and dashboard: plain look-ups and user
  interface.
- GatewayCalls.Forge.Deliver: lets others move only while the call waits for its gate; once
  inside, its steps come in a row, because their interleavings are the step system's subject.
  In the source the acked process may therefore have exited by the time of the ack; what
  holds under every interleaving is `GatewayTheorems.AcksAreBacked`.
- GatewayCalls.Forge.EnsureSession: likewise, its session is alive unless it exits meanwhile.
- GatewayCalls.Forge.SpawnAndRegisterSession: likewise for the process it has launched.
- GatewayCalls.Forge.ResumeLocked: likewise for the session it answers.
- GatewayCalls.Forge.RespawnLocked: likewise for the process it has launched.
- GatewayCalls.Forge.Resume: likewise. A restart during the wait is not waited through,
  because it ends the call.
- GatewayCalls.Forge.GetByEnvelope: leaves open which of several rows is returned instead of
  ordering by start time, because with one row per envelope the choice is the same.
- ActivityHub.Hub.Recent: takes no negative count, because the source's `make` panics on one.
- ProcessOutput.Process.Stop: takes what the drain still reads and whether the child exits in
  time as parameters, because both are the operating system's doing.
- AgentStore.Store.Recent: fixes no order among ties, because the source's sort is not stable
  and its input order is a map's.
