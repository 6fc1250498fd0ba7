# Verified model of the remote-DOM mirror

A browser runs on a server and a viewer sees its pages as a replicated DOM. This project models the
logic that keeps the two in agreement and proves properties of it over all inputs and all runs.

* `TabHub.dfy`, `Mirror.dfy`, `Link.dfy`, `Convergence.dfy`, `Replacement.dfy` - the replicated stream: the
  hub numbers the page's events and recovers snapshots, the fan-out batches, the connection drops, the
  mirror accepts or asks again. `Convergence` runs them together, replacement of the hub by one whose
  epochs start over included; `Replacement` says exactly when the mirror notices.
* `Viewport.dfy` - geometry agreement and the input lock, with debounce, an in-flight command, stale
  snapshots and retries as separate steps.
* `Chunk.dfy`, `AgentLink.dfy` - the channel from the page: framing, reassembly, the message queue, document
  filtering and command settlement.
* `Cache.dfy`, `Css.dfy`, `TreeRewrite.dfy` - the asset plane: a content-addressed LRU cache and the URL
  rewriters for CSS, srcset and recorded trees.
* `Upload.dfy` - one-time keys, ordered files and exact byte totals under concurrent expiry.
* `Frames.dfy`, `Relay.dfy` - the walk to an iframe's node, the composition of its coordinates, and the order
  of input dispatch.
* `Resync.dfy`, `Roles.dfy`, `Addresses.dfy` - rate-limited recovery, the single driver, and DOM addresses
  across a rebuild.
* `Protocol.dfy` - the messages the others share.

Each component has a module of values and functions that says what every operation does, and, where the
program changes things in place, a module with a class or loops proved to do exactly that. An operation with
an `await` is two steps, a timer is a field that says whether it is armed, and what a run theorem needs to
remember (everything sent, applied, granted or settled) is kept as history beside the state. Clocks, random
choices, the browser's answers, file-system failures, JSON validity, URL parsing, the proxy's new URLs and
the reading of numbers are parameters.

Where code and comments disagree, the code is followed. The protocol's description of the epoch rule says
input is dropped from any viewer whose last acknowledged epoch is not the tab's current one; the code
requires only the epoch of the last viewport snapshot, and so does the model.

Results that differ from what one might expect of the program, each with a run or an input that shows it and
the exact condition under which the promise holds:

* A snapshot retry of a hub without a document dies; it lives exactly when a document has arrived.
* A viewport timer that finds no session or no hub leaves its tab locked with nothing armed.
* After a hub is replaced, input stays allowed while the new hub has no viewport, and an unlock with an epoch
  some viewer still holds an acknowledgement of lets that viewer type unanswered.
* After a hub is replaced, a mirror can show the old page with events of the new one, without any loss: when
  its epoch and number both equal the number of snapshots the new hub sent before its first delta.
* A put that throws while removing the blob it displaced leaves a key that names a missing blob, and one whose
  eviction throws at any but the last victim leaves too many bytes.
* Trimming the space before the parenthesis of an unquoted `url()` can cut an escape.
* An element added under the id of a recorded video exposes the video's later blob sources to rewriting.
* An upload key minted again while the hand-over of its first batch is out can lose the new batch; minted again
  after it, files can be handed over twice under one key.
* When the last driver leaves, no `driver` message follows, and remaining viewers still hold the departed one.
* Of two elements with one id, the address of the later resolves to the earlier.

## Model

| member | source | states |
|---|---|---|
| `Convergence.ShowsContiguousPrefix` | packages/viewer/src/mirror.ts:432-524 | for every run of hub steps, hub replacements, batching, drops, stalls, disconnects, tab switches and replay failures: unless a replaced hub's document may still be on show, the mirror shows a contiguous prefix of one epoch of the hub, and while connected with no resync pending it ends exactly at its last number |
| `Convergence.LossIsNeverUnnoticed` | packages/viewer/src/mirror.ts:446-461 | with the channel drained, no resync asked for and the latest hub number last through, mirror and hub agree on epoch, last number and event list, whatever was lost before, under the same proviso |
| `Convergence.StaleIff` | packages/gateway/src/session/tabs.ts:227-243 | that proviso: a step makes the mirror stale exactly if it replaces the hub, and ends it exactly if it delivers a snapshot of the present hub that the mirror takes |
| `Convergence.NeverReplacedNeverStale` | packages/gateway/src/session/tabs.ts:227-243 | so in a run without a replacement the proviso is void |
| `Convergence.StaleDelivery` | packages/viewer/src/mirror.ts:432-496 | what a mirror left at number n of epoch e makes of any message of the new hub, whatever was lost: it takes a snapshot exactly if its epoch is above e, asks exactly at a notice or at a delta other than n + 1 of e, and takes precisely that delta for its own |
| `Replacement.ReplacementOutcome` | packages/viewer/src/mirror.ts:432-496 | the exact condition under which agreement survives a replacement: for everything a new hub can do, a mirror at (e, n) given all its messages has the new document, or has asked, or has noticed nothing, and the last exactly when all the new hub's numbers up to its opening were openings, its epoch is at most e, and it has sent no delta or e and n both equal its epoch |
| `Replacement.ReplacementPlayed` | packages/gateway/src/session/tabs.ts:227-243 | the same in the running system, from any connected, drained and flushed moment with no resync pending |
| `Replacement.ReplacementGoesUnnoticed` | packages/gateway/src/session/tabs.ts:227-243 | the run that shows it: without any loss, drained and with no resync asked for, the mirror shows the first page with an event of the second |
| `Replacement.PlayRun` | packages/gateway/src/ws/server.ts:88-147 | without loss the mirror is given exactly what the hub said, for every run of the hub |
| `Convergence.ResyncRoundTrip` | packages/gateway/src/hub/tabhub.ts:223-286 | one round repairs: from any reachable state with a document at the hub, a resync asked for and nothing of a replaced hub left to deliver, the request to the hub, the page's pair and the delivery of what is in flight end in agreement on that pair, and the hub asks the page unless it already has |
| `Convergence.QuietMirrorAgrees` | packages/viewer/src/mirror.ts:480-496 | the same from any state that satisfies the system invariant |
| `Convergence.FreshSnapshotRepairs` | packages/viewer/src/mirror.ts:480-486 | from any reachable state one delivered hub snapshot makes mirror and hub agree again, however much was lost, half applied or pending; a mirror with a replaced hub's document must be one that takes the snapshot |
| `Convergence.LosslessRunsAgree` | packages/gateway/src/ws/server.ts:88-147 | without the drop option or a backlog above the stall mark, every flushed and drained moment finds a mirror that asked for nothing and is not stale equal to the hub |
| `Convergence.LateJoinEqualsWatching` | packages/gateway/src/hub/tabhub.ts:181-208 | a mirror fed the join payload stands where one stands that saw the epoch open and every event since, in any batching, and both take the next live event without a gap |
| `Convergence.JoinGivesEverything` | packages/gateway/src/hub/tabhub.ts:185-208 | the join payload alone gives any listening mirror the whole canonical state |
| `Convergence.StepKeepsInv` | packages/gateway/src/ws/server.ts:72-147 | every step of the combined hub, fan-out, connection and mirror keeps the system invariant: the socket holds only true messages of the logs, in order, and the mirror stands where the last one left it |
| `Convergence.RunKeepsInv` | packages/gateway/src/ws/server.ts:72-147 | so does every run |
| `Convergence.MergeIsTruthful` | packages/gateway/src/ws/server.ts:95-103 | a batch extended with the adjacent same-epoch delta is again a contiguous stretch of the log |
| `Convergence.PublishKeepsInv` | packages/gateway/src/ws/server.ts:88-110 | publishing any hub message, batched, merged or at once, keeps the invariant |
| `Convergence.CatchUpKeepsInv` | packages/gateway/src/hub/tabhub.ts:185-208 | a broadcast join payload keeps it too |
| `Convergence.DeliverKeepsInv` | packages/viewer/src/mirror.ts:467-510 | delivering the next message to a mirror whose replay may fail keeps the invariant |
| `HubModel.NewDocumentNeverStalls` | packages/gateway/src/hub/tabhub.ts:223-251 | in every reachable hub a document without a snapshot is waiting for a nav snapshot with a request timeout or retry armed; with a document a pending nav or resync always has one armed; an armed retry has exactly the delay of its place in the backoff chain |
| `HubModel.KeepsAsking` | packages/gateway/src/hub/tabhub.ts:313-342 | if the page never answers, the hub asks again for the same nav or resync reason at least once every two timer expiries, for ever, however its listeners fail each time |
| `HubModel.RetryNeedsDocument` | packages/gateway/src/hub/tabhub.ts:335-340 | an armed retry that fires leaves the request alive if and only if a document has arrived |
| `HubModel.ResyncBeforeDocumentStalls` | packages/gateway/src/hub/tabhub.ts:327-342 | the run that shows it: a resync asked before the first document ends with nothing armed |
| `HubModel.SupersededForever` | packages/gateway/src/hub/tabhub.ts:313-325 | the completion of a superseded attempt changes nothing, after any continuation |
| `HubModel.BackoffDoubles` | packages/gateway/src/hub/tabhub.ts:332-333 | the capped doubling of the code is min(max, base * 2^(k-1)) for the k-th retry |
| `HubModel.EmittedAreContiguous` | packages/gateway/src/hub/tabhub.ts:163-178 | over any run the hub numbers its messages without a gap, the epoch rises exactly at snapshots, and neither ever decreases |
| `HubModel.StepShape` | packages/gateway/src/hub/tabhub.ts:253-286 | a step appends one event, opens an epoch with exactly its pair, or leaves the open epoch alone |
| `HubModel.StepKeepsInv` | packages/gateway/src/hub/tabhub.ts:117-342 | every operation and timer keeps: number equals snapshot number plus buffer length, byte count equals the bytes sent, one timer per waiting reason |
| `HubModel.RunKeepsInv` | packages/gateway/src/hub/tabhub.ts:117-342 | so does every run |
| `HubModel.FailTwice` | packages/gateway/src/hub/tabhub.ts:246-250 | a listener that rejects after another failed the same attempt has no further effect |
| `Hub.TabHub.constructor` | packages/gateway/src/hub/tabhub.ts:88-110 | an empty hub with the initial backoff |
| `Hub.TabHub.Ingest` | packages/gateway/src/hub/tabhub.ts:117-179 | hello, meta, full snapshot, delta and response change the hub and emit exactly as the specification function says |
| `Hub.TabHub.OpenDocument` | packages/gateway/src/hub/tabhub.ts:125-140 | a new document discards the stream and asks for nav |
| `Hub.TabHub.JoinPayload` | packages/gateway/src/hub/tabhub.ts:185-208 | notice, snapshot and the whole buffer as one delta |
| `Hub.TabHub.NoteInput` | packages/gateway/src/hub/tabhub.ts:216-220 | records activity and reconsiders the trim |
| `Hub.TabHub.RequestSnapshot` | packages/gateway/src/hub/tabhub.ts:223-251 | requests, or queues the stronger reason behind the one in flight |
| `Hub.TabHub.RequestTimerFires` | packages/gateway/src/hub/tabhub.ts:237-240 | the timeout fails only the attempt it captured |
| `Hub.TabHub.RetryTimerFires` | packages/gateway/src/hub/tabhub.ts:335-340 | the retry checks document, epoch and request before asking |
| `Hub.TabHub.TrimTimerFires` | packages/gateway/src/hub/tabhub.ts:297-300 | the trim timer reconsiders |
| `Hub.TabHub.OpenPendingSnapshot` | packages/gateway/src/hub/tabhub.ts:253-286 | opens an epoch when the pair is complete and starts the queued request |
| `Hub.TabHub.MaybeRequestTrimSnapshot` | packages/gateway/src/hub/tabhub.ts:288-302 | trims at once or waits for idle |
| `Hub.TabHub.FailSnapshotRequest` | packages/gateway/src/hub/tabhub.ts:313-318 | retries nav and resync only |
| `Hub.TabHub.ScheduleSnapshotRetry` | packages/gateway/src/hub/tabhub.ts:327-342 | arms the retry and doubles the delay up to the cap |
| `Mirror.MirrorClient.Handle` | packages/viewer/src/mirror.ts:467-510 | each message changes the replica as specified: tab filter, epoch filter, rebuild, delta, notice |
| `Mirror.MirrorClient.Rebuild` | packages/viewer/src/mirror.ts:306-430 | replaces the replica, or fails and asks again |
| `Mirror.MirrorClient.ApplyDelta` | packages/viewer/src/mirror.ts:432-462 | accepts exactly the next contiguous batch, stops at the first event that fails, asks on any gap |
| `Mirror.MirrorClient.RequestFreshSnapshot` | packages/viewer/src/mirror.ts:262-270 | asks at most once until answered |
| `Mirror.MirrorClient.ConnectionLost` | packages/viewer/src/mirror.ts:511-520 | forgets the outstanding request |
| `Mirror.MirrorClient.ConnectionRestored` | packages/viewer/src/mirror.ts:521-524 | asks again for the active tab |
| `Mirror.MirrorClient.SelectTab` | packages/viewer/src/mirror.ts:525-532 | discards and asks for the new tab |
| `Mirror.MirrorClient.Teardown` | packages/viewer/src/mirror.ts:538-544 | discards everything |
| `Link.Fanout.Publish` | packages/gateway/src/ws/server.ts:88-110 | flushes, extends or opens the batch of the tab; returns what is broadcast, in order |
| `Link.Fanout.FlushTab` | packages/gateway/src/ws/server.ts:125-131 | broadcasts the open batch once |
| `Link.ViewerConn.Send` | packages/gateway/src/ws/viewerconn.ts:59-72 | nothing on a closed or disposed socket; otherwise refuses replayed deltas, stalls above the mark and arms the drain timer, drops droppable messages while stalled, sends everything else |
| `Link.ViewerConn.SendJoinPayload` | packages/gateway/src/ws/viewerconn.ts:75-81 | sends the payload on an open socket unconditionally and advances the cursor over all of it |
| `Link.ViewerConn.DrainCheck` | packages/gateway/src/ws/viewerconn.ts:95-112 | below the resume mark the connection restarts from a join payload, above it the timer is armed again, on a closed socket nothing happens; a stalled connection that can send always has the timer armed |
| `Link.ViewerConn.Dispose` | packages/gateway/src/ws/viewerconn.ts:83-87 | disarms the timer for good |
| `Link.ViewerConn.WasAlreadyReplayed` | packages/gateway/src/ws/viewerconn.ts:114-121 | a delta is refused when the cursor of its epoch already covers it |
| `ViewportModel.SafeToInput` | packages/gateway/src/hub/viewport.ts:79-88 | over all interleavings: if input is allowed on a negotiated tab, no newer view is outstanding, nothing is being applied or awaited, the last unlock was for exactly the requested revision, and the hub shows that geometry if and only if it is still the hub the geometry was applied to |
| `ViewportModel.AllowedAnsweredTheLastUnlock` | packages/gateway/src/hub/viewport.ts:68-77 | over every run: at each moment whoever may type answered the latest unlock, if and only if no unlock carried an epoch that some viewer still held an acknowledgement of for that tab |
| `ViewportModel.UnlockAdmitsHolders` | packages/gateway/src/hub/viewport.ts:62-88 | the viewers that may type right after an unlock are exactly those that hold an acknowledgement of its epoch |
| `ViewportModel.ReusedEpochIsUnanswered` | packages/gateway/src/hub/viewport.ts:62-88 | from any reachable state an unlock with an epoch some viewer holds lets that viewer type unanswered |
| `ViewportModel.LastEpochUnusedIsAnswered` | packages/gateway/src/hub/viewport.ts:68-77 | an unlock with an epoch unlike all earlier ones of its tab admits only who answered it, whatever was reused before |
| `ViewportModel.ReusedEpochUnlocksWithoutAck` | packages/gateway/src/hub/viewport.ts:83-87 | a run from the start that does so: a replacement hub reuses an epoch and an old acknowledgement opens the lock |
| `ViewportModel.InputAllowedOnReplacedHub` | packages/gateway/src/hub/viewport.ts:170-173 | a hub replaced under an unlocked tab has no viewport and input stays allowed |
| `ViewportModel.LockedTabIsBusy` | packages/gateway/src/hub/viewport.ts:188-228 | a locked tab is applying, debouncing or waiting with its retry armed if and only if its last timer found a session and a hub; if every timer of the run did, it always is |
| `ViewportModel.StrandedStaysLocked` | packages/gateway/src/hub/viewport.ts:202-204 | the code arms nothing after such a timer: only a new view or a viewport snapshot frees the tab |
| `ViewportModel.LockOpens` | packages/gateway/src/hub/viewport.ts:199-228 | from any reachable locked tab that is not stranded at most five served steps unlock exactly the geometry asked for |
| `ViewportModel.StepKeepsInv` | packages/gateway/src/hub/viewport.ts:124-228 | every view, acknowledgement, snapshot, timer, completion, leaver and hub replacement keeps the invariant of every tab and every recorded acknowledgement |
| `ViewportModel.RunKeepsInv` | packages/gateway/src/hub/viewport.ts:124-228 | so does every run |
| `ViewportModel.RoundUnlocks` | packages/gateway/src/hub/viewport.ts:126-169 | one view, debounce, apply and snapshot on an idle tab unlock it for that geometry |
| `Viewport.ViewportInputGate.NoteSnapshot` | packages/gateway/src/hub/viewport.ts:62-66 | only viewport snapshots move the required epoch and lift the lock |
| `Viewport.ViewportInputGate.Acknowledge` | packages/gateway/src/hub/viewport.ts:68-77 | accepted exactly for the required epoch of an unlocked tab, and then input is allowed |
| `Viewport.ViewportInputGate.AllowsInput` | packages/gateway/src/hub/viewport.ts:79-88 | allowed exactly when unlocked and acknowledged at the required epoch |
| `Viewport.ViewportAgreement.HandleView` | packages/gateway/src/hub/viewport.ts:126-149 | a valid driver view takes the next revision, locks the tab and schedules |
| `Viewport.ViewportAgreement.HandleAck` | packages/gateway/src/hub/viewport.ts:128-128 | acknowledgements go to the gate unless disposed |
| `Viewport.ViewportAgreement.NoteSnapshot` | packages/gateway/src/hub/viewport.ts:150-169 | a viewport snapshot settles the request in flight and unlocks only when nothing newer is wanted |
| `Viewport.ViewportAgreement.ScheduleApply` | packages/gateway/src/hub/viewport.ts:188-197 | re-arms the debounce unless applying or waiting |
| `Viewport.ViewportAgreement.BeginApply` | packages/gateway/src/hub/viewport.ts:199-206 | the timer captures the desired geometry and starts applying when session and hub exist |
| `Viewport.ViewportAgreement.FinishApply` | packages/gateway/src/hub/viewport.ts:208-228 | success records the captured revision, writes the geometry to the captured hub and waits for its snapshot, failure does not; then the newest request is rescheduled; after a disposal in between nothing happens |
| `Viewport.ViewportAgreement.SnapshotRetry` | packages/gateway/src/hub/viewport.ts:230-239 | while waiting asks the hub that is there for a viewport snapshot again, and re-arms |
| `Viewport.ViewportAgreement.Dispose` | packages/gateway/src/hub/viewport.ts:177-186 | clears every negotiation |
| `ChunkModel.ParseOfPayload` | packages/protocol/src/chunk.ts:61-86 | parsing inverts framing for every chunk of safe integers and every slice content, for any number reader that reads printed safe integers |
| `ChunkModel.SlicesJoin` | packages/protocol/src/chunk.ts:42-48 | the slices of a message joined in index order are the message |
| `ChunkModel.StrictNumberReadsDecimals` | packages/protocol/src/chunk.ts:72-75 | the digits-only reader is such a number reader |
| `ChunkModel.DeliveredAtLastMissingChunk` | packages/protocol/src/chunk.ts:111-143 | chunks of a message that all arrive within the TTL, in any order, duplicated and interleaved with arbitrary other traffic, deliver it exactly when the last missing one arrives, with the text that was sent |
| `ChunkModel.NothingLost` | packages/protocol/src/chunk.ts:124-138 | until then nothing is delivered for it and the partial holds exactly the slices that arrived |
| `ChunkModel.UntouchedByOthers` | packages/protocol/src/chunk.ts:111-116 | traffic without its key leaves no trace of a message |
| `ChunkModel.DeliveriesFarApart` | packages/protocol/src/chunk.ts:160-166 | for every input the dedup window is the last 1024 deliveries, so two deliveries of one pair are more than 1024 apart |
| `ChunkModel.AddKeepsInv` | packages/protocol/src/chunk.ts:111-166 | completed is exactly the elements of the duplicate-free completedOrder of length at most 1024, and every partial is short of a slice |
| `ChunkModel.HeldIsWhole` | packages/protocol/src/chunk.ts:134-140 | a partial is counted full exactly when every index has arrived, and then joins to the text |
| `Chunks.EncodeChunks` | packages/protocol/src/chunk.ts:30-50 | range errors exactly for the rejected arguments, otherwise one payload per slice |
| `Chunks.ChunkReassembler.Add` | packages/protocol/src/chunk.ts:111-143 | one arrival changes the reassembler and returns as specified, throws included |
| `Chunks.ChunkReassembler.AddParsed` | packages/protocol/src/chunk.ts:115-142 | dedup, single chunk, partial and completion |
| `Chunks.ChunkReassembler.SweepPartials` | packages/protocol/src/chunk.ts:146-150 | removes exactly the partials older than the TTL |
| `Chunks.ChunkReassembler.RememberCompleted` | packages/protocol/src/chunk.ts:160-166 | appends, and forgets the oldest beyond 1024 |
| `QueueModel.Fifo` | packages/gateway/src/browser/agentlink.ts:44-81 | for every run of pushes, reads and endings the k-th next gets the k-th value, then the first ending; values and waiters are never both queued |
| `AgentLinkModel.AgentLinkKeepsItsPromises` | packages/gateway/src/browser/agentlink.ts:135-308 | for every run of one attachment the stream is hello(d1) rrweb(d1)* hello(d2) rrweb(d2)* ... with distinct documents, every pending command belongs to the current one, and each registered command is settled once unless still pending; after detach all are |
| `AgentLinkModel.NavigationSettlesAll` | packages/gateway/src/browser/agentlink.ts:198-203 | a new canonical document settles every outstanding command exactly once and none survives it |
| `AgentLinkModel.StreamIsWellFormed` | packages/gateway/src/browser/agentlink.ts:163-212 | whatever arrives, stale, duplicated or from child frames, keeps the grammar |
| `AgentLinkModel.RunKeepsCommands` | packages/gateway/src/browser/agentlink.ts:214-306 | response, timeout, navigation, evaluation failure and detach settle a command at most once in total |
| `AgentLink.AsyncMessageQueue.Push` | packages/gateway/src/browser/agentlink.ts:50-55 | to the oldest waiter, else queued |
| `AgentLink.AsyncMessageQueue.Close` | packages/gateway/src/browser/agentlink.ts:57-61 | ends once and settles every waiter as done |
| `AgentLink.AsyncMessageQueue.Fail` | packages/gateway/src/browser/agentlink.ts:63-68 | ends once and settles every waiter with the error |
| `AgentLink.AsyncMessageQueue.Next` | packages/gateway/src/browser/agentlink.ts:70-76 | the oldest value, else the ending, else a place in line |
| `AgentLink.TargetState.OnBindingCalled` | packages/gateway/src/browser/agentlink.ts:135-226 | dispatch of a reassembled message |
| `AgentLink.TargetState.OnHello` | packages/gateway/src/browser/agentlink.ts:163-205 | accepts exactly canonical hellos of documents not seen before |
| `AgentLink.TargetState.OnRrweb` | packages/gateway/src/browser/agentlink.ts:207-212 | accepts exactly events of the current document |
| `AgentLink.TargetState.OnCmdRes` | packages/gateway/src/browser/agentlink.ts:214-225 | resolves exactly a pending command of the current document |
| `AgentLink.TargetState.RejectPending` | packages/gateway/src/browser/agentlink.ts:110-116 | rejects all pending commands in order |
| `AgentLink.TargetState.RegisterCommand` | packages/gateway/src/browser/agentlink.ts:289-296 | a fresh request id for the current document |
| `AgentLink.TargetState.SettleCommand` | packages/gateway/src/browser/agentlink.ts:292-305 | timeout and evaluation failure settle only a pending command |
| `AgentLink.TargetState.OnDetached` | packages/gateway/src/browser/agentlink.ts:228-234 | rejects what is pending and detaches |
| `CacheModel.GetYieldsLastPutOrNothing` | packages/gateway/src/assets/cache.ts:94-187 | for every run, whatever files vanish and whatever removals throw, get yields nothing or the last put for the key that entered |
| `CacheModel.AlwaysIndexedIff` | packages/gateway/src/assets/cache.ts:94-214 | over every run the indexes are mutual inverses without orphans, and the byte count the sum, after every operation if and only if no put throws while removing the blob it displaced |
| `CacheModel.DanglingRun` | packages/gateway/src/assets/cache.ts:172-177 | the run that shows the need: after two puts under one key the key names a blob that is gone and the new blob has no key |
| `CacheModel.RunKeepsInv` | packages/gateway/src/assets/cache.ts:94-214 | in such a run a stored put also leaves bytes within the limit and its entry in place |
| `CacheModel.PutKeepsInv` | packages/gateway/src/assets/cache.ts:154-186 | a put keeps the indexes inverse if and only if it does not throw while removing the blob it displaced; a stored put fits and is found |
| `CacheModel.DisplaceFailsWhen` | packages/gateway/src/assets/cache.ts:172-177 | that throw happens exactly when this key alone named another blob whose file resists removal |
| `CacheModel.GetKeepsInv` | packages/gateway/src/assets/cache.ts:94-114 | so does every get, a vanished file included |
| `CacheModel.EvictionIsMinimalLru` | packages/gateway/src/assets/cache.ts:194-202 | an eviction that does not throw removes an LRU-initial set of unprotected blobs that is enough and would not be enough without its newest member |
| `CacheModel.MinimalLruIsUnique` | packages/gateway/src/assets/cache.ts:194-202 | that set is determined by the cache alone |
| `CacheModel.EvictKeepsInv` | packages/gateway/src/assets/cache.ts:194-207 | eviction keeps the invariant, the protected blob and every surviving entry, and ends within the limit |
| `CacheModel.EvictUnderFaults` | packages/gateway/src/assets/cache.ts:194-207 | eviction throws exactly when a member of the minimal set resists removal, and leaves too many bytes exactly when one other than its newest does |
| `CacheModel.PutFitsIff` | packages/gateway/src/assets/cache.ts:138-186 | from a cache within its limit a put ends within the limit if and only if it does not overflow, a condition on the cache before it and on the files that resist removal, for stored, oversized and every throwing result alike |
| `CacheModel.AlwaysFitsIff` | packages/gateway/src/assets/cache.ts:94-214 | over every run the cache is within its limit after every operation if and only if no put overflows; the byte count is the sum throughout, whatever throws |
| `CacheModel.FaultFreeRunsFit` | packages/gateway/src/assets/cache.ts:94-214 | when no await throws every reachable state has inverse indexes and is within its limit, with oversized puts and vanished files in between |
| `CacheModel.OverflowingRun` | packages/gateway/src/assets/cache.ts:194-202 | the run that shows the need: a victim whose file resists removal ends the eviction with too many bytes left |
| `CacheModel.OversizedIsInvisible` | packages/gateway/src/assets/cache.ts:138-153 | without an oversized put every later state of any run and the map of last puts are the same |
| `AssetCache.AssetCache.Get` | packages/gateway/src/assets/cache.ts:94-114 | hit, miss, and a vanished file dropping its blob |
| `AssetCache.AssetCache.Put` | packages/gateway/src/assets/cache.ts:154-186 | stage, displace, index, evict, with each await that can throw |
| `AssetCache.AssetCache.StageBlob` | packages/gateway/src/assets/cache.ts:155-170 | inserts or touches |
| `AssetCache.AssetCache.DisplaceBlob` | packages/gateway/src/assets/cache.ts:172-177 | removes a blob nobody names any more |
| `AssetCache.AssetCache.EvictOver` | packages/gateway/src/assets/cache.ts:194-202 | the eviction loop |
| `AssetCache.AssetCache.PickVictim` | packages/gateway/src/assets/cache.ts:196-199 | the least recently used other blob |
| `AssetCache.AssetCache.DropBlob` | packages/gateway/src/assets/cache.ts:209-213 | removes the blob, its bytes and its keys |
| `CssModel.CssTouchesOnlyUrls` | packages/gateway/src/assets/rewrite.ts:384-434 | for every text and environment the recorded replacements are in bounds, not empty, increasing and disjoint, every byte outside them is in the output at its shifted place, and values equal to their spans give the text back |
| `CssModel.SrcsetTouchesOnlyUrls` | packages/gateway/src/assets/rewrite.ts:341-381 | the same for srcset, whose spans hold no white space and no comma at either end |
| `CssModel.NeverInCommentOrString` | packages/gateway/src/assets/rewrite.ts:393-401 | no replaced span touches a comment or a plain string of the scan |
| `CssModel.ReplacementHasToken` | packages/gateway/src/assets/rewrite.ts:403-430 | every replacement is the content of an import string or of a url() that starts a token |
| `CssModel.ValuePlaced` | packages/gateway/src/assets/rewrite.ts:548-557 | each value stands where its span stood, moved by what was replaced before it |
| `CssModel.LengthChanges` | packages/gateway/src/assets/rewrite.ts:548-557 | the length changes by the values alone |
| `CssModel.ResumeAgrees` | packages/gateway/src/assets/rewrite.ts:573-622 | decoding resumes exactly where the scanner does, for every text and backslash |
| `CssModel.DecodesInStepIff` | packages/gateway/src/assets/rewrite.ts:482-492 | a slice decodes in step with the scan of the whole text if and only if the scan stops at its end |
| `CssModel.QuotedDecodesInStep` | packages/gateway/src/assets/rewrite.ts:559-571 | so quoted URLs always do |
| `CssModel.UnquotedDecodesInStep` | packages/gateway/src/assets/rewrite.ts:456-479 | and an unquoted one if and only if the scan that delimited it skipped no comment in it and no escape of it, a bare backslash or hex digits, ends where white space is trimmed before the parenthesis |
| `CssModel.TrimmedSpaceCutsEscape` | packages/gateway/src/assets/rewrite.ts:470-472 | the input that shows the need: trimming the space of an escape before the parenthesis cuts the escape |
| `Css.SkipCssEscape` | packages/gateway/src/assets/rewrite.ts:573-590 | the scanner loop computes the specified index |
| `Css.DecodeCssEscapes` | packages/gateway/src/assets/rewrite.ts:592-622 | the decoding loop |
| `Css.SkipQuotedText` | packages/gateway/src/assets/rewrite.ts:559-571 | one past the closing quote, or past the end |
| `Css.SkipCssSpaceAndComments` | packages/gateway/src/assets/rewrite.ts:629-637 | skips both |
| `Css.ParseUrlFunction` | packages/gateway/src/assets/rewrite.ts:436-480 | the span and end of url(), or nothing |
| `Css.CloseUnquoted` | packages/gateway/src/assets/rewrite.ts:456-479 | the closing parenthesis with nesting, comments and escapes, and the trimmed end |
| `Css.ApplyReplacements` | packages/gateway/src/assets/rewrite.ts:548-557 | the loop builds the specified text |
| `Css.NextToken` | packages/gateway/src/assets/rewrite.ts:392-431 | one turn of the main loop |
| `Css.RewriteCssText` | packages/gateway/src/assets/rewrite.ts:384-434 | the whole rewrite, which ends |
| `Css.ScanCandidate` | packages/gateway/src/assets/rewrite.ts:358-376 | one srcset candidate |
| `Css.RewriteSrcset` | packages/gateway/src/assets/rewrite.ts:341-381 | the whole srcset rewrite, which ends |
| `Css.RewriteUrlPreservingSpace` | packages/gateway/src/assets/rewrite.ts:520-532 | only the trimmed middle may change |
| `TreeRewriteModel.RewriteKeepsStructure` | packages/gateway/src/assets/rewrite.ts:229-312 | for every tree: erasing the URL attributes and style text gives equal trees before and after, so ids, tags, names, child order and style properties are kept |
| `TreeRewriteModel.EventKeepsStructure` | packages/gateway/src/assets/rewrite.ts:87-160 | the same for snapshot and mutation events |
| `TreeRewriteModel.RunTagsExact` | packages/gateway/src/assets/rewrite.ts:66-160 | after every run of events the tag known for an id is that of the last element recorded under it since the last full snapshot |
| `TreeRewriteModel.RecordedMediaKeepsBlob` | packages/gateway/src/assets/rewrite.ts:66-146 | after every run of events a mutation that sets a blob source on an id keeps it exactly if that last element is a video, audio or source element, and rewrites it like any URL otherwise |
| `TreeRewriteModel.ReusedIdLosesBlob` | packages/gateway/src/assets/rewrite.ts:66-146 | the run that shows the need: a div added under the id of a recorded video |
| `TreeRewriteModel.TreeKeepsBlobs` | packages/gateway/src/assets/rewrite.ts:229-312 | in every rewritten tree each blob source of a video, audio or source element is kept |
| `TreeRewriteModel.UnresolvedTreeIsKept` | packages/gateway/src/assets/rewrite.ts:229-312 | with the CSS, srcset and URL scanners as rewriters, a tree none of whose own candidates resolves comes out as it went in |
| `TreeRewriteModel.SnapshotTagsExact` | packages/gateway/src/assets/rewrite.ts:66-84 | after a full snapshot the tag map is exactly the visited elements, each id with its last lower-case tag |
| `TreeRewriteModel.TreeKeptIff` | packages/gateway/src/assets/rewrite.ts:229-312 | a tree is unchanged if and only if each of its own texts that a rewriter meets, URL attributes, styles and text inside a style element, survives it |
| `UploadModel.UploadsApplyOnceAndWhole` | packages/gateway/src/uploads.ts:320-402 | for every run the browser is handed the files of a record at most once, all of them, in index order, with bytes that sum to the declared total, and a live record is armed unless a body or the hand-over is under way |
| `UploadModel.HandsOverOnlyWhileLive` | packages/gateway/src/uploads.ts:377-392 | the hand-over is issued only by a finished body on a live record |
| `UploadModel.AtMostOneAlive` | packages/gateway/src/uploads.ts:205-252 | as long as no published chooser gets a key that a hand-over still under way carries, at most one chooser or batch is alive, and it is in the map of its kind, where events find it |
| `UploadModel.MintingIsSafeIff` | packages/gateway/src/uploads.ts:205-252 | that guard is exact: a minted key meets it if and only if no continuation, safe in its own mintings, leaves a live record out of the maps |
| `UploadModel.UnsafeKeyLosesBatch` | packages/gateway/src/uploads.ts:320-402 | the continuation that shows it, from any reachable state: one upload and the end of the old hand-over |
| `UploadModel.AppliedLosesIff` | packages/gateway/src/uploads.ts:389-401 | the end of a hand-over leaves a listed batch alive but out of the maps exactly when the two records differ, share a key, and the browser took the files or the first was still alive |
| `UploadModel.HandedOnceIff` | packages/gateway/src/uploads.ts:205-252 | files are handed over once per key under exactly one guard: a minted key is not one under which files were handed over, if and only if no continuation whose own keys are not either hands files over twice under one key |
| `UploadModel.HandedOncePerKey` | packages/gateway/src/uploads.ts:205-402 | so over every run that meets it no two records with one key are handed over |
| `UploadModel.SpentKeyHandsOverAgain` | packages/gateway/src/uploads.ts:320-402 | the continuation that shows the need, from any reachable state: one upload under the spent key |
| `UploadModel.FreshKeysAreSafe` | packages/gateway/src/uploads.ts:205-252 | with keys never repeated the first guard holds throughout and a key names one record |
| `UploadModel.StepListsOne` | packages/gateway/src/uploads.ts:220-236 | whatever the keys, at most one record is in the maps |
| `UploadModel.ReusedKeyLosesBatch` | packages/gateway/src/uploads.ts:393-395 | a run from the start that does so: minting checks live keys only, and the end of an old hand-over takes a new batch off the map |
| `UploadModel.RunKeepsInv` | packages/gateway/src/uploads.ts:181-415 | every step keeps order, byte totals, busy flags and timers of every record |
| `UploadModel.SanitizedIsComponent` | packages/gateway/src/uploads.ts:519-531 | whatever the client calls its file the stored name is one path component within the byte limit |
| `UploadModel.CleanNameIsKept` | packages/gateway/src/uploads.ts:519-531 | a clean short name is kept |
| `UploadModel.AbandonStep` | packages/gateway/src/uploads.ts:220-222 | abandoning a set of records one by one, in any order, has one result |
| `Uploads.ValidateMetadata` | packages/gateway/src/uploads.ts:486-502 | accepted exactly when every number is within its limit |
| `Uploads.LimitBytes` | packages/gateway/src/uploads.ts:504-517 | lets through a longest prefix within the limit, all of it exactly when the total fits |
| `Uploads.SanitizeUploadName` | packages/gateway/src/uploads.ts:519-531 | the loop computes the specified name |
| `Uploads.UploadManager.Abandon` | packages/gateway/src/uploads.ts:181-195 | once per record |
| `Uploads.UploadManager.AbandonEach` | packages/gateway/src/uploads.ts:220-222 | every listed record |
| `Uploads.UploadManager.OnFileChooser` | packages/gateway/src/uploads.ts:205-252 | abandons what is live, mints and arms one chooser, withdraws it when publishing throws |
| `Uploads.UploadManager.Upload` | packages/gateway/src/uploads.ts:320-365 | all checks in order, then the file is under way |
| `Uploads.UploadManager.Receive` | packages/gateway/src/uploads.ts:351-365 | dead, busy, order, metadata and total checks |
| `Uploads.UploadManager.OnStreamed` | packages/gateway/src/uploads.ts:371-391 | size check, expiry check, next file or hand-over |
| `Uploads.UploadManager.OnApplied` | packages/gateway/src/uploads.ts:389-401 | done or abandoned |
| `Uploads.UploadManager.CloseManager` | packages/gateway/src/uploads.ts:403-413 | abandons everything |
| `FramesModel.ComposeFailsIff` | packages/gateway/src/input/relay.ts:288-328 | composition fails exactly on a broken chain or when no point is strictly inside every iframe |
| `FramesModel.ClipIsIntersection` | packages/gateway/src/input/relay.ts:304-322 | the clip is exactly the intersection of all iframe rects |
| `FramesModel.InsideAllIffShifted` | packages/gateway/src/input/relay.ts:305-310 | that is, of the rects each shifted by the sum of its ancestors' offsets |
| `FramesModel.ClipExistsIff` | packages/gateway/src/input/relay.ts:312-320 | there is a clip if and only if some point is strictly inside every iframe |
| `FramesModel.PointInsideEveryIframe` | packages/gateway/src/input/relay.ts:187-195 | the point before the viewport clamp is strictly inside every iframe, whatever fractions the viewer sends |
| `FramesModel.VisibleIff` | packages/gateway/src/input/relay.ts:300-327 | visible is reported exactly when all flags say so and some point is inside the node and every iframe |
| `FramesModel.ClampIntoInside` | packages/gateway/src/input/relay.ts:362-366 | clamping lands strictly inside and moves nothing that already was by the inset |
| `FramesModel.CycleNeverEnds` | packages/gateway/src/browser/resolvenode.ts:129-132 | a walk that meets a place twice reaches neither an owner nor a refusal |
| `FramesModel.HopsAreLinked` | packages/gateway/src/browser/resolvenode.ts:147-154 | the hops are linked from the tab to the owning target |
| `Frames.ComposeRemoteRect` | packages/gateway/src/input/relay.ts:288-328 | the inner-to-outer loop computes the composition |
| `Frames.ResolveNode` | packages/gateway/src/browser/resolvenode.ts:119-156 | ends over a finite set of places; a result is the owner at the end of a linked chain, a cycle error means a repeated place, any other error a refusal |
| `RelayModel.DispatchedInOrder` | packages/gateway/src/input/relay.ts:62-74 | messages of one tab are dispatched one at a time and in order of arrival, across tails removed in between |
| `RelayModel.BeginsExactlyWhenFirst` | packages/gateway/src/input/relay.ts:63-72 | a waiting message can go exactly when every earlier one on its tab has settled |
| `RelayModel.StepKeepsInv` | packages/gateway/src/input/relay.ts:62-74 | arrival, start, settling and tail removal keep the chain |
| `InputRelay.InputRelay.Accept` | packages/gateway/src/input/relay.ts:63-69 | chains to the tail and becomes it |
| `InputRelay.InputRelay.RemoveTail` | packages/gateway/src/input/relay.ts:70-72 | removes the tail only while it still is one |
| `ResyncModel.NeverTooManySends` | packages/viewer/src/resync.ts:120-169 | for every run with a monotone clock and every time t at most maxResyncs sends lie in the window ending at t; the total counts the sends; a reason is pending exactly while a timer is armed; pixel mode is asked for once exactly in a storm |
| `ResyncModel.StormAbsorbs` | packages/viewer/src/resync.ts:109-118 | a storm is for good |
| `ResyncModel.RequestFollowsWindow` | packages/viewer/src/resync.ts:138-160 | with no send in the window a request goes out at once, with n below the limit it waits min(max, base * 2^(n-1)), at the limit it storms |
| `ResyncModel.TimerSendsOrStorms` | packages/viewer/src/resync.ts:120-135 | a fired timer sends exactly when the window has room |
| `ResyncModel.PruneKeepsQueue` | packages/viewer/src/resync.ts:187-190 | the pruned queue is exactly the sends of the window ending now |
| `Resync.ResyncController.PruneQueue` | packages/viewer/src/resync.ts:187-190 | the shift loop |
| `Resync.ResyncController.DispatchTab` | packages/viewer/src/resync.ts:120-135 | drops, storms or sends |
| `Resync.ResyncController.RequestResync` | packages/viewer/src/resync.ts:138-160 | refuses, storms, sends or arms |
| `Resync.ResyncController.RecoveredTab` | packages/viewer/src/resync.ts:161-169 | cancels what is pending |
| `Resync.ResyncController.Dispose` | packages/viewer/src/resync.ts:176-183 | cancels everything |
| `RolesModel.OneDriverAndAgreedView` | packages/gateway/src/ws/roles.ts:92-155 | after any connects, departures, transfers and messages: the maps agree, the driver is a peer and is missing only when no driver-invited peer is present, every peer was last told the present list and the present driver |
| `RolesModel.SingleDriver` | packages/gateway/src/ws/roles.ts:156-159 | a session never has two drivers |
| `RolesModel.ForwardedIsBelieved` | packages/gateway/src/ws/roles.ts:92-192 | after any run: if a driver-only message is forwarded, every peer of that session was last told that its sender drives, and from any other peer the same message is dropped |
| `RolesModel.TransferIff` | packages/gateway/src/ws/roles.ts:172-187 | a transfer takes effect exactly when the driver names another peer of its session |
| `RolesModel.ViewersKeepBelievingInDepartedDriver` | packages/gateway/src/ws/roles.ts:134-154 | when the last driver leaves only viewers behind no driver message follows and they still hold the departed one |
| `RolesModel.RunKeepsInv` | packages/gateway/src/ws/roles.ts:92-192 | every step keeps the agreement |
| `Roles.RoleManager.ConnectPeer` | packages/gateway/src/ws/roles.ts:92-125 | refuses a used or empty id, otherwise joins, maybe drives, greets and broadcasts |
| `Roles.RoleManager.DisconnectPeer` | packages/gateway/src/ws/roles.ts:126-155 | leaves, hands on to the first driver-invited peer, broadcasts or removes the session |
| `Roles.RoleManager.FindReplacement` | packages/gateway/src/ws/roles.ts:135-137 | the first driver-invited peer in order of arrival |
| `Roles.RoleManager.Route` | packages/gateway/src/ws/roles.ts:165-192 | view, transfer, driver-only and free messages |
| `Roles.RoleManager.Broadcast` | packages/gateway/src/ws/roles.ts:210-213 | one copy to every peer of the session and to nobody else |
| `Roles.RoleManager.BroadcastState` | packages/gateway/src/ws/roles.ts:195-202 | the list, then the driver if there is one |
| `AddressModel.PathLeadsBack` | packages/viewer/src/rebuild-restore.ts:191-213 | resolveNode(nodeAddress(n)) is n |
| `AddressModel.FollowedPathIsTaken` | packages/viewer/src/rebuild-restore.ts:191-213 | and a path that leads somewhere is the one taken from there |
| `AddressModel.ElementRoundTripIff` | packages/viewer/src/rebuild-restore.ts:105-131 | an element's own address finds it exactly when it is an HTML element and no other HTML element answers to its id first |
| `AddressModel.ElementRoundTrip` | packages/viewer/src/rebuild-restore.ts:105-131 | with unique ids every HTML element round-trips |
| `AddressModel.SharedIdResolvesToTheFirst` | packages/viewer/src/rebuild-restore.ts:120-123 | of two HTML elements with one id the later resolves to the earlier |
| `AddressModel.FrameAddressResolves` | packages/viewer/src/rebuild-restore.ts:133-164 | the address walkDocuments gives an inner document resolves to it |
| `Addresses.NodeAddress` | packages/viewer/src/rebuild-restore.ts:191-203 | the upward loop computes the path |
| `Addresses.ResolveNode` | packages/viewer/src/rebuild-restore.ts:205-213 | the downward loop follows it |
| `Addresses.ResolveDocumentAddress` | packages/viewer/src/rebuild-restore.ts:133-147 | the loop over frames resolves the address |
| `Addresses.DocumentWalk.Walk` | packages/viewer/src/rebuild-restore.ts:149-170 | ends; every visit's address resolves to its document, no document is visited twice, and everything reachable through addressable frames of a visited document is visited |

## Left out

- Browser launch, CDP transport, HTTP routes, static serving, tokens, invitations and access control: plumbing or cryptography around the modelled logic.
- The rrweb replayer, media and canvas restore, layout, local echo, pixel painting and the status display: only the replica's live state, active tab, pending request and applied events are kept; building a replayer or adding an event may fail at any point.
- The time between the detach of a tab's target and its next attach: the hub is replaced at once, so join payloads sent while the tab has no hub, which say nothing of it, are not modelled.
- Several viewers at once: the system of `Convergence` follows one viewer; the fan-out's loop over its viewers appears as the ordered list of messages it broadcasts.
- Link.ViewerConn.DrainCheck: takes the join payload as an argument; the flush of the batches before it is part of the system's drain step.
- Link.Fanout.Publish: returns what is broadcast instead of calling each connection, so an exception in one viewer's send is not modelled.
- Hub recovery of a reason queued behind a failed trim or viewport request: the code schedules no retry for those two, and only the pending reason is followed.
- RTC signalling, the key map, clock offset estimation, navigation history, downloads and clipboard: little state, or members that would be easy.
- The agent link's two maps over targets and sessions: one attachment is modelled from attach to detach; acquiring the bridge is left out, and the wait for it before a command registers is the choice of when it registers.
- AgentLink.AsyncMessageQueue.Next: returns a ticket number; its promise is the entry of that ticket in `answers`.
- Numbers in `parseChunk`: any reader that reads what is printed is allowed, so blanks, hexadecimal and exponents are neither required nor excluded. Numbers above 2^53-1, where printing and reading are no longer exact, are left out of the chunk theorems.
- Chunk messages of more than 2^32-1 slices: creating their array throws, which is modelled, and the delivery theorem leaves them out.
- The cache's promise chain: operations run one after the other; streaming to the temporary file and the file contents are not modelled, and a digest stands for its bytes.
- Blob and negotiation objects shared by reference: held as map values and written back, since nothing else holds them across an await except what is captured explicitly.
- CSS and srcset conformance: what the code counts as a URL span is taken as it is. Texts are sequences of characters, not UTF-16 units, and lower-casing is ASCII.
- Style sheet rule, adopted style sheet, style declaration and font events, and the bounded memo of proxied URLs: they apply the same text rewriter to one field each.
- Upload routes and header parsing, the remote chooser's cancel event and the removal of directories: effects outside the batch machine.
- Display names of peers, state-change callbacks of the resync controller, and listeners that call back into the object that notifies them.
- The hub's event pipeline: the identity, since rrweb events are opaque to the hub.
- Rect command timeouts and the count of fallbacks; floating point: coordinates are reals, and the final clamp to the viewport is left out.
- Focus, selection and scroll values themselves: only the addresses they are stored under.
- AddressModel.ElementRoundTrip: asks for unique ids, as the exact condition of `AddressModel.ElementRoundTripIff` shows it must.
