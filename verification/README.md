# Delivery engine of the Alitycs Go SDK, verified

A Dafny model of the part of the SDK that must not lose events: the batcher that cuts the
queue into chunks and sends or persists them, the transport with its retries and its recovery
of the write-ahead log (WAL), the file store behind the WAL, and the client around them.

The endpoint, the disk and the scheduler are adversaries. Every POST may get any status or no
answer, every file operation may fail before or after its commit point (the faults of one write
are a value, and nothing else decides its outcome), every context but the background one may end
at any time, for good, callers may enqueue between any two steps of the loop, and the cases of
the loop's select come in any order. What is proved holds for all of that.

## Files

| file | content |
|---|---|
| Outcomes.dfy | error trees and the `errors.As` searches through them |
| RetryTiming.dfy | back-off under 64-bit wrap-around, Retry-After |
| Records.dfy | events, batches, records and logs of records |
| Disk.dfy | folders, the file at the WAL path and what a power loss may leave; `ensureDurableDirectory` |
| WriteAhead.dfy | the journal of posts, failed write-aheads and WAL states, and the write-ahead law over it |
| BatchStore.dfy | `fileBatchStore`: class over `order`, `records`, `pending`, mirrored by the file |
| Tallies.dfy | the atomic counters and how recovery moves them |
| Transports.dfy | `send`, `persist`, `sendRecord`, `recover` |
| Splitting.dfy | split trees of `deliver`, fates of events, isolation of bad events |
| Deliveries.dfy | a run of `deliver` as it shows on the wire, why each event met its fate, and queues sent chunk by chunk |
| Ledgers.dfy | where each accepted event stands, and the laws that tie queue, counters and WAL |
| Batchers.dfy | the loop: class with the queue, the counters, the ledger |
| Clients.dfy | callers, shutdown, and runs of any schedule |
| Admission.dfy | admission with every atomic operation as its own step |
| Sequences.dfy | facts about sequences |

Two granularities are used. In the classes each call of `enqueue` and each outcome the loop
books is one step; the three-term budget is then exact. Admission.dfy takes `enqueue`, the
hand-over from `unsent` to `durableCurrent` and the recovery bookkeeping apart into their
loads, additions and compare-and-swaps; there the budget can be exceeded, and by how much is
proved and reached.

The ghost field `steps` of the store is the journal of everything posted and written, and of every
put whose write failed before its commit point; the ghost fields `accepted`, `handed`, `settled`,
`fates` and `outcomes` of the batcher say what became of every event, and of every retained one in
recovery. Methods whose outcome has a shape return it as a ghost value: the split tree of `Deliver`
with its entries in the journal, the marks of `Recover`, and for a turn of the loop the pass it
opened with and the runs of its chunks.

## Main results

- Any run of calls and loop turns does, step by step, what its stimuli ask, and keeps every law:
  `Clients.Client.Run`, `Clients.CalledEventIsSettled`; the laws are read off in
  `Clients.Client.AnyMoment` (conservation, budget, FIFO, WAL-first) and
  `Clients.Client.EveryEventIsAccountedFor` (each event, through recovery, against the journal: no
  event is lost but by a rejection for good, a failed write-ahead, or a post in vain without a WAL).
- What the loop does for each stimulus, down to its posts: `Clients.Client.Turn`; a queue sent
  chunk by chunk accounts for its own losses (`Deliveries.DrainIsJustified`).
- At-least-once: `Clients.Client.EveryPostedBatchIsSafe`, and across restarts and power losses
  `Clients.Client.AnyMomentRestarts`.
- A send agrees with the WAL in every combination of failures: `Transports.Transport.Send`;
  the course of every recovery pass, and that a record is posted as soon as its pause is over:
  `Transports.Transport.Recover`, `Transports.PostedIffPauseIsOver`.
- Memory refines the disk through every write, rollback and crash:
  `BatchStore.FileBatchStore.WriteLocked`, `Put`, `Acknowledge`, `Pause`.
- A split settles every event once for any endpoint (`Batchers.Batcher.Deliver`), and the fate of
  each event is known for a judging one (`Splitting.FateOfEachEvent`, `Deliveries.RunIsolates`).
- Flush and shutdown: `Batchers.Batcher.HandleFlush`, `Ledgers.FlushPromise`,
  `Batchers.Batcher.Finish`, `Ledgers.CleanShutdown`, `Batchers.Batcher.WaitDone`,
  `Batchers.Batcher.DeadlineExpired`.
- Every interleaving of atomic steps: `Admission.AdmissionIsSafe`, `Admission.DropIsExact`,
  `Admission.HandOverLosesIffOver`.

## Where the code and its documentation differ

The model follows the code; each difference below is proved of it, with a run that shows it and
the condition under which the code does what is documented.

- CHANGELOG.md:45-47 requires a sync of every newly created parent. A folder whose sync failed
  exists afterwards, so `ensureDurableDirectory` never syncs it again, and a later write that
  returns no error can be lost with it (`BatchStore.PutTwiceIntoNewFolder`,
  `BatchStore.FailedFolderSyncIsNeverRepaired`). A successful write survives a power loss if and
  only if no folder entry was left unsynced before (`BatchStore.FileBatchStore.WriteLocked`).
- doc.go:50-52 says valid events of a rejected batch still land. In a batch sent for the first
  time, to an endpoint that judges rightly and with no failing write of the WAL, a valid event
  lands if and only if the sends up to it fit into 64 (`Splitting.FateOfEachEvent`,
  `Batchers.Batcher.SendNext`); all do if and only if that holds of each
  (`Splitting.IsolatesIffSendsSuffice`), and 33 events are enough to lose one
  (`Splitting.GoodEventLostPastTheLimit`). In a recovered batch none lands that shares its record
  with an invalid one, since recovery does not split (`Deliveries.PassLosesSpoiledRecords`,
  `Deliveries.GoodEventLostInRecovery`).
- doc.go:29-30 reads as if a nil Flush meant that everything enqueued before was accepted. It
  does if this process had lost nothing when the flush began, and that is so if and only if no
  accepted event is counted as lost after it (`Ledgers.FlushPromise`). After an earlier loss the
  event may never have been accepted (`Ledgers.FlushIsSilentOnEarlierLoss`), or it was, and only
  its record could not be taken out of the WAL before it was posted again and rejected
  (`Ledgers.AcceptedThoughCountedLost`).
- doc.go:60-61 promises that shutdown appends accepted events to the WAL when recovery is
  blocked. Because `unsent` falls before `durableCurrent` rises, callers can be admitted twice
  into the same room. A hand-over on a disk that never fails loses events if and only if the
  charge is above the limit when it begins, the excess rounded up by less than a chunk
  (`Admission.HandOverLosesIffOver`); that takes such an overlap (`Admission.AdmissionIsSafe`),
  and for every configuration some run has one and loses a chunk
  (`Admission.AcceptedEventsAreLost`).
- CHANGELOG.md:49-50 has retained events counted once in the budget. A caller that reads
  `unsent` before and `durableCurrent` after a hand-over counts them twice. A call is turned away
  if and only if the charge at its first load, plus what was lowered and raised since, less what
  it cannot see and what was resolved, reaches the limit (`Admission.DropIsExact`); with a limit
  of at least two half of it is enough (`Admission.CallerIsTurnedAwayInVain`), never less.
- doc.go:63-64 caps an explicit Retry-After at a minute. A number of seconds is capped if and
  only if it is below 2^64 and otherwise ignored (`RetryTiming.DeltaSecondsAreCapped`,
  `RetryTiming.HugeRetryAfterIsIgnored`).

Two limits of what is proved follow the code rather than what one might expect: WAL-first order
is a law for a size-triggered chunk and for the first chunk of a drain only, since later chunks
of a drain go out behind retained ones; and a recovered batch whose removal was not synced may
block its cycle although the WAL is then empty.

## Model

| member | source | states |
|---|---|---|
| Clients.New | alitycs.go:42-73 | A client exists if and only if the key is set, 1 <= flushSize <= maxQueueSize, retries are not negative and the WAL file, if a path is given, can be looked for (a path below a regular file cannot) and, if it is there, read and loaded; it then has exactly this configuration, and its first moment is that of a client to which nothing has happened and which owes the records of that file alone |
| Clients.Client.Run | batcher.go:255-299 | Any finite interleaving of calls and loop turns, with any answers and any disk failures: the moments it went through are returned, and each step leads from one to the next as its stimulus asks (see Step); every law holds at the end; every settled event met its fate for a reason in the journal (sent: accepted in a post; lost: rejected for good, or its write-ahead failed, or posted in vain without a WAL; retained: only with a WAL); and after the loop exits every accepted event is settled and counted exactly once |
| Clients.Client.Step | alitycs.go:188-285 | One stimulus, from one moment to the next: a call has exactly the effect of Client.enqueue, an invalid revenue payload counts one rejection even after the close, Shutdown closes and moves nothing, and a case of the select does what Turn states |
| Clients.CalledEventIsSettled | alitycs.go:231-285 | Over any run: an event that a call hands over while the client is open and the budget has room is queued under the context of that call, is accepted at the next place, keeps that place in every later moment, and is settled at that very place once everything accepted is settled |
| Clients.RunKeepsAccepted | alitycs.go:188-194 | Over any run accepted events only grow at the end, and from the close on not at all |
| Clients.Client.Turn | batcher.go:255-299 | Each case of the select, down to every entry it makes in the journal and the error it remembers: an event that fills a chunk goes out in a chunk of exactly flushSize under its own context, the others keeping theirs; a tick or flush sends everything accepted before it in chunks of flushSize, each with a run of its own, or tells what blocks recovery; stop drains or hands over, exactly when the client is closed; after the exit a flush is told the client is closed; and what is not ready moves nothing |
| Clients.Client.Enqueue | alitycs.go:234-285 | Closed or nameless: nothing changes; refused by validation: only rejected grows; otherwise the event is queued with the context of the call exactly when the budget of the three counters is not used up, and dropped if it is |
| Clients.Client.RejectRevenue | alitycs.go:130-134 | One more rejection, closed or not, and nothing else |
| Clients.Client.Close | alitycs.go:188-194 | Closing comes before stop, happens once, and moves no event |
| Clients.Client.Await | batcher.go:196-227 | A nil shutdown means the loop exited with nothing failed, rejected or retained, and then delivered equals enqueued equals the number of accepted events; without losses the error carries exactly the events of the WAL and those still waiting, also when the deadline ends while the loop holds a chunk |
| Clients.Client.AnyMoment | batcher.go:61-94 | In every reachable state: conservation of accepted events, unsent equals channel plus pending, WAL events equal recoveryOwned plus durableCurrent (one of them zero before the exit), the three-term budget, the exact deadline count, the FIFO partition, chunk sizes and WAL-first order |
| Clients.Client.EveryEventIsAccountedFor | batcher.go:77-90 | In every reachable state: an event settled as sent was in a post answered 2xx; a lost one was in a batch rejected for good, or, with a WAL, in a batch whose write-ahead failed, or, without one, in a post; a retained one is in the WAL in order or was in a post answered 2xx or with a terminal 4xx, as its outcome says; delivered, failed and durableCurrent are the numbers of these |
| Clients.Client.EveryPostedBatchIsSafe | transport.go:203-266 | A crash at any point of any run: a batch posted before it had its final answer or is in the WAL byte for byte |
| Clients.Client.AnyMomentRestarts | persistence.go:59-96 | In every reachable state the file equals memory, loads under a limit if and only if the limit covers its events, and whatever a power loss leaves instead was there before this process or loads as well |
| Batchers.Batcher.constructor | batcher.go:96-121 | A batcher over a store just opened obeys every law, recoveryOwned being the events of the WAL |
| Batchers.Batcher.Enqueue | batcher.go:131-157 | Admitted if and only if unsent + recoveryOwned + durableCurrent is below the limit, and then last in the channel with its own context; the whole new state either way; the branch for a full channel is dead |
| Batchers.Batcher.Reject | batcher.go:231-234 | Only the rejected counter moves |
| Batchers.Batcher.OtherCallers | alitycs.go:231-285 | Between any two steps of the loop, also while it holds a chunk, any number of calls and of expiring deadlines: calls only append to the channel, where every event keeps its context, and keep every law, and after stop there are none |
| Batchers.Batcher.DrainChannel | batcher.go:371-380 | One drain always empties the channel into pending, in order, in spite of its own bound |
| Batchers.Batcher.SendBatch | batcher.go:493-499 | One send books nothing, changes only the WAL, and in the way the kind of the outcome says; its entries are posts of exactly these events under exactly this context, no more than retries allow and under a background context no fewer unless the last answer was final, or one failed write-ahead, and the outcome is the one they call for, down to the error; the WAL never refuses the batch for lack of room |
| Batchers.Batcher.BookOutcome | batcher.go:500-540 | Events are booked as delivered, retained or lost by the kind of the error, exactly once, unsent falling by exactly their number, and the error is remembered |
| Batchers.Batcher.Settle | batcher.go:500-533 | The whole new ledger after some events meet one fate, and every law kept |
| Batchers.Batcher.DropUnsent | batcher.go:485-492 | Events for which no send is left count as lost, and the error says so; they were rejected with the batch they are from |
| Batchers.Batcher.Deliver | batcher.go:484-541 | For any endpoint and disk: a run of the split tree within the shared budget of sends, every event settled once and in order, posts from left to right, the leftmost error returned, the rightmost remembered, no refusal for capacity, all laws kept; and if every post got the right answer and no write of the WAL failed, exactly the fates of Splitting.FateOfEachEvent |
| Batchers.Batcher.DeliverHalves | batcher.go:513-525 | After a whole-batch rejection the two halves are delivered one after the other on what is left of the budget |
| Batchers.Batcher.SendNext | batcher.go:473-477 | One chunk leaves the front of pending and is settled whole by a run of at most 64 sends, whatever its outcome, with exactly the entries of that run; the cause remembered is that of its rightmost part; for any set of bad events, if its posts were answered rightly and no write of the WAL failed, bad events are lost and a good one is delivered if and only if the sends up to it fit into 64 |
| Batchers.Batcher.SendAll | batcher.go:392-403 | All of pending is sent in chunks of flushSize, only the last smaller, the first with an empty WAL, each by a run of its own with the entries of that run and no others, whatever became of earlier ones; the first error is the one returned, the last the one remembered |
| Batchers.Batcher.SendPending | batcher.go:386-404 | Either recovery is blocked and nothing is sent, or everything accepted before is sent that way; the journal grows by the posts of the pass and of the runs; which error is returned and which remembered; nil means the flush promise |
| Batchers.Batcher.HandleFlush | batcher.go:294-296 | The same for a flush request under its context, the queue drained first: a nil reply means everything accepted before was settled, everything settled since was delivered, retained records too, and the WAL is empty |
| Batchers.Batcher.HandleTick | batcher.go:290-293 | The same for a tick, under a context that never ends |
| Batchers.Batcher.HandleInbound | batcher.go:275-289 | A size trigger fires exactly when pending reaches flushSize; unless recovery is blocked exactly flushSize events are then sent by one run, with an empty WAL and under the context the event was enqueued with, and settled as that run has it; the rest of the channel stays as it was |
| Batchers.Batcher.RecoverBeforeSend | batcher.go:409-427 | The pass runs under the context of the cycle; the cycle goes on only with an empty WAL; a loss that blocks nothing is reported and counted once; any other error blocks; the error is remembered |
| Batchers.Batcher.PersistChunk | batcher.go:343-351 | A chunk goes behind all records of the WAL; it is lost only if its own write failed before its commit point, which the journal then shows, or without a WAL, with the error of that; nothing is posted |
| Batchers.Batcher.PersistNext | batcher.go:336-365 | One handed-over chunk is retained, or lost on its own failing write or without a WAL, never sent, and booked accordingly; its error is remembered |
| Batchers.Batcher.PersistPending | batcher.go:334-366 | Every event still in memory is handed over in the order it was enqueued, in chunks of flushSize, behind the records already there, without a post: the WAL grows by exactly the retained ones, the lost ones are exactly those of the batches whose write failed (all, without a WAL), and the last error is remembered |
| Batchers.Batcher.Finish | batcher.go:303-329 | After stop: unless recovery is blocked everything left is sent in chunks of flushSize, each by a run of its own, with the entries of these runs; otherwise, which takes a WAL, everything left is handed over as PersistPending has it; channel, pending and unsent end empty, every accepted event settled and the last error remembered |
| Batchers.Batcher.DrainAtStop | batcher.go:309-328 | The loop of that drain: the channel emptied before every chunk, one run after the other until nothing is left |
| Batchers.Batcher.WaitDone | batcher.go:198-214 | Nil if and only if nothing failed, was rejected or is retained, which implies delivered equals enqueued; otherwise the error tree carries exactly those counts and the error remembered last |
| Batchers.Batcher.DeadlineExpired | batcher.go:215-225 | For a sound state of the engine, a chunk in hand or in flight included (Ledgers.EveryMomentOfAPassIsSound has those of a recovery pass): the count reported is exactly the events in the WAL and those awaiting an outcome, each once |
| Ledgers.AdmissionIsSound | batcher.go:131-157 | An admission within the budget keeps FIFO order, conservation and the budget, and finds room in the channel |
| Ledgers.DrainingIsSound | batcher.go:371-380 | Draining keeps every law, and channel and pending together fit the queue limit |
| Ledgers.CuttingIsSound | batcher.go:286-288 | Cutting a chunk keeps the FIFO partition, the chunk sizes and WAL-first order |
| Ledgers.SettlingIsSound | batcher.go:500-540 | Settling events with a fate that agrees with the WAL keeps every law |
| Ledgers.RecoveryIsSound | batcher.go:429-454 | A recovery pass keeps every law, the account of retained events included; nothing left in the WAL means nothing owed to it |
| Ledgers.EveryMomentOfAPassIsSound | transport.go:152-201 | Every law holds between any two records of a recovery pass, and a deadline there counts the records not yet worked off and the events awaiting an outcome |
| Ledgers.RecoveryIsDocumented | transport.go:175-198 | The outcomes a pass adds to retained events are documented by its posts: accepted for delivered, rejected for good for lost |
| Ledgers.DispatchedWal | transport.go:50-73 | The fate of a batch agrees with the WAL: grown by exactly its events if retained, unchanged otherwise |
| Ledgers.StoredWal | transport.go:86-92 | Persist makes the WAL longer by the batch or leaves it, keeps the older records as they were, and fails only on a write that did not commit |
| Ledgers.HandOverAccounts | batcher.go:334-366 | For any sequence of puts of a hand-over, by induction: no event is sent, and lost are exactly the events of the failed ones, in order |
| Ledgers.RoomForMore | persistence.go:132-134 | With the budget kept, the WAL has room for everything in hand |
| Ledgers.FlushPromise | doc.go:29-30 | After a nil flush every event accepted before is settled and this flush lost none; no event of this process is counted as lost if and only if its own failures were none when the flush began, and if so every settled event, retained in between or not, was in a post answered 2xx |
| Ledgers.FlushIsSilentOnEarlierLoss | doc.go:29-30 | The run, for every configuration: start, admission, a tick whose one send is answered 400, then a flush with an idle pass and nothing to send, which replies nil, the event never accepted |
| Ledgers.AcceptedThoughCountedLost | doc.go:29-30 | Why acceptance is no equivalence, as a run for every configuration with a WAL: a tick posts an event and gets a 2xx but cannot take its record out, the next one posts it again and gets 409, and a flush replies nil with one loss on the count of the process |
| Ledgers.CleanShutdown | doc.go:30-31 | A shutdown that recovery does not block, every post accepted and no write of the WAL failing, loses nothing, settles all that was left as sent and leaves the WAL empty; so without earlier losses or refusals Shutdown returns nil |
| Ledgers.DeadlineCountIsExact | batcher.go:456-463 | The clamp never applies, and the count is the WAL plus everything waiting, each event once |
| Deliveries.RunIsJustified | batcher.go:484-541 | Whatever the endpoint answers, by induction over the split tree: an event of a run is delivered only if a post with it was answered 2xx, retained only with a WAL, and lost only if it was rejected for good, alone or in a larger batch, or its write-ahead failed, or it was posted in vain without a WAL |
| Deliveries.DrainIsJustified | batcher.go:392-403 | The same for a whole queue sent chunk by chunk, from the entries of these runs alone |
| Deliveries.AcceptedDrain | batcher.go:309-328 | Such a queue is delivered whole if every post was accepted and no write of the WAL failed |
| Deliveries.DispatchedBacks | transport.go:50-73 | What a send enters into the journal backs its outcome: posts of one body with at most one final answer, the last, within the retries, or a write-ahead that failed; the WAL never refuses it |
| Deliveries.HalvedOn400Alone | batcher.go:467-525 | For every answer and batch: deliver halves if and only if the status is 400 and the batch holds at least two events |
| Deliveries.HalvedOnItsOwn400 | batcher.go:484-525 | In any run a part that was sent and answered 400 last is halved unless it is a single event or its record could not be taken out of the WAL, and a halved part had a post of exactly its events answered 400 |
| Deliveries.BackedIsJudged | batcher.go:499-515 | An outcome whose posts got the right answer, and which no failed write of the WAL decided, is the one the splitting calls judged |
| Deliveries.JudgedOnTheWire | batcher.go:484-525 | The same for a whole run: from the answers on the wire to a judged run |
| Deliveries.RunIsolates | batcher.go:465-541 | So for any set of bad events such a run gives every event its due fate |
| Deliveries.PassLosesSpoiledRecords | transport.go:183-193 | Recovery does not split: over an endpoint that judges rightly a pass loses a record it removes if and only if it holds a bad event, and then whole |
| Deliveries.GoodEventLostInRecovery | transport.go:183-193 | A pass, turn and journal included, that loses a good event with a bad one although their isolation needs three sends |
| Deliveries.PassAttests | transport.go:175-198 | Every event of a record a pass removed was in a post answered as the mark of the record says |
| Splitting.EveryEventSettledOnce | batcher.go:474-541 | At most the budget and at most 2n - 1 sends, every event settled once, parts contiguous from left to right |
| Splitting.NilMeansAllSent | batcher.go:513-525 | Nil if and only if every part was accepted without a warning |
| Splitting.SendsAreNeedOrBudget | batcher.go:484-525 | A judged run spends what isolation needs or all it has, and drops events exactly when it falls short |
| Splitting.FateOfEachEvent | batcher.go:484-541 | The fate of every single event of a judged run, for every chunk and budget: lost if bad; if good, delivered if and only if the sends up to it fit the budget |
| Splitting.IsolatesIffSendsSuffice | doc.go:50-52 | Every chunk: exactly the good events are delivered if and only if for each of them the sends up to it fit the budget |
| Splitting.SendsUpToIsWithinNeed | batcher.go:465-467 | No event waits for more sends than the whole chunk needs, and the last one waits for as many |
| Splitting.NeedByBadEvents | batcher.go:465-467 | The need of k bad among n events is at most 1 + 2 k ceil(log2 n) |
| Splitting.ChunkIsolates | batcher.go:465-541 | A judged chunk is isolated within 64 sends whenever 1 + 2 k ceil(log2 n) <= 64, and always up to 32 events |
| Splitting.GoodEventLostPastTheLimit | doc.go:50-52 | With 33 events, all but the last bad, the good one is lost |
| Transports.Transport.Send | transport.go:50-73 | For every combination of failing put, acknowledge and pause: the WAL after send agrees with the kind of its error, in both directions, the record retained with the identical body; the posts are those of this body, at most maxRetries + 1; the error itself, by the last answer, and the pause of a retained record: what a 429 asked for if attempts ran out, none otherwise |
| Transports.Transport.Persist | transport.go:75-85 | Retained with this very body or not in the WAL at all, and nothing posted |
| Transports.Transport.Put | transport.go:51-60 | A fresh record is appended to the WAL exactly when the put took effect, and a write that failed before its commit point is entered in the journal |
| Transports.Transport.SendRecord | transport.go:203-266 | At most maxRetries + 1 posts of one body, all but the last without a final answer, and under a context that never ends no fewer unless one was final; each wait decided by the answer just before it; the error and the WAL by the last answer; every post is made under the context, a wait is slept through unless the context ends before it is over, and only an ended context leads to the cancellation error; the error is determined by the last answer and by the write that followed it; the stored pause is the time attempts ran out plus what the last 429 asked for, a minute at most, to the millisecond, and none after any other answer |
| Transports.Transport.Post | transport.go:295-325 | The error and the Retry-After suggestion of an answer |
| Transports.Transport.Sleep | transport.go:209-222 | The wait is the hint of the last answer or, without one, the jittered schedule; a context that ends before the wait is over cuts it short, and nothing else does |
| Transports.Transport.SleepContext | transport.go:380-389 | Exactly that wait under exactly that context |
| Transports.Transport.Acknowledge | transport.go:227-236 | The record leaves the WAL if and only if the write took effect; lawful for an answered body |
| Transports.Transport.Pause | transport.go:262-264 | Only the pause of that record changes, if and only if the write took effect |
| Transports.Transport.AfterAccept | transport.go:226-238 | Nil, delivered with a warning, or still in the WAL because its removal failed |
| Transports.Transport.AfterReject | transport.go:241-254 | Terminal and gone, also when only the directory sync failed, or still in the WAL because its removal failed |
| Transports.Transport.AfterExhaustion | transport.go:257-265 | The record stays, paused for what the last answer asked from the time attempts ran out, if it asked (see PauseUntil); the error carries the last failure and that pause, or is the failed write |
| Transports.Transport.CapPause | transport.go:159-168 | A pause that ends more than a minute away is cut down to one minute from now, to the millisecond, in the WAL as well; any other is left alone |
| Transports.Transport.HoldBack | transport.go:156-174 | A record goes on if and only if the context has not ended, no write of its cut-down pause fails, and that pause no longer runs; each of the three has its own error, a running pause with its end |
| Transports.PostedIffPauseIsOver | transport.go:169-175 | In a turn of recovery whose context lasts and in which no write fails the record is posted if and only if its pause is over; otherwise the error defers it to a time still to come |
| Transports.Transport.Resend | transport.go:175-198 | Sent again under the context of the pass and booked as delivered or rejected exactly when it left the WAL; a rejection alone lets the pass go on, a delivery with a sync warning ends it |
| Transports.Transport.RecoverOne | transport.go:155-199 | One turn, as its context, clock, answers and writes have it: held back for a reason that holds then, or its pause over and posted; the record leaves the WAL exactly after a final answer whose removal took effect, and otherwise stays with its pause cut down or set anew |
| Transports.Transport.RecoverAt | transport.go:155-199 | One turn of the loop carries the account of the pass on or ends it |
| Transports.Transport.Recover | transport.go:152-201 | The whole course of a pass: turn after turn on the oldest record left, the posts in that order under the context of the pass, until one ends it; the WAL loses exactly the records removed, a prefix in order; the error is that of the ending turn, or the last rejection, wrapped with the exact loss if there was one; nil or a non-blocking result means an empty WAL |
| Transports.DispatchedWithWal | transport.go:61-72 | With a WAL: absent after success, delivered or terminal, present with the same body after anything else |
| Tallies.Counters.RecordRecoveryProgress | batcher.go:429-444 | Records of an earlier process leave recoveryOwned with their losses set apart, those of this one leave durableCurrent as its own outcomes; WAL and counters stay tied |
| Tallies.Counters.UpdateRecoveryOwned | batcher.go:446-454 | recoveryOwned follows the WAL down, never up |
| WriteAhead.NoPostedBatchIsForgotten | transport.go:50-73 | Stop a lawful journal anywhere: each batch posted before was answered for good or is in the WAL |
| WriteAhead.RewriteIsLawful | persistence.go:222-273 | Rewriting the WAL step by step is lawful if the new content forgets no unanswered body |
| WriteAhead.AcknowledgeIsLawful | persistence.go:147-178 | Taking out an answered record is lawful, whether or not the write committed |
| WriteAhead.AppendIsLawful | persistence.go:117-145 | Appending a record is lawful |
| WriteAhead.PauseIsLawful | persistence.go:180-198 | Changing a pause is lawful |
| WriteAhead.PostError | transport.go:312-324 | No error if and only if 2xx; a terminal finding with the status if and only if a 4xx other than 429 |
| WriteAhead.AnswersAreClassed | transport.go:304-324 | By the numbers: accepted are 200 to 299, terminal 400 to 499 without 429; a 429 alone asks for a wait, kept between nothing and a minute; no answer settles nothing |
| BatchStore.FileBatchStore.Put | persistence.go:117-145 | Idempotent, a collision, a refusal, or appended: the whole new state of memory and disk in each case, memory rolled back unless the write committed |
| BatchStore.FileBatchStore.Acknowledge | persistence.go:147-178 | Unknown ids change nothing; otherwise the record leaves memory and disk if and only if the write took effect, the others keeping their order |
| BatchStore.FileBatchStore.PutBack | persistence.go:168-176 | Append, shift right and fill restore the id at its exact old position |
| BatchStore.FileBatchStore.Pause | persistence.go:180-198 | Only the pause of that record changes, in memory and on disk, if and only if the write took effect |
| BatchStore.FileBatchStore.Snapshot | persistence.go:200-213 | The pending records, oldest first |
| BatchStore.FileBatchStore.WriteLocked | persistence.go:222-273 | The file becomes the records in memory or nothing changes; at every step in between a power loss leaves nothing but what it could have left before or the whole new file; after success the new file survives if and only if no folder entry was left unsynced earlier; the faults alone decide whether it commits and whether it returns an error |
| BatchStore.FileBatchStore.RemoveFile | persistence.go:223-234 | The same when no record is left |
| BatchStore.FileBatchStore.ReplaceFile | persistence.go:236-272 | The same when records are left |
| BatchStore.FileBatchStore.WriteTemporary | persistence.go:250-265 | Without an error the temporary file holds the whole new content on disk |
| BatchStore.FileBatchStore.Install | persistence.go:266-272 | Rename then directory sync |
| BatchStore.CommitMirrors | persistence.go:138-144 | Memory mirrors the disk after a write that committed |
| BatchStore.RollbackMirrors | persistence.go:139-143 | Restored memory mirrors the disk after a write that did not |
| BatchStore.MutationResult | persistence.go:41-46 | An error tells whether the mutation took effect |
| BatchStore.LoadRecords | persistence.go:81-94 | Loads if and only if all records are valid, ids distinct and the total within the limit, and then exactly them; otherwise the error names the fault of the first record at fault |
| BatchStore.Open | persistence.go:59-96 | Opens if and only if the limit is positive and, where a path is given, the look at it does not fail (as it does below a regular file) and the file is missing or loads; otherwise which error is returned |
| BatchStore.ReopenRoundTrip | persistence.go:59-96 | What any run left on disk loads to the records in memory, if and only if the limit covers them |
| BatchStore.FailedFolderSyncIsNeverRepaired | persistence.go:275-303 | After one failed folder sync no later successful write, however many follow, survives every power loss |
| BatchStore.PutTwiceIntoNewFolder | CHANGELOG.md:45-47 | The run: a first put into a folder it creates and cannot sync fails, a second one meets no fault and returns no error, and a power loss may then leave no WAL |
| BatchStore.UnsyncedFolderIsAccepted | persistence.go:275-303 | Why: the second call finds nothing to create and nothing to sync |
| BatchStore.PutWithoutDirectorySync | persistence.go:266-272 | A put whose directory sync failed: the record may be posted by recovery, and a power loss may still uncover the file without it |
| Disk.EnsureDurableDirectory | persistence.go:275-303 | Exactly which folders are created and synced under given faults, and exactly when there is no error; nothing that existed changes, and failing after creating one leaves an unsynced entry |
| RetryTiming.BackoffIsCappedDoubling | transport.go:371-377 | Under 64-bit wrap-around the delay is min(2^(a-1) s, 10 s) for every attempt a >= 1 |
| RetryTiming.ScheduleIs | transport.go:371-377 | One second, two, four, eight, and ten from the fifth retry on, in nanoseconds |
| RetryTiming.DelayFor | transport.go:356-367 | The delay before a retry is within a fifth of the schedule |
| RetryTiming.JitterStaysWithinAFifth | transport.go:363-367 | The delay times 0.8 + 0.4 r, cut down, for any r in [0, 1), stays within a fifth of the delay and strictly below its upper end |
| RetryTiming.Hint | transport.go:268-276 | A hint lies between zero and a minute, and a date within a minute is kept to the nanosecond |
| RetryTiming.HintIsExact | transport.go:268-276 | The hint for every header: none if empty or garbage; a digit string below 2^64 is that many seconds, sixty at most; a date is the time until then, nothing if past and a minute at most |
| RetryTiming.DeltaSecondsAreCapped | transport.go:330-349 | A digit string is honoured as min(seconds, 60) s if and only if it is below 2^64 (section 10.2.3 of RFC 9110) |
| RetryTiming.HugeRetryAfterIsIgnored | transport.go:334-348 | 10^20 seconds are dropped, not capped |
| Outcomes.WrappingKeepsFindings | transport.go:257-265 | The wrapping of an exhausted send hides nothing from errors.As |
| Outcomes.SearchesFindTheFirst | transport.go:64-70 | Each errors.As search for a status, a mutation or a recovery outcome finds the first match in depth-first order of the error tree, for every tree |
| Outcomes.SearchesMeetTheKind | batcher.go:505-530 | A delivered or a durable error is found if and only if one is somewhere in the tree |
| Admission.MoveKeepsSafe | batcher.go:131-157 | Every atomic step of caller, loop, recovery and shutdown keeps the invariant of the fine-grained machine |
| Admission.MoveKeepsTracked | batcher.go:136-145 | Every atomic step keeps the account of what a caller adds up |
| Admission.EveryRunIsSafe | batcher.go:131-157 | Both invariants over every interleaving |
| Admission.AdmissionIsSafe | batcher.go:131-157 | From any start, at any point of any run: unsent within the limit, no push meets a full channel, the whole charge at most the limit plus one chunk, and at most the limit without a blind reservation, in which case no put is refused either |
| Admission.ReservationIsJustified | batcher.go:136-145 | A reservation not made blind is one the atomic enqueue would grant at that very moment; a blind one exceeds the limit by at most a chunk |
| Admission.DropIsExact | CHANGELOG.md:49-50 | When a call is turned away, exactly: the sum it compares is the charge at its first load, plus the events both lowered and raised since, less a part it cannot see and what recovery resolved since; without such a hand-over only a used-up budget turns it away, and never a charge below half the limit |
| Admission.NothingAcceptedAfterStop | alitycs.go:188-194 | After stop no interleaving accepts an event, the channel and the charge only fall, and no put is refused any more if the charge is within the limit |
| Admission.BoundIsReached | batcher.go:527-533 | The bound limit plus flushSize is reached, for every configuration |
| Admission.HandOverLosesIffOver | batcher.go:334-366 | Every hand-over on a disk that never fails, whatever was refused before, loses accepted events if and only if the charge is above the limit when it begins, and then at least the excess and less than a chunk more; all others are in the WAL |
| Admission.ShutdownLosesIffOver | batcher.go:303-308 | The same, both bounds included, on the state in which the loop, stopped and with its recovery blocked, turns to the hand-over |
| Admission.HandOverEnds | batcher.go:334-366 | Every hand-over ends: no run of it makes more moves than there is work, and one that has not emptied channel, pending and the hands of the loop has a next move |
| Admission.HandOverCompletes | batcher.go:334-366 | From every state of a hand-over some run empties channel and pending |
| Admission.AcceptedEventsAreLost | doc.go:60-61 | For every configuration some run accepts limit plus flushSize events, and the hand-over of its shutdown, without a failing write, loses at least a chunk of them |
| Admission.CallerIsTurnedAwayInVain | CHANGELOG.md:49-50 | For every limit of at least two a process accepts half the limit, rounded up, in all and drops the next event |

## Left out

- Batchers.Batcher.Enqueue: reservation and push are one step, and callers run between the steps of the loop, not inside a recovery pass (an admission inside one commutes with the rest of it, since a pass only lowers the other two terms of the budget); Admission.dfy has the single loads, additions and swaps.
- Admission.MoveKeepsSafe: counts events instead of carrying them, and lets the loop halve a part anywhere and give it up at any time, a superset of what it does. The runs that show a bound is reached use neither: they cut whole chunks, keep what got no answer, and give up only what the WAL refused.
- Transports.Transport.Post: HTTP, headers and JSON are not modelled; an answer is any status or none, and encoding is an injective codec that never fails.
- RetryTiming.DelayFor: the random factor is a real number; floating-point rounding is left out.
- Batchers.Batcher.SendBatch: FreshBatchId stands for random ids, which are assumed not to repeat within the WAL.
- Disk.EnsureDurableDirectory: folders and file are values passed through it, not objects; the file of another process at the same path is not modelled, nor are the texts of its errors.
- Transports.Transport.SendRecord: the clock is any value at each reading, a context ends at a time fixed beforehand, and the hooks for the schedule and the sleep are the production ones; a request whose context ends while it is under way may still get any answer.
- Batchers.Batcher.DeadlineExpired: the counters are read together, at a moment when the last outcome is booked whole (with single loads, a recovered loss booked between two of them can lower the count, the clamp then hiding events awaiting an outcome); the race between the loop's exit and the caller's deadline is a choice made by whoever calls.
- Clients.Client.EveryPostedBatchIsSafe: the crash is one of the process; under a power loss the law fails for a record whose put lost its directory sync (BatchStore.PutWithoutDirectorySync).
- The caller's half of flush (its request queue, its wait and the cancellation of that wait): only the reply the loop gives is modelled.
- Recovery without a progress callback: New always wires one, so the branch that books a loss without it is dead.
- Option parsing, sessions, locale detection, property and revenue checks, limits of single events: single-branch checks; a built event arrives as a value or as refused.
- Logging.
