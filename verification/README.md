# Verified model of the voice collections agent

A Dafny 4.11 model of the parts of the agent where state, time and interleaving
decide what a caller gets. `dafny verify dfyconfig.toml` checks everything.

**Guaranteed delivery.** `Jobs` holds the three tables of the job store and one
atomic step per transaction; the class `JobStore` performs the transactions in
place. `Availability` says when a job can be claimed, in terms of its row alone.
`JobHistory` replays the event log. `Delivery` is the protocol: any number
of workers, each a program counter, crashing at any point, with expired leases,
reclaims, retries, dead-letter requeues and duplicate submissions in any order.
`WorkerLoop` is the worker as code; each of its calls is proved to be a run of
protocol steps, with every exception the store may raise. `Fencing` and
`Draining` add the fence and the bound on polls; `Liveness` ties the running
system to the event log and proves that polling late enough settles every job;
`DurableWrites` is the path from a tool call to a job, `LostEffects` the price of
winning the ledger first.

The design documents promise *exactly once* (`jobs/__init__.py:8`, `docs/PRD.md:42`).
The code wins the ledger key first and appends second (`jobs/worker.py:199-201`),
so a crash between the two loses the effect. What holds, and is proved, is at
most once in every interleaving, an exact account of the losses, and the exact
condition for exactly once.

**Voice session.** `VoiceSessions` interleaves the response tasks of one asyncio
loop at their await points. A cancelled task runs only its `finally` block,
if it had started; the send lock is first in, first out. What is awaited may answer anything at any
time, or raise. The inference lock is shared by all sessions of the process:
here it may be free and still not be granted, which covers the others. `Playback`
is the clock of the browser output. `TurnManagement` is endpointing: two
restartable timers with stale-timer guards, explicit deadlines, and timers that
may fire late.

**Printers and scanners.** `ObjectScanner` proves the balanced-object scanner
against a grammar of braces and strings that does not mention the scanner, on
every text; `JsonText` ties it to JSON texts with any whitespace between tokens
(section 2 of RFC 8259) and any legal escape in strings (section 7 of RFC 8259).
`SpokenWords`, `NumberWords` and `SpokenAmounts` prove that number words in
English and Hindi denote the number, for every integer, through the characters
that are spoken.

**Evidence and the answer loop.** `Evidence` proves that merging and cutting after
every retrieval round gives the best ten of everything ever retrieved;
`ActiveVersions` is the filter that keeps the active version of each policy;
`RagControl` is the bounded correction loop with its recorded path.

What one might expect and the code does not give has a concrete run, and a
theorem that says exactly when it holds:

- exactly-once delivery: `LostEffects.CrashLosesEffect`, `LostEffects.ExactlyOnceIff`;
- attempts within `max_attempts`: `JobHistory.ReclaimsUnlimited`, `JobHistory.ClaimPastLimitIff`, `JobHistory.LimitsBrokenIff`;
- a requeue that keeps the log faithful: `JobHistory.RequeueFaithfulIff`;
- keys that tell all writes apart: `DurableWrites.BarMergesIds`, `DurableWrites.ScopesMergeIff` (a bar in a customer id does no harm within one scope: `DurableWrites.OneScope`);
- a barge-in that stops the response: `VoiceSessions.BargeInSparesWaitingTurn`, `VoiceSessions.BargeInStopsIff`;
- a barge-in that spares later turns: `VoiceSessions.BargeInCancelsLaterTurn`, `VoiceSessions.BargeInCancelsLaterIff`;
- no turn before its silence has passed: `TurnManagement.DoubleEndDeliversEarly`, `TurnManagement.EarlyTurnIff`;
- a scanner that finds every object in any surrounding text: `JsonText.QuoteInGapHidesObject`, `JsonText.ScanPrintedObjectsIff`.

## Model

| member | source | states |
|---|---|---|
| `Jobs.BackoffBounds` | jobs/store.py:28-37 | Backoff never shrinks from one attempt to the next, is capped and stays at the cap; jitter moves it by the drawn fraction, never below zero |
| `Jobs.DelaysGrow` | jobs/store.py:28-37 | The first delay is the base delay and every further one the multiplier times the one before it, all cut at the cap |
| `Jobs.JobStore.constructor` | jobs/store.py:123-137 | Opening a database file keeps whatever it holds; a fresh file is the empty store |
| `Jobs.JobStore.Submit` | jobs/store.py:180-220 | The whole new database is that of one submit transaction, row by row: a new job is queued with no attempts and the limit requested, or that of the policy if none or zero is; a key that exists creates nothing and returns its owner |
| `Jobs.JobStore.Claim` | jobs/store.py:223-271 | Takes a runnable row that became available first, or nothing if no row is runnable, and performs exactly one claim transaction |
| `Jobs.JobStore.Heartbeat` | jobs/store.py:273-279 | Behind the fence (worker id, PROCESSING) the lease becomes now plus the lease time, nothing else changes, and no claim takes the job until then; otherwise nothing changes |
| `Jobs.JobStore.Complete` | jobs/store.py:281-298 | Completes the row and logs it behind the fence, otherwise changes nothing |
| `Jobs.JobStore.Fail` | jobs/store.py:300-329 | Behind the fence, retries from now plus the backoff on or dead-letters at the attempt limit, with both events and every field of the row; the answer tells which, and a refusal changes nothing |
| `Jobs.JobStore.SideEffectOnce` | jobs/store.py:332-346 | True exactly for the first caller with a key, whose row is then the owner |
| `Jobs.JobStore.RequeueDlq` | jobs/store.py:402-411 | Resets a dead-lettered row; the event is logged even when no row changed |
| `Jobs.EarliestExists` | jobs/store.py:232-246 | The claim query has an answer whenever some row is runnable |
| `Availability.SubmittedWaits` | jobs/store.py:180-246 | A submitted job can be claimed exactly from its submission on; a repeated key changes nothing |
| `Availability.ClaimProtects` | jobs/store.py:232-260 | A claim takes a job that has waited longest, counts the attempt, and protects the job from all claims exactly until its lease expires |
| `Availability.HeartbeatProtects` | jobs/store.py:273-279 | A heartbeat of the holder prolongs that protection exactly to the new lease; any other heartbeat changes nothing |
| `Availability.CompletedForGood` | jobs/store.py:281-298 | A completed job keeps its result and can never be claimed |
| `Availability.FailedWaits` | jobs/store.py:300-329 | A failed job with attempts left can be claimed exactly from the end of its backoff on; one without never |
| `Availability.RequeuedWaits` | jobs/store.py:402-411 | A requeued job starts over without attempts and error and can be claimed from the requeue on |
| `Availability.LeaseKeepsJob` | jobs/store.py:232-279 | Over runs: a worker that keeps its lease ahead of the clock still holds its job, whatever all others do |
| `JobHistory.FaithfulRun` | jobs/store.py:164-177 | In every run of transactions, requeue called on dead-lettered jobs, the job table is the replay of the event log, and each job's events are an unbroken path of the lifecycle |
| `JobHistory.EmptyIsFaithful` | jobs/store.py:123-137 | The empty store, from which runs start, is the replay of the empty log |
| `JobHistory.FaithfulStep` | jobs/store.py:180-329 | Each transaction keeps the table equal to the replay of the log |
| `JobHistory.RequeueFaithfulIff` | jobs/store.py:402-411 | Requeue keeps the log faithful if and only if the job is in the dead-letter queue |
| `JobHistory.AttemptLimits` | jobs/store.py:232-329 | Attempts are failures plus reclaims plus the run in progress or completed; the attempt bounds of QUEUED, RETRYING and DLQ rows; failures never pass the limit; no other status is ever stored |
| `JobHistory.ReclaimsUnlimited` | jobs/store.py:232-260 | From the empty store, with a limit of one attempt and leases of any positive length, a job can reach any number of attempts |
| `JobHistory.ClaimPastLimitIff` | jobs/store.py:232-260 | A claim takes its job past the limit if and only if it reclaims a job that has used up its attempts, or the limit allows none |
| `JobHistory.LimitsBrokenIff` | jobs/store.py:180-411 | A transaction breaks the attempt limits of the store if and only if it is such a reclaim |
| `JobHistory.OutcomeFromLatestClaim` | jobs/store.py:281-329 | Every accepted outcome in the log follows, within its job, a claim of the same worker, with nothing in between |
| `JobHistory.OutcomesSeparatedByClaim` | jobs/store.py:249-329 | Two outcomes of one job have a new claim between them, by the worker of the second: one outcome per claim |
| `Delivery.EffectKeyInjective` | jobs/worker.py:158-199 | Ledger keys of different jobs differ, although type and key are joined by a colon |
| `Delivery.EffectRun` | jobs/worker.py:91-202 | The delivery invariant (every ledger key is logged, in an open window, or abandoned, and every completed job is settled) holds in every interleaving |
| `Delivery.EffectStep` | jobs/worker.py:91-202 | Every atomic step of any worker, of a submitter or an operator, and every crash keeps the delivery invariant |
| `Delivery.AtMostOnce` | jobs/worker.py:130-202 | In every reachable state of any number of workers the effect log holds at most one entry per job |
| `Delivery.EffectAccounting` | jobs/worker.py:155-202 | Ledger rows = logged effects + workers between winning the key and appending + windows lost to crashes or exceptions |
| `Delivery.CompletedAccounted` | jobs/store.py:281-298 | A completed job is in exactly one of three situations: logged, in a window, or its one window was abandoned |
| `Delivery.JobsAreDistinctKeys` | jobs/store.py:180-220 | In every run there are exactly as many jobs as distinct submitted keys |
| `Delivery.KeyOwnerForever` | jobs/store.py:180-220 | Jobs are never removed, and a repeated key returns the same job and changes nothing, however late |
| `LostEffects.CrashLosesEffect` | jobs/worker.py:196-202 | A run, for every job type and key, after which the job is COMPLETED and the effect log is empty |
| `LostEffects.ExactlyOnceIff` | jobs/worker.py:155-202 | A completed job was delivered exactly once if and only if its window was never abandoned |
| `Fencing.FenceRun` | jobs/store.py:273-329 | In every run a worker's token is its own claim, and a row that names the worker has no later claim |
| `Fencing.FenceIsLatestClaim` | jobs/store.py:285-286 | The fence, which compares no attempt number, accepts a busy worker exactly when its claim is the latest one of a job in progress |
| `Fencing.TakeoverIsFinal` | jobs/worker.py:91-111 | After its lease was taken over, nothing a worker still does about that claim changes a job row or the event log, however late |
| `Draining.DrainBound` | jobs/worker.py:91-118 | Without new work or expired leases, all workers together poll successfully at most as often as the jobs had attempts left |
| `Draining.QuietStep` | jobs/store.py:223-329 | Each such step uses up at least one attempt when it claims and never adds any |
| `Liveness.SystemHistory` | jobs/store.py:164-329 | In every run of any number of workers with crashes, requeue called on dead-lettered jobs, the job table is the replay of the log and all attempts are accounted for |
| `Liveness.DrainedIsSettled` | jobs/worker.py:62-66 | When no job is queued, retrying or in progress, every job is completed or dead-lettered, unknown types included |
| `Liveness.PollProgresses` | jobs/worker.py:91-111 | Every poll that claims a job brings the store closer to being settled, reclaims included and whatever the handler raises |
| `Liveness.PollingSettles` | jobs/worker.py:91-118 | One worker that polls late enough settles every job, wherever the others crashed, within a number of polls computed from the rows |
| `WorkerLoop.Worker.RunOnce` | jobs/worker.py:91-111 | One poll in terms of rows, ledger and log: a claimed job of a known type without a fault is completed and logged exactly if its ledger key was new; an unknown type or an error of handler, append or completion gives RETRYING or DLQ by its attempts; which of these leave the key behind; a store exception in claim or fail escapes; and all of it is a run of protocol steps |
| `WorkerLoop.Worker.Handle` | jobs/worker.py:136-202 | A default handler is heartbeats, ledger, append, in this order: what it leaves in ledger, log and lease, and that it raises exactly for an unknown type, its own error, or an append error after winning the key |
| `WorkerLoop.Worker.Beats` | jobs/worker.py:136-153 | Each heartbeat prolongs the lease of the job in progress from its own time on, and touches nothing else |
| `WorkerLoop.Worker.Deliver` | jobs/worker.py:155-202 | The first to ask the ledger appends one effect of this job, everybody else appends nothing |
| `WorkerLoop.Worker.Settle` | jobs/worker.py:101-110 | The handled job is completed, or the exception is recorded as a failure, once, unless recording it raises too |
| `WorkerLoop.Worker.Once` | jobs/worker.py:21-35 | The ledger step: the winner enters the window, everybody else finishes |
| `WorkerLoop.Worker.AppendEffect` | jobs/worker.py:130-133 | The append adds exactly this job's effect to the log |
| `WorkerLoop.Worker.RunForever` | jobs/worker.py:113-127 | Polls until it has been stopped or an exception that nothing catches escapes, and not less; all of it is one run of protocol steps of this worker |
| `DurableWrites.CanonicalIff` | business/durable_executor.py:56 | Two argument lists have the same canonical form if and only if they are the same dictionary |
| `DurableWrites.KeyIff` | business/durable_executor.py:48-60 | Barring a digest collision, and unless one scope continues the other after a bar, two calls share a key if and only if scope, customer, tool and arguments agree, whatever characters the ids contain |
| `DurableWrites.BarMergesIds` | business/durable_executor.py:57-59 | A scope that continues another one after a bar: each of its customers shares all keys with a customer of the shorter scope, whatever the hash |
| `DurableWrites.OneScope` | business/durable_executor.py:56-59 | Within one scope the hashed text tells customers and arguments apart, even with bars in customer ids, because bars in JSON are inside strings |
| `DurableWrites.ScopesMergeIff` | business/durable_executor.py:57-59 | Some customers of two scopes share the hashed text if and only if one scope continues the other after a bar |
| `DurableWrites.DurableWriteExecutor.Execute` | business/durable_executor.py:74-111 | Submits exactly one delivery job for a successful write tool and nothing otherwise, and reports the owner of the key |
| `DurableWrites.OneJobPerWrite` | business/durable_executor.py:74-111 | Over tool calls interleaved with any worker steps: as many jobs as distinct keys of successful writes, and no key delivered twice |
| `VoiceSessions.TasksInvRun` | voice/runtime.py:712-856 | In every interleaving: the router's lock holder is exactly the task inside the router, it is never cancelled, and any other live uncancelled task is the newest |
| `VoiceSessions.RouterUndisturbed` | voice/runtime.py:808-856 | Neither a new turn nor a barge-in ever cancels a task inside the router, at most one is there, and at most two tasks are live and uncancelled |
| `VoiceSessions.BargeInStopsIff` | voice/runtime.py:733-744 | A barge-in leaves nothing going on outside the router if and only if the newest response has ended, is in the router, or is current while the phase is not inference |
| `VoiceSessions.BargeInSparesWaitingTurn` | voice/runtime.py:735-741 | A run in which a turn that waits behind a stale router request survives the barge-in |
| `VoiceSessions.BargeInCancelsLaterTurn` | voice/runtime.py:719-741 | A run in which a turn delivered while the clear of a barge-in waits for the wire is cancelled by that barge-in |
| `VoiceSessions.BargeInCancelsLaterIff` | voice/runtime.py:719-744 | A barge-in cancels a turn started after it if and only if that turn is current and unfinished and the phase is not inference |
| `VoiceSessions.WireRun` | voice/transport/websocket.py:184-234 | In every run the packets on the wire and in the send queue are in generation order |
| `VoiceSessions.AudioInOrder` | voice/transport/websocket.py:33-68 | Audio leaves in generation order, one response per generation, and after the clear of a barge-in only later generations follow |
| `VoiceSessions.NothingStaleIsSent` | voice/runtime.py:1471-1484 | From any state on, only packets of its generation or later join the wire: stale results are discarded |
| `VoiceSessions.AudioAccounted` | voice/transport/websocket.py:184-234 | Conservation over every run: the packets of a response on wire and queue are its non-empty chunks in its own generation, minus those of failed sends and those that waited when it ended |
| `VoiceSessions.WireGrows` | voice/transport/websocket.py:218-225 | The wire grows only by the packet that has waited longest |
| `VoiceSessions.OneChunkAtATime` | voice/transport/websocket.py:218-225 | In every run a response has at most one chunk waiting, and none unless it waits for its send |
| `VoiceSessions.EveryBargeInClears` | voice/runtime.py:719-731 | In every run without a failed send, each generation is that of a turn or its clear is out or waits |
| `VoiceSessions.ClearBeforeCancel` | voice/runtime.py:719-741 | A barge-in cancels the current response only when its clear is on the wire |
| `VoiceSessions.SupersededEnds` | voice/runtime.py:1268-1597 | A superseded response takes at most six more steps in any run and queues no further audio, even where nothing cancels it |
| `VoiceSessions.UndisturbedTurnIsSpoken` | voice/runtime.py:808-856 | From every state with free router and send lock a new turn can run so that exactly its chunks go out and the session is idle again |
| `VoiceSessions.EmptyAnswerIsSilent` | voice/runtime.py:1326-1456 | An empty answer of the router ends the turn without a packet |
| `VoiceSessions.LocalMessageIsSpoken` | voice/runtime.py:1471-1484 | Verification and duplicate messages are spoken without the router; after a verification the request is answered next |
| `VoiceSessions.SpeakerIsCancelled` | voice/runtime.py:733-744 | In every run a barge-in cancels the current response once it has its answer or speaks, even while a stale request is in the router |
| `VoiceSessions.VoiceSession.ScheduleResponse` | voice/runtime.py:808-856 | Cancels every unfinished task outside the router, starts the new generation and makes its task current |
| `VoiceSessions.VoiceSession.CancelBackground` | voice/runtime.py:817-828 | The loop cancels exactly the unfinished tasks outside the router |
| `VoiceSessions.VoiceSession.ConfirmBargeIn` | voice/runtime.py:719-731 | A new generation and a clear queued behind everything already waiting, in one step |
| `VoiceSessions.VoiceSession.CancelCurrent` | voice/runtime.py:733-744 | After the clear: cancels the current task unless the phase is inference, and forgets it |
| `VoiceSessions.VoiceSession.EnterInference` | voice/runtime.py:1205-1221 | Lock, set of router tasks, phase and program counter change together |
| `VoiceSessions.VoiceSession.LeaveInference` | voice/runtime.py:1254-1299 | Releases the lock; a stale result ends the task, a fresh one goes on to localization or a verification challenge |
| `VoiceSessions.VoiceSession.StartSpeaking` | voice/runtime.py:1455-1466 | An empty main answer ends the task, anything else starts speech |
| `VoiceSessions.VoiceSession.SpeakChunk` | voice/runtime.py:1471-1484 | A fresh task with a chunk appends exactly its packet to the send queue and waits for the send; a stale one ends and leaves no packet |
| `VoiceSessions.VoiceSession.FinishSpeaking` | voice/runtime.py:998-1019 | After playback a fresh system message returns the phase to idle; a stale task ends |
| `VoiceSessions.VoiceSession.SendNext` | voice/transport/websocket.py:184-234 | Exactly the head of the send queue is appended to the wire, or is lost with a failed send |
| `VoiceSessions.VoiceSession.Finally` | voice/runtime.py:1593-1604 | The finally block: phase and current task are given back only by their owner, with lock and queue place |
| `VoiceSessions.VoiceSession.Unwind` | voice/runtime.py:1585-1604 | A cancelled task runs the finally block, or nothing if it had not started |
| `VoiceSessions.VoiceSession.LeaveSendQueue` | voice/transport/websocket.py:218-225 | A task that ends leaves the send queue and nobody else's packet moves |
| `Playback.UntilIsBusiestTail` | voice/transport/websocket.py:33-52 | Playback ends exactly at the largest of all "arrival of a chunk plus the length of it and all later chunks" |
| `Playback.LengthIsBytes` | voice/transport/websocket.py:16-44 | However audio is cut into chunks, it plays one second per 44100 samples of four bytes |
| `Playback.UntilOneByOne` | voice/transport/websocket.py:33-52 | Enqueueing chunk by chunk gives the clock of the whole sequence |
| `Playback.BrowserAudioOutput.Enqueue` | voice/transport/websocket.py:33-56 | An empty chunk changes nothing; any other one advances the later of now and the clock by one second per 176400 bytes |
| `Playback.BrowserAudioOutput.Clear` | voice/transport/websocket.py:58-68 | Nothing plays from the clear on |
| `Playback.BrowserAudioOutput.WaitUntilDone` | voice/transport/websocket.py:70-87 | Never returns while audio plays, although other tasks move the clock while it sleeps; returns at once if nothing plays, and at the very end if nobody moves the clock and no sleep is late |
| `TurnManagement.TurnManager.SetConfig` | voice/turn_manager.py:70-88 | A new configuration restarts the silence timer only while it is running |
| `TurnManagement.TurnManager.OnSpeechStart` | voice/turn_manager.py:91-102 | Speech stops both timers |
| `TurnManagement.TurnManager.OnSpeechEnd` | voice/turn_manager.py:104-114 | Speech end starts the silence timer |
| `TurnManagement.TurnManager.OnPartialTranscript` | voice/turn_manager.py:116-137 | Non-empty text replaces the partial and, after the silence, restarts the settle timer |
| `TurnManagement.TurnManager.OnFinalTranscript` | voice/turn_manager.py:139-163 | Non-empty text is appended as one segment, clears the partial, and, after the silence, restarts the settle timer |
| `TurnManagement.TurnManager.EndpointAfterSilence` | voice/turn_manager.py:173-196 | The silence timer starts the settle timer unless speech is active |
| `TurnManagement.TurnManager.AsrSettled` | voice/turn_manager.py:212-234 | The settle timer delivers unless speech is active or it is stale |
| `TurnManagement.TurnManager.FinalizeTurn` | voice/turn_manager.py:274-303 | Delivers exactly one transcript, the segments and the pending partial of this turn, unless both are empty, and starts the next turn |
| `TurnManagement.TurnManager.ResetForNextTurn` | voice/turn_manager.py:305-318 | The next turn starts with no text and no timer |
| `TurnManagement.TranscriptIs` | voice/turn_manager.py:254-272 | A transcript is the segments joined by spaces and then the partial; the partial alone if it already starts with them; and empty only if there is no text at all |
| `TurnManagement.NoTextLost` | voice/turn_manager.py:116-318 | In every run the segments fed are those of the delivered turns, in order, followed by the pending ones; each delivered transcript is exactly its segments and the partial that was pending at its delivery; turn ids strictly increase |
| `Text.StripKeepsText` | voice/turn_manager.py:116-147 | Stripping removes whitespace at both ends and nothing else |
| `TurnManagement.BeginIsFine` | voice/turn_manager.py:34-54 | A new manager satisfies the invariants that the runs start from |
| `TurnManagement.NeverStuck` | voice/turn_manager.py:165-234 | While a turn waits for its end, exactly the timer it waits for is running and not stale |
| `TurnManagement.NoEarlyTurn` | voice/turn_manager.py:165-234 | If no speech end leaves a live settle timer that fires too soon, and the configuration changes only while no settle timer runs: no turn is delivered during speech, before silence plus settle time after the last speech end, or before the settle time after late text |
| `TurnManagement.AlternationIsHarmless` | voice/turn_manager.py:91-114 | Speech ends that alternate with speech starts, and all others while no settle timer runs, leave no such timer |
| `TurnManagement.EarlyTurnIff` | voice/turn_manager.py:104-234 | Some run after a speech end delivers too early if and only if a settle timer is running that is not stale and may fire before the bound |
| `TurnManagement.ExactlyOneTurn` | voice/turn_manager.py:104-318 | If nothing more happens after a speech end and there is text, exactly one turn is delivered at exactly that bound |
| `TurnManagement.DoubleEndDeliversEarly` | voice/turn_manager.py:104-114 | Such a speech end exists: one after the silence timeout and just before the settle time is over |
| `ObjectScanner.BalancedObjects` | integration/llm_router.py:882-946 | The scanning loop returns exactly what the character fold collects |
| `ObjectScanner.EveryTextParses` | integration/llm_router.py:882-946 | Every text is closed nodes followed by at most one piece that is never closed |
| `ObjectScanner.ScanIsGroups` | integration/llm_router.py:882-946 | On every text the results are its top-level brace groups, in order, hence disjoint and balanced outside strings |
| `ObjectScanner.WholeTextIff` | integration/llm_router.py:882-946 | A whole text is its own only result if and only if it is one brace group |
| `JsonText.ScanPrintedObjects` | integration/llm_router.py:882-946 | For every sequence of JSON objects, however written and whatever their strings contain, after gaps that close their strings and open no brace outside them, the scanner returns exactly the printed objects |
| `JsonText.ScanPrintedObjectsIff` | integration/llm_router.py:882-946 | With gaps without opening braces, the scanner returns exactly the printed objects if and only if every gap before an object closes its strings |
| `JsonText.ObjectIsQuoted` | integration/llm_router.py:882-946 | In every written object backslashes and bars are inside strings, and all strings are closed |
| `JsonText.QuoteInGapHidesObject` | integration/llm_router.py:894-915 | One stray quote between objects hides the object after it |
| `SpokenWords.Recognised` | voice/speech_normalizer.py:25-162 | Every table word is recognised as its own meaning, and no two words of either language are spelled alike |
| `NumberWords.WordsDenote` | voice/speech_normalizer.py:256-475 | For every integer, the meaning of its words is that integer |
| `SpokenAmounts.EnBelowThousand` | voice/speech_normalizer.py:256-299 | The English text below a thousand is the sentence of its words, no table index out of range, no empty word |
| `SpokenAmounts.HiBelowThousand` | voice/speech_normalizer.py:374-402 | The Hindi text below a thousand is the sentence of its words, no table index out of range, no empty word |
| `SpokenAmounts.IndianNumber` | voice/speech_normalizer.py:301-372 | The text of any integer is the sentence of its words; the crore recursion terminates |
| `SpokenAmounts.SpeakListen` | voice/speech_normalizer.py:301-475 | Splitting the spoken text at its spaces and listening gives the number back, in both languages |
| `SpokenAmounts.SpeechInjective` | voice/speech_normalizer.py:301-475 | No two integers are spoken alike, in one language or across both |
| `SpokenAmounts.AmountText` | voice/speech_normalizer.py:191-254 | Spoken rupees and paise together are the amount, to the hundredth |
| `SpokenAmounts.AmountWordsDenote` | voice/speech_normalizer.py:212-249 | The listener's reading of rupees and paise words is the amount in hundredths |
| `Evidence.MergeChunks` | rag/self_correcting.py:148-185 | The dictionary loop, stable sort and cut compute the merge of old and new chunks |
| `Evidence.MergedIsTop` | rag/self_correcting.py:148-185 | A merge is the best ten by the best score of each id, ties included |
| `Evidence.TiesKeepOrder` | rag/self_correcting.py:148-185 | Of equally good chunks of one id the first is kept, and of equally good ids the one that came first ranks first; with the best ten this determines the merge |
| `Evidence.KnownChunkStays` | rag/self_correcting.py:804-809 | A chunk kept from earlier rounds gives way only to a better one of its id |
| `Evidence.TopOfTop` | rag/self_correcting.py:804-809 | The best ten of the old ten and new chunks are the best ten of everything: what was cut cannot matter again |
| `Evidence.RoundsKeepTop` | rag/self_correcting.py:804-809 | After any number of rounds the evidence is the best ten of everything ever retrieved |
| `Evidence.TopIsUnique` | rag/self_correcting.py:148-185 | Without ties there is only one best ten |
| `Evidence.RoundsAreOneShot` | rag/self_correcting.py:804-809 | Without ties, merging round by round equals one merge of everything |
| `ActiveVersions.PreferActiveVersions` | rag/self_correcting.py:217-449 | The family loops keep exactly the chunks that may support the answer, and never empty the evidence |
| `ActiveVersions.Families` | rag/self_correcting.py:304-314 | The dictionary of families holds each family of the evidence, with its members in order |
| `ActiveVersions.PreferredKeeps` | rag/self_correcting.py:431-449 | With distinct ids, going through the kept ids is the order-preserving filter of the chunks to keep |
| `ActiveVersions.FamilySurvives` | rag/self_correcting.py:318-429 | Every family keeps a member, and an active family one that no active member is newer than |
| `ActiveVersions.LatestDocumentIsKept` | rag/self_correcting.py:318-429 | By effective date and version: the active members kept are those of one document, whose member no active member of the family has a later date than, nor the same date and a higher version |
| `ActiveVersions.RelevantIsSupported` | rag/self_correcting.py:187-214 | The answer uses the chunks of supporting documents and no others, or all chunks if there are none |
| `ActiveVersions.NeverEmpty` | rag/self_correcting.py:449 | The result is empty only for empty evidence: the fallback is never needed |
| `ActiveVersions.CurrentOnly` | rag/self_correcting.py:318-429 | No superseded chunk beside an active one, one active document per family, and nothing lost from families without an active member |
| `ActiveVersions.Idempotent` | rag/self_correcting.py:217-449 | Filtering twice changes nothing further |
| `ActiveVersions.AnswerEvidenceIsSound` | rag/self_correcting.py:1125-1137 | What an answer is generated from, after any rounds: at most ten distinct ids at their best scores, non-empty if anything was retrieved, one current version per policy |
| `RagControl.Answer` | rag/self_correcting.py:586-1287 | Every field of the report for every iteration limit and every sequence of verdicts, and the evidence it was generated from; answerable exactly if the last verdict is sufficient without an unresolved policy conflict, or is a conflict that was resolved; an unresolved conflict is reported and never answered |
| `RagControl.CorrectionLoop` | rag/self_correcting.py:743-1103 | The loop runs up to the first iteration that settles the matter or to the limit, and records one entry, one query and its path per iteration |
| `RagControl.Iterate` | rag/self_correcting.py:743-1103 | One iteration ends the loop or leaves it ready for the next, with trace, queries, actions and path extended |
| `RagControl.ResolveConflicts` | rag/self_correcting.py:852-997 | The verdict after conflict detection and resolution, and the actions recorded for it (in terms of the inputs: `RagControl.ReportMeans`, `RagControl.ActionsMean`) |
| `RagControl.Generate` | rag/self_correcting.py:1109-1201 | An answer is generated from the relevant evidence after the active-version filter |
| `RagControl.FullPathIff` | rag/state_machine.py:3-29 | The recorded path is unbroken from START to COMPLETE on edges of the graph if and only if at least one iteration ran |
| `RagControl.RecordedPath` | rag/self_correcting.py:1109-1287 | Full path if and only if the limit is positive; trace, queries and iterations agree and respect the limit; answerable exactly for SUFFICIENT |
| `RagControl.ReportMeans` | rag/self_correcting.py:852-1287 | In terms of the verdicts alone: when the loop ends, when the question is answered, and which verdict is told |
| `RagControl.TraceMeans` | rag/self_correcting.py:852-1103 | In terms of the verdicts alone: iteration, query, verdict and action of every trace entry, the last one included |
| `RagControl.ActionsMean` | rag/self_correcting.py:852-1103 | An abstention exactly if nothing is answered, and then last; a conflict resolution exactly if there was a conflict; a decomposition exactly if the question was decomposed |
| `RagControl.EarlyPath` | rag/self_correcting.py:635-730 | The clarification and out-of-scope exits record a full path and never an answer |
| `RagControl.StopsOnce` | rag/self_correcting.py:743-748 | The inputs determine the number of iterations |

## Left out

- SQLite, WAL mode, connections and thread-locals: each transaction is one atomic step, and a new uuid is distinct from the old ones.
- Job payloads, timestamps and details of events, `created_at` and `updated_at`: nothing modelled reads them.
- Handlers other than the five of the default registry, and two workers under one worker id: worker ids are distinct, as the default ids are.
- Atomicity of the append to the effect log: one append is one step, and a failed one appends nothing.
- `DurableWrites.KeyIff`: says nothing about colliding digests; SHA-256 and the JSON encoder are parameters, the encoder injective on canonical lists and with bars and backslashes only inside strings, as `JsonText.ObjectIsQuoted` proves of every written object.
- `DurableWrites.DurableWriteExecutor.Execute`: the inner executor is a success flag; its local business write and its result data are absent.
- `Draining.DrainBound`: counts claims of queued and retrying jobs; reclaims need expired leases, which the bound excludes and `Liveness.PollProgresses` includes.
- `WorkerLoop.Worker.RunForever`: the stop event is a bound on the number of polls, and the idle wait between polls takes no step.
- `WorkerLoop.Worker.RunOnce`: an exception of the store in `complete` is one before its commit.
- Speech recognition, synthesis, voice activity, localization, language choice, latency metrics: they answer arbitrarily at await points, or are absent.
- Messages to the browser other than audio and clear; stopping a session, its own clear and shutdown; disconnection beyond a lost send.
- `VoiceSessions.VoiceSession.SpeakChunk`: abstracts the bytes of audio; the playback clock is modelled on its own in `Playback`.
- The steps of a response that only move its program counter are steps of the transition relation without a method of their own.
- The barge-in candidate (onset, confirmation delay, expiry): a confirmed barge-in may happen at any time.
- A configuration change between the creation of a timer task and its first step, and exceptions of the turn callback.
- Decimal context limits in the amount printer, the money pattern, and the feminine Hindi verb forms.
- The uses of the scanner's results in the router's JSON extraction.
- `ActiveVersions.PreferActiveVersions`: whether a question is historical, family keys from titles and document ids, and status strings are inputs already decided.
- `Evidence.RoundsAreOneShot`: needs different chunks to have different scores; with ties, `Evidence.RoundsKeepTop` and `Evidence.KnownChunkStays` hold, but the order of equals may differ from that of one merge. Ranks and scores that are not numbers are not modelled.
- `RagControl.Answer`: latencies, confidences, reasons, citations and the generated text are absent; whether the question can contain a conflict is an input, and so are evaluation and conflict detection, one per iteration, because detection depends on the chunks alone.
- `RagControl.Generate`: the generated answer, its citations and the preferred document are absent; it gives the evidence the generator works on.
- Text normalisation by regular expressions, retrieval, embeddings, evaluation weights, business repositories, HTTP routes, the web client.
