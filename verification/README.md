# Proved behaviour of the recorder

FlyOnTheWall records meetings: it captures microphone and system audio, cancels
the echo on a worker thread, keeps crash-safe files, promotes them to a media
tree, plans retention, and scores transcripts and speaker turns. This project
models its hardest parts in Dafny and proves what they promise, for all inputs,
all runs and all interleavings.

Modules follow the program:

- `AudioBlocks`, `AecAdapter`, `AecAdapterRuns`, `AecAdapterPairs`,
  `AecAdapterTally`, `AecAdapterHealth`, `AecAdapterObject`: the echo adapter. The
  functions say what each call does. `Runs` proves what every run keeps of the
  published audio, `Pairs` which reference the backend hears with which
  microphone sample, `Tally` that counters and reasons are true, and `Health` what
  happens when nothing goes wrong. The object is the mutable adapter with its
  queues and work frames, proved to compute those functions.
- `AecOwner`, `AecOwnerObject`, `AecWorker`, `AecWorkerRuns`, `AecWorkerDeadline`,
  `AecWorkerAdmission`, `AecWorkerFence`: the owner and the worker thread around
  that adapter, as a transition system whose steps make one shared access each (a
  fallback that also gives up the sender makes two). Exactly-once delivery is
  stated per position, since audio published directly after the worker dies may
  overtake audio still held. `Deadline` proves when held audio is given up,
  `Admission` what becomes of every offer, finish and cancel, and `Fence` follows
  the fence past the end of its counter.
- `CaptureWatchdog`, `SupervisorHistory`, `CaptureSupervisor`: the stall watchdog
  and the recovery state machine, as objects with a ghost history.
- `Promotion`, `CivilDate`, `ReplaySamples`, `ReplayLog`: crash-safe files, one
  primitive disk operation per step, with a crash, a failure or a power cut
  between any two.
- `ClockMailbox`, `CaptureRing`: the lock-free timing mailbox, one atomic access
  per step, and the sample ring.
- `OpusTrack`, `OpusWriter`: re-blocking into Ogg Opus frames and pages and the
  two decoders (RFC 7845, sections 4, 4.2, 4.4 and 5.1).
- `Retention`: the retention planner.
- `EditDistance`, `Intervals`, `SpeakerMapping`, `Diarization`,
  `DiarizationSweep`, `DiarizationScore`, `DiarizationReport`: the scoring
  algorithms against definitions by edit script and by millisecond.

Outside parties are parameters: the echo backend is any deterministic function of
the calls made to it, which may fail; the Opus decoder is any function of the
packets so far; native audio calls return what the caller of a step says; time is
a natural number given to each call. `dafny verify dfyconfig.toml` checks all of it.

Four claims one might read into the code do not hold as first stated.

Promoting again after a crash does not always converge, although the promotion's
own comment says so. A session whose microphone was never recorded may have no
`mic.pcm`; its first encode creates `mic.opus` all the same, and a crash or an I/O
failure between that and the manifest's selection leaves a file that every later
encode refuses. A restart converges exactly when an archive is selected or both
PCM files are there, the microphone's being dispensable while no `mic.opus` stands
in its place (`Promotion.ResumeConverges`); otherwise no later step helps
(`BlockedForever`). Some run ends that way exactly for sessions that start with a
PCM file missing (`BlockableIff`), so for none of those the recorder itself writes.

A session is not always published under the last destination claimed for it. A
claim made after publication is recorded, but a restart finds the tracks verified
under the earlier destination and keeps them. The last claim is honoured exactly
unless the session already stood published whole under another destination
(`Promotion.PublishedWhereClaimed`; `LateClaimIsIgnored` is such a run).

A silence fault does not by itself mean that output was active at every poll of
its run: a starvation fault that nobody acted on stays inside the run. That can
happen exactly when the tap is configured to emit silence on an idle output and
its starvation timeout is not zero (`CaptureWatchdog.SilenceIsAlwaysCorroborated`);
`SilenceFaultIsUnbroken` says of a single history when it did. The supervisor acts
on every fault while it is running, so there it can happen only with a watch left
over from quarantine (`CaptureSupervisor.Supervisor.ActedOnIsCorroborated`);
`CaptureSupervisor.LeftoverRunCanSpan` is a history of such a watch in which it does.

And a fence is reused once the 64-bit counter has run out, although a comment in
the source rules that out: the fallback after the terminal zero stores one again.
A job or a result left in flight under the reused fence is then refused, exactly
under the conditions of `AecWorkerFence.JobRefusedIff` and `ResultRefusedIff`, and
there are runs in which that happens. The exactly-once theorem holds regardless.

## Model

| member | source | states |
|---|---|---|
| AecAdapterRuns.OutputsTileEveryEpoch | crates/fotw-pipeline/src/aec.rs:136-470 | After any sequence of calls on a new adapter the published blocks of every epoch lie end to end, without hole or overlap, from its origin to the queue (to its end once it is over); what is queued is exactly the unpublished microphone audio; raw blocks carry the originals, and with a pure-delay backend so do cleaned ones; the raw queue stays within delay plus wait and the reference queue within its limit. |
| AecAdapterRuns.StepKeeps | crates/fotw-pipeline/src/aec.rs:173-309 | Every call, accepted or refused, keeps that relation between the adapter and everything it was given, through failures, bypasses, resets and closing. |
| AecAdapterRuns.Run | crates/fotw-pipeline/src/aec.rs:136-309 | The relation holds of the state after any sequence of calls. |
| AecAdapterRuns.FinishDrainsItself | crates/fotw-pipeline/src/aec.rs:248-277 | With a backend that never fails, the padded flush empties the queue, so the final bypass of `finish` has nothing to publish. |
| AecAdapterRuns.FlushDrains | crates/fotw-pipeline/src/aec.rs:255-270 | Each flushed frame takes a frame off what is queued plus what is still backend latency; enough frames leave nothing. |
| AecAdapterRuns.PumpHoldsDelay | crates/fotw-pipeline/src/aec.rs:343-391 | Once all input is handed over, no more than the backend delay is still unpublished. |
| AecAdapterRuns.DelayedFrame | crates/fotw-pipeline/src/aec.rs:416-427 | A full frame through a pure delay comes out as the originals of the positions it is published over. |
| AecAdapterRuns.FrameTracks | crates/fotw-pipeline/src/aec.rs:343-391 | One pumped frame keeps outputs, queue and backend line in step with the microphone, including a failing call. |
| AecAdapterRuns.PumpTracks | crates/fotw-pipeline/src/aec.rs:343-391 | So does the whole pump loop, whether or not the stream is stopping. |
| AecAdapterRuns.FinishFaithful | crates/fotw-pipeline/src/aec.rs:248-277 | Finishing publishes the rest of the stream once and keeps every earlier block. |
| AecAdapterRuns.ResetFaithful | crates/fotw-pipeline/src/aec.rs:288-309 | A route reset completes the old epoch with its originals and starts the new one empty at its own clock. |
| AecAdapterPairs.FramesArePaired | crates/fotw-pipeline/src/aec.rs:173-309 | After any sequence of calls, every frame the backend was given holds, sample by sample, the microphone and the reference accepted for one and the same absolute position of one epoch, and silence on both sides past the end of a stopped microphone; frames follow each other without hole or repetition from one backend reset to the next, and while the stream is open the last one ends where the microphone is handed over up to. |
| AecAdapterPairs.FrameInPlace | crates/fotw-pipeline/src/aec.rs:343-391 | The frame the pump cuts out of its two queues is such a frame, at the position handed over up to. |
| AecAdapterPairs.PumpLoopSynced | crates/fotw-pipeline/src/aec.rs:343-391 | The whole pump loop, whether or not the stream is stopping, only adds such frames, whole ones while the stream goes on. |
| AecAdapterPairs.FlushFrameSynced | crates/fotw-pipeline/src/aec.rs:255-270 | So does each frame of zeros that flushes the delay. |
| AecAdapterPairs.StepPaired | crates/fotw-pipeline/src/aec.rs:173-309 | Every call, accepted or refused, keeps the frames paired and the queued reference at its own positions. |
| AecAdapterTally.CountersAndReasonsAreTrue | crates/fotw-pipeline/src/aec.rs:392-470 | After any sequence of calls, the counters are exactly the samples published cleaned, the samples published raw and the backend calls that failed; the backend is fenced exactly when its last call failed; and a block names a backend failure or a route reset only if the backend can fail or the route was reset. |
| AecAdapterTally.ReleasesTell | crates/fotw-pipeline/src/aec.rs:280-309 | What a failed call releases is published as a backend failure, what giving up a wait releases as missing reference, and what a new route releases as a route reset, each up to the end of the microphone. |
| AecAdapterTally.BypassTells | crates/fotw-pipeline/src/aec.rs:428-438 | A bypass publishes everything queued last, under the reason given. |
| AecAdapterTally.StepTally | crates/fotw-pipeline/src/aec.rs:173-309 | Every call keeps counters and reasons true. |
| AecAdapter.PushCaptureSplits | crates/fotw-pipeline/src/aec.rs:212-246 | Two pushes of microphone audio are one push of both blocks: both are accepted exactly when the one is, and they leave the same outputs, counters and state. |
| AecAdapter.Validate | crates/fotw-pipeline/src/aec.rs:328-342 | Input is accepted exactly when the stream is open, the epoch is current and the end stays within the 64-bit clock. |
| AecAdapter.PushRender | crates/fotw-pipeline/src/aec.rs:173-210 | Accepted exactly when valid and not behind the reference clock; the clock then stands at the end of the block and the queues stay settled. |
| AecAdapter.PushCapture | crates/fotw-pipeline/src/aec.rs:212-246 | Accepted exactly when valid and contiguous; the microphone clock advances by the block and the adapter is settled again. |
| AecAdapter.Pump | crates/fotw-pipeline/src/aec.rs:343-391 | Less than the maximum wait is left unsubmitted while running, less than a frame where the reference already passed, and nothing when stopping; input clocks are untouched. What it hands over is pinned by `AecAdapterPairs.PumpLoopSynced`, what it publishes by `AecAdapterRuns.PumpTracks`. |
| AecAdapter.Bypass | crates/fotw-pipeline/src/aec.rs:428-438 | The queue is emptied, the clocks agree, and the reference is left alone. |
| AecAdapter.EmitProcessed | crates/fotw-pipeline/src/aec.rs:416-427 | A processed frame pays latency first and publishes no more than is queued. |
| AecAdapter.FlushReferenceWait | crates/fotw-pipeline/src/aec.rs:280-284 | Giving up on the reference leaves the adapter settled with the same input, everything handed over and, if it had been waiting, nothing queued. |
| AecAdapter.Finish | crates/fotw-pipeline/src/aec.rs:248-277 | Everything accepted is published and the stream is closed. |
| AecAdapter.Reset | crates/fotw-pipeline/src/aec.rs:288-309 | Accepted exactly for a later epoch; all clocks then stand at the new start. |
| AecAdapterHealth.HealthyStreamIsCleaned | crates/fotw-pipeline/src/aec.rs:225-245 | While the reference keeps ahead and the backend answers, every whole frame is processed as soon as it is there, only processed audio is published, and it lags what was handed over by the delay alone. |
| AecAdapterHealth.FreshStreamIsCleaned | crates/fotw-pipeline/src/aec.rs:173-246 | A new stream whose reference arrives first is accepted, nothing of it is published raw, less than a frame is left waiting, and what is published ends exactly the delay behind. |
| AecAdapterHealth.PumpIsCleaned | crates/fotw-pipeline/src/aec.rs:343-391 | On that path the pump takes the frame that just became whole and leaves less than a frame waiting. |
| AecAdapterHealth.AdvanceIsCleaned | crates/fotw-pipeline/src/aec.rs:392-427 | A successful backend call publishes cleaned samples only, counts exactly those, and pays the latency it still owed. |
| AecAdapterHealth.ReferenceOnlyQueues | crates/fotw-pipeline/src/aec.rs:192-208 | With no microphone audio waiting, reference audio within the limit is only queued. |
| AecAdapterHealth.LateReferenceIsUsed | crates/fotw-pipeline/src/aec.rs:173-246 | A new stream whose microphone comes first, within the wait, is held until its reference arrives and is then published cleaned only, frame by whole frame, exactly the delay behind. |
| AecAdapterHealth.CaptureWaits | crates/fotw-pipeline/src/aec.rs:225-245 | Within the wait, microphone audio without its reference is only queued. |
| AecAdapterHealth.ReferenceIsUsed | crates/fotw-pipeline/src/aec.rs:192-208 | Each reference sample that completes a frame gets it processed; nothing is published raw. |
| AecAdapterHealth.PumpCatchesUp | crates/fotw-pipeline/src/aec.rs:343-391 | The pump takes the frame whose reference just became whole and waits for the next. |
| AecAdapterObject.FencedPushIsOneAppend | crates/fotw-pipeline/src/aec.rs:226-241 | With a fenced backend, copying the rest of a callback in one go equals pushing it sample by sample. |
| AecAdapterObject.EchoAdapter.constructor | crates/fotw-pipeline/src/aec.rs:136-171 | A new object is the new adapter of the specification. |
| AecAdapterObject.EchoAdapter.AppendBlock | crates/fotw-pipeline/src/aec.rs:450-470 | The caller's output list and the emitted clock change as appending specifies, merging with a contiguous block of the same kind. |
| AecAdapterObject.EchoAdapter.RestartBackend | crates/fotw-pipeline/src/aec.rs:443-449 | Backend history, failure flag and counters change as a backend reset specifies; nothing else does. |
| AecAdapterObject.EchoAdapter.BypassQueue | crates/fotw-pipeline/src/aec.rs:428-438 | Publishes the queue in place exactly as bypassing specifies. |
| AecAdapterObject.EchoAdapter.FillFrame | crates/fotw-pipeline/src/aec.rs:364-379 | The work frame holds the copied samples and zeros after them. |
| AecAdapterObject.EchoAdapter.ProcessFrames | crates/fotw-pipeline/src/aec.rs:392-415 | One backend call on the two work frames: the answer is in the processed frame, or the object is the fenced, bypassed one. |
| AecAdapterObject.EchoAdapter.EmitFrame | crates/fotw-pipeline/src/aec.rs:416-427 | Publishes the processed frame as specified. |
| AecAdapterObject.EchoAdapter.PumpQueues | crates/fotw-pipeline/src/aec.rs:343-391 | The pump loop over the mutable queues computes the specified pump, whose frames `AecAdapterPairs.FramesArePaired` pins and whose outputs `AecAdapterRuns.OutputsTileEveryEpoch` does. |
| AecAdapterObject.EchoAdapter.FeedBackend | crates/fotw-pipeline/src/aec.rs:364-389 | Both work frames are loaded from the queues at the position handed over up to, and one backend call on them is made and published as specified. |
| AecAdapterObject.EchoAdapter.PushRenderBlock | crates/fotw-pipeline/src/aec.rs:173-210 | Either refuses and changes nothing, or becomes exactly the specified adapter. |
| AecAdapterObject.EchoAdapter.EvictReference | crates/fotw-pipeline/src/aec.rs:199-204 | A full reference queue drops its oldest samples and moves its start with them. |
| AecAdapterObject.EchoAdapter.PushCaptureBlock | crates/fotw-pipeline/src/aec.rs:212-246 | Either refuses and changes nothing, or becomes exactly the specified adapter, for any callback size. |
| AecAdapterObject.EchoAdapter.CaptureSamples | crates/fotw-pipeline/src/aec.rs:225-245 | The per-sample loop, with its shortcut for a fenced backend, computes the specified pushes. |
| AecAdapterObject.EchoAdapter.FlushWait | crates/fotw-pipeline/src/aec.rs:280-284 | Flushes the wait in place as specified. |
| AecAdapterObject.EchoAdapter.FlushDelay | crates/fotw-pipeline/src/aec.rs:255-270 | The loop of zero frames computes the specified flush. |
| AecAdapterObject.EchoAdapter.FinishStream | crates/fotw-pipeline/src/aec.rs:248-277 | Finishes in place as specified. |
| AecAdapterObject.EchoAdapter.ResetStream | crates/fotw-pipeline/src/aec.rs:288-309 | Either refuses and changes nothing, or becomes exactly the specified reset adapter. |
| AecWorkerRuns.EveryAdmittedSampleOnce | crates/fotw-pipeline/src/aec_worker.rs:202-488 | In every interleaving of owner calls and worker steps, including timeouts, saturation, resets, cancellation, worker death and late results, each position has as many published plus held copies as it was admitted: one or none. `retained` is the number of unused held samples, and raw blocks carry the admitted samples. |
| AecWorkerRuns.PureDelayPublishesOriginals | crates/fotw-pipeline/src/aec_worker.rs:202-488 | With a pure-delay backend, everything published in every interleaving is the admitted audio, sample for sample. |
| AecWorkerRuns.NothingIsRefused | crates/fotw-pipeline/src/aec_worker.rs:296-467 | Unless the 64-bit fence ran out, the adapter never refused a job of the current fence and the owner never refused a current result. |
| AecWorkerDeadline.DeadlineIsKept | crates/fotw-pipeline/src/aec_worker.rs:281-320 | In every run, whatever the worker does meanwhile: when a call that polls is over, nothing held is as old as the deadline; the call publishes audio as given up at the deadline exactly when the oldest held was that old when it began, and then gives up everything held, whole and in order. |
| AecWorkerDeadline.CallsEnd | crates/fotw-pipeline/src/aec_worker.rs:202-353 | No call of the owner waits for the worker: it is over after at most twice the queue limit plus nine steps of its own, in every interleaving. |
| AecWorkerDeadline.OwnerProgresses | crates/fotw-pipeline/src/aec_worker.rs:202-353 | Each step of a call brings its end nearer. |
| AecWorkerDeadline.EveryRunIsOnTime | crates/fotw-pipeline/src/aec_worker.rs:281-320 | In every state of every run, held audio is in the order of its acceptance, none accepted in the future; past the deadline check of a call nothing held is overdue; and no adapter block names a reason that is the owner's. |
| AecWorkerDeadline.AcceptAllAges | crates/fotw-pipeline/src/aec_worker.rs:302-310 | Accepting results publishes adapter blocks only and leaves nothing older than before. |
| AecWorkerAdmission.QueuesAreBounded | crates/fotw-pipeline/src/aec_worker.rs:98-142 | In every run the held samples, the queued commands and the waiting results stay within their limits, and `retained` counts the samples held. |
| AecWorkerAdmission.OffersAreDealtWith | crates/fotw-pipeline/src/aec_worker.rs:154-278 | In every run an offer is taken whole or put off whole, put off only when it was empty or there was no room and it could wait; audio is published as crowded out only when there was no room and the offer could not wait. |
| AecWorkerAdmission.ClosedForGood | crates/fotw-pipeline/src/aec_worker.rs:202-353 | Once closed, nothing is ever admitted again and the route never changes. |
| AecWorkerAdmission.FinishIsAskedFor | crates/fotw-pipeline/src/aec_worker.rs:335-348 | A finish closes the stream and gives up the sender; if audio is still held, the fence has not run out and the worker goes on, the worker has been asked to finish or has finished. |
| AecWorkerAdmission.CancelReleases | crates/fotw-pipeline/src/aec_worker.rs:350-353 | A cancel publishes every original held, in order, whole and as cancelled, and closes the stream at once. |
| AecWorkerAdmission.DeathIsNoticed | crates/fotw-pipeline/src/aec_worker.rs:281-320 | A poll of a worker that has left its loop ends with nothing held and the sender given up. |
| AecWorkerFence.ResultRefusedIff | crates/fotw-pipeline/src/aec_worker.rs:296-311 | In every run, a result about to be received is refused exactly when the fence has run out and come round to the result's own. |
| AecWorkerFence.JobRefusedIff | crates/fotw-pipeline/src/aec_worker.rs:420-448 | In every run, a job in hand is refused exactly when the fence has run out and come round to the job's own, which the adapter still has, and the job does not start where the adapter's audio ends. |
| AecWorkerFence.ResultCanBeRefused | crates/fotw-pipeline/src/aec_worker.rs:355-377 | With any backend and limits there is such a run for a result: its fence is cancelled away 2^64 times and the owner, holding nothing, receives it as current. |
| AecWorkerFence.JobCanBeRefused | crates/fotw-pipeline/src/aec_worker.rs:355-377 | And one for a job: the first of two is skipped under another fence, then the counter comes round and the second does not continue what the adapter heard. |
| AecWorkerFence.EveryRunIsTidy | crates/fotw-pipeline/src/aec_worker.rs:202-488 | Even past that point jobs wait in fence order behind the worker's own, a finish request is last, no result is empty, and no reference runs ahead of the microphone. |
| AecWorkerRuns.ExecKeeps | crates/fotw-pipeline/src/aec_worker.rs:202-488 | Every step of either thread keeps the books balanced and the pipeline in order. |
| AecWorkerRuns.RunSystem | crates/fotw-pipeline/src/aec_worker.rs:98-488 | The invariant holds after any sequence of steps. What its steps do in time is pinned by `AecWorkerDeadline.DeadlineIsKept`, and what they do with offers by `AecWorkerAdmission.OffersAreDealtWith`. |
| AecWorkerRuns.RunJobAccepts | crates/fotw-pipeline/src/aec_worker.rs:432-447 | The adapter accepts any job that continues its fence at its end. |
| AecWorkerRuns.InputAccepted | crates/fotw-pipeline/src/aec_worker.rs:420-448 | A job taken under the current fence always continues what the adapter heard, after the reset a moved fence causes. |
| AecWorkerRuns.FallsBack | crates/fotw-pipeline/src/aec_worker.rs:355-377 | A fallback leaves nothing in flight for the new fence and keeps the invariant, whatever the worker is doing. |
| AecWorkerRuns.ReceiveResult | crates/fotw-pipeline/src/aec_worker.rs:296-319 | Receiving a result keeps the invariant: a current one is taken block by block, an older one is dropped. |
| AecWorkerRuns.StalePipe | crates/fotw-pipeline/src/aec_worker.rs:470-488 | Dropping a result the owner has fenced off loses nothing of the current fence. |
| AecWorkerRuns.ExitKeeps | crates/fotw-pipeline/src/aec_worker.rs:417-468 | When the worker leaves its loop, what it had already sent can still be received and the invariant stands. |
| AecOwner.BalancedMeans | crates/fotw-pipeline/src/aec_worker.rs:355-400 | Balanced books read position by position: published plus held copies are the copies owed, and `retained` counts the unused held samples. |
| AecOwner.FallbackBalances | crates/fotw-pipeline/src/aec_worker.rs:355-377 | Falling back publishes exactly what was held. |
| AecOwner.AcceptBalances | crates/fotw-pipeline/src/aec_worker.rs:378-400 | An accepted block replaces exactly the originals it covers, and the next position held is its end. |
| AecOwner.AcceptAllBalances | crates/fotw-pipeline/src/aec_worker.rs:302-310 | Blocks lying end to end from the front of what is held are all accepted. |
| AecOwner.AcceptSomeBalances | crates/fotw-pipeline/src/aec_worker.rs:302-310 | A refusal part way leaves the books balanced. |
| AecOwner.PassThroughBalances | crates/fotw-pipeline/src/aec_worker.rs:235-244 | Publishing new audio raw at once, ahead of what is held, still balances. |
| AecOwner.HoldBalances | crates/fotw-pipeline/src/aec_worker.rs:245-278 | Admitting audio into the held list adds exactly its positions. |
| AecOwner.RerouteBalances | crates/fotw-pipeline/src/aec_worker.rs:323-333 | A reset publishes what was held in the old epoch and starts the new one with nothing owed. |
| AecOwnerObject.Ledger.AcceptBlock | crates/fotw-pipeline/src/aec_worker.rs:378-400 | Accepts exactly the blocks that continue the oldest held sample and fit, consuming held entries in place as specified; otherwise changes nothing. |
| AecOwnerObject.Ledger.FallBack | crates/fotw-pipeline/src/aec_worker.rs:355-377 | Publishes every held original in order and moves the fence, as specified. |
| CaptureSupervisor.Supervisor.HistoryIsSafe | crates/fotw-audio/src/supervisor.rs:704-1388 | After any calls: opens and closes are orderly and none follows unreleased cleanup; attempts between budget renewals never exceed the maximum and keep the interval; every renewal has a sustained delivery of its own or a retry the user asked for; the events of the session tell exactly its gaps, which are ordered and disjoint and pad no more than elapsed time times rate; each announced delivery is one of the recorded ones, all of them ten seconds long. |
| CaptureSupervisor.Supervisor.EventsTell | crates/fotw-audio/src/supervisor.rs:1338-1371 | The gaps in the session's recovery events, in order, are the session's gaps, and deliveries are announced as often as recorded. |
| CaptureSupervisor.Supervisor.ActedOnIsCorroborated | crates/fotw-audio/src/supervisor.rs:1104-1149 | In every state a session can be in, a silence fault that a running session acts on had output active at every poll of its run, unless the watch was in force during quarantine: every earlier fault of such a watch was acted on. |
| CaptureSupervisor.LeftoverRunCanSpan | crates/fotw-audio/src/supervisor.rs:1092-1110 | A history a quarantined session can be released with: starvation on an idle output, then ten seconds of silent delivery, and the same run ends in a silence fault without output having been active throughout. |
| SupervisorHistory.AtMostOneTap | crates/fotw-audio/src/supervisor.rs:704-743 | In an orderly history at most one tap is held at any moment, and between two opens the first tap was closed or handed out. |
| SupervisorHistory.AttemptsFarApart | crates/fotw-audio/src/supervisor.rs:1373-1388 | Any two recovery attempts of a session, not only neighbours, are at least the minimum interval apart. |
| SupervisorHistory.PatientAppend | crates/fotw-audio/src/supervisor.rs:1299-1312 | What one more attempt or renewal does to the spent budget and the last attempt, keeping patience. |
| SupervisorHistory.InOrderApart | crates/fotw-audio/src/supervisor.rs:150-193 | Any two reported gaps are disjoint and in time order. |
| SupervisorHistory.PaddingBounded | crates/fotw-audio/src/supervisor.rs:174-193 | The frames padded for all gaps together never exceed the frames in the time they span. |
| SupervisorHistory.PaddedToTheFrame | crates/fotw-audio/src/supervisor.rs:174-193 | A gap nothing was written for is padded to the last whole frame of its time; one written as silence is not padded. |
| CaptureSupervisor.GapsExtend | crates/fotw-audio/src/supervisor.rs:1338-1347 | Reporting an outage's silence and hole when it ends keeps the gaps ordered, with the silence ending where the hole starts. |
| CaptureSupervisor.DeliveryGrows | crates/fotw-audio/src/supervisor.rs:1233-1248 | One more delivering poll extends the delivering run or starts one. |
| CaptureSupervisor.BackoffDoubles | crates/fotw-audio/src/supervisor.rs:1381-1388 | The first retry waits the base delay and each later one twice as long, up to the cap and for at most sixteen doublings. |
| CaptureSupervisor.BurstSettles | crates/fotw-audio/src/device_change.rs:282-315 | A burst of changes is settled exactly when its last signal is the quiet time ago or its first the ceiling; once cleared it never is. |
| CaptureSupervisor.Supervisor.constructor | crates/fotw-audio/src/supervisor.rs:645-683 | A new supervisor is stopped, with no history. |
| CaptureSupervisor.Supervisor.CallbackFails | crates/fotw-audio/src/supervisor.rs:531-553 | The first fault of the active tap is kept with its time; later or stale ones are ignored. |
| CaptureSupervisor.Supervisor.DeviceChanges | crates/fotw-audio/src/device_change.rs:221-226 | A notification adds its kind to what is pending and touches nothing else of the session. |
| CaptureSupervisor.Supervisor.RememberCleanup | crates/fotw-audio/src/supervisor.rs:713-719 | Unreleased cleanup blocks the session and is recorded; anything else leaves it open. |
| CaptureSupervisor.Supervisor.OpenTap | crates/fotw-audio/src/supervisor.rs:704-711 | Succeeds exactly when the tap opens and starts; a failed start leaves no tap held. |
| CaptureSupervisor.Supervisor.StopTap | crates/fotw-audio/src/supervisor.rs:730-743 | The tap is dropped whatever the stop reports; a stop that did not release everything blocks the session. |
| CaptureSupervisor.Supervisor.NextAttemptAt | crates/fotw-audio/src/supervisor.rs:1373-1377 | The next attempt is now, or exactly the interval after the last one where that is still to come. |
| CaptureSupervisor.Supervisor.AttemptRebuild | crates/fotw-audio/src/supervisor.rs:1299-1371 | One attempt is charged and exactly one event tells how it went. Success runs with the outage reported from its original start; failure keeps the outage as it was, is abandoned exactly when blocked or out of budget, and is otherwise due again after the longer of the back-off and the interval. |
| CaptureSupervisor.Supervisor.BeginRecovery | crates/fotw-audio/src/supervisor.rs:1251-1297 | Quarantined with the tap left in place exactly when the budget is spent; otherwise the outage with the given boundaries stands until its gaps are reported. It only waits exactly when the tap was released and the last attempt is too recent, and then until it no longer is; a tap that works is running again at once when the spacing allows. |
| CaptureSupervisor.Supervisor.Start | crates/fotw-audio/src/supervisor.rs:756-786 | Succeeds exactly when unblocked, stopped and the tap starts; a new session then has no attempts and no gaps. |
| CaptureSupervisor.Supervisor.StartRecovering | crates/fotw-audio/src/supervisor.rs:797-850 | Like starting, but a failed start becomes an outage from the start time with one attempt charged; a running session is left alone. |
| CaptureSupervisor.Supervisor.Stop | crates/fotw-audio/src/supervisor.rs:857-867 | Afterwards nothing is held and nothing is pending. |
| CaptureSupervisor.Supervisor.TakeRunningTap | crates/fotw-audio/src/supervisor.rs:885-895 | Hands out exactly the tap that was held, unstopped, and stops supervising. |
| CaptureSupervisor.Supervisor.RequestRetry | crates/fotw-audio/src/supervisor.rs:975-983 | Taken exactly when unblocked and abandoned or quarantined, and counted. |
| CaptureSupervisor.Supervisor.ObserveDelivery | crates/fotw-audio/src/supervisor.rs:1233-1248 | Reports stable delivery exactly after ten seconds of consecutive, close, fault-free polls with strictly advancing frames and buffers and something audible since arming. |
| CaptureSupervisor.Supervisor.EarnBudget | crates/fotw-audio/src/supervisor.rs:1085-1102 | Records the delivery, renews the budget in its name, leaves quarantine, and announces it exactly when there had been trouble not yet announced. |
| CaptureSupervisor.Supervisor.HandleFault | crates/fotw-audio/src/supervisor.rs:1104-1149 | A quarantined session changes nothing; a running one tells the fault and counts it, is quarantined exactly when rebuilding was ineffective too often or the budget is spent, and otherwise leaves the tap for the outage with the gap boundaries of this fault. |
| CaptureSupervisor.Supervisor.HandleCallbackFault | crates/fotw-audio/src/supervisor.rs:1068-1083 | A fault of the callback: a running session is quarantined exactly when the budget is spent, and otherwise leaves the tap for an outage from the time of the fault. |
| CaptureSupervisor.Supervisor.HandleChange | crates/fotw-audio/src/supervisor.rs:1151-1203 | A settled change is always told; it rebuilds a running tap exactly when the policy asks for it and the last rebuild is at least the interval ago, for an outage from now, quarantined instead exactly when the budget is spent; otherwise it only restarts the watch, or in quarantine nothing. |
| CaptureSupervisor.Supervisor.PollWatching | crates/fotw-audio/src/supervisor.rs:1068-1227 | What a poll of a live tap must lead to, by what it finds: a callback fault, else a fault the watchdog's whole history calls for, is answered by quarantine exactly when the budget is spent (or rebuilding was ineffective too often) and otherwise by the outage with that fault's boundaries; else ten seconds of delivery by this poll renew the budget and end quarantine; then a settled change is told and answered by a rebuild as its policy says; else the mode stays and the outcome is the quiet notice or fine. |
| CaptureSupervisor.Supervisor.WatchOnce | crates/fotw-audio/src/supervisor.rs:1085-1102 | One watchdog poll: the verdict is the history's; exactly ten seconds of delivery by this poll renew the budget and end quarantine, and a faulted poll changes nothing else. |
| CaptureSupervisor.Supervisor.Conclude | crates/fotw-audio/src/supervisor.rs:1151-1226 | Without a fault, a change is answered exactly when the burst has settled; otherwise nothing but the notice and the outcome follows. |
| CaptureSupervisor.Supervisor.Report | crates/fotw-audio/src/supervisor.rs:1209-1226 | The quiet notice is given once per quiet spell. |
| CaptureSupervisor.Supervisor.NoteChanges | crates/fotw-audio/src/supervisor.rs:1022-1034 | Pending changes accumulate and only the listed kinds arm the debounce. |
| CaptureSupervisor.Supervisor.PollOutage | crates/fotw-audio/src/supervisor.rs:1036-1056 | An abandoned outage only waits; before it is due nothing happens; when due, exactly one attempt is made and ends as an attempt does, keeping the outage or reporting its gaps from its original start. |
| CaptureSupervisor.Supervisor.TakeRetry | crates/fotw-audio/src/supervisor.rs:998-1020 | A retry renews the budget but not the spacing: an abandoned session resumes the same outage, due at the next allowed moment, and a quarantined one rebuilds its tap at once, from the callback's fault if it had one. |
| CaptureSupervisor.Supervisor.RebuildQuarantined | crates/fotw-audio/src/supervisor.rs:998-1020 | The tap left running is given up for an outage from its callback's fault, or from now, and recovered from as any other. |
| CaptureSupervisor.Supervisor.PollOn | crates/fotw-audio/src/supervisor.rs:1022-1066 | After a retry is out of the way: a live tap is answered for as its poll finds, with the pending changes noted first; an outage is attempted exactly when due. |
| CaptureSupervisor.Supervisor.PollSession | crates/fotw-audio/src/supervisor.rs:990-1066 | Whatever one poll does: a stopped session stays stopped, a blocked one touches no tap; a running or quarantined one without a retry answers a callback fault, a watchdog fault, ten seconds of delivery and a settled change as `PollWatching` states; a retry rebuilds a quarantined tap or resumes an abandoned outage; an outage keeps its start until it is reported whole and is attempted exactly when due; delivery is announced at most once, only on a poll that completed ten seconds of it. |
| CaptureWatchdog.SilenceFaultIff | crates/fotw-audio/src/watchdog.rs:452-540 | A silence fault is reported exactly when the tap is not starving and a corroborated quiet run spans the timeout. |
| CaptureWatchdog.StarvationIff | crates/fotw-audio/src/watchdog.rs:452-559 | Starvation is reported exactly when the counters did not just go backwards and the tap is dead: no frames for the timeout since they last moved or since arming, on an output that is active or a tap that emits silence when idle. Its loss starts where the counters last moved, or at the arm, and lasts until now. |
| CaptureWatchdog.StarvedIff | crates/fotw-audio/src/watchdog.rs:544-559 | The same of any earlier poll of the history. |
| CaptureWatchdog.QuietNoticeIff | crates/fotw-audio/src/watchdog.rs:452-540 | The quiet notice is given exactly, on a first poll made the starvation timeout after arming, for a tap that does not emit silence when idle on an output that is not active, and later when there is no fault and a run without audible buffers is long enough; its duration is that run's. |
| CaptureWatchdog.SilenceFaultIsUnbroken | crates/fotw-audio/src/watchdog.rs:482-534 | A silence fault starts where the last audible buffer ended and its corroborated run spans the timeout; output was active throughout that run exactly when every starvation fault reported during it had found output active. |
| CaptureWatchdog.SilenceIsAlwaysCorroborated | crates/fotw-audio/src/watchdog.rs:503-559 | Over all histories, output was active throughout every silence fault's run if and only if the tap is configured not to emit silence when idle, or its starvation timeout is zero. |
| CaptureWatchdog.RunCanSpanAStarvationFault | crates/fotw-audio/src/watchdog.rs:503-534 | For every other configuration, a history whose run has output idle at a starved poll and still ends in a silence fault. |
| CaptureWatchdog.SilenceFaultRuns | crates/fotw-audio/src/watchdog.rs:482-534 | The two runs behind a silence fault, with its reported start and duration. |
| CaptureWatchdog.QuietFromMeans | crates/fotw-audio/src/watchdog.rs:486-501 | The quiet clock is the earliest start of a run without audible buffers. |
| CaptureWatchdog.CorroboratedFromMeans | crates/fotw-audio/src/watchdog.rs:509-533 | The corroboration clock is the earliest start of a corroborated run. |
| CaptureWatchdog.FaultStart | crates/fotw-audio/src/watchdog.rs:544-559 | Lost audio starts after arming and no later than now; a starved tap delivered nothing since, for at least the timeout. |
| CaptureWatchdog.Watchdog.constructor | crates/fotw-audio/src/watchdog.rs:403-414 | A new watchdog has seen nothing. |
| CaptureWatchdog.Watchdog.Arm | crates/fotw-audio/src/watchdog.rs:421-429 | Forgets every earlier poll and starts at this moment. |
| CaptureWatchdog.Watchdog.StarvationVerdict | crates/fotw-audio/src/watchdog.rs:544-559 | The verdict is the one the frames of the whole history call for, which `StarvedIff` pins from the polls alone; a fault says that nothing was delivered since its start, for at least the timeout. |
| CaptureWatchdog.Watchdog.Judge | crates/fotw-audio/src/watchdog.rs:503-540 | The incremental clocks give the verdict the whole history calls for. |
| CaptureWatchdog.Watchdog.PollOnce | crates/fotw-audio/src/watchdog.rs:452-540 | The verdict is the one defined over the whole poll history, which grows by exactly this poll; `StarvationIff`, `SilenceFaultIff` and `QuietNoticeIff` say from the polls alone when it is which. Audibility since arming is tracked. |
| Promotion.NothingIsLost | crates/fotw-pipeline/src/promote.rs:242-459 | After any steps, with a crash, an I/O failure or a power cut between any two, every recorded leg has a complete copy, a final media name never holds an incomplete track, and a session is put aside only once both tracks are published whole. |
| Promotion.ResumeConverges | crates/fotw-pipeline/src/promote.rs:426-523 | After a crash, a power cut or an I/O failure at any point, one undisturbed restart publishes a claimed session, both tracks whole and the manifest stamped, exactly when an archive is selected or the inputs of one are there (`system.pcm`, and `mic.pcm` or no `mic.opus`); it removes the session exactly when, besides, the transcription guard grants it, and otherwise keeps it in place. The destination it stands under is the one already stamped where that is published whole, and otherwise the one claimed. One already put aside is always removed, published; an unclaimed one, and one whose inputs are missing, is left exactly as it is. |
| Promotion.BlockedForever | crates/fotw-pipeline/src/wal.rs:783-800 | Once a session is idle without a selected archive and without the inputs of one, no sequence of claims, promotions, encodes, crashes or restarts publishes or removes it. |
| Promotion.CrashCanBlock | crates/fotw-pipeline/src/wal.rs:825-829 | A run that gets there: recorded without microphone and without `mic.pcm`, claimed, promoted, and cut short by a crash just after the first encode created `mic.opus`. |
| Promotion.BlockableIff | crates/fotw-pipeline/src/wal.rs:759-803 | Some run ends blocked if and only if one of the two PCM files is missing from the start. |
| Promotion.BothFilesNeverBlock | crates/fotw-pipeline/src/wal.rs:783-800 | A session that starts with both PCM files, as every one the recorder writes, can be archived after any steps. |
| Promotion.DriveConverges | crates/fotw-pipeline/src/promote.rs:268-466 | Running a promotion to its end from any intermediate state ends with both tracks published whole, the manifest stamped with the destination being promoted to, the claim untouched and the invariant kept; the session is gone exactly when the transcription guard grants it or had granted it already, and is otherwise still in place. |
| Promotion.PublishedWhereClaimed | crates/fotw-pipeline/src/promote.rs:435-459 | What a restart after a crash, a power cut or a failure publishes stands under the last destination claimed if and only if the session was not already published whole under another one. |
| Promotion.LateClaimIsIgnored | crates/fotw-pipeline/src/promote.rs:242-258 | The run in which it does not: promoted under one destination, then claimed under another; the claim is recorded and a restart keeps the first. |
| Promotion.ClaimIsLast | crates/fotw-pipeline/src/promote.rs:242-258 | After any steps the manifest holds the last destination claimed while the session was there to be claimed. |
| Promotion.DriveRuns | crates/fotw-pipeline/src/promote.rs:268-466 | A promotion driven to its end is itself a run, so everything proved of runs holds of it. |
| Promotion.EncodeSelects | crates/fotw-pipeline/src/wal.rs:755-893 | Encoding again selects a new pair of whole archives under names the manifest did not use, exactly when the inputs are there, and leaves the rest alone. |
| Promotion.DiscardFrees | crates/fotw-pipeline/src/wal.rs:897-930 | Raw audio is discarded, both files of it, exactly when both selected archives are whole; nothing else is touched. |
| Promotion.StepKeeps | crates/fotw-pipeline/src/promote.rs:242-459 | Every primitive step keeps the invariant. |
| Promotion.Run | crates/fotw-pipeline/src/promote.rs:242-459 | The invariant holds after any steps. |
| Promotion.EncodeKeeps | crates/fotw-pipeline/src/wal.rs:755-893 | Encoding into names the manifest does not select, then switching the manifest, keeps every copy. |
| Promotion.WriteArchiveKeeps | crates/fotw-pipeline/src/wal.rs:867-893 | Writing an archive under an unselected name disturbs nothing selected. |
| Promotion.PublishKeeps | crates/fotw-pipeline/src/promote.rs:293-335 | Copying to a part name, syncing and renaming keeps every final name complete. |
| Promotion.TrackKeeps | crates/fotw-pipeline/src/promote.rs:548-594 | So does each primitive step of one track. |
| Promotion.PowerCutKeeps | crates/fotw-pipeline/src/promote.rs:582-594 | Losing everything unsynced loses no selected archive and no final track. |
| Promotion.InvKeepsCopies | crates/fotw-pipeline/src/promote.rs:598-667 | The invariant means a complete copy of every leg and only complete final files. |
| CivilDate.AlwaysADate | crates/fotw-pipeline/src/promote.rs:723-736 | Every integer day number gives a valid proleptic Gregorian date. |
| CivilDate.Successor | crates/fotw-pipeline/src/promote.rs:723-736 | The date of day n + 1 is the calendar successor of the date of day n, for every integer n. |
| CivilDate.Epoch | crates/fotw-pipeline/src/promote.rs:723-736 | Day 0 is 1970-01-01. |
| CivilDate.ClosedFormCounts | crates/fotw-pipeline/src/promote.rs:723-736 | The closed form equals counting days forward from the epoch. |
| CivilDate.EarlierDaysReachTheEpoch | crates/fotw-pipeline/src/promote.rs:723-736 | Counting n days forward from the date of day -n reaches the epoch. |
| CivilDate.YearOfEraBounds | crates/fotw-pipeline/src/promote.rs:728-729 | The year-of-era formula names the year that holds the day. |
| CivilDate.YearIsUnique | crates/fotw-pipeline/src/promote.rs:728-729 | No other year of the era holds it. |
| CivilDate.MonthOf | crates/fotw-pipeline/src/promote.rs:731-732 | The month formula names the March-based month that holds the day of the year. |
| ReplayLog.CompleteSamplesStay | crates/fotw-pipeline/src/replay.rs:592-829 | However long a run goes on without a crash, no operation or failed write rewrites or removes a complete sample. |
| ReplayLog.SyncedSamplesStay | crates/fotw-pipeline/src/replay.rs:592-1001 | A synced sample is there for good: no operation, failed write or crash, in any number and order, loses or changes it. |
| ReplayLog.BytesStay | crates/fotw-pipeline/src/replay.rs:592-829 | Every byte of a complete sample stays where it is. |
| ReplayLog.ResumeAfterTear | crates/fotw-pipeline/src/replay.rs:592-637 | After a tear at any byte past the last sync, resuming yields exactly the complete samples left, aligned and writable at their end, and every synced sample is among them. |
| ReplayLog.SealedInputIsFrozen | crates/fotw-pipeline/src/replay.rs:742-752 | Once sealed, the audio and its sealed end never change, whatever follows. |
| ReplayLog.RetirementIsCurrent | crates/fotw-pipeline/src/replay.rs:1074-1116 | A stream that may retire has completion and projection proofs made about exactly the bytes it holds now, all of them synced. |
| ReplayLog.RetirementGuard | crates/fotw-pipeline/src/replay.rs:443-473 | Granted exactly when every leg is retirable; an error exactly when the first leg that is not is contradictory, or a lease or a file of it fails otherwise than by being held; otherwise not now. |
| ReplayLog.AppendAddsItsSamples | crates/fotw-pipeline/src/replay.rs:682-726 | A completed append adds exactly its samples, advances the end, and invalidates both proofs. |
| ReplayLog.ReadFrom | crates/fotw-pipeline/src/replay.rs:1159-1182 | Succeeds exactly for a valid size and a position inside the stream, and returns the samples of those absolute positions. |
| ReplayLog.StepKeeps | crates/fotw-pipeline/src/replay.rs:592-1001 | Every step, including a torn write and a crash, keeps the invariant. |
| ReplayLog.Run | crates/fotw-pipeline/src/replay.rs:592-1001 | The invariant holds after any steps. |
| ReplayLog.FinishMarkKeeps | crates/fotw-pipeline/src/replay.rs:934-1001 | A proof, once written, is about a synced prefix however far the stream grew meanwhile. |
| ReplayLog.RestoreKeeps | crates/fotw-pipeline/src/replay.rs:764-829 | Restoring a reconstructed suffix keeps the invariant, whatever the candidate. |
| ReplayLog.RestoreAppendsTheSuffix | crates/fotw-pipeline/src/replay.rs:764-829 | A candidate that does not begin with the samples there changes nothing; otherwise, cut short at any byte or not, a restore leaves a prefix of the candidate no shorter than before, and one undisturbed round adds exactly the next batch. |
| ReplayLog.RestoreCompletes | crates/fotw-pipeline/src/replay.rs:799-829 | Enough undisturbed rounds make the stream exactly the candidate. |
| ReplayLog.SyncIsDurable | crates/fotw-pipeline/src/replay.rs:730-740 | After a sync no crash loses anything. |
| ReplayLog.SealCloses | crates/fotw-pipeline/src/replay.rs:742-752 | A seal makes what is there durable and every later append is refused. |
| ReplayLog.RetirementIsReachable | crates/fotw-pipeline/src/replay.rs:934-1001 | A stream of whole samples nobody writes or proves can always be proved complete and then projected, and may then retire; without a projection it never may. |
| ReplayLog.OwnedStreamCanRetire | crates/fotw-pipeline/src/replay.rs:934-1001 | So may one its writer has let go. |
| ReplaySamples.BytesRoundTrip | crates/fotw-pipeline/src/replay.rs:716-718 | Two little-endian bytes give back the sample they were made from. |
| ReplaySamples.AppendSamples | crates/fotw-pipeline/src/replay.rs:682-726 | Appending encoded samples to whole ones appends those samples. |
| ReplaySamples.TrimKeepsSamples | crates/fotw-pipeline/src/replay.rs:612-624 | Cutting a trailing half-sample drops no sample. |
| ClockMailbox.ReadsAreWholeAndMonotone | crates/fotw-pipeline/src/ring.rs:52-99 | Under every interleaving of the writer's stores and any readers' loads, each value a reader takes is a publication already closed, whole, and its sequence never goes backwards. |
| ClockMailbox.UndisturbedReadTakesTheNewest | crates/fotw-pipeline/src/ring.rs:77-99 | An attempt no publication disturbs takes exactly the newest publication; one made during a publication is put off. |
| ClockMailbox.StepKeeps | crates/fotw-pipeline/src/ring.rs:59-99 | Every single atomic access keeps the invariant. |
| ClockMailbox.LoadKeeps | crates/fotw-pipeline/src/ring.rs:77-99 | Words loaded while the version stands still are those of the publication it names. |
| ClockMailbox.Run | crates/fotw-pipeline/src/ring.rs:52-99 | The invariant holds after any interleaving. |
| CaptureRing.Ring.PushBlock | crates/fotw-pipeline/src/ring.rs:147-159 | Takes the longest prefix that fits and counts the rest as dropped. |
| CaptureRing.Ring.PushCompleteBlock | crates/fotw-pipeline/src/ring.rs:168-175 | Admits the whole callback or none of it; accepted plus dropped is offered. |
| CaptureRing.Ring.PushCaptureBlock | crates/fotw-pipeline/src/ring.rs:181-210 | Admits whole callbacks and publishes, for each non-empty one, the next sequence number with the position of its first sample and its fault count. |
| CaptureRing.Ring.PopInto | crates/fotw-pipeline/src/ring.rs:253-256 | Drains in the order accepted, without loss or repetition. |
| OpusWriter.FinishedTrackLength | crates/fotw-pipeline/src/opus.rs:446-473 | A finished track decoded at its own rate has exactly as many samples as went in. |
| OpusWriter.TornTrackLength | crates/fotw-pipeline/src/opus.rs:712-833 | A track torn after any number of whole pages plays everything those pages hold, less the decoder delay. |
| OpusWriter.LayoutIsUnique | crates/fotw-pipeline/src/opus.rs:411-512 | Pages, open packets and remainder depend only on the samples: any split into pushes gives the same layout. |
| OpusWriter.TakeFrameLaid | crates/fotw-pipeline/src/opus.rs:520-563 | Encoding a frame keeps the layout: frames are consecutive blocks of the input, pages are full, and granules count 48 kHz ticks. |
| OpusWriter.ClosingPage | crates/fotw-pipeline/src/opus.rs:446-473 | The last frame on a page with the true final granule completes the track, with granules never decreasing. |
| OpusWriter.TailFrames | crates/fotw-pipeline/src/opus.rs:446-473 | The fewest frames, at least one, that carry the tail and the decoder delay. |
| OpusWriter.OpusOggWriter.constructor | crates/fotw-pipeline/src/opus.rs:278-384 | A new writer holds nothing. |
| OpusWriter.OpusOggWriter.Push | crates/fotw-pipeline/src/opus.rs:411-415 | Appends to the input, leaves less than a frame pending and less than a page unflushed. |
| OpusWriter.OpusOggWriter.EncodeFrame | crates/fotw-pipeline/src/opus.rs:520-563 | Moves one frame from the pending samples to the open page and keeps the layout. |
| OpusWriter.OpusOggWriter.Finish | crates/fotw-pipeline/src/opus.rs:446-473 | Closes a complete track of exactly the input. |
| OpusWriter.OpusOggWriter.OpenIsPartial | crates/fotw-pipeline/src/opus.rs:520-563 | Less than one page of frames is ever unflushed. |
| OpusTrack.DecodeTrack | crates/fotw-pipeline/src/opus.rs:712-833 | The whole-file decoder returns the track's playback: decoded packets less the pre-skip, cut at the final granule. |
| OpusTrack.StreamReader.constructor | crates/fotw-pipeline/src/opus.rs:885-936 | A new reader stands at the start of the same playback. |
| OpusTrack.StreamReader.DecodePacket | crates/fotw-pipeline/src/opus.rs:971-1000 | Decodes one packet past the pre-skip, and stops at the end of the stream. |
| OpusTrack.StreamReader.ReadInto | crates/fotw-pipeline/src/opus.rs:950-968 | Reads of any sizes return consecutive pieces of the whole-file playback of any track, and a short read means the end. |
| Retention.PlanSweep | crates/fotw-pipeline/src/retention.rs:410-514 | The plan is the policy evictions, then an oldest-first prefix of the candidates that ends as soon as the rest fits or runs out, with the bytes and warnings that follow; `WindowsAreKept` says whom that concerns. |
| Retention.WindowsAreKept | crates/fotw-pipeline/src/retention.rs:224-240 | About any plan: every eviction is of a transcribed meeting whose own number of days since its transcript was ready is over (the library's for the default, none for one kept until transcribed), under that reason, or, inside its window, for the budget; and every meeting with audio whose window is over is evicted for that. |
| Retention.DueIff | crates/fotw-pipeline/src/retention.rs:224-240 | A meeting is due exactly when it has audio and its window, counted in milliseconds of its days, is over. |
| Retention.ProtectedAudioStays | crates/fotw-pipeline/src/retention.rs:252-263 | Every eviction is of a meeting of the library that is transcribed and not kept forever, with its own bytes and files. |
| Retention.BudgetPrefixIsMinimal | crates/fotw-pipeline/src/retention.rs:451-478 | Budget evictions are the oldest candidates by start, then id, and any shorter prefix would leave the library over budget. |
| Retention.OverBudgetIsProtected | crates/fotw-pipeline/src/retention.rs:480-510 | A library still over budget holds only forever and untranscribed audio, to the byte, and the warnings are exactly those for the kinds that remain, with the excess and their bytes. |
| Retention.BytesPartition | crates/fotw-pipeline/src/retention.rs:421-478 | Every byte is due, evictable, kept forever or not yet transcribed. |
| Retention.SurvivorsFit | crates/fotw-pipeline/src/retention.rs:410-514 | Carrying out a plan leaves nothing due and no more than it promised; with unique ids, exactly what it promised. |
| Retention.ReplanEvictsNothing | crates/fotw-pipeline/src/retention.rs:410-514 | Planning the survivors at the same instant evicts nothing, and with unique ids comes to the same total and the same warnings. |
| Retention.PolicyPass | crates/fotw-pipeline/src/retention.rs:421-449 | Exactly the due meetings are evicted, in library order, with their reasons; `DueIff` says which those are. |
| Retention.BudgetPass | crates/fotw-pipeline/src/retention.rs:451-478 | The loop stops at the first prefix after which the rest fits. |
| Retention.Protected | crates/fotw-pipeline/src/retention.rs:485-497 | Totals the forever and untranscribed bytes among the survivors. |
| Retention.ByAgeOrdered | crates/fotw-pipeline/src/retention.rs:457-464 | Candidates are ordered by start, then id. |
| EditDistance.EditCounts | tools/speech-eval/speech_eval.py:24-48 | Refused exactly past the work limit; otherwise the errors are the least cost of any edit script, the counts come from one real script, and matches, substitutions, deletions and insertions account for every word. |
| EditDistance.Align | tools/speech-eval/speech_eval.py:29-43 | Two rows suffice: the last cell is best for the whole inputs. |
| EditDistance.NextRow | tools/speech-eval/speech_eval.py:30-42 | Each new row is best for one more reference word. |
| EditDistance.ExtendLeast | tools/speech-eval/speech_eval.py:33-41 | A cell no dearer than its three neighbours allow is least over all scripts. |
| EditDistance.CountsAddUp | tools/speech-eval/speech_eval.py:43-48 | In every script the counts add up to both lengths. |
| EditDistance.Cheapest | tools/speech-eval/speech_eval.py:40-41 | Ties go to the diagonal, then to the deletion. |
| SpeakerMapping.OptimalMapping | tools/speech-eval/meeting_score.py:143-168 | Refused exactly with more than sixteen speakers on both sides; otherwise one-to-one, and no one-to-one mapping has more total overlap. |
| SpeakerMapping.BestEntry | tools/speech-eval/meeting_score.py:151-166 | After all passes the best table entry is a real mapping that beats every other. |
| SpeakerMapping.Pass | tools/speech-eval/meeting_score.py:152-165 | One pass keeps the table sound and complete for one more speaker of the larger side. |
| SpeakerMapping.CompleteStep | tools/speech-eval/meeting_score.py:152-165 | Every mapping using the new speaker is matched by an offered entry under the same mask. |
| SpeakerMapping.BeatsWith | tools/speech-eval/meeting_score.py:154-164 | A mapping that uses the new speaker extends one that does not. |
| Intervals.Union | tools/speech-eval/meeting_score.py:94-103 | Separated, ordered spans covering exactly what the input covers. |
| Intervals.Subtract | tools/speech-eval/meeting_score.py:106-119 | Covers exactly what the base covers and the holes do not, staying separated. |
| Intervals.Clip | tools/speech-eval/meeting_score.py:134-140 | Covers exactly what lies in the window. |
| Intervals.EndpointsAreChanges | tools/speech-eval/meeting_score.py:94-103 | Separated spans start and end exactly where coverage changes. |
| DiarizationSweep.BySpeaker | tools/speech-eval/meeting_score.py:122-131 | Refused exactly when some segment is malformed; otherwise the tracks are on exactly when the segments say so. |
| DiarizationSweep.ClipTracks | tools/speech-eval/meeting_score.py:134-140 | Tracks cut to the window, with silent speakers dropped. |
| DiarizationSweep.Collars | tools/speech-eval/meeting_score.py:200-205 | Covers exactly the times near a merged turn's ends. |
| DiarizationSweep.NearTurnIsCollar | tools/speech-eval/meeting_score.py:200-205 | That is exactly near a change of who speaks in the reference. |
| DiarizationSweep.ScoredSpans | tools/speech-eval/meeting_score.py:200-207 | Covers exactly the window outside every collar. |
| DiarizationSweep.Regions | tools/speech-eval/meeting_score.py:208-219 | The sweep's regions cover exactly the scored spans, in order, and no activity changes inside one. |
| DiarizationSweep.CursorDecides | tools/speech-eval/meeting_score.py:213-219 | The one span under the moving cursor decides whether a region is covered. |
| DiarizationScore.Active | tools/speech-eval/meeting_score.py:220-234 | The moving cursors find exactly who is on in each region. |
| DiarizationScore.Overlaps | tools/speech-eval/meeting_score.py:235-239 | Each pair's overlap is the number of scored milliseconds both are on. |
| DiarizationScore.CountTotals | tools/speech-eval/meeting_score.py:241-248 | Each total is the count over individual scored milliseconds. |
| DiarizationScore.ScoredTime | tools/speech-eval/meeting_score.py:249-259 | The scored time is the number of scored milliseconds. |
| DiarizationScore.RegionsAddUpToScored | tools/speech-eval/meeting_score.py:208-219 | Region lengths add up to the scored time. |
| DiarizationScore.ErrorIdentity | tools/speech-eval/meeting_score.py:241-250 | Missed plus false alarm plus confusion is the busier side's time less the matched time, for every mapping. |
| DiarizationScore.WeightIsCorrectTime | tools/speech-eval/meeting_score.py:235-240 | A mapping's total overlap is the time its pairs are both on. |
| DiarizationScore.LeastError | tools/speech-eval/meeting_score.py:235-250 | A mapping of greatest overlap among tracked speakers has the least error over all one-to-one mappings. |
| DiarizationReport.ReferenceExtent | tools/speech-eval/meeting_score.py:188-195 | The default window is the reference's extent; none for an empty or malformed reference. |
| DiarizationReport.MapAndCount | tools/speech-eval/meeting_score.py:235-248 | The mapping found has the least error time over all one-to-one mappings and the totals are the per-millisecond ones. |
| DiarizationReport.Rate | tools/speech-eval/meeting_score.py:249-250 | The rate times the reference time is the error time; none without reference speech. |
| DiarizationReport.DiarizationErrorRate | tools/speech-eval/meeting_score.py:171-259 | Refused exactly when the window, collar or a segment is bad or both sides are crowded; otherwise every figure is the per-millisecond one and the error is least over all speaker mappings. |

## Left out

- ClockMailbox.ReadsAreWholeAndMonotone: for fewer than 2^63 publications; the writer of the model stops there.
- Giving up the sender as a step of its own: a fallback that also drops the sender moves the fence and drops it in one step.
- Draining the event list: the model keeps every event emitted.
- CaptureSupervisor.LeftoverRunCanSpan: a history of the watch; the calls that lead a supervisor through it are not spelled out.
- ReplayLog.AppendAddsItsSamples: for the writer that owns an unsealed, unrestricted stream; the other cases are refusals covered by the step lemmas.
- Promotion.Run: the disk is a value and its primitive operations are steps, not updates of a mutable object, because a crash may fall between any two of them; so are `ReplayLog.Run`, `ClockMailbox.Run` and `AecWorkerRuns.RunSystem`.
- Directory-entry durability: a rename counts as durable, and staging a manifest through a temporary file is one atomic step.
- The contents of an encoded archive beyond being whole or partial, and JSON, locks, hashes and file headers.
- Opus coding and the Ogg page layer: every packet decodes to one frame, and decode errors and the two header packets are not modelled.
- Non-finite sample checks of the echo adapter, and saturation of 64-bit clocks, counters and statistics (naturals are used).
- `checkpoint_capture`, `infer_mic_channels`, `track_formats` and prefix-projection proofs.
- `GenerationRing`, and dropping a `Worker` other than through its cancel step.
- Which of several equally good speaker mappings is reported: the program sorts speakers by name, the model keeps their order of appearance.
- Meeting ids are ordered naturals and unique within a library; deleting the files of a plan is not modelled.
- A poll of the supervisor is one step relative to callback faults and device changes.
- Echo gate, clock regression, resampling, tokenising, benchmark runners, secrets, device enumeration and the user interface: floating-point quality, platform calls or easy members.
