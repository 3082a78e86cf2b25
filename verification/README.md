# Verification of Nephtys

Nephtys turns live sources into events, runs the events of each stream through a chain of
middlewares and publishes what comes out. This project models, in Dafny, the parts of it
where something can go wrong that no single function shows, and proves what they promise:

- **Hot-swap** (`HotSwap`, `HotSwapInvariant`, `HotSwapTheorems`, `HotSwapLoss`,
  `HotSwapRuns`, `HotSwapProgress`, `BatchWorker`): publishing through pipeline generations while they are
  replaced. A step relation over any number of publishers and generations, in which every
  enabled branch of a Go `select` is a step of its own, so that "every run" is every
  interleaving. Safety
  (nothing lost, nothing twice, batches in order, nobody writes after the seal) and progress
  (retirement is bounded and never stuck). The batch worker's own loops are methods on a
  class, tied to the steps of the machine.
- **Supervisor** (`Restart`, `Supervisor`, `SupervisorTheorems`, `SupervisorCancel`): the one
  retry loop of the process against an arbitrary source, clock and operator: budget,
  resource pairing, cancellation at any point, and the ladder of delays it sleeps. `Shutdown`
  composes it with the publish path into one machine: removing a stream waits for the one
  before it retires the other.
- **Registry** (`Ports`, `Registry`, `RegistryTheorems`, `RestoreTheorems`, `Manager`): six
  maps, a store and the generations, over every sequence of operations, failing ones
  included. `Manager.StreamManager` is the object with those fields.
- **Deduplication** (`DedupSpec`, `Dedup`): a linked list and a map updated in place, against
  a reference said of the arrival history alone.
- **Companions**: the frame parser of the event-stream connector (`Sse`, `SseTheorems`,
  `SseStandard`), the redaction of configurations (`Redact`, `RedactConfig`), the threshold
  filter (`JsonPath`, `Threshold`), and the pipeline builder, validator and chain
  (`PipelineBuilder`, `Chain`).

`Wrappers`, `Domain`, `Config` and `Text` hold what these share.

To verify everything: `dafny verify dfyconfig.toml` in this directory (Dafny 4.11).

## How to read the statements

Everything the model does not decide is a parameter or a choice of the next step: which
goroutine runs, which case a `select` takes, whether a source opens, whether a store call
succeeds, when an operator cancels, what a JSON text decodes to. A statement for all of these
is a statement for every environment.

- *Handed downstream* means given to the handler `next`. What `next` returns is logged and
  not acted upon (`internal/pipeline/batch.go:77-80`).
- A batch whose payloads do not all marshal is discarded with a log line
  (`internal/pipeline/batch.go:62-67`). So the conservation law is an equivalence. For one
  event of one run: it is handed on exactly once if and only if everything it shared a batch
  with marshals (`HotSwapTheorems.HandedExactlyOnce`). On the payloads alone, whatever the
  batch boundaries: every event is handed on exactly once if and only if every buffered
  payload marshals (`HotSwapLoss.LosslessIff`); `HotSwapLoss.EventLost` is a run that loses an
  event which does marshal. All five connectors wrap what is not JSON before they publish it
  (`internal/connector/websocket.go:142-146`, `internal/connector/grpc.go:166-170`,
  `internal/connector/rest_poller.go:157-163`, `internal/connector/webhook.go:233-239`,
  `internal/connector/sse.go:129-133`), and transform and enrich put out what they marshalled
  themselves, so for these sources the condition holds and `ExactlyOnceIfAllMarshal` applies.
- A retired generation forwards late events (`internal/pipeline/batch.go:167-169`); a comment
  at `internal/connector/webhook.go:182-187` says they are dropped. The model follows the code.
- A duplicate moves to the front of the dedup list but keeps its time
  (`internal/pipeline/dedup.go:76-81`), so the time to live runs from the last *forwarded*
  occurrence, although `internal/pipeline/dedup.go:20-21` says "last seen". The list is ordered
  by arrival, not by time, and the theorems hold for any clock. `DedupSpec.SeenAgreesIff` says
  on which streams of arrivals the two rules let the same through, `DedupSpec.SeenDiffers` is
  one on which they do not.
- On the payload `null` the enrich stage writes into a nil map
  (`internal/pipeline/enrich.go:24-32`), which panics; the chain has an outcome for it.
- The pseudo-code at `docs/LIFECYCLE.md:215-243` omits the look at the context after a failed
  Open; the model has it, as `internal/server/manager.go:335-338` does.

Laws that do not hold as one would first state them are given with the exact condition under
which they do, and with an input on which they fail: the conservation law as above; the round
trip of event-stream messages (`SseTheorems.RoundTripIff`, `SseStandard.RoundTripFails`); the
agreement with section 9.2.6 of the WHATWG HTML Living Standard (`SseStandard.LinesConformIff`,
with `SseTheorems.NameIsKept` and, in `SseStandard`, `BareDataDiffers`, `BareEventDiffers`,
`SpacedNameDiffers` and `EmptyFirstLineDiffers`); that a live stream is live again after a restart
(`RestoreTheorems.ShutdownAndRestore`, `RestoreTheorems.PortChangesHands`).

## Model

| member | source | states |
|---|---|---|
| HotSwapTheorems.HandedAtMostOnce | internal/pipeline/generation.go:78-123 | in every reachable state of every interleaving, no event has been handed downstream twice, and none that was not given to the publish callback |
| HotSwapTheorems.HandedExactlyOnce | internal/server/manager.go:252-261 | once a call has returned and the generation it loaded is retired, in either order and however late it entered, its event has been handed on exactly once if and only if all it shared a batch with marshals, and never if a stage dropped it |
| HotSwapLoss.ExactlyOnceIfAllMarshal | internal/server/manager.go:252-261 | if every payload its generation buffered marshals, an event that no stage dropped is handed on exactly once, in every such run |
| HotSwapLoss.OwnFailure | internal/pipeline/batch.go:62-67 | a buffered event that does not marshal is never handed on |
| HotSwapLoss.LosslessIff | internal/pipeline/batch.go:58-81 | when all calls have returned and all their generations are retired: every event that no stage dropped was handed on exactly once if and only if every buffered payload marshals |
| HotSwapLoss.EventLost | internal/pipeline/batch.go:62-67 | a run, step by step from the start, in which an event that marshals is lost with the batch it shared |
| HotSwapTheorems.GenerationLosslessIff | internal/pipeline/batch.go:53-109 | a retired generation has handed on every event it buffered if and only if every one of them marshals |
| HotSwapTheorems.BatchSequence | internal/pipeline/batch.go:42-133 | flushed batches, current batch and channel concatenate to the exact enqueue order; each batch has 1 to maxSize events and the topic of its last; the channel stays within maxSize; after Retire nothing is held |
| HotSwapTheorems.NobodyWritesDuringDrain | internal/pipeline/generation.go:110-117 | while the final drain runs the generation is sealed and no call that passed the cancellation check is inside the chain |
| HotSwapTheorems.SealedForever | internal/pipeline/batch.go:113-121 | from the seal on, no run ever enqueues again, so a channel found empty is empty for ever |
| HotSwapTheorems.BehindDedupOneAtATime | internal/pipeline/dedup.go:68-101 | behind a dedup stage at most one call of a generation stands at a time, holding the mutex through everything after it |
| HotSwapTheorems.DownstreamIsHanded | internal/pipeline/batch.go:77-80 | the count of an event handed downstream is positive exactly if some handed entry of the log carries it |
| HotSwapInvariant.StepKeeps | internal/pipeline/batch.go:136-179 | every step of every call, worker, retirer and update keeps the invariant: buffers, log and call outcomes account for each event exactly once |
| HotSwapInvariant.ExecKeeps | internal/server/manager.go:585-629 | the invariant holds along any sequence of steps, swaps included |
| HotSwapRuns.RunIsTold | internal/server/manager.go:578-617 | in every run the generation in service is the one swapped in last, the calls are those begun, and the generations those built, each with its own shape, as the sequence of actions alone tells |
| HotSwapRuns.LoadGoesThroughLastInstalled | internal/server/manager.go:252-261 | the call a publish begins goes for good through the generation swapped in last before it, and carries the event it was given |
| HotSwapRuns.SwapInFlight | internal/server/manager.go:616-629 | a run in which a publisher after a swap goes through the new pipeline at once, while one from before it is still let into the retiring one and forwards from there |
| HotSwapRuns.BuffersWhileServing | internal/pipeline/batch.go:149-178 | an event forwarded past its batch stage is binary or came after the cancellation: a generation in service buffers what it is given |
| HotSwapRuns.DropLeavesNothing | internal/pipeline/generation.go:78-82 | a stage may drop an event before the dedup mutex and behind it, and the call leaves with nothing handed on or buffered |
| HotSwapRuns.FullUnlessTicked | internal/pipeline/batch.go:122-131 | without the flush interval every batch sent out before the final rest is full |
| HotSwapRuns.IntervalFlushes | internal/pipeline/batch.go:129-131 | when the interval passes a waiting worker sends out what it holds, be it one event, and goes on waiting |
| HotSwapProgress.StepSpends | internal/pipeline/generation.go:108-123 | a step on behalf of a generation uses up a budget to which nothing adds but a call that loads it |
| HotSwapProgress.ServiceIsBounded | internal/pipeline/batch.go:111-132 | in any phase, no run takes more steps for a generation than were left, plus a constant for each call that loads it |
| HotSwapProgress.RetirementIsBounded | internal/pipeline/generation.go:95-101 | the same for a cancelled generation, which stays cancelled and which no call loads any more once it is displaced |
| HotSwapProgress.InsideCanMove | internal/pipeline/batch.go:171-178 | a call holding the read lock of a cancelled generation can move, or the holder of the dedup mutex it waits for can |
| HotSwapProgress.RetirementNeverStuck | internal/pipeline/generation.go:108-123 | from the cancellation until Retire returns, some step on its behalf is enabled |
| HotSwapProgress.RetirementFinishes | internal/pipeline/generation.go:84-107 | a run that leaves no step for a retiring generation enabled, or has used up its budget, has retired it |
| HotSwapProgress.ParkedPublisherNotStuck | internal/pipeline/batch.go:173-178 | in any phase a publisher parked on a full buffer can move, or the worker can make room for it |
| HotSwapProgress.CallNeverStuck | internal/pipeline/batch.go:160-178 | as long as a call has not returned, some step on behalf of its generation is enabled, before, during and after retirement |
| HotSwapProgress.PublishersReturn | internal/pipeline/generation.go:78-82 | a run that leaves no step for a generation enabled, or has used up its budget, has seen all its calls return |
| Shutdown.EveryScriptIsRun | internal/server/manager.go:323-389 | every script of the loop that nobody cancels is a run of the composed machine |
| Shutdown.CancelledRoundPossible | internal/server/manager.go:326-368 | so is every way on for a pass that meets the cancellation, and it is the last |
| Shutdown.Removal | internal/server/manager.go:444-459 | a removal step by step: cancelled in a session, one more call forwarded through the generation in service, the session and the supervisor ended, and then the generation retired |
| Shutdown.SystemKeeps | internal/server/manager.go:444-459 | every step of publishers, workers, updates and supervisor keeps: no call outlives its session, no session its supervisor, and the generation in service is not cancelled before the supervisor has ended |
| Shutdown.FinalFlushIsLast | internal/server/manager.go:453-459 | once the supervisor has ended no publish call is left and none ever begins, so the generation in service is retired with nobody in it or on the way |
| Shutdown.InServiceUntilDone | internal/server/manager.go:448-456 | as long as the supervisor runs the generation in service is not cancelled |
| Shutdown.WaitNeverStuck | internal/server/manager.go:444-451 | from the cancellation until the supervisor has ended and all calls have returned, some step that brings this closer is possible, and it is neither a new call nor the retirement of the generation in service |
| Shutdown.WaitIsBounded | internal/server/manager.go:444-451 | however publishers, worker, updates and supervisor interleave, only so many such steps can be taken |
| Shutdown.OneMoreSession | internal/server/manager.go:323-368 | after the cancellation at most one more session begins, and none if one is under way |
| Shutdown.WaitEnds | internal/server/manager.go:444-451 | a run that has used these steps up, or leaves none possible, has seen the supervisor end and every publish call return |
| BatchWorker.DrainIsChunks | internal/pipeline/batch.go:95-109 | the final drain flushes the held events cut into pieces of maxSize and one rest |
| BatchWorker.ChunksCover | internal/pipeline/batch.go:95-109 | the pieces concatenate to the held events, all but the last of full size, none empty |
| BatchWorker.DrainRun | internal/pipeline/batch.go:95-121 | the worker steps of the machine, undisturbed, log exactly what the drain loop logs and end with the worker's exit |
| BatchWorker.FlushPublishes | internal/pipeline/batch.go:58-81 | a flush hands on one envelope with the topic of the last event, source and marked type of the first and every payload in order, if all marshal, and else nothing |
| BatchWorker.Worker.Flush | internal/pipeline/batch.go:53-81 | hands on one envelope (first source, first type with suffix, last topic, all payloads in order) and empties the batch; discards it if it does not marshal |
| BatchWorker.Worker.Receive | internal/pipeline/batch.go:122-128 | appends one event and its topic, and flushes exactly when the batch is full |
| BatchWorker.Worker.DrainAndFlush | internal/pipeline/batch.go:95-109 | empties channel and batch, logging the pieces of their concatenation |
| Dedup.LinkedList.MoveToFront | internal/pipeline/dedup.go:78 | relinks one node in place: it comes first, the others keep their order |
| Dedup.LinkedList.Remove | internal/pipeline/dedup.go:83-92 | unlinks one node in place, the others keep their order |
| Dedup.Middleware.Handle | internal/pipeline/dedup.go:59-102 | list and map, updated in place, become what the specification makes of them, one-to-one, and the event goes on unless it is a fresh duplicate |
| Dedup.HandleAll | internal/pipeline/dedup.go:54-102 | over a whole stream the list is the reference's account of the history and what went on is what the reference lets through |
| DedupSpec.CacheAgrees | internal/pipeline/dedup.go:71-101 | for every history and clock the cache is the cacheSize most recently arrived distinct hashes, newest first, each with the time it was last forwarded |
| DedupSpec.CacheDecides | internal/pipeline/dedup.go:74-81 | an event is dropped if and only if its hash is among those and was last forwarded at most ttl ago |
| DedupSpec.DropsIsSeen | internal/pipeline/dedup.go:20-23 | with a clock that does not run backwards the documented rule drops whatever the filter drops |
| DedupSpec.SeenAgreesIff | internal/pipeline/dedup.go:20-23 | over a whole stream the filter lets through what the documented rule lets through if and only if no run of one hash - arrivals each within ttl of the last - goes on for longer than ttl, which is read off the arrivals alone |
| DedupSpec.SeenDiffers | internal/pipeline/dedup.go:76-81 | arrivals of one hash at 0, 40 and 70 under a ttl of 60, on which they differ |
| DedupSpec.LargerHoldsMore | internal/pipeline/dedup.go:24-30 | a larger cache holds every hash a smaller one holds, in the same order in front, after any history and whatever the two ttls |
| DedupSpec.RecentDistinct | internal/pipeline/dedup.go:97-99 | the reference lists every hash that arrived exactly once and no other |
| DedupSpec.RecentOrdered | internal/pipeline/dedup.go:76-81 | the reference lists hashes strictly by their last arrival |
| Supervisor.Supervise | internal/server/manager.go:309-390 | the loop, against any script of its environment, ends in the state and with the trace of the specification |
| SupervisorTheorems.RestartBudget | internal/server/manager.go:317-389 | restarts equal the attempts surrendered at each reset plus the current attempt; hence at most k(resets + 1) under a budget of k |
| SupervisorTheorems.UnlimitedNeverFails | internal/server/restart.go:55-61 | an unlimited policy never reaches the failed state |
| SupervisorTheorems.FlappingIsGivenUp | internal/server/manager.go:370-384 | if nobody cancels and no session ends resetAfter or more after becoming ready, the stream fails after exactly k restarts, in pass k + 1 |
| SupervisorTheorems.LastingIsNeverGivenUp | internal/server/manager.go:370-375 | under a budget of at least one, a source all of whose sessions last that long is never given up, and gives back its attempt at the end of each |
| SupervisorTheorems.EarnedByLasting | internal/server/manager.go:365-375 | in every run the budget is earned back exactly as often as a session lasted that long and the context was not cancelled at its end |
| SupervisorTheorems.ShowsLastRound | internal/server/manager.go:354-360 | between two passes the status and the recorded failure are those of the last round |
| SupervisorTheorems.ResourcesPaired | internal/server/manager.go:330-361 | at every moment Run is only called on an open unused source and each Open is followed by one Close before the next; at the end nothing is held; on giving up, 1 + restarts = sessions + failed Opens and a reason is recorded |
| SupervisorTheorems.SleepsTheLadder | internal/server/manager.go:324-329 | every wait of every run is, in whole nanoseconds, the rung of the capped ladder for the number of restarts since the last reset, within floor and cap |
| SupervisorTheorems.WaitsGrow | internal/server/manager.go:324-329 | until the budget is earned back, no wait of a run is shorter than one before it |
| SupervisorCancel.CancellationBound | internal/server/manager.go:323-389 | after a cancellation at any instant at most one more restart, Open and session; the pass under way or the next one ends the run |
| SupervisorCancel.StoppedIffSeen | internal/server/manager.go:363-368 | the stream ends stopped exactly if its trace shows that the cancellation was seen |
| SupervisorCancel.CancelledEndsStopped | internal/server/manager.go:330-345 | a cancelled run that ended is in the failed state if and only if the cancellation came after its last look at the context |
| Restart.AcceptedIffHonoured | internal/server/validate.go:203-260 | the validator accepts exactly the blocks whose every written field is run as written in a sound policy, and every other field as its kind has it |
| Restart.ComplaintIsTrue | internal/server/validate.go:208-244 | a complaint is about the field at fault |
| Restart.NoBlockIsEmptyBlock | internal/server/restart.go:83-100 | a stream without a restart block runs as one with nothing written in it, and with which values |
| Restart.AcceptedPolicy | internal/server/restart.go:85-121 | an accepted configuration resolves to a sound policy, unlimited if and only if a pull kind sets no limit |
| Restart.DelayBounded | internal/server/restart.go:64-70 | every delay lies between floor and cap |
| Restart.DelayMonotone | internal/server/restart.go:64-70 | a later attempt never waits less |
| Restart.DelayReachesCap | internal/server/restart.go:64-70 | a ladder with factor above 1 reaches its cap after finitely many attempts and stays there |
| Restart.DelayIsRung | internal/server/restart.go:64-70 | the delay is the rung of a ladder told rung by rung - the floor, then each time the factor, never past the cap - cut to whole nanoseconds |
| Restart.WholeFactorDelays | internal/server/restart.go:64-70 | with a whole-number factor each wait is that many times the one before, or the cap |
| RegistryTheorems.RegistryConsistent | internal/server/manager.go:198-271 | every sequence of operations keeps the keys of the maps, the port claims and the bookkeeping of generations consistent: none leaks, none in use is retired |
| RegistryTheorems.NoSharedPort | internal/server/manager.go:203-208 | no two running streams listen on one number, however its digits are written, nor on one text that is no number |
| RegistryTheorems.AdmitSucceedsIff | internal/server/manager.go:198-248 | a stream is admitted exactly if its id and port are free, its pipeline builds, its source opens and the store takes it, and what it is then entered as |
| RegistryTheorems.AdmitFailsBecause | internal/server/manager.go:200-232 | which refusal stands for which cause, the holder of a contested port included |
| RegistryTheorems.RefusedBuildIsRetired | internal/server/manager.go:195-233 | a refusal for the id or the port builds nothing; any other retires the one generation built for it |
| RegistryTheorems.RemoveSucceedsIff | internal/server/manager.go:427-466 | a stream is removed exactly if it is registered and the store lets it go, and no other stream or claim is touched |
| RegistryTheorems.BeginSucceedsIff | internal/server/manager.go:563-583 | an update begins exactly if the stream runs and the new pipeline builds, and changes no map |
| RegistryTheorems.CommitSucceedsIff | internal/server/manager.go:585-614 | an update is committed exactly if the stream still runs and the store takes it, and which refusal stands for which cause |
| RegistryTheorems.CommitInstalls | internal/server/manager.go:598-629 | it then changes the generation and the block of that stream, there and in the store, and retires the displaced generation |
| RegistryTheorems.StoreAgrees | internal/server/manager.go:562-632 | before StopAll, whenever the lock is free, stored and effective configurations coincide and every running generation was built from the stored block |
| RestoreTheorems.RestoreDeterministic | internal/server/manager.go:504-507 | every order the store may list its entries in gives the same registry |
| RestoreTheorems.SortedUnique | internal/server/manager.go:507 | a listing with distinct ids has one sorted order |
| RestoreTheorems.RestoreOutcome | internal/server/manager.go:489-546 | every stored stream with an id is registered, running if and only if its own checks pass and no smaller id wants its port, and else in error for the first check it does not pass; each port is claimed by the least id that wants it |
| RestoreTheorems.NamelessSkipped | internal/server/manager.go:514-517 | a listing restores to what it restores to without an entry that has no id |
| RestoreTheorems.RestoreAgrees | internal/server/manager.go:489-546 | after a Restore the registered configurations are the stored ones and every running generation was built from its stored block |
| RestoreTheorems.ShutdownAndRestore | internal/server/manager.go:714-756 | StopAll, then Restore into a fresh manager, brings back the same configurations; a stream is live again if and only if it is still admissible and no smaller id has its port, and then runs the block it had |
| RestoreTheorems.PortChangesHands | internal/server/manager.go:504-507 | a history after which a running stream comes back in error, its port gone to a stream that was in error |
| Manager.StreamManager.Register | internal/server/manager.go:188-271 | the object's six maps, its store and the answer become those of the registry on values; it succeeds exactly if nothing stands against the stream, and then enters it; a refused Register leaves maps and store as they were, and closes a source it opened |
| Manager.StreamManager.Remove | internal/server/manager.go:423-471 | the same for Remove, which cancels the supervisor of a running stream, waits for that supervisor and only then retires the stream's generation; a refused delete changes nothing and stops nothing |
| Manager.StreamManager.BeginUpdate | internal/server/manager.go:562-583 | the half of an update outside the lock: succeeds exactly if the stream runs and the pipeline builds, builds one generation and leaves the maps alone |
| Manager.StreamManager.CommitUpdate | internal/server/manager.go:585-632 | the half under the lock: succeeds exactly if the stream still runs and the store takes the write; then stores, swaps and retires the displaced generation, and else retires the new one and leaves maps and store as they were, with the refusal that fits |
| RegistryTheorems.StopInOrder | internal/server/manager.go:714-742 | stopping everything cancels each supervisor, waits for all when all are cancelled, and retires each generation after that |
| Manager.StreamManager.StopAll | internal/server/manager.go:714-756 | cancels every supervisor, then waits for all of them, then retires every installed generation, and forgets every stream, keeping the store |
| Manager.StreamManager.Restore | internal/server/manager.go:489-546 | the loop over the sorted listing makes of a fresh manager what the registry says |
| Manager.StreamManager.ReleaseClaimsLocked | internal/server/manager.go:475-481 | deletes exactly the claims a stream holds, whatever the order of iteration |
| Ports.CanonicalIffSameNumber | internal/server/manager.go:794-802 | two texts are one claim if and only if they spell one number, or are one text that spells none |
| Ports.ClaimIsListened | internal/server/manager.go:770-802 | a stream claims a port exactly if it is a webhook or gRPC stream; the claim spells the number it listens on - the one written in its block, or 8081 or 50051 - and is the text written if that is no number |
| Ports.OneClaimPerNumber | internal/server/manager.go:789-802 | two streams that listen on one number make one claim |
| Ports.Spellings | internal/server/manager.go:789-802 | a number may be written with a sign or a leading zero; printed it has a sign only if it is negative |
| Ports.ItoaAtoi | internal/server/manager.go:794-802 | printing a 64-bit integer and reading it back is the identity |
| PipelineBuilder.Build | internal/pipeline/builder.go:20-76 | appends the active blocks' stages; fails exactly on an enabled dedup or batch block that cannot be resolved |
| PipelineBuilder.ValidatedBuildsAsWritten | internal/pipeline/validate.go:94-163 | what the validator accepts builds, into exactly one stage per active block, in the fixed order, with the settings written or defaulted, all within their ceilings |
| PipelineBuilder.AcceptsIffFine | internal/pipeline/validate.go:94-163 | the validator accepts exactly the pipelines all of whose blocks do something and say it well, and else complains about the first that does not |
| PipelineBuilder.BuildsIff | internal/pipeline/builder.go:37-70 | a pipeline builds exactly if the durations and counts of its switched-on dedup and batch blocks can be honoured |
| PipelineBuilder.OneWorkerIffBatching | internal/pipeline/generation.go:56-70 | a generation that builds has one worker if batching is enabled and none otherwise |
| Chain.Execute | internal/pipeline/pipeline.go:29-35 | the backward loop wraps the stages so that the first one sees an event first |
| Chain.FoldAppends | internal/pipeline/pipeline.go:29-35 | running one chain after another is running their concatenation |
| Domain.BodyByContentType | internal/domain/event.go:34-51 | without a content type, or with that of JSON, an event is its payload, and with any other its data |
| Chain.BinaryUntouched | internal/domain/event.go:38-51 | through any chain in any state a binary event without payload is handed on untouched, or turned away by the first filter or dedup stage that refuses it |
| Chain.Journey | internal/pipeline/pipeline.go:29-35 | any event through any chain: it is published as the stages have left it, unless its journey ends at a stage - dropped by filter, dedup or threshold, buffered by batch - and then the first such stage says how |
| Chain.NilMapPanics | internal/pipeline/enrich.go:22-33 | an event whose payload decodes without error to no map makes the enrich stage panic |
| Chain.OnlyNilMapPanics | internal/pipeline/enrich.go:22-33 | no chain panics on any other event |
| Sse.ReadLoop | internal/connector/sse.go:103-176 | the line loop publishes the frames of the lines before the cancellation, in order, each under its name or the default, its data as it is where that is JSON and wrapped where it is not |
| Sse.ParseIsSpoken | internal/connector/sse.go:119-171 | line by line is block by block: a block is a frame exactly if some data line has content, its data begins with the first such line, and a name without data is carried on |
| Sse.LinesReadAlikeIff | internal/connector/sse.go:158-166 | the loop reads a line as the standard does, except a bare field name or a name with space around it |
| SseTheorems.ConformsIff | internal/connector/sse.go:119-171 | on lines read alike, the loop and the standard make the same frames exactly if no complete block has an empty first data line and no name is left over for a nameless one |
| SseStandard.LinesConformIff | internal/connector/sse.go:109-173 | on raw lines, each read in its own way: the same frames exactly if every block with data has no bare data line, begins with data that is not empty, and its last line about a name is an event line without space around the name - or, if it is a bare event line or there is none, no name stands before it or is left over |
| SseStandard.BareDataDiffers | internal/connector/sse.go:160-166 | a bare data line is an event by the standard and nothing to the loop |
| SseStandard.BareEventDiffers | internal/connector/sse.go:158-160 | a bare event line takes the name away by the standard and is nothing to the loop |
| SseStandard.SpacedNameDiffers | internal/connector/sse.go:158-159 | of space around a name the standard takes one away and the loop all |
| SseStandard.EmptyFirstLineDiffers | internal/connector/sse.go:167-171 | an empty first data line costs the loop the line feed the standard keeps |
| SseTheorems.NameIsKept | internal/connector/sse.go:120-155 | an input on which they differ: an event name kept across a data-less blank line |
| SseTheorems.RoundTripIff | internal/connector/sse.go:103-176 | any messages written to the wire are published as meant and in order if and only if each has a non-empty first data line |
| SseStandard.RoundTripFails | internal/connector/sse.go:167-171 | a well-formed message that does not come out as it was meant |
| SseTheorems.ConcatenationIff | internal/connector/sse.go:119-155 | parsing distributes over whatever follows a stream if and only if nothing is held at its end |
| SseTheorems.MessagesSettle | internal/connector/sse.go:149-152 | a stream of complete messages holds nothing at its end |
| SseTheorems.UnterminatedIsSilent | internal/connector/sse.go:119-175 | lines after the last blank one publish nothing |
| SseTheorems.PublishedStays | internal/connector/sse.go:109-115 | stopping at any line leaves a prefix of what would have been published |
| Redact.RedactPathSegments | internal/server/redact.go:170-185 | the in-place loop over the segments is the segment-wise specification |
| Redact.RedactQueryValues | internal/server/redact.go:190-210 | the in-place loop over the parameters is the parameter-wise specification |
| Redact.PathTellsShape | internal/server/redact.go:166-185 | two paths are redacted alike if and only if the same segments are empty |
| Redact.PathKeepsShape | internal/server/redact.go:166-185 | redaction keeps the number of segments and which are empty, and is idempotent |
| Redact.QueryTellsShape | internal/server/redact.go:187-210 | two queries are redacted alike if and only if they have the same keys, bare and empty parameters in the same order |
| Redact.QueryKeepsShape | internal/server/redact.go:187-210 | redaction keeps exactly that, and is idempotent |
| Redact.PathShows | internal/server/redact.go:170-185 | where a path has a segment the marker stands, and where it has none nothing |
| Redact.QueryShows | internal/server/redact.go:190-210 | of a parameter the key stays and the marker stands for the value; a bare one is the marker |
| Redact.UrlTellsShape | internal/server/redact.go:143-164 | of a parsed URL only the endpoint and the shapes of path and query are left |
| Redact.ShownUrl | internal/server/redact.go:143-164 | what is shown of a URL is printed from a URL of the same endpoint and shapes with user and fragment dropped, and withholding that again changes nothing |
| Redact.ShownUrlTellsShape | internal/server/redact.go:143-164 | two URLs are shown alike exactly if they have one endpoint and one shape, and a text that is no URL is the marker |
| RedactConfig.RedactConfig | internal/server/redact.go:50-85 | hands out fresh blocks, with fresh header maps and frames unless these are empty, that say what the input says with its values withheld, and writes nothing that existed before |
| RedactConfig.RedactHeaders | internal/server/redact.go:90-99 | a fresh map with the same names, or the same map if it is empty |
| RedactConfig.RedactFrames | internal/server/redact.go:106-115 | a fresh slice of the same length, every frame withheld |
| RedactConfig.ShownTellsStructure | internal/server/redact.go:13-49 | what is shown of two configurations is equal if and only if they agree on everything but withheld values |
| RedactConfig.WithholdTwice | internal/server/redact.go:50-85 | withholding again changes nothing |
| JsonPath.ExtractValue | internal/pipeline/pipeline.go:39-65 | the walk along a dotted path is the recursive one |
| JsonPath.ExtractComposes | internal/pipeline/pipeline.go:37-65 | a path may be walked in two stretches, cut at any dot |
| JsonPath.ExtractIff | internal/pipeline/pipeline.go:39-65 | a dotted path gives a value if and only if a route its parts spell, names into objects and positions into lists, leads there |
| Threshold.Filter.Handle | internal/pipeline/threshold.go:31-88 | decides and remembers for an event what the history of readings says; an event without a reading goes on and leaves no trace |
| Threshold.HandleAll | internal/pipeline/threshold.go:22-90 | over a whole stream, the readings that go on are the specification's and every other event goes on |
| Threshold.ReadIff | internal/pipeline/threshold.go:31-75 | an event is judged exactly if its path leads to a number, or text that reads as one, and the group's path anywhere; its group is what stands there, printed |
| Threshold.OwnSubsequence | internal/pipeline/threshold.go:67-82 | of any interleaving each group forwards what it would have forwarded alone |
| Threshold.FirstGoesThrough | internal/pipeline/threshold.go:77-82 | the first reading of every group goes through |
| Threshold.KeptIsSpaced | internal/pipeline/threshold.go:77-82 | neighbours among what a group lets through are at least delta apart |
| Threshold.NeverFarBehind | internal/pipeline/threshold.go:76-88 | after any history a group's last reading is the last one let through, or closer to it than delta |
| Threshold.LastIsKept | internal/pipeline/threshold.go:76-82 | the value remembered for a group is the last one it let through |

## Left out

- Go's memory model: mutex, atomic and channel operations are single steps; within one step nothing interleaves.
- Fairness: progress is a bound on the steps taken and a step that is always enabled; that the scheduler takes it, and that `next` returns, is assumed.
- Networking of the connectors (websocket, webhook, gRPC, REST poller) and the HTTP request of the event stream: a source is an arbitrary script of outcomes under the contract of `internal/connector/source.go:37-60`.
- NATS, JetStream and the key-value store's own protocol: publishing is an opaque handler; a store call succeeds or leaves the store as it was, and one with an unknown outcome is not modelled.
- A Restore whose store cannot be listed leaves the manager empty; the agreement of store and runtime is stated from a registry where it holds, which a Restore that could list its store establishes (RestoreTheorems.RestoreAgrees).
- Manager.StreamManager.Remove: cancelling and waiting are recorded in order and taken to succeed; that the wait ends is Shutdown.WaitEnds. The same holds of Manager.StreamManager.StopAll.
- Shutdown.WaitEnds: takes a source at its word: after the cancellation a session begins only finitely many more calls and can end once its calls have returned.
- Shutdown.FinalFlushIsLast: takes Run to return only after its publish calls; a webhook handler that outlives the grace period of `internal/connector/webhook.go:171-193` breaks that, and is covered by the hot-swap theorems alone, which hold for calls however late.
- A store listing with two entries of one id, or two without an id: Restore is stated for distinct ids.
- HTTP handlers, authentication, health probes, command line, logging and metrics.
- JSON encoding and decoding, URL parsing and printing, hashing and ParseFloat: parameters of the statements. Dedup is stated on hashes.
- The text of durations: a duration field is what parsing it gave.
- Floating point: the ladder and the threshold are over exact reals; NaN and overflow are not modelled.
- Clocks and timestamps of envelopes: times are arguments, and the timestamp a batch or a frame is stamped with is not modelled.
- The longest line the scanner accepts; lines are texts of characters.
- Defaults the connectors write into their own blocks through shared pointers: blocks are taken as already normalised.
- The redaction of URLs inside error texts (a regular expression), and the reasons recorded by recordFailure beyond their presence.
- Checks of the connector blocks in the stream validator: whether a stored configuration passes them is a parameter of Restore.
- StringList decoding (`internal/domain/event.go:115`).
- Filter, transform and enrich on their own: their effect in the chain is in Chain, what they do to a JSON document is a parameter.
