# Werk: verified models of nine stateful cores

This project models the parts of Werk whose correctness is a matter of whole runs, and proves what they promise for every
input, every interleaving and every failure. `dafny verify dfyconfig.toml` checks all of it.

| core | modules | form |
|---|---|---|
| resident media worker: requests, negotiation, fallback, kill on error | `ResidentEnvelope`, `ResidentProtocol`, `ResidentOutcomes`, `ResidentTransport` | a transition system over calls, worker, pipes and mutex, and a class whose methods are proved to take only its steps |
| media pipeline cache: cache key, record and replay, LRU, ownership | `PipelineConfiguration`, `PipelineVerdicts`, `RecencyList`, `PipelineCache`, `PipelineRequests` | classes for guard, outcome, cache and accelerator; functions for verdicts |
| log rotation and log queue | `LogFile`, `LogQueue` | classes over a map of generations and a bounded queue, with every call allowed to fail |
| file store | `FileMetadata`, `FileStore` | a class over namespaces and entries, with a fault or a crash possible at each step |
| bounded cache tree walk | `CacheTree` | the worklist method against a recursive sum and the list of all paths |
| telemetry and stream observers | `Telemetry`, `TelemetryRuns`, `ObservedStreams`, `RawStreams` | classes for records, guards and wrappers |
| deployment planner | `DeploymentDevices`, `DeploymentPlanner`, `DeploymentShapes`, `DeploymentOrder` | the allocator loop against a condition on lists of plans |
| API key file | `Text`, `ApiKeys`, `KeyFileSyntax` | the scanners as loops against recursive readers, and those against the pieces of a line |
| reasoning budgets | `Reasoning`, `ReasoningLimits` | the tier-building loops against functions, and those against plain numbers |

Time appears only as a nondeterministic "timed out" or as a clock reading between two given bounds, I/O only as an error result
that may occur anywhere, or never where a file system is called reliable.
A held mutex or file lock is mutual exclusion. Integers that the code keeps in `u64` are bounded explicitly: checked
sums fail, saturating ones saturate, and the token totals of the telemetry wrap as in a release build.

## Where a promise has a condition

Each condition is proved exactly, and an input or a run shows how the promise fails without it.

What can happen in use:

- Pipeline cache. A cached and an uncached request differ in one case: a LoRA cannot be loaded, and a strict policy has
  already turned down an explicit VAE parameter. Without the cache the parameter is blamed, with it the LoRA
  (`PipelineConfiguration.CachedEqualsUncached`, `PipelineConfiguration.MissingLoraAfterStrictRejection`). A request
  that finds its pipeline resident never differs.
- Log rotation. A rotation that is retried after a failed rename removes the oldest file again, which was shifted there
  by the attempt before. Retries that fail at one generation remove exactly the files that existed above it, one by
  one; it stays at one file if it is the first rename that fails (`LogFile.RetriesRemove`,
  `LogFile.AllCanBeLost`, `LogFile.RotatingFile.Retry`). What is retained stays a suffix of the log in any case.
- Planner. The printed memory fraction exceeds what some rank may use if and only if printing rounded it up, and then by
  at most five billionths of the device's memory (`DeploymentDevices.FitsUnlessRoundedUp`,
  `DeploymentDevices.PrintedFractionFits`, `DeploymentDevices.PrintedCanExceed`); a fraction within half a unit of the
  eighth decimal of 0 or 1 is printed as 0 or 1 (`DeploymentDevices.PrintedStaysProper`). The overlap error of the
  allocator cannot occur: claimed devices are hidden before the next profile selects (`DeploymentPlanner.Claim`).
- Planner. The order of profiles does not matter as long as every profile names its devices
  (`DeploymentOrder.OrderDoesNotMatter`); it can when one leaves the choice to the planner
  (`DeploymentOrder.OrderMatters`).
- Resident worker. No answer is stale if the worker answers each frame by one line, or if it prints any number of lines
  but none under the id of a frame it has not consumed (`ResidentProtocol.NoStaleAnswer`); a worker that keeps neither
  rule can have a line taken for an answer to a later request (`ResidentProtocol.AnswerAheadOfTime`). The bundled worker
  keeps the first.

Limits of single functions, which their present callers do not reach:

- File store. `put` does not bound `purpose`. When the metadata it writes is longer than the 8192 bytes that reading it
  back allows, the file is published, but from then on every scan fails, and with it every `put` and `list`, for good:
  the file cannot be read, expired or deleted. The store stays usable after a `put` if and only if `Readable` holds of
  the metadata, which a caller can compute beforehand; 6000 escaped bytes of purpose are always fine
  (`FileStore.FileStore.Put`, `FileMetadata.BoundedPurposeIsReadable`, `FileStore.LongPurposeLocksOut`). All purposes
  that the HTTP interface passes on are short (`FileMetadata.ApiPurposesAreShort`).
- Envelope. The body of a reply survives the envelope if and only if it has none of the keys `transport_version`,
  `request_id` and `response` (`ResidentEnvelope.EnvelopeRoundTrip`, `ResidentEnvelope.ResponseFieldReplacesBody`). No
  operation of the bundled worker returns a body with one of these keys.
- Key file. Printing and parsing give an entry back if and only if its name is trimmed and not empty and its key valid
  (`ApiKeys.KeyFileRoundTrip`, `ApiKeys.BlankNameComesBackAsDefault`). Names are normalized before they are printed, so
  every file that is written reads back (`ApiKeys.WrittenKeyFileReadsBack`).
- Reasoning. A native effort named "default" could not be selected unless it is the default
  (`Reasoning.NativeTiersResolveToThemselves`, `Reasoning.NativeDefaultOutOfReach`). No backend reports one, so every
  native tier can be selected by its name (`Reasoning.ReportedEffortsAreSelectable`).

## How to read the proofs

The states of a class are tied together by its `Valid` (or `Consistent`, `Settled`, `Inv`) predicate, which every method
keeps. Most of these are conjunctions of small predicates on values, and the lemmas beside a class say what one step
does to each of them; the methods then only call the lemma for the step they take. Ghost fields hold history: what was
offered, written, removed, sent, loaded, cleaned or finished so far.

`ResidentTransport.ResidentTransport.Request` interleaves with the rest of the world through `Others`, which takes any
number of protocol steps by other clients, by the worker and by the operating system. Since every effect of the method
is a step of `ResidentProtocol`, the theorems about runs apply to it (`ResidentTransport.MethodsAreRuns`).

`PipelineRequests.Serve` stands for the whole life of one worker process. Its replies are compared
with `Uncached`, which never mentions a cache: that is the statement that history does not matter.

## Model

| member | source | states |
|---|---|---|
| `ResidentProtocol.StepKeepsInv` | src/media_companion.rs:325-432 | every step of client, worker or clock, at any point of any interleaving and however the worker behaves, keeps what delivery rests on: unique ids, faithful frames, one holder, bounded attempts |
| `ResidentProtocol.RunKeepsInv` | src/media_companion.rs:325-432 | the same in every state of every run |
| `ResidentProtocol.NoStaleAnswer` | src/media_companion.rs:399-431 | in every run, a value returned to a call decodes a line a worker printed after consuming that call's own frame (operation, payload and a request id no other frame carries), if the worker answers each frame by one line, whatever that says, or prints any number of lines under truthful ids |
| `ResidentProtocol.AnswerAheadOfTime` | src/media_companion.rs:399-431 | one of the two disciplines is needed: a worker that prints a line under the id of a frame it has not been sent yet has it taken for the answer |
| `ResidentProtocol.BundledWorkerAnswer` | runtime/werk_media_companion.py:6346-6400 | against the bundled worker the value returned is the body it computed for that payload, with `ok` set, and the caller parses it as a success, unless the body looks like an envelope |
| `ResidentProtocol.AtMostOnceDelivery` | src/media_companion.rs:325-432 | no operation is ever sent twice, nor both to a resident and to a one-shot process; negotiation sends only the handshake with an empty payload; a held process implies that support was confirmed |
| `ResidentProtocol.NothingOutstandingWhenFree` | src/media_companion.rs:419-431 | with a worker that answers each frame by one line, whenever the mutex is free and a process is held, its input is empty and nothing it still prints can be taken for an answer to any request |
| `ResidentProtocol.NegotiationIsAbsorbing` | src/media_companion.rs:574-637 | once negotiation is settled either way, no later step changes it |
| `ResidentProtocol.EndedCallsStayEnded` | src/media_companion.rs:1099-1114 | a call that was answered, failed or fell back is never sent again: its outcome and its delivery count are final |
| `ResidentEnvelope.EnvelopeRoundTrip` | src/media_companion.rs:682-725 | decoding the worker's envelope gives back the body with `ok` set if and only if the body has none of the keys `transport_version`, `request_id`, `response` |
| `ResidentEnvelope.WorkerReplyReachesCaller` | src/media_companion.rs:1248-1257 | under the same condition a body arrives as a success and a raised failure as that failure |
| `ResidentEnvelope.ReplyKeepsItsId` | runtime/werk_media_companion.py:6346-6392 | a reply to one request is rejected when read for another |
| `ResidentEnvelope.StartupFailureIsRejected` | src/media_companion.rs:704-717 | an error printed without a request id is never accepted as an answer |
| `ResidentEnvelope.ResponseFieldReplacesBody` | src/media_companion.rs:718-724 | a body with a field called `response` does not arrive |
| `ResidentTransport.ResidentTransport.Request` | src/media_companion.rs:325-432 | whatever other clients, the worker and the clock do meanwhile, the call ends in the outcome returned, through protocol steps only; a call that got the mutex leaves it free, and one that did not never was sent; told by fields, it falls back or fails as its handshake says, and when nothing fails on the way it gets exactly what the worker has printed under its id |
| `ResidentTransport.MethodsAreRuns` | src/media_companion.rs:325-432 | whatever the methods have done is a run of the protocol machine, so all that holds of runs holds of it |
| `ResidentTransport.ResidentTransport.Lock` | src/media_companion.rs:333-350 | the lock-wait loop ends holding the transport, at once if it is free, or fails at the deadline with the call undelivered |
| `ResidentTransport.ResidentTransport.NegotiateResidentSupport` | src/media_companion.rs:574-637 | support is settled exactly by an answer under the id sent, one-shot fallback comes exactly from a legacy companion, and anything else fails before the operation was sent |
| `ResidentTransport.ResidentTransport.Settle` | src/media_companion.rs:351-366 | negotiates only while support is unknown; a legacy worker means fallback without delivery |
| `ResidentTransport.ResidentTransport.InspectProcess` | src/media_companion.rs:368-380 | a process that has exited is discarded before it could be written to |
| `ResidentTransport.ResidentTransport.StartProcess` | src/media_companion.rs:381-383 | a process is started when none is held, and failure leaves none |
| `ResidentTransport.ResidentTransport.CheckDeadline` | src/media_companion.rs:399-405 | an expired deadline ends the call before anything was sent |
| `ResidentTransport.ResidentTransport.SendRequest` | src/media_companion.rs:639-663 | the frame, with the next id and the caller's operation and payload, is written once; failure kills the process and ends the call |
| `ResidentTransport.ResidentTransport.ReadResponse` | src/media_companion.rs:665-742 | the first line is the answer if it is an envelope under this id; otherwise, or when none arrives, the process is killed and the call fails; it never falls back after sending |
| `ResidentTransport.ResidentTransport.Others` | src/media_companion.rs:333-350 | other clients and the worker may act at any wait without disturbing this call |
| `ResidentOutcomes.NegotiationOutcome` | src/media_companion.rs:574-637 | told by the fields of the line: support is confirmed exactly by version 1 and the id sent; a plain response with a boolean `ok`, a broken handshake pipe or an end of output means one-shot fallback; everything else fails this call and leaves the question open |
| `ResidentOutcomes.FallbackOutcome` | src/media_companion.rs:351-366 | a call to a companion known to be legacy is handed, unsent before and unchanged, to a process of its own |
| `ResidentOutcomes.DecodedByFields` | src/media_companion.rs:682-725 | which lines are an answer under an id, which are a legacy response, and what an answer contains: its `response` field, or the fields besides version and id |
| `ResidentOutcomes.ParsedByFields` | src/media_companion.rs:1248-1257 | a response is a success, a described failure or none, by its boolean `ok` |
| `ResidentOutcomes.ReplyOutcome` | src/media_companion.rs:665-742 | the next line answers the call with its contents, the worker kept, if it is an envelope under its id; any other line fails the call and the worker is gone |
| `ResidentOutcomes.FailureKillsWorker` | src/media_companion.rs:639-742 | a call fails at sending or reading only together with its worker |
| `ResidentOutcomes.WorkerReplaced` | src/media_companion.rs:368-398 | a worker seen to have exited is replaced by a new one, a running one kept, and a failed start fails the call |
| `ResidentOutcomes.HealthyCallIsAnswered` | src/media_companion.rs:325-432 | a call to a healthy worker that answers it gets that answer: sent once, as the caller put it, and the worker stays healthy |
| `PipelineConfiguration.EqualKeysConfigureAlike` | runtime/werk_media_companion.py:2381-2417 | two requests with equal cache keys get the same placement, findings and load failures |
| `PipelineConfiguration.CachedEqualsUncached` | runtime/werk_media_companion.py:2698-2900 | for every request, policy and guard, the cached and the uncached path end with the same verdict, unsupported map and ordered warnings if and only if it is not the case that a LoRA is missing and an explicit VAE parameter was strictly rejected before |
| `PipelineConfiguration.MissingLoraAfterStrictRejection` | runtime/werk_media_companion.py:2843-2862 | the one way to differ occurs: a concrete request is told adapter_load_failed by the cache and unsupported_parameter without it |
| `PipelineConfiguration.SuccessesAgree` | runtime/werk_media_companion.py:2889-2900 | the two paths succeed on exactly the same requests, and then with the same session |
| `PipelineConfiguration.VaeJudged` | runtime/werk_media_companion.py:2756-2807 | judging the VAE findings fails exactly when an explicit, not yet recorded one meets a strict policy |
| `PipelineConfiguration.RecordsExactlyTheExplicit` | runtime/werk_media_companion.py:545-601 | a request that goes ahead has exactly the explicit, dishonoured parameters on record; under a strict policy none is new |
| `PipelineConfiguration.JudgeAllSplit` | runtime/werk_media_companion.py:2889-2900 | judging findings in one go or in two halves is the same |
| `PipelineConfiguration.ExplicitParameterGuard.Reject` | runtime/werk_media_companion.py:545-601 | records an explicit parameter once, raises under strict, warns under warn |
| `PipelineConfiguration.DiffusersConfigurationOutcome.Reject` | runtime/werk_media_companion.py:251-277 | keeps findings in dictionary order; a repeated path keeps its place and the extras it is not given anew |
| `PipelineConfiguration.Recording` | runtime/werk_media_companion.py:251-277 | the three dictionaries together represent the ordered list of findings |
| `PipelineConfiguration.Place` | runtime/werk_media_companion.py:2709-2754 | the placement branches agree with the placement that the request's flags and the hooks determine |
| `PipelineConfiguration.ConfigureDiffusersPipeline` | runtime/werk_media_companion.py:2698-2813 | with an outcome it records every VAE finding in order and touches neither guard nor warnings; without one it judges them on the spot |
| `PipelineConfiguration.ApplyLoras` | runtime/werk_media_companion.py:2816-2886 | loads LoRAs in order up to the first that fails, and reports a missing hook or unusable weights to outcome or guard |
| `PipelineConfiguration.ReplayDiffusersConfiguration` | runtime/werk_media_companion.py:2889-2900 | replaying a recorded outcome is judging its findings in order, although it looks at fatal ones before it asks the guard |
| `PipelineVerdicts.JudgedByFields` | runtime/werk_media_companion.py:545-601 | findings on distinct paths pass exactly when none that is fatal is implicit and no explicit, unrecorded one meets a strict policy; the first that stops gives the failure; else the implicit ones warn in order and each explicit new one is put on record |
| `PipelineVerdicts.VerdictByFields` | runtime/werk_media_companion.py:2756-2886 | a placed request whose LoRAs load goes ahead, cached or not, exactly when it lacks nothing explicit under strict and no LoRA of the defaults, with exactly the warnings about the other defaults it lacks |
| `PipelineVerdicts.ImplicitLorasAreNotIgnored` | runtime/werk_media_companion.py:2828-2844 | LoRAs of resolved defaults on a pipeline without a LoRA hook end the request as an unsupported parameter on both paths, unless a VAE parameter was strictly rejected before |
| `PipelineVerdicts.PlacedWhere` | runtime/werk_media_companion.py:2709-2754 | which offload is applied: the flags in their order, on CUDA only, with the hook for it; every other wish fails under its own name |
| `PipelineVerdicts.SharedWhen` | runtime/werk_media_companion.py:2381-2417 | two requests share a resident pipeline if and only if they agree on model, asset, task, image, device, dtype, the offload in effect, the slicing flags and the LoRAs with their weights |
| `PipelineVerdicts.FirstUnloadableIsFirst` | runtime/werk_media_companion.py:2845-2862 | the LoRA that is blamed is the first that does not load |
| `RecencyList.HeldAreTheMostRecent` | runtime/werk_media_companion.py:392-416 | a bounded list trimmed at each use holds exactly the most recently used keys of the whole history, in order |
| `RecencyList.RecentIsDistinct` | runtime/werk_media_companion.py:392-396 | the recency order of a history lists each used key once |
| `RecencyList.RecentIsByLastUse` | runtime/werk_media_companion.py:392-416 | the order is that of the last uses: the key used last at an earlier time stands first and goes first |
| `PipelineCache.DiffusersPipelineCache.Get` | runtime/werk_media_companion.py:392-396 | a hit returns the entry and makes it the youngest; a miss changes nothing |
| `PipelineCache.DiffusersPipelineCache.PrepareForLoad` | runtime/werk_media_companion.py:398-404 | gives up oldest slots until one more fits, cleaning each; does nothing for a resident key or a disabled cache |
| `PipelineCache.DiffusersPipelineCache.Put` | runtime/werk_media_companion.py:406-416 | stores the entry as the youngest, cleans a replaced entry and every slot over the bound, and takes the pipeline over from the request |
| `PipelineCache.DiffusersPipelineCache.Evict` | runtime/werk_media_companion.py:418-423 | gives up exactly this slot and cleans its pipeline |
| `PipelineCache.DiffusersPipelineCache.Clear` | runtime/werk_media_companion.py:425-429 | gives up every slot and cleans every pipeline |
| `PipelineCache.DiffusersPipelineCache.ReleaseOldest` | runtime/werk_media_companion.py:402-404 | keeps exactly the youngest slots that fit |
| `PipelineCache.OwnedSize` | runtime/werk_media_companion.py:371-416 | as no pipeline is in two slots, there are as many resident pipelines as slots |
| `PipelineCache.TidyWithout` | runtime/werk_media_companion.py:418-423 | giving up a slot keeps ownership unique and the slots in recency order, and moves no pipeline in flight |
| `PipelineCache.TidyWith` | runtime/werk_media_companion.py:406-416 | adding a slot keeps ownership unique and the slots in recency order |
| `PipelineCache.TidyTouched` | runtime/werk_media_companion.py:392-396 | a hit keeps the slots in recency order |
| `PipelineCache.Accelerator.Load` | runtime/werk_media_companion.py:3404-3420 | a pipeline may only be loaded while fewer than max(1, max_size) are alive |
| `PipelineCache.Accelerator.Cleanup` | runtime/werk_media_companion.py:344-351 | a pipeline may only be cleaned while it is alive, hence at most once |
| `PipelineRequests.ConfiguredEntryIsSound` | runtime/werk_media_companion.py:2381-2417 | what one request recorded is what any later request with the same key would record |
| `PipelineRequests.LoadAndConfigure` | runtime/werk_media_companion.py:3412-3466 | loads and configures with or without an outcome; running out of memory, a failed configuration and a device that fails at the end each end it, in this order, and the pipeline is cleaned |
| `PipelineRequests.ConfigureLoaded` | runtime/werk_media_companion.py:3420-3436 | with an outcome it finds what the key determines and leaves guard and warnings alone; without one it comes to the direct verdict |
| `PipelineRequests.PrepareDiffusersPipeline` | runtime/werk_media_companion.py:3377-3466 | a hit is served as it is; a miss makes room before loading, and stores what it loaded only when everything succeeded |
| `PipelineRequests.ExecutePrepared` | runtime/werk_media_companion.py:3522-3600 | replays the outcome, gives up the entry only when the call itself raised, and passes the warnings on |
| `PipelineRequests.ExecuteCached` | runtime/werk_media_companion.py:3469-3519 | with a cache: verdict of the replay, recency order after a success, and a rejected request does not cost a resident pipeline |
| `PipelineRequests.ExecuteUncached` | runtime/werk_media_companion.py:3496-3519 | without a cache: verdict of the direct path, and the pipeline is cleaned however the request ends |
| `PipelineRequests.ExecuteDiffusers` | runtime/werk_media_companion.py:3469-3519 | whatever was requested before, a request ends as it would without a cache, in unsupported map, warnings and verdict, always so when it is a hit; and told by its own fields: when it goes ahead, with which answer, and when it fails for LoRAs of the defaults |
| `PipelineRequests.ReplayedIsUncached` | runtime/werk_media_companion.py:3537-3543 | a request whose key is resident is never the exception, as its LoRAs were loaded before |
| `PipelineRequests.PrepareTransformersAudioEntry` | runtime/werk_media_companion.py:3926-3976 | shares the same list; an entry found under an audio key is an audio entry; a failure after the load cleans up |
| `PipelineRequests.ExecuteAudio` | runtime/werk_media_companion.py:4013-4019 | each outcome of loading and calling gives its own answer or failure; a failed call gives up the resident model, and a model of its own goes when the request ends |
| `PipelineRequests.Serve` | runtime/werk_media_companion.py:6395-6424 | over a worker's whole life, whatever each guard had on record before: every Diffusers reply is the uncached one, without failures the cache is the plain LRU list of the whole history, and in the end every loaded pipeline was cleaned exactly once |
| `LogFile.RenameKeepsText` | src/logging.rs:553-561 | moving a generation up into a free place does not change the retained text |
| `LogFile.RemoveOldestCutsPrefix` | src/logging.rs:549-552 | removing the oldest generation cuts exactly that file off the front of the retained text |
| `LogFile.AccountsAfterRemoval` | src/logging.rs:544-570 | removed files ++ retained text == initial text ++ everything appended, kept by removal |
| `LogFile.AccountsAfterAppend` | src/logging.rs:544-570 | the same, kept by an append, whole or partial |
| `LogFile.ShiftOneMore` | src/logging.rs:553-558 | one round of the descending loop shifts one more generation and nothing else |
| `LogFile.RotatedThenWritten` | src/logging.rs:544-570 | a completed shift followed by a write is a rotation: each generation one place up, the new one in front |
| `LogFile.GroupedKeepsLines` | src/logging.rs:544-570 | the generations together hold every line written, once and in order |
| `LogFile.GroupedSizes` | src/logging.rs:545 | each generation fits the bound or is a single over-long line, and only the first starts with what was found |
| `LogFile.GroupedIsGreedy` | src/logging.rs:545 | a new generation is begun only by a line that would have taken a nonempty one past the bound |
| `LogFile.ShownFits` | src/logging.rs:512-570 | each file fits the bound when the lines and the files found do |
| `LogFile.ShownSizeBound` | src/logging.rs:512-570 | then all files together take at most (keep + 1) * max bytes |
| `LogFile.ShowsNext` | src/logging.rs:544-570 | after one more write the files still show the last keep + 1 generations |
| `LogFile.RotatingFile.constructor` | src/logging.rs:512-543 | opens PATH, creating it if absent, with the size found |
| `LogFile.RotatingFile.Rename` | src/logging.rs:553-561 | a rename happens only onto a free place, as its precondition demands, and may fail without effect |
| `LogFile.RotatingFile.RemoveOldest` | src/logging.rs:549-552 | removes the oldest generation or fails without effect |
| `LogFile.RotatingFile.Rotate` | src/logging.rs:545-563 | cuts at most the oldest generation, and on success has shifted all and left PATH free; on failure PATH stays, the shift has stopped at a file that is still there, and the counter is kept so that the next write tries again |
| `LogFile.RotatingFile.Retry` | src/logging.rs:545-563 | however many attempts at a rotation fail, PATH is never lost, and together they cost at most the generations that were there |
| `LogFile.StoppedCounts` | src/logging.rs:553-563 | a rotation that stopped in the middle has one generation less exactly if there was an oldest one |
| `LogFile.RetriesRemove` | src/logging.rs:549-561 | rotations that fail again and again at one generation remove, retry by retry, exactly the existing files above it; only one file if it is the first rename that fails |
| `LogFile.AllCanBeLost` | src/logging.rs:549-561 | if moving PATH itself fails as often as there are generations, none of them is left |
| `LogFile.RotatingFile.OpenPath` | src/logging.rs:564-566 | creates PATH only when it is absent |
| `LogFile.RotatingFile.Append` | src/logging.rs:567-569 | appends a prefix of the line, the whole of it on success, and counts only success |
| `LogFile.RotatingFile.Write` | src/logging.rs:544-570 | whatever fails, the retained text stays a suffix of the initial text and all that was appended, cut at file boundaries; on success the line is appended, or all generations rotate first exactly if PATH is not empty and the line would take it past the bound |
| `LogFile.RotatingFile.WriteNext` | src/logging.rs:544-570 | a successful write keeps files and counter in step with the generations |
| `LogFile.RotatingFile.WriteAll` | src/logging.rs:544-570 | after an error-free run `bytes` is the size of PATH and the files are the last keep + 1 generations |
| `LogQueue.Conservation` | src/logging.rs:237-264 | in every reachable state: offered = dropped + queued + written + failed; handled lines are the accepted ones in order; every acknowledged flush had all lines accepted before it handled; and all that reached the file is accounted for |
| `LogQueue.Log` | src/logging.rs:237-275 | the same for a logger from its start, after any schedule of any number of producers, flushes and writer turns; and as long as no line failed, the disk is the greedy grouping of exactly the lines handled, within the configured size and retention; how many messages wait and were dropped is what counting against 4096 places says, and on a file system without failures no line fails |
| `LogQueue.WrittenOrFailed` | src/logging.rs:241-248 | every handled line was written or failed |
| `LogQueue.BarriersPush` | src/logging.rs:349-382 | a flush waits for exactly the lines accepted before it |
| `LogQueue.BarriersPop` | src/logging.rs:249-260 | when a flush is taken, exactly the lines it waits for have been handled |
| `LogQueue.LeftOfPush` | src/logging.rs:241-248 | a line leaves itself in the file, or a prefix and one failure |
| `LogQueue.Logger.constructor` | src/logging.rs:217-275 | starts empty over the files found |
| `LogQueue.Logger.Emit` | src/logging.rs:296-305 | queues the line or counts it as dropped, and never blocks |
| `LogQueue.Logger.TryFlush` | src/logging.rs:349-382 | queues a barrier behind everything accepted so far, when there is room |
| `LogQueue.Logger.WriteLine` | src/logging.rs:241-248 | writes one line and counts its failure |
| `LogQueue.Logger.TakeLine` | src/logging.rs:241-248 | the writer handles the oldest line |
| `LogQueue.Logger.TakeFlush` | src/logging.rs:249-260 | the writer acknowledges a flush only when everything accepted before it was handled |
| `LogQueue.Logger.RunSchedule` | src/logging.rs:237-264 | every schedule of any number of producers, flushes and writer turns keeps the account, and each turn of the writer takes the oldest message |
| `FileStore.FileStore.Put` | src/file_store.rs:66-141 | publishes the file complete or not at all, also when it crashes; removes no unexpired file; turns an upload away only if it is unacceptable by itself, has no room, or the store cannot be scanned, and else fails only by I/O or a crash; can be scanned afterwards exactly when its own metadata can be read back; and never takes a file that has expired already |
| `FileStore.FileStore.Publish` | src/file_store.rs:109-140 | staging, saving and renaming leave the store sound at every crash point |
| `FileStore.FileStore.Rename` | src/file_store.rs:139-140 | the rename is the one step at which the file appears |
| `FileStore.FileStore.Save` | src/file_store.rs:130-138 | the stage may be left partial; published files are untouched |
| `FileStore.FileStore.Admit` | src/file_store.rs:97-110 | refuses only for an unsafe principal, for want of room in count or bytes, overall or per principal, for metadata that cannot be read, or for I/O; admits only with room |
| `FileStore.FileStore.CheckRoom` | src/file_store.rs:98-108 | the scan and the quota check: admits only with room, and refuses only without it, before the scan as after it |
| `FileStore.RoomStays` | src/file_store.rs:98-108 | room is never lost by a scan |
| `FileStore.FileStore.Scan` | src/file_store.rs:193-245 | lists every live file once with its size, leaves none that has expired, removes only stages and expired files, and never trips its visit limit |
| `FileStore.FileStore.ScanSpace` | src/file_store.rs:213-239 | counts one visit for each entry of a namespace |
| `FileStore.FileStore.SweepSpace` | src/file_store.rs:196-243 | counts a namespace and its entries, and drops it when nothing is left in it |
| `FileStore.FileStore.Visit` | src/file_store.rs:220-238 | lists a live file, removes a stage or an expired file, fails on metadata it cannot read |
| `FileStore.FileStore.Get` | src/file_store.rs:153-168 | returns a file that has not expired as it was published; one that has is not found, and gone |
| `FileStore.FileStore.Metadata` | src/file_store.rs:170-183 | returns the metadata of a file that has not expired as it was published; one that has is not found, and gone |
| `FileStore.FileStore.List` | src/file_store.rs:143-151 | returns exactly the caller's files that have not expired |
| `FileStore.FileStore.Delete` | src/file_store.rs:185-191 | removes exactly the caller's file; fails only if there is none, its metadata cannot be read, or by I/O |
| `FileStore.FileStore.PerformAll` | src/file_store.rs:66-191 | through every sequence of operations of all principals a file stays unchanged until it expires or its owner deletes it |
| `FileStore.PutThenGet` | src/file_store.rs:66-168 | get undoes put, with anything in between; an acceptable upload with room fails only by I/O or a crash, and on a reliable file system the file is stored and comes back |
| `FileStore.QuotaMeans` | src/file_store.rs:99-108 | the sums over the listing decide exactly whether the quotas have room |
| `FileStore.RoomIsExact` | src/file_store.rs:99-108 | there is room exactly when the store with the new file in it keeps 1024 files and 1 GiB, and 256 files and 256 MiB of this principal |
| `FileStore.PublishedIsSound` | src/file_store.rs:97-140 | publishing within the quotas keeps them, and keeps the store small enough to scan |
| `FileStore.ScanLeft` | src/file_store.rs:195-219 | with namespaces, files and one abandoned stage a scan visits at most 2049 of its 3072 |
| `FileStore.UnreadableStays` | src/file_store.rs:193-245 | metadata that cannot be read is never removed by a scan, which then fails each time |
| `FileStore.StayUnreadable` | src/file_store.rs:185-245 | no operation, not even delete, gets rid of metadata that cannot be read |
| `FileStore.LongPurposeLocksOut` | src/file_store.rs:66-141 | an acceptable upload with a purpose of 8192 letters and room for it fails only by I/O or a crash; once accepted, no put is accepted any more, whatever happens in between |
| `FileStore.PublishConcludes` | src/file_store.rs:130-140 | after any end of publication the file is either absent or complete |
| `FileStore.ListedTotals` | src/file_store.rs:99 | the sum over the listing is the sum over the store |
| `FileStore.ListedOwned` | src/file_store.rs:100-101 | the filtered listing is exactly the principal's part of the store |
| `FileMetadata.BoundedPurposeIsReadable` | src/file_store.rs:312-320 | metadata with a purpose of at most 6000 escaped bytes can always be read back |
| `FileMetadata.LongPurposeIsUnreadable` | src/file_store.rs:75-96 | a purpose of 8192 letters, which put accepts, cannot |
| `FileMetadata.ApiPurposesAreShort` | src/api/files.rs:202-219 | every purpose the HTTP interface passes on is short enough |
| `FileMetadata.MetadataLengthIsItsText` | src/file_store.rs:134-135 | the size compared with the read limit is that of the JSON text in UTF-8 |
| `FileMetadata.FilenameGrows` | src/file_store.rs:79-92 | which characters and how many bytes a file name and a MIME type may have |
| `FileMetadata.ComponentsStayInside` | src/file_store.rs:248-254 | an accepted principal or id names one entry below its directory: no separator, dot or drive sign |
| `CacheTree.InspectCacheTree` | src/cache.rs:523-557 | succeeds if and only if the tree is within the limits, and then returns exactly the recursive byte sum and latest modification; each error names what some entry, or all of them, are guilty of |
| `CacheTree.LimitsByEntries` | src/cache.rs:523-557 | the limits on the list of all paths: at most 100000, each at most 32 levels down, owned, no link, a file with one name or a directory that can be listed, and bytes below 2^64 |
| `CacheTree.RecursiveSummarises` | src/cache.rs:536-551 | the recursive sums are the number, bytes and latest time of all paths below the root |
| `CacheTree.EntriesClosed` | src/cache.rs:548-551 | what a directory among the paths lists is among them, one level further down |
| `CacheTree.ReadDirectoryBounded` | src/cache.rs:565-574 | succeeds if and only if the directory can be listed and has at most `limit` children, in any order |
| `CacheTree.RemoveCacheTree` | src/cache.rs:559-563 | removes if and only if the root is an owned directory within the limits and the removal itself succeeds |
| `CacheTree.SumPermuted` | src/cache.rs:548-551 | the order in which a directory lists its children does not matter |
| `CacheTree.WholeBounds` | src/cache.rs:530-550 | entries counted and pending never exceed those of the whole tree |
| `CacheTree.DoneDirectory` | src/cache.rs:548-551 | replacing a directory by its children keeps what is still owed |
| `CacheTree.DoneLeaf` | src/cache.rs:543-547 | counting a file keeps what is still owed |
| `Telemetry.StartedIsAccountedFor` | src/observability.rs:408-434 | started = completed + errors + cancelled + open, always |
| `Telemetry.BeginAccounts` | src/observability.rs:132-147 | beginning a request keeps all accounts, with at most 128 live entries in the table |
| `Telemetry.FinishAccounts` | src/observability.rs:416-434 | finishing a request keeps all accounts, and the saturating subtraction never saturates |
| `Telemetry.RecentAfterFinish` | src/observability.rs:430-433 | the list of recent requests is exactly the last 64 finished, in order |
| `Telemetry.SumPush` | src/observability.rs:426-428 | token totals are the sums over finished requests modulo 2^64 |
| `Telemetry.CountersMean` | src/observability.rs:421-425 | each counter is the number of logged requests that ended in its own way |
| `Telemetry.FinishedMeans` | src/observability.rs:419-429 | finishing moves one counter, and the token totals gain exactly the tokens of this request, wrapping at 2^64 |
| `Telemetry.Telemetry.Begin` | src/observability.rs:132-166 | hands out the next identifier with an unfinished guard of its own |
| `Telemetry.Telemetry.Record` | src/observability.rs:416-434 | moves one open request to the log and bumps exactly one counter |
| `Telemetry.Telemetry.Snapshot` | src/observability.rs:167-194 | shows totals that add up, and the finished requests youngest first |
| `Telemetry.RequestGuard.Finish` | src/observability.rs:408-434 | counts a request the first time and never again |
| `Telemetry.RequestGuard.Done` | src/observability.rs:384-404 | counts a completion with its tokens, once |
| `Telemetry.RequestGuard.RawComplete` | src/observability.rs:323-357 | counts a completion with the tokens noted from all values seen, once |
| `Telemetry.RequestGuard.Error` | src/observability.rs:405-407 | counts an error, once |
| `Telemetry.RequestGuard.Drop` | src/observability.rs:463-471 | an unfinished request counts as cancelled, or as failed in a panic |
| `Telemetry.RequestGuard.FirstOutput` | src/observability.rs:358-375 | changes no account |
| `TelemetryRuns.Run` | src/observability.rs:109-194 | in every state reached with any number of guards used in any order: conservation, active = number of live guards, a bounded table of live identifiers, the last 64 finished, exact token sums, and counters that count the ways requests ended; each guard was counted by the first act that ended it, in the way that act says |
| `TelemetryRuns.Perform` | src/observability.rs:210-471 | the first act that ends a request decides how it is counted, and later ones change nothing |
| `TelemetryRuns.DoOne` | src/observability.rs:210-434 | using one guard leaves every other guard sound |
| `TelemetryRuns.OpenAreTheLive` | src/observability.rs:132-147 | the open identifiers are exactly those of the live guards |
| `ObservedStreams.DecidedIsTheFirst` | src/observability.rs:492-535 | the first poll with a verdict decides, and only that one |
| `ObservedStreams.ObservedStream.PollNext` | src/observability.rs:492-535 | yields exactly what the wrapped stream yields and then its end for ever; the request is counted as the trace so far decides |
| `ObservedStreams.ObservedStream.Drop` | src/observability.rs:463-471 | without a verdict by then the request was cancelled |
| `ObservedStreams.Observe` | src/observability.rs:478-535 | one request from beginning to end adds exactly one entry: the first closing event gives it prompt, output and cached tokens and the state of its reason, a first error or end means failed without tokens, and neither means cancelled, or failed in a panic |
| `RawStreams.AtTheEnd` | src/observability.rs:601-609 | at the end of the stream the request is completed if and only if nothing failed and every expected choice reported its end |
| `RawStreams.WhileRunning` | src/observability.rs:571-600 | before the end only a failure decides |
| `RawStreams.ObserveRaw` | src/observability.rs:537-613 | one raw request from beginning to end: completed exactly when all expected choices ended before the stream did and nothing failed, charged the numbers reported last under the reason given last; failed, or cancelled when it was dropped before, without tokens |
| `RawStreams.RawChargedByEvents` | src/observability.rs:562-613 | how the first poll that fails or ends the stream is counted |
| `RawStreams.ChargedAsReported` | src/observability.rs:323-357 | a completed request has the tokens reported last, cached ones from usage before timings, and the state of the last reason |
| `RawStreams.NotedIsLastSaid` | src/observability.rs:296-322 | what is noted of a number is its last report |
| `RawStreams.ReasonIsTheLast` | src/observability.rs:584-591 | the reason kept is that of the last choice that ended |
| `RawStreams.ClosedIffEnded` | src/observability.rs:576-594 | the finished set holds exactly the expected choices that reported their end |
| `RawStreams.FullIffAll` | src/observability.rs:603 | a set of indices below the expected number is full exactly when it has that size |
| `RawStreams.RawStream.PollNext` | src/observability.rs:562-613 | yields exactly what the wrapped stream yields and then its end for ever; finished set, reason, timings and count are those of the trace |
| `RawStreams.RawStream.SeeChoices` | src/observability.rs:576-594 | the loop over the choices of one value |
| `RawStreams.RawStream.Drop` | src/observability.rs:463-471 | without a verdict by then the request was cancelled |
| `DeploymentDevices.Total` | src/deployments.rs:77-91 | the exact sum, or failure exactly when it exceeds u64 |
| `DeploymentDevices.LeastFittingIsLeast` | src/deployments.rs:299-306 | automatic selection finds a fitting device whenever there is one, and none is smaller by total memory and identifier |
| `DeploymentDevices.TextBeforeMeans` | src/deployments.rs:304-305 | identifiers are compared by the first character in which they differ, a prefix first |
| `DeploymentDevices.FractionFitsEveryRank` | src/deployments.rs:486-494 | the one fraction keeps every rank within its own budget less the reserve |
| `DeploymentDevices.FractionIsAttained` | src/deployments.rs:486-494 | no larger fraction would do: it is 1 or some rank's whole share |
| `DeploymentDevices.PrintedFractionFits` | src/deployments.rs:496-499 | printed with eight decimals it exceeds that by at most 5e-9 of the device's memory |
| `DeploymentDevices.PrintedStaysProper` | src/deployments.rs:495-499 | which fractions between 0 and 1 are printed as 0 or 1 |
| `DeploymentDevices.FitsUnlessRoundedUp` | src/deployments.rs:486-499 | the printed fraction keeps every rank within its budget if and only if printing did not round up |
| `DeploymentDevices.PrintedCanExceed` | src/deployments.rs:488-499 | a concrete device and budget for which the printed fraction exceeds the share |
| `DeploymentDevices.UnclaimedHolds` | src/deployments.rs:211-217 | hiding claimed devices hides exactly those |
| `DeploymentPlanner.ResolveConfiguration` | src/deployments.rs:180-240 | succeeds only for version 1 and 1 to 64 profiles with an admissible list of plans, which it returns, and fails only when one of these is missing |
| `DeploymentPlanner.PlanNext` | src/deployments.rs:193-229 | plans the next profile exactly when it can be planned after the earlier ones |
| `DeploymentShapes.PlanShape` | src/deployments.rs:338-473 | of every admitted plan: TP * PP is the number of devices for vLLM; tensor and expert have TP = devices > 1 and PP = 1, expert without offload; pipeline PP > 1; single one device; layer is for llama only, its split absent or one ratio per device |
| `DeploymentShapes.PlanBudgets` | src/deployments.rs:262-337 | of every admitted plan: each device is CUDA with known free memory that takes the sum of all seven parts of its budget, with compute, overhead and reserve budgeted, and so is host memory |
| `DeploymentShapes.PlanFraction` | src/deployments.rs:482-495 | only vLLM plans have a fraction, strictly between 0 and 1; some rank has memory to spare and none exceeds its budget less the reserve |
| `DeploymentShapes.ShapedIsPlanned` | src/deployments.rs:193-499 | conversely, a profile of one of these shapes is planned with exactly its selected devices when they carry its budgets, some rank has memory to spare for vLLM, names do not clash, and the checks pass |
| `DeploymentShapes.ShapedIsShapeFits` | src/deployments.rs:338-473 | the shapes, strategy by strategy, are exactly what the sequence of checks lets through |
| `DeploymentShapes.NamedAreSelected` | src/deployments.rs:307-317 | named devices that are available are selected, in the order named |
| `DeploymentShapes.LeastIsSelected` | src/deployments.rs:299-306 | the available device with the least memory and the first name of those that fit is selected |
| `DeploymentShapes.FractionIsProper` | src/deployments.rs:486-495 | with budgets that fit, the fraction is always positive, and below 1 exactly when some rank has memory to spare |
| `DeploymentShapes.BudgetIsTheSum` | src/deployments.rs:77-91 | a budget is weights + replicated + kv + experts + compute + overhead + reserve, if that fits u64 |
| `DeploymentShapes.UnparallelPasses` | src/deployments.rs:597-601 | a profile that is not parallel passes the model check |
| `DeploymentPlanner.Claim` | src/deployments.rs:219-225 | the overlap error cannot occur: a chosen device is never one claimed before |
| `DeploymentPlanner.ResolveProfile` | src/deployments.rs:244-499 | succeeds exactly when devices are selected that hold the budgets, the strategy fits them and the checks pass |
| `DeploymentPlanner.CheckBudgets` | src/deployments.rs:323-337 | exactly when every device holds its budget |
| `DeploymentPlanner.LeastShare` | src/deployments.rs:488-494 | the fold over the ranks |
| `DeploymentPlanner.ParallelMeans` | src/deployments.rs:592-655 | passing the check means heads and experts split evenly over the ranks, and KV heads split or are replicated evenly |
| `DeploymentPlanner.SelectExplicitMeans` | src/deployments.rs:307-317 | explicit selection succeeds exactly when the identifiers are distinct and all visible |
| `DeploymentPlanner.PlansFit` | src/deployments.rs:299-337 | devices of a plan were visible and unclaimed, are all different, and have room for their budgets |
| `DeploymentPlanner.PlansAreDisjoint` | src/deployments.rs:211-225 | no device is in two plans |
| `DeploymentPlanner.AutoTakesTheLeast` | src/deployments.rs:299-306 | an automatic profile has the least fitting device not claimed earlier |
| `DeploymentPlanner.NamesAndHostAgree` | src/deployments.rs:194-238 | identifiers are unique, an alias names one model, and host budgets together fit the available memory |
| `DeploymentPlanner.RanksKeepTheReserve` | src/deployments.rs:323-499 | every rank of an admitted vLLM plan leaves its reserve free, up to what printing adds |
| `DeploymentPlanner.AliasesMean` | src/deployments.rs:205-210 | the last insertion under an alias speaks for all |
| `DeploymentPlanner.PrefixStuck` | src/deployments.rs:193-230 | if the next profile cannot be planned, no list of plans is admissible |
| `DeploymentOrder.ResolvableIffFeasible` | src/deployments.rs:180-240 | when every profile names its devices, the configuration can be resolved if and only if each profile can be planned alone, no two get in each other's way, and the host budgets fit |
| `DeploymentOrder.OrderDoesNotMatter` | src/deployments.rs:180-240 | the order of profiles that name their devices does not matter |
| `DeploymentOrder.SelectUnclaimed` | src/deployments.rs:211-217 | a profile that names its devices gets what it would get of the whole inventory, or nothing if one of them is claimed |
| `DeploymentOrder.ChoosingFirstFails` | src/deployments.rs:299-306 | an automatic profile that comes first may take the one device that a later one insists on |
| `DeploymentOrder.InsistingFirstSucceeds` | src/deployments.rs:193-239 | in the other order the same two profiles both get a device |
| `DeploymentOrder.OrderMatters` | src/deployments.rs:193-239 | so with automatic profiles the order decides whether the configuration can be resolved |
| `ApiKeys.KeyFileRoundTrip` | src/api_keys.rs:167-177 | parsing the printed file returns exactly that entry if and only if the name is trimmed and non-empty and the key valid; otherwise which entry or error it returns |
| `ApiKeys.WrittenKeyFileReadsBack` | src/api_keys.rs:35-56 | every file that is written reads back as exactly the entry returned, whatever name was asked for, as names are normalized before printing |
| `ApiKeys.BlankNameComesBackAsDefault` | src/api_keys.rs:158-177 | a limit of the printer by itself: a blank name would be read back as the default name |
| `ApiKeys.FilesReadBack` | src/api_keys.rs:83-127 | any number of printed files one after the other read back as their entries in order |
| `ApiKeys.CodeLengthEscaped` | src/api_keys.rs:216-246 | comment stripping leaves every escaped quoted value untouched |
| `ApiKeys.QuotedEscaped` | src/api_keys.rs:179-214 | reading a string inverts escaping it |
| `ApiKeys.PrintedLine` | src/api_keys.rs:167-177 | a printed field is one line that splits, trims and reads back to field and value |
| `ApiKeys.ParseTomlString` | src/api_keys.rs:179-214 | the scanner loop computes the recursive reader, with the same errors |
| `ApiKeys.StripComment` | src/api_keys.rs:216-232 | the scanner loop keeps exactly the code part |
| `ApiKeys.ParseApiKeysToml` | src/api_keys.rs:83-146 | the line loop computes the recursive reader, with the same errors at the same lines |
| `KeyFileSyntax.ValueAccepted` | src/api_keys.rs:179-214 | a value is accepted if and only if it is a quoted text of plain and backslashed characters with only white space behind it, and is what those mean |
| `KeyFileSyntax.ValueReads` | src/api_keys.rs:179-214 | what each closed or open quoted text comes to: its meaning, text behind the quote, or an unterminated string |
| `KeyFileSyntax.CommentBegins` | src/api_keys.rs:216-232 | a comment begins at the first number sign outside quotes |
| `KeyFileSyntax.StringIsPassed` | src/api_keys.rs:216-232 | a whole string is passed over, with any number signs and escaped quotes in it |
| `KeyFileSyntax.OpenStringHides` | src/api_keys.rs:216-232 | an open string hides the rest of the line |
| `KeyFileSyntax.FieldMeans` | src/api_keys.rs:100-117 | a name is trimmed or becomes default, a key must not be blank nor hold control characters, and other fields are passed over |
| `KeyFileSyntax.OtherLinesFail` | src/api_keys.rs:92-103 | blank lines are passed over, and a line without an equals sign is refused under its number |
| `KeyFileSyntax.SectionCloses` | src/api_keys.rs:95-99 | a section head closes the section before it, which must have a key if it has a name |
| `KeyFileSyntax.UnfinishedFile` | src/api_keys.rs:120-146 | so does the end of the file, under the number after the last line |
| `KeyFileSyntax.ReadInOrder` | src/api_keys.rs:89-119 | lines are read in order under their own numbers, and the first that fails decides |
| `KeyFileSyntax.TrimMeans` | src/api_keys.rs:158-165 | trimming takes away all white space at the two ends and nothing else |
| `Reasoning.OutputLimitIsBounded` | src/generation_limits.rs:17-51 | the output used is the largest that request, model maximum and context less 512 all permit |
| `Reasoning.LeastBoundIsLeast` | src/generation_limits.rs:26-50 | a model bound is the least of those stated |
| `Reasoning.TierAvailability` | src/reasoning.rs:100-116 | a budget tier is on offer exactly when its own minimum fits the output and its tokens the configured budget; it then leaves the reserve |
| `Reasoning.DefaultIsTheLargest` | src/reasoning.rs:117-134 | there is a default exactly when there is output, and it is the largest eligible tier, or Off |
| `Reasoning.DefaultIsMonotone` | src/reasoning.rs:54-134 | more requested output never means a smaller default |
| `Reasoning.DefaultResolvesToItsTier` | src/reasoning.rs:194-226 | asking for the default is asking for the default tier by name |
| `Reasoning.GrantedBudgetsFit` | src/reasoning.rs:194-226 | a granted budget plus reserve fits the output and every ceiling of the model |
| `Reasoning.NativeTiersAreTheCommonEfforts` | src/reasoning.rs:142-171 | native tiers are exactly the valid efforts both allowed and known, each once |
| `Reasoning.NativeTiersResolveToThemselves` | src/reasoning.rs:172-226 | a native tier is selected by its own name if and only if it is not called "default" without being the default |
| `Reasoning.NativeTiersAreSelectable` | src/reasoning.rs:200-226 | without an effort called "default" in the vocabulary, every native tier is selected by its own name |
| `Reasoning.ReportedEffortsAreSelectable` | src/backend/omlx.rs:615 | so it is for the vocabularies that the backends report |
| `Reasoning.NativeDefaultOutOfReach` | src/reasoning.rs:200-211 | a limit of the function by itself: with a vocabulary that has an effort called "default", that tier could be on offer and out of reach |
| `Reasoning.BuildProfile` | src/reasoning.rs:54-191 | the profile built is the one specified |
| `Reasoning.BuildBudgetProfile` | src/reasoning.rs:83-136 | the loops over tiers, names and candidates build the specified profile |
| `Reasoning.BuildNativeProfile` | src/reasoning.rs:137-188 | the loop over efforts builds the specified profile |
| `ReasoningLimits.CeilingsMean` | src/generation_limits.rs:17-51 | the context is the runtime's own or the least stated bound from 1 to 2000000; the maximum is the smaller of the least stated output bound and the context less one |
| `ReasoningLimits.TierTable` | src/reasoning.rs:100-116 | the six tiers in full: names, labels, 0 to 8192 tokens, least outputs, and when each is on offer |
| `ReasoningLimits.DefaultMeans` | src/reasoning.rs:117-134 | Off when thinking is off or the budget is zero; else the largest of the six sizes that output, reserve, budget and named default all allow |
| `ReasoningLimits.AdjustedMeans` | src/reasoning.rs:134-136 | the default counts as adjusted unless it is what the backend names, or else budgets |
| `ReasoningLimits.ResolvedByName` | src/reasoning.rs:194-226 | a tier by name is granted exactly when it is one of the six and affordable, with exactly its tokens; else which refusal |
| `ReasoningLimits.NativeDefaultMeans` | src/reasoning.rs:172-188 | the native default is the tier of the fallback effort: none when thinking is off, else the backend's, else the model's |
| `ReasoningLimits.NativeByName` | src/reasoning.rs:137-226 | a native effort by name is granted exactly when it is well formed, allowed and known to the backend; else which refusal |
| `ReasoningLimits.DefaultWithoutTier` | src/reasoning.rs:80-211 | without a backend nothing is offered, and asking for a default that is not known leaves the request as it is |

## Left out

- Durations: a deadline is a step that may happen at any wait; that waits are bounded by the stated seconds is not modelled.
- Identifier wrap-around: request identifiers and started requests are unbounded numbers, not `u64` counters.
- Resident transport: mutex poisoning, the page-cache release guards, captured stderr, error texts, and process details of one-shot calls.
- JSON text: parsing and printing of JSON lines is taken as given; frames and lines are JSON values or undecodable.
- Worker dispatch: a resident worker may print anything; only the envelope of the bundled worker is modelled.
- Pipeline world: what the libraries and local files do is a function of the identities in the cache key and does not change during a run, except that any model load may run out of memory and the device may fail after it.
- Pipeline hooks: enabling tiling, slicing or adapters through a hook that exists is assumed to work; loading without a hook is never tried.
- Pipeline entries hold a snapshot of the recorded outcome, not the outcome object, which the code never changes after configuring.
- Request parsing before the cache: `normalized_parameters`, `normalized_lora_specs`, the cache size setting, and `validate_supported`, whose effect is the guard a request starts with.
- Call values and keyword filtering of a Diffusers call: their result is the given outcome of the call, before or in it.
- PipelineRequests.ExecuteAudio: the audio adapters' own processing is left out, only its failure is modelled.
- Logging: scrubbing, formatting and console output; a disconnected writer thread; `Path::exists()` is taken as accurate, where the code reads an error as absence.
- File store locks and directory permissions: the lock is mutual exclusion, and removing a published file is one atomic step.
- File store durability: a synced write is taken as done; what a power loss does to it is not modelled.
- Cache tree: ownership and link checks of an entry are a property of the entry; purging, chat locks and worker locks are not modelled.
- Telemetry: clocks, elapsed times and rates are left out, and so are the phases and results of non-generative analysis requests.
- Planner: text checks of identifiers and paths, llama offload translation, native options, digests and `--help` probes are two given predicates that may refuse a profile.
- Planner: order and kind of errors, beyond the order of the steps, and the argument list and environment of a plan.
- DeploymentDevices.FractionFitsEveryRank: the fraction is real arithmetic, so rounding of binary floating point is not modelled, only the printed decimals.
- API keys: drawing random bytes, file permissions and the write itself.
- Reasoning: the texts of refusals, and `consistent` over several backends.
- Other files of the repository (HTTP routes, prompt rendering, command line, catalog, release scripts, purge) are not part of this model.
