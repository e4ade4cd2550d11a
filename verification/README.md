# Verification of the Fyredocs job pipeline

This project models the parts of Fyredocs that coordinate work and proves properties of them, in Dafny 4.11:
job submission and its Redis protocol, delivery of jobs to the workers with retries, dead letters and redrives,
the workers' result cache and scratch-space guard, the sliding-window rate limiters, the latency histograms, the
page-range parser, the expiry sweep and its lock, the alert throttle and the progress throttle.

`dafny verify dfyconfig.toml` checks everything.

## How it is organised

| files | what they model |
|---|---|
| `Submission`, `SubmissionInvariant`, `SubmissionSafety` | `CreateJobFromTool` as a transition system: one step is one Redis or database call of one of any number of requests, or a step of the upload handlers, a TTL, or a deletion; invariants over every interleaving |
| `SubmissionKeys`, `SubmissionAnswers`, `SubmissionCollisions`, `SubmissionReplay` | the `idempotency:*` keys that reservations and consumed-upload records share: what replays rely on, the runs that break it, and exactly which Idempotency-Key headers and lapses keep it |
| `SubmissionCalls`, `SubmissionOutcomes`, `SubmissionHandler` | the same handler as the program it is (loops, early returns, deferred releases), for uploads and for files in the request, proved to be a run of that system; which request gets which answer, told without the system |
| `Delivery`, `DeliveryInvariant`, `DeliveryCareful`, `DeliverySafety` | the dispatch queue, worker handlers, dead-letter stream, redrives, deletions and downloads as a transition system; what holds in every run, and in every run with careful redrives |
| `DeliveryOutputs`, `DeliveryWhole` | where output rows come from, in every run; a whole redrive and a whole download |
| `DeliveryThreat`, `DeliveryUndone`, `DeliveryRedrives` | exactly when a job can be taken out of `completed`, told from a state or from what a redrive fetches |
| `WorkerHandler` | `processMessage` and what it calls as a program, proved to be a run of that system |
| `JobService` | the redrive loop and `DownloadJobFile` as programs |
| `Encoding`, `ResultCache`, `CacheRuns` | cache keys and alert fingerprints; the staging of inputs; when equal keys mean equal results; runs of workers sharing the cache |
| `Scratch` | the scratch-space guard of one worker pod |
| `RateLimit`, `RateLimiter` | the Lua script, its exactness, and the two middlewares that call it |
| `Histogram`, `Scrape`, `Endpoints` | quantile interpolation, merging of series, and the two reports |
| `PageParts`, `PageRange` | which parts of a page selection are accepted; the two parsers and the equal split |
| `Text`, `Wrappers` | `strings.TrimSpace` and `strings.ToLower` with what they mean, and `Option` |
| `Sweep`, `SweepLock` | the expiry sweep and its lock |
| `Alerts`, `Progress` | the alert throttle and the progress throttle |

A transition system is a `Step` datatype, an `Enabled` predicate and an `Apply` function; `Reachable` worlds are
those that some list of enabled steps leads to, so a lemma about reachable worlds speaks of every run.  Code that
updates state step by step is a class or a method with loops, proved against a specification function.

## Assumptions

- Time is an integer, and sorted-set scores are exact integers.  Floating-point numbers are reals.
- SHA-256 is injective, so keys and fingerprints are compared before hashing.  Equal ETags mean equal content.
- Identifiers (jobs, uploads, tokens, rows) are fresh: they are UUIDs.
- Redis and database calls on the modelled path succeed, except where a step, or an input of a handler (`Calls`, or a
  function from positions to outcomes), says that the call may fail; results hold for every such input.
- Claims do not expire while in use.  Any Redis key below `idempotency:`, reservation or consumed-upload record, may
  lapse at any time; results that need a key not to have lapsed say so.
- A message is not redelivered while a handler runs on it, and handlers do not crash or panic.  (The consumer sets
  `AckWait` to 30 minutes and also a `BackOff` list, which shortens it; how a broker combines them is not modelled.)
- Delivery is that of convert-to-pdf, whose retry branch writes `queued`.  In convert-from-pdf the retry branch
  keeps `processing` (`convert-from-pdf/internal/worker/worker.go:458-466`) and the guard at lines 239-247 of that
  file acks such a redelivery, so the retry results do not carry over to it.
- A fetched redrive batch holds no entry twice: an entry that is NAKed because it was skipped or its publish failed does
  not come back within the same fetch.
- A redrive is careful if it fetches no dead letter that another redrive still holds and none that was republished
  before.  Redrives may overlap and their deletes may fail.  The results whose rows say so are about runs with careful
  redrives; `DeliveryRedrives.FetchUndoesIffRisky` says exactly which other fetches put a completion at risk.
- Upload ids are any non-empty strings.  A reservation and a consumed-upload record are the same kind of Redis key, and
  the Idempotency-Key header is not checked, so a header `upload:<id>` names the record of that upload;
  `SubmissionReplay` says which results need that no such header arrives, and which one does not.
- Two inputs of a job with one base name are staged in one file, as in the source, so the tool sees the later one twice
  (`ResultCache.StagedIffApart`).

## Model

| member | source | states |
|---|---|---|
| `SubmissionInvariant.StepKeepsInv` | job-service/handlers/jobs.go:94-419 | every call of every request, whatever its Idempotency-Key, and every upload, TTL or deletion step, keeps the invariant of the protocol: owned claims, committed rows, cleared uploads, one event per upload |
| `SubmissionSafety.UploadsDispatchedAtMostOnce` | job-service/handlers/jobs.go:239-263 | in every reachable state an upload id is an input of at most one dispatched event, once in it, and no job is dispatched twice |
| `SubmissionSafety.DispatchedInputs` | job-service/handlers/jobs.go:655-720 | a dispatched event carries, in request order, exactly the object keys its uploads were initialised with, and so do the job's input rows; a late CompleteUpload write is never consumed |
| `SubmissionSafety.ClaimsExclude` | job-service/handlers/jobs.go:763-780 | two requests that are past claimUploads and not yet released share no upload |
| `SubmissionSafety.ClaimsAreLive` | job-service/handlers/jobs.go:785-794 | every claim belongs to a request that is still running and lists the upload: no claim leaks |
| `SubmissionSafety.RowsAreCommits` | job-service/handlers/jobs.go:351-370 | until it is deleted, a job row exists exactly for a request that committed it |
| `SubmissionSafety.ClearedUploadIsSpent` | job-service/handlers/jobs.go:405-408 | once a submission has passed an upload, its session can never be consumed again |
| `SubmissionKeys.StepKeepsKeys` | job-service/handlers/jobs.go:94-122 | while no header is a record's key, every step keeps reservations with their requests and records with the job that took the upload, each until it lapses |
| `SubmissionReplay.CommitsOnceUntilLapse` | job-service/handlers/jobs.go:94-122 | whatever the headers are, `upload:<id>` included: until an Idempotency-Key lapses, at most one request that has it commits a job |
| `SubmissionReplay.OneCommitPerKey` | job-service/handlers/jobs.go:736-741 | in every run with headers from one set and lapsing keys from another each key commits at most once, exactly if the sets have no key in common |
| `SubmissionReplay.ReservationsFollowCommits` | job-service/handlers/jobs.go:116-122 | in every run with headers from a set a key names the job from the commit on until it lapses, and never once its request has ended without committing, exactly if no header of the set is `upload:` followed by an id |
| `SubmissionReplay.ClearedUploadsAreRecorded` | job-service/handlers/jobs.go:405-408 | exactly then the record of a cleared upload names the dispatched job until it lapses |
| `SubmissionReplay.ReplaysFindTheJob` | job-service/handlers/jobs.go:815-839 | exactly then looking up the id list of a submission that has cleared its uploads gives its job while the job exists |
| `SubmissionReplay.ExistingAnswersAreReplays` | job-service/handlers/jobs.go:100-113 | exactly then an answer that names an existing job names one committed under the request's own key or one that took every upload the request lists, however requests interleave |
| `SubmissionCollisions.StrangersJob` | job-service/handlers/jobs.go:748-750 | for any admitted header `upload:<id>`, a run in which a request for that upload is answered with the job of a request that never had it |
| `SubmissionCollisions.CommittedAgain` | job-service/handlers/jobs.go:736-741 | for any admitted header, a run in which its reservation lapses and a second request commits under it |
| `SubmissionHandler.Server.ClaimUploads` | job-service/handlers/jobs.go:763-780 | all-or-nothing: all ids are claimed exactly if every SETNX goes well and no id is held or listed twice, and otherwise every claim is as before; a conflict exactly if the first claim not set was refused for that |
| `SubmissionHandler.Server.FindExistingJobForUploads` | job-service/handlers/jobs.go:815-839 | the loop returns a job exactly if it exists and the key `upload:<id>` of every id names it |
| `SubmissionHandler.Server.ConsumeUploads` | job-service/handlers/jobs.go:221-240 | succeeds exactly if every upload has a session with a file name and a key and passes its checks, and then gives the object keys in order |
| `SubmissionHandler.Server.RecordAndRelease` | job-service/handlers/jobs.go:405-408 | every upload is recorded for the job and every session is gone |
| `SubmissionHandler.Server.CommitAndPublish` | job-service/handlers/jobs.go:351-408 | commits exactly if the transaction does, Created exactly if the publish succeeds too; a failed publish leaves the committed row and touches no upload |
| `SubmissionHandler.Server.CreateJobFromUploads` | job-service/handlers/jobs.go:66-419 | a whole JSON submission from any state, with nothing else running: Created exactly if the body parses, lists 1 to the plan's maximum of uploads, repeats no earlier submission, has valid options, every claim is free, every session complete and checked, and transaction and publish succeed; Existing, Conflict, Rejected and Failed by such conditions too; the exact new row, event, records and sessions; any uncommitted outcome leaves everything as it was; the handler is a run of the machine |
| `SubmissionHandler.Server.CreateJobFromFiles` | job-service/handlers/jobs.go:242-312 | the same for a request that brings its files: when they are accepted, refused or fail, what is queued with which keys, and that stored objects stay only if the job is queued, so not when only the publish of a committed job failed |
| `SubmissionHandler.Server.StoreDirectUploads` | job-service/handlers/jobs.go:277-311 | the loop stores all files exactly if each fits; the first that does not decides between a refusal and a failure |
| `SubmissionSafety.CreatedIffDispatched` | job-service/handlers/jobs.go:385-419 | however requests interleave, one that has ended was answered Created exactly if the event of its job and uploads has been dispatched |
| `DeliveryInvariant.StepKeepsInv` | convert-to-pdf/internal/worker/worker.go:311-603 | every statement of every handler, delivery, redrive, deletion and download keeps the delivery invariant |
| `DeliveryCareful.StepKeepsCareful` | convert-to-pdf/internal/worker/worker.go:339-350 | with careful redrives every step keeps one token per job, and status, output rows and download cache in step with it |
| `DeliverySafety.NoJobIsLost` | convert-to-pdf/internal/worker/worker.go:545-603 | over every interleaving a dispatched job is completed or deleted, or pending with a delivery owed, in a handler, or dead-lettered, unless its dead-letter publish failed |
| `DeliverySafety.ProcessingHasHandler` | convert-to-pdf/internal/worker/worker.go:349-350 | a job that says processing has a handler at work on it |
| `DeliverySafety.OneVerdictPerRun` | convert-to-pdf/internal/worker/worker.go:243-251 | a message is handled at most four times, each finished run gave exactly one verdict, an Ack is the last, and a pending message still has a delivery owed |
| `DeliverySafety.RetriesAreNotSkipped` | convert-to-pdf/internal/worker/worker.go:339-347 | with careful redrives a NAK is sent only with a delivery owed and the job queued, so the status check never skips the retry |
| `DeliverySafety.AckFollowsTerminalStatus` | convert-to-pdf/internal/worker/worker.go:491-499 | with careful redrives the step on which a handler turns to its Ack leaves the job completed or failed |
| `DeliverySafety.AckedJobsAreFinished` | job-service/handlers/dlq.go:74-96 | with careful redrives a job has at most one message or dead letter standing for it, and none exactly when it is completed (or its dead-letter publish failed) |
| `DeliverySafety.CompletedIsAbsorbing` | convert-to-pdf/internal/worker/worker.go:482-493 | with careful redrives no step takes a job out of completed, and its one output row stays until its deletion begins |
| `DeliverySafety.CacheHitsAreCurrent` | job-service/handlers/jobs.go:561-574 | with careful redrives every outputFileCache hit for a completed job whose deletion has not begun is that job's only output row |
| `DeliveryThreat.CarefulStepIsCalm` | job-service/handlers/dlq.go:69-96 | no step with careful redrives threatens a job that was not threatened: a job's chances to reach a handler are never multiplied |
| `DeliveryUndone.UndoneIffThreatened` | convert-to-pdf/internal/worker/worker.go:339-350 | from any reachable state, whatever redrives have done, later careful steps can take a job out of completed exactly if it is threatened: completed under a working handler, in process with a second chance beside one, or waiting with two chances not both about to complete it |
| `DeliveryRedrives.FetchUndoesIffRisky` | job-service/handlers/dlq.go:69-96 | after careful redrives, the next fetch can undo a completion exactly if it brings a dead letter that is held or was republished, of an uncompleted job that has another chance |
| `DeliveryRedrives.ConcurrentFetchUndoesCompletion` | job-service/handlers/dlq.go:69-96 | such a fetch: a second redrive beside one that still holds the entry |
| `DeliveryRedrives.FailedDeleteUndoesCompletion` | job-service/handlers/dlq.go:88-93 | and one with redrives strictly one at a time: after a delete that failed, the next redrive fetches the republished entry again |
| `WorkerHandler.Worker.ProcessMessage` | convert-to-pdf/internal/worker/worker.go:311-499 | one delivery from receipt to its single verdict, for every payload, status found and outcome of its calls: the exact verdict, status, output rows (the one row is `jobs/{id}/{name}` of what this run stored or copied) and dead letters, nothing of other jobs, as a run of the delivery machine |
| `WorkerHandler.Worker.HandleFailure` | convert-to-pdf/internal/worker/worker.go:545-603 | NAK exactly when the fault is recoverable and fewer than four deliveries were made, leaving the job queued; otherwise the job is failed, and dead-lettered exactly if that publish succeeds |
| `WorkerHandler.Worker.TryServeFromCache` | convert-to-pdf/internal/worker/worker.go:506-543 | served: one output row and a completed job; not served: the status is unchanged and conversion goes on |
| `WorkerHandler.Worker.RecordOutput` | convert-to-pdf/internal/worker/worker.go:661-677 | the job's output rows are replaced by exactly one, or by none when the insert fails |
| `WorkerHandler.Worker.Convert` | convert-to-pdf/internal/worker/worker.go:428-499 | from staging on: completed with the stored output as its one row and acked, or the failure of its fault or of the row's insert |
| `DeliveryOutputs.RowsHoldStoredKeys` | convert-to-pdf/internal/worker/worker.go:464-472 | after any run every output row of a job holds a key under which a handler of that job stored its conversion or a cached copy in that run |
| `DeliveryOutputs.CompletedRowIsStored` | convert-to-pdf/internal/worker/worker.go:661-677 | with careful redrives a completed job whose deletion has not begun has exactly one row, of such a key |
| `JobService.Streams.RedriveDLQ` | job-service/handlers/dlq.go:73-97 | exactly the entries of the four workers whose publish succeeds are republished, in order, and of these exactly the ones whose delete succeeds are gone; the three counters count that and add up |
| `DeliveryWhole.RedriveMovesBatch` | job-service/handlers/dlq.go:73-97 | from any state of the delivery machine a redrive alone moves its batch to the dispatch queue, one fresh message an entry, in order, and changes nothing else |
| `DeliveryWhole.DownloadCachesRow` | job-service/handlers/jobs.go:561-574 | a download alone caches the job's first output row and changes nothing else |
| `JobService.Downloads.DownloadJobFile` | job-service/handlers/jobs.go:544-578 | which row is served in each case, and that with a current cache it is the database's row and the cache stays current |
| `Encoding.CacheKeysAgree` | convert-to-pdf/internal/worker/cache.go:88-102 | cache preimages are equal exactly if tool and options agree and the ETags are the same up to order |
| `Encoding.BuildCachePreimage` | convert-to-pdf/internal/worker/cache.go:88-102 | the writes to the hash are tool, options and the ETags in ascending order, each ended by a NUL |
| `Encoding.FingerprintsSeparateIff` | shared/discord/discord.go:89-104 | over label maps with names from a set, equal fingerprint preimages always mean equal maps exactly if no name is another name with '=' and more behind it |
| `Encoding.FingerprintsAgree` | shared/discord/discord.go:89-104 | so for names without '=' preimages are equal exactly if the label maps are |
| `Encoding.Fingerprint` | shared/discord/discord.go:89-104 | whatever order the map yields its keys in, the same preimage is written |
| `ResultCache.KeysAgree` | convert-to-pdf/internal/worker/cache.go:88-134 | two payloads share a key exactly if the tools are equal, the options parse to one value or do not parse and are one text (none at all is the empty object), and the inputs are the same contents, in any order and under any names |
| `ResultCache.CanonicalIffSame` | convert-to-pdf/internal/worker/cache.go:104-119 | options have one canonical form exactly if they say the same in that sense, and then they reach the converter as one options map |
| `ResultCache.OptionsAreRead` | convert-to-pdf/internal/worker/worker.go:352-357 | the converter gets the fields of an object as written, and no options for anything else; the canonical form reads as the original does |
| `ResultCache.FetchInputs` | convert-to-pdf/internal/worker/storage.go:44-54 | fails exactly if an object is missing; otherwise each local path is the base name of its key and holds the last object with that base name |
| `ResultCache.StagedIffApart` | convert-to-pdf/internal/worker/storage.go:44-54 | the converter sees the inputs as they are exactly if no two different ones have one base name |
| `ResultCache.CacheableIffBlind` | convert-to-pdf/internal/worker/cache.go:85-102 | for a tool and a number of inputs that can be told apart, equal keys mean equal results exactly if the tool minds neither the order nor the names of its inputs |
| `ResultCache.SingleInputBlind` | convert-to-pdf/internal/worker/cache.go:85-102 | for one input that is: the tool does not mind the name of the file |
| `CacheRuns.RecordedOutputIsResultIff` | convert-to-pdf/internal/worker/worker.go:470-543 | in every run over a set of jobs, with conversions, copies, deletions and cache expiry interleaved, every recorded output is what converting its own inputs gives, exactly if jobs of the set with one key have one result |
| `CacheRuns.BlindToolsAreCompatible` | convert-to-pdf/internal/worker/cache.go:85-102 | which holds for tools that mind neither order nor names, and inputs that can be told apart |
| `CacheRuns.CacheHitIsTransparent` | convert-to-pdf/internal/worker/worker.go:506-543 | over such jobs the copy a cache hit makes is the job's own result |
| `Scratch.ProjectedIsFootprint` | convert-to-pdf/internal/worker/tmpfs.go:39-45 | the int64 arithmetic gives the inputs and pct percent of them, a negative pct counting as 0, exactly if neither the product nor the sum overflows |
| `Scratch.PassesIffOutputsFit` | convert-to-pdf/internal/worker/worker.go:399-405 | where nothing overflows a job passes exactly if its inputs fit the budget together with every output of at most pct percent of them, and is large exactly above the threshold |
| `Scratch.GuardedIffHonest` | convert-to-pdf/internal/worker/worker.go:393-402 | every job past the guard fits the budget, in every run on a set of input totals, exactly if no total of the set passes on an overflow |
| `Scratch.TotalInputSize` | convert-to-pdf/internal/worker/tmpfs.go:49-59 | the int64 congruent to the sum of all sizes modulo 2^64, or an error exactly if some size is missing |
| `Scratch.WorkingBound` | convert-to-pdf/internal/worker/worker.go:393-411 | for any limits, input totals and bound, handlers at work stay within the bound in every run exactly if small jobs that pass would in every slot, and each large one beside such jobs in all others |
| `Scratch.ScratchBound` | convert-to-pdf/internal/worker/worker.go:393-411 | so with an undeceived guard they use at most one budget plus the largest small job for each other slot |
| `Scratch.ScratchBoundConfigured` | convert-to-pdf/internal/worker/tmpfs.go:20-45 | with non-negative limits: at most budget + (C-1) x footprint(threshold) |
| `Scratch.DiskBound` | convert-to-pdf/internal/worker/worker.go:386-405 | for any limits, input totals and bound, all files on disk stay within the bound in every run exactly if the largest job that passes would in every slot: deferred calls free the large-job slot before the directory is removed |
| `Scratch.DiskKeepsBoundIff` | convert-to-pdf/internal/worker/worker.go:386-405 | the disk keeps to the bound of the working handlers exactly if every slot could hold a large job that passes |
| `Scratch.DefaultsNeedOneSlot` | convert-to-pdf/internal/worker/tmpfs.go:25-34 | with the default limits exactly if the pod has one handler slot |
| `RateLimit.CountsLikeUnboundedLog` | api-gateway/internal/ratelimit/ratelimit.go:47-60 | for strictly increasing times and a window of a second or more, the trimmed and expiring set counts exactly the requests of the last window |
| `RateLimit.ExactIffWindowIsASecond` | api-gateway/internal/ratelimit/ratelimit.go:173-183 | over all histories the count is exact if and only if the window is at least a second (or one nanosecond) |
| `RateLimit.NoWindowExceedsCeiling` | auth-service/middleware/ratelimit.go:124-154 | no interval of window length, wherever it starts, admits more than the ceiling |
| `RateLimit.RemainingIsHonoured` | api-gateway/internal/ratelimit/ratelimit.go:149-164 | the next `remaining` requests on the key are admitted whatever their spacing |
| `RateLimit.RemainingIsTight` | api-gateway/internal/ratelimit/ratelimit.go:149-164 | and the one after them is refused while no counted request has left the window |
| `RateLimiter.Store.RunScript` | api-gateway/internal/ratelimit/ratelimit.go:47-60 | trim, count, add and expire keep the key the image of its request log, to live for twice the window's whole seconds, leave other keys alone and return the log's count |
| `RateLimiter.Middleware` | api-gateway/internal/ratelimit/ratelimit.go:62-169 | a request is limited exactly when there is a client, the path is /api or below it and the script works; then it is served or refused on the logged count of its bucket: a signed-in non-guest's by id and by a plan spelled pro or free in any case, anyone else's by the first X-Forwarded-For entry or the host; under the configured ceiling, or 600, 120 and 30, with remainder, reset and retry times |
| `RateLimiter.CheckLimit` | auth-service/middleware/ratelimit.go:124-154 | allowed exactly if the logged count is below the ceiling plus a positive burst, with what then remains |
| `RateLimiter.BucketsDoNotMix` | api-gateway/internal/ratelimit/ratelimit.go:80-142 | two requests share a bucket exactly if they are of one user on one plan or of one address, so each bucket has one ceiling |
| `Histogram.HistogramPercentile` | analytics-service/internal/promscrape/scraper.go:279-311 | the two scans compute interpolation in the first bucket that reaches the target, else the last finite bound |
| `Histogram.PercentileIsLinear` | analytics-service/internal/promscrape/scraper.go:288-303 | in the first bucket that reaches the target the estimate divides the way between the bounds as the target divides the counts |
| `Histogram.PercentileIsLastBound` | analytics-service/internal/promscrape/scraper.go:304-310 | if none reaches it, it is the last finite bound, or 0 |
| `Histogram.NeverDividesByZero` | analytics-service/internal/promscrape/scraper.go:293-299 | the bucket interpolated is never empty and the fraction lies in (0, 1] |
| `Histogram.ResultInBucket` | analytics-service/internal/promscrape/scraper.go:288-303 | the estimate lies above the previous bound, or from 0 in the first bucket, and not above the bound of the bucket that crosses |
| `Histogram.MonotoneIff` | analytics-service/internal/promscrape/scraper.go:279-311 | for ascending bounds a larger quantile never gets a smaller estimate exactly if the first bound is infinite, not negative, or has no samples |
| `Histogram.EstimateSharesBucket` | analytics-service/internal/promscrape/scraper.go:279-311 | the estimate and the true quantile, the sample of rank ceil(q x total), lie in one bucket when a finite bucket holds the true one |
| `Histogram.EstimateIsClamped` | analytics-service/internal/promscrape/scraper.go:304-310 | otherwise the estimate is the last finite bound |
| `Histogram.TrueQuantileExists` | analytics-service/internal/promscrape/scraper.go:278-284 | a sample of that rank exists |
| `Scrape.SortedBuckets` | analytics-service/internal/promscrape/scraper.go:171-178 | whatever order the map yields, an ascending list of exactly its entries |
| `Scrape.AddBuckets` | analytics-service/internal/promscrape/scraper.go:255-257 | adding a series to the map of sums gives the sums of all buckets so far |
| `Scrape.MergeIsPooling` | analytics-service/internal/promscrape/scraper.go:155-178 | merging series with equal bounds is the histogram of all their samples together, so its counts are cumulative |
| `Scrape.MergeIsPoolingIff` | analytics-service/internal/promscrape/scraper.go:165-169 | merged counts are those of the pooled samples, whatever the samples, exactly if all series have the same bounds |
| `Scrape.MergeIsCumulativeIff` | analytics-service/internal/promscrape/scraper.go:165-169 | and cumulative, whatever the samples, exactly if no series lacks a bound above one it has |
| `Endpoints.ParseHTTPHistogram` | analytics-service/internal/promscrape/scraper.go:104-202 | one row for every endpoint with requests, busiest first, each with its own totals, latency sum and mean, errors and percentiles |
| `Endpoints.AggregateHTTP` | analytics-service/internal/promscrape/scraper.go:220-276 | gateway-wide requests, those with status 504, with another 5.. and with a 4.. status, mean latency, and percentiles of all merged buckets |
| `Endpoints.ReportsAgree` | analytics-service/internal/promscrape/scraper.go:104-276 | the endpoint rows add up to the gateway-wide requests and latency, and their errors to its three disjoint error classes |
| `Endpoints.GatewayPercentile` | analytics-service/internal/promscrape/scraper.go:220-276 | the reported percentile shares a bucket with the true quantile of every request served |
| `PageParts.PartRangeIff` | organize-pdf/processing/processing_free.go:201-231 | a part selects pages exactly if it is one numeral, or two with a dash between, each with white space around it, in bounds and not backwards |
| `PageRange.ParsePageRange` | organize-pdf/processing/processing_free.go:191-237 | a strictly ascending, in-bounds list of exactly the pages in some group of the same string |
| `PageRange.ParsePageRangeGroups` | organize-pdf/processing/processing_free.go:241-282 | nothing or `all` gives one group of all pages; otherwise one group, in order, for exactly the comma-separated parts that select pages |
| `PageRange.PrintedGroups` | organize-pdf/processing/processing_free.go:241-282 | a printed page list reads back as one group a page in the order printed |
| `PageRange.Reparse` | organize-pdf/processing/processing_free.go:191-237 | printing a non-empty selection as comma-joined decimals and parsing it again gives the same list |
| `PageRange.SplitEqualGroups` | organize-pdf/processing/processing_free.go:286-310 | min(n, pages) non-empty groups that lay 1..pages end to end, longer ones first, sizes at most one apart |
| `Sweep.Store.CleanupExpiredJobs` | job-service/internal/cleanup/cleanup.go:116-155 | the batch loop terminates and removes exactly the jobs expired at the captured instant, their rows, and the non-legacy objects those rows name; `SweepIsExact` spells that out per job, row and object, and by `SweepIsIdempotent` a second sweep no later finds nothing expired |
| `Sweep.Store.FindExpired` | job-service/internal/cleanup/cleanup.go:119-127 | at most 100 distinct expired jobs, and all of them when fewer |
| `Sweep.Store.RemoveJobObjects` | job-service/internal/cleanup/cleanup.go:99-114 | exactly the objects the rows name are gone, legacy paths skipped |
| `SweepLock.OverlapNeedsOverrun` | job-service/internal/cleanup/cleanup.go:52-71 | two sweeps overlap only if one has outlived the ten-minute lock |
| `SweepLock.ReleaseSparesOthers` | job-service/internal/cleanup/cleanup.go:73-83 | a release never takes the lock of another sweep that is within its time to live |
| `SweepLock.HeldUntilReleasedOrExpired` | job-service/internal/cleanup/cleanup.go:41-83 | over any steps of any replicas a sweep that holds the lock goes on holding it exactly until it releases it or its ten minutes are over |
| `SweepLock.SkipsOnlyForRunning` | job-service/internal/cleanup/cleanup.go:55-64 | an attempt is turned away exactly when a running sweep is within its time to live |
| `Alerts.Throttle.ShouldNotify` | shared/discord/discord.go:126-150 | each answer and the stored entries are those of the call history |
| `Alerts.ResolvedOnce` | shared/discord/discord.go:131-142 | a resolved alert is announced exactly when the previous call on its fingerprint was firing |
| `Alerts.FiringHeldBack` | shared/discord/discord.go:144-149 | a firing alert is held back exactly when its episode is open and was announced less than `repeat` ago |
| `Alerts.NoticesAreSpaced` | shared/discord/discord.go:144-149 | the next notice of an open episode comes exactly when `repeat` has passed since the last |
| `Alerts.ResolutionsAlternate` | shared/discord/discord.go:126-150 | between two resolved calls the second of which is announced there is an announced firing |
| `Alerts.OthersDoNotInterfere` | shared/discord/discord.go:126-150 | every call is answered as if only its own fingerprint had ever been seen |
| `Progress.Run.OnProgress` | convert-from-pdf/internal/worker/worker.go:331-352 | one callback moves the stored progress and the throttle as specified |
| `Progress.ProgressNeverRegresses` | convert-from-pdf/internal/worker/worker.go:331-352 | over any callbacks stored progress only grows, stays in 20..90 from a start of at most 90, and is never behind the baseline |
| `Progress.TrailsEverything` | convert-from-pdf/internal/worker/progress.go:41-51 | stored progress trails every value reported so far, not only the latest, by less than minDelta |
| `Progress.TrailsIffPositiveDelta` | convert-from-pdf/internal/worker/progress.go:30-32 | which holds for all runs if and only if minDelta is positive |
| `Progress.NeverOverstates` | convert-from-pdf/internal/worker/worker.go:331-352 | stored progress is the starting value or one that a callback reported |
| `Progress.OrderDoesNotMatter` | convert-from-pdf/internal/worker/worker.go:344-348 | guarded writes that reach the database in another order leave the same progress |

## Left out

- HTTP handling, JSON binding, logging, tracing, metrics export, health probes, authentication and plan lookup.
- The converters, the PDF library, object storage, the broker and the JSON library: a converter is an abstract function, storage is a map.
- Worker crashes and panics, redelivery while a handler runs, outages, and the expiry of claims.
- SubmissionHandler.Server.CreateJobFromUploads: of job rows the tool, options, sizes and expiry are not modelled, nor the tool check before the key is reserved.
- SubmissionHandler.Server.CreateJobFromFiles: likewise; the text of a file name after sanitising is an input.
- SubmissionHandler.Server.ConsumeUploads: the stat, size, name and content checks are one input per upload.
- WorkerHandler.Worker.Convert: staging, conversion and upload end in one input, a stored name or a fault; stored progress percentages are in `Progress` instead.
- WorkerHandler.Worker.ProcessMessage: metadata, events and failure texts are not modelled.
- JobService.Streams.RedriveDLQ: one redrive with nothing else running; interleaved redrives are in `Delivery`.
- JobService.Downloads.DownloadJobFile: access checks and the presigned URL are not modelled.
- DeliverySafety.NoJobIsLost: a failed dead-letter publish loses the message, as in the source, which only logs it.
- CacheRuns.RecordedOutputIsResultIff: result metadata is not modelled.
- RateLimit.NoWindowExceedsCeiling: requests of one key have strictly increasing times; two in the same nanosecond share a member and count once.
- RateLimiter.Middleware: the split of a connection's address into host and port is a library call, and so a parameter.
- Endpoints.ParseHTTPHistogram: the order of endpoints with equally many requests is left open, as in the source.
- Endpoints.ReportsAgree: a series without samples has no latency.
- Scratch.ScratchBound: for input totals that do not pass the guard on an overflow; `Scratch.WorkingBound` has no such limit.
- DeliverySafety.CompletedIsAbsorbing: for careful redrives; without, it holds exactly as `DeliveryUndone.UndoneIffThreatened` and `DeliveryRedrives.FetchUndoesIffRisky` say.
- DeliverySafety.RetriesAreNotSkipped: for careful redrives, like AckFollowsTerminalStatus, AckedJobsAreFinished and CacheHitsAreCurrent.
- PageRange.SplitEqualGroups: a document has at least one page; the source divides by zero on none.
- PageRange.Reparse: page counts fit in 64 bits.
- Sweep.Store.CleanupExpiredJobs: deletes succeed and no job is added or deleted meanwhile; when the job delete fails on every full batch the loop does not end.
- The rest of the sweep: upload sessions, incomplete multipart uploads and backfilled expiries.
- Page reordering, SQL analytics, documents, folders and tags, organisations, cookies and plan tables.
