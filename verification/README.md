# genai-otel-bridge: a verified model

`genai-otel-bridge` is a leader-elected poller. It collects windows of telemetry, emits them over OTLP,
and advances a durable watermark. This project models the parts of it whose guarantees hold over whole runs
and proves those guarantees in Dafny 4.11. `dafny verify dfyconfig.toml` checks everything.

Protocols are state machines: a total `Next(state, action)`, its fold `Exec`, an invariant `Inv`, and a lemma
`RunSafe` that holds for every sequence of actions. Servers, stores, the network, the clock and the emitter are
actions or parameters that answer as they like. Objects and loops that change things in place are classes and
methods, each proved against a specification function or predicate.

| module | what it models |
|---|---|
| `Checkpoint`, `DynamoCheckpoint`, `ConfigMapCheckpoint` | the write fence and the two durable stores, with interleaved reads and conditional writes, duplicated and reordered requests, and lost acknowledgements |
| `Leadership`, `LeaseTiming` | the DynamoDB lock item: fences over every run, and the timing of lease, renew deadline and watchdog |
| `Answers`, `Walk`, `Buckets`, `Runner`, `Backfill`, `SingleFlight` | one loop's runner: bucket split, emit outcomes, commit, degraded state, the abandoned-span counter, and the two goroutines over many leaderships |
| `Lines`, `Download`, `Pages`, `Export`, `LossyExport` | the resumable line reader, whole pages, and the logs-export job machine |
| `Analytics`, `Derive`, `Runs` | window arithmetic of the analytics and runs loops, and the derivation of samples |
| `Coalesce`, `Emitter`, `Retry`, `Encode`, `EncodeLogs` | the emit path: per-minute cap, payload splitting, retry loop, canonical messages |
| `Governance`, `Revision`, `Keys` | the cardinality guard and the revision cache against unbounded references, and the injective keys both rest on |
| `Model`, `Sorting`, `Selection`, `Counting`, `Grouping`, `Orders` | shared values and the sorting, counting and grouping they need |

Times are integer nanoseconds from Go's zero time. A Go string is a byte string, one `char` per byte. Sample values
are integers, which stands for any totally ordered values without NaN.

## Where the code falls short of what it promises

Each of these is a theorem with the exact condition.

- **Lease exclusion needs ordered requests.** No run has two leaders if and only if each replica's requests take
  effect in the order sent and acknowledged round trips are at most `lease - deadline` (`LeaseTiming.ExclusionIff`).
  Beyond that bound some run has two leaders (`OverlapPossible`). Without the order every configuration has such a
  run: a renew the leader gave up on reaches the table after its successors and pulls the expiry back
  (`ReorderingBreaksExclusion`). The watchdog is assumed to act without delay.
- **A download can end falsely.** A returned chunk is the right one if and only if the answer was complete
  (`Download.FaithfulIffComplete`). A 200 is incomplete when the last line to skip starts beyond the byte cap
  (`CapHidesATail`). A 206 is incomplete when its range stops before the lines due end, which section 15.3.7 of RFC 9110
  allows; the code checks only where the range starts (`ShortRangeHidesATail`).
- **So a window can close over unread lines.** A page that ended handed out the lines of its object if and only if no
  answer lost lines (`Pages.FinishedPageComplete`), and the same holds of every window the job machine closes, in every
  run (`Export.ClosedWindows`). One run closes a window and stores its end although the last line was never read
  (`LossyExport.WindowClosesOverUnreadLine`).
- **Catch-up repeats a bucket.** The analytics window is cut at `until`, but `derive` filters by `now - settle`. A
  bucket that straddles `until` is collected by that poll and by the next one (`StraddlerRepeats`). Deep in a backlog
  there is such a bucket exactly when `until` is not in the first second of a minute (`BacklogStraddles`). Without a
  backlog every bucket is collected once (`ExactlyOnce`). This assumes that the server returns exactly the buckets
  that overlap the half-open request.
- **The per-minute cap can depend on input order.** The comment on `CoalesceDPM` promises output that does not.
  That holds if and only if, wherever the cap cuts through a tie of timestamp and value, the tied samples are
  identical (`OrderIndependent`, `OrderDependent`).
- **A huge Retry-After is not honoured.** The seconds are multiplied in 64 bits. The wait is right exactly while
  it fits (`HonouredIff`); beyond that it wraps, even to no wait (`HugeDelayIgnored`). A 429 that is retried at all is
  retried too early exactly in that case (`RetriedEarlyIff`).
- **An exact multiple of the chunk size.** A page ends with the first chunk of fewer than `max` lines, so with chunk
  number `lines / max + 1` (`Pages.PageEndsIff`). When the lines fill the chunks exactly, that chunk is a request for
  the bytes from the end of the object on, and the page ends if and only if such a request is answered with a body
  (`FilledPageEndsIff`). Section 15.5.17 of RFC 9110 lets a server answer 416, which the code treats as an error. From
  a server that always does, the page never ends (`FilledPageNeverEnds`).
- **A split payload that fails half way.** A bucket that is skipped for a rejected payload may have been delivered in
  part. That is so if and only if its first payload that was not cut in two was accepted (`Emitter.PartlyDelivered`),
  and the samples counted as skipped are the undelivered ones if and only if there is no such bucket
  (`Runner.SkippedBooks`). The samples after the refused payload were never sent on their own (`FourItems`).

## Model

| member | source | states |
|---|---|---|
| DynamoCheckpoint.RunSafe | internal/checkpoint/dynamodb/dynamodb.go:131-186 | in every interleaving of writers, retries and duplicated or lost puts, the table is the replay of a log in which each write passed the fence against exactly the item it replaced |
| DynamoCheckpoint.NoLostUpdate | internal/checkpoint/dynamodb/dynamodb.go:140-181 | a commit replaced the value written by the previous commit on its key |
| DynamoCheckpoint.CommitsOrdered | internal/checkpoint/checkpoint.go:52-63 | stored epoch and time never decrease over any run |
| DynamoCheckpoint.RecommitOnlyOverCursorMove | internal/checkpoint/dynamodb/dynamodb.go:131-186 | after a lost acknowledgement the same watermark is committed twice only if the key moved to another cursor at the same epoch and time in between |
| DynamoCheckpoint.CorruptNeverClobbered | internal/checkpoint/dynamodb/dynamodb.go:78-110 | a present but unreadable item is never overwritten in any run |
| DynamoCheckpoint.UndisturbedSaveIff | internal/checkpoint/checkpoint.go:52-63 | in every run a save that nothing disturbs takes effect if and only if its time is in years 1 to 9999, its epoch is not older, and its time is later or, at the same time, its cursor differs; otherwise nothing changes |
| DynamoCheckpoint.Table.Attempt | internal/checkpoint/dynamodb/dynamodb.go:140-183 | one get, fence and conditional put under interference: what each outcome implies about the log, and which outcome it must be when nothing interferes |
| DynamoCheckpoint.Table.Save | internal/checkpoint/dynamodb/dynamodb.go:131-186 | success means the watermark was committed under the key during the call; stale means the fence rejected it against a value held during the call; giving up means at least six commits on the key during the call, whoever made them; undisturbed, the result is corrupt, saved or stale exactly by the rule of `UndisturbedSaveIff` |
| ConfigMapCheckpoint.RunSafe | internal/checkpoint/configmap/configmap.go:71-127 | each write of the shared object replaced exactly the data it was computed from, passed the fence on its own key, and in every run |
| ConfigMapCheckpoint.OtherKeysUntouched | internal/checkpoint/configmap/configmap.go:109-127 | a save never changes another key |
| ConfigMapCheckpoint.LastCommitStands | internal/checkpoint/configmap/configmap.go:71-127 | a key keeps what its last commit wrote while other keys are written, even from old snapshots |
| ConfigMapCheckpoint.CommitsOrdered | internal/checkpoint/checkpoint.go:52-63 | on one key no later commit has a lower epoch or an earlier time |
| ConfigMapCheckpoint.UndisturbedSaveIff | internal/checkpoint/configmap/configmap.go:71-127 | the same for the shared object, for saves that leave it within its size limit; the key then decodes to what was saved |
| ConfigMapCheckpoint.DataBytes | internal/checkpoint/configmap/configmap.go:156-162 | the size is the same in whatever order the map is walked |
| ConfigMapCheckpoint.Store.Attempt | internal/checkpoint/configmap/configmap.go:79-126 | one read-modify-write under interference; a conflict means that a write was committed during the attempt |
| ConfigMapCheckpoint.Store.Save | internal/checkpoint/configmap/configmap.go:71-127 | what each result of the retry loop implies; giving up means at least six commits of the object during the call, whoever made them; undisturbed, the result is corrupt, stale, over the limit or saved exactly by the rule of `UndisturbedSaveIff` |
| Leadership.RunSafe | internal/coordinate/dynamodb/dynamodb.go:115-164 | the lock item always carries the latest grant, and every term, request and checkpoint write goes back to one |
| Leadership.FencesDistinct | internal/coordinate/dynamodb/dynamodb.go:115-141 | acquisitions have strictly increasing fences, acknowledged or not; two terms with one epoch are the same term |
| Leadership.OnlyLatestRenews | internal/coordinate/dynamodb/dynamodb.go:144-164 | a renewal that takes effect is one of the then latest acquisition |
| Leadership.NoDemotedWrite | internal/checkpoint/checkpoint.go:52-63 | once a term has committed to a key, no earlier term ever changes it |
| Leadership.LaterTermCommits | internal/checkpoint/checkpoint.go:52-63 | a term granted no earlier than the one of the last commit on a key, saving a later time undisturbed, moves the key to it |
| Leadership.TakeoverAfterExpiry | internal/coordinate/dynamodb/dynamodb.go:115-141 | a replica takes the lock from another only with a clock past the expiry the other last wrote, in every run |
| Leadership.LockRequestIff | internal/coordinate/dynamodb/dynamodb.go:115-164 | exactly when an acquire or a renewal that reaches the item takes effect, and what it leaves |
| Checkpoint.AcceptsIff | internal/checkpoint/checkpoint.go:52-63 | the fence lets through every write that advances the stored watermark, and no other |
| LeaseTiming.RunSafe | internal/coordinate/dynamodb/dynamodb.go:115-256 | the timed invariant: a commit by another replica comes after the lease of every earlier commit has run out |
| LeaseTiming.OverlapBound | internal/coordinate/dynamodb/dynamodb.go:167-256 | two replicas lead at once for less than round trip + deadline - lease |
| LeaseTiming.Exclusion | internal/coordinate/dynamodb/dynamodb.go:115-256 | never two leaders when acknowledged round trips are at most lease - deadline |
| LeaseTiming.OverlapPossible | internal/coordinate/dynamodb/dynamodb.go:115-256 | the bound is necessary: beyond it some run has two leaders |
| LeaseTiming.ReorderingBreaksExclusion | internal/coordinate/dynamodb/dynamodb.go:144-164 | without the order of requests every configuration has a run with two leaders, however short the round trips |
| LeaseTiming.ExclusionIff | internal/coordinate/dynamodb/dynamodb.go:115-256 | no run has two leaders if and only if requests take effect in order and round trip + deadline is at most the lease |
| Buckets.SplitByBucket | internal/schedule/runner.go:428-444 | the buckets partition the samples by timestamp, are not empty, rise in time and keep input order |
| Walk.EmitBucket | internal/schedule/runner.go:225-272 | one bucket: each sample is dropped for a key or a used-up series, or sent; the post is what the sender does with it, settled or stuck |
| Walk.EmitBuckets | internal/schedule/runner.go:225-273 | the walk: posts follow time, carry allowed labels only, stop at the first unresolved bucket, and with the samples dropped for a reason account for every bucket reached |
| Walk.SkippedArrivals | internal/schedule/runner.go:236-246 | accepted buckets arrived whole; the skipped samples are those that did not arrive if and only if no skipped bucket had its first payload that was not cut in two accepted |
| Runner.ProcessSamples | internal/schedule/runner.go:217-273 | capped, dropped, emitted, skipped and pending make up the input; what is dropped carries a key that is not allowed or belongs to a series others have used up; everything sent lies at or before the frontier and everything pending after it |
| Runner.SkippedBooks | internal/schedule/runner.go:236-246 | the books' emitted samples all arrived, and the skipped ones divide into arrived and missing, with the exact condition for none having arrived |
| Runner.ProcessLogs | internal/schedule/runner.go:288-329 | every record is kept, or counted for a reason; what is sent has no body and is allowed; the verdict is that of the sender and decides whether to proceed |
| Runner.StuckStaysShort | internal/schedule/runner.go:247-271 | a halted or retried batch commits strictly before every pending sample and never a cursor; if no sample is stamped after the window end, also before that end |
| Runner.CommitFollows | internal/schedule/runner.go:247-282 | a batch with nothing pending commits its own time and cursor unless it carried nothing; a stuck one commits a time between what is resolved and what is pending |
| Runner.LogsBeforeCommit | internal/schedule/runner.go:204-216 | nothing is committed past log records that were neither accepted nor rejected for good |
| Runner.HaltDegrades | internal/schedule/runner.go:247-272 | a malformed payload or an unknown rejection degrades the loop even if the interior commit succeeds; otherwise the flags are as the save left them, and never busy |
| Answers.JudgeIs | internal/emit/emit.go:42-51 | which answers are accepted, skipped with a gap, halting or retried |
| Runner.DegradedIff | internal/schedule/runner.go:352-392 | a loop is degraded by its saves exactly while five or more failed since the last success |
| Runner.FrontierCovers | internal/schedule/runner.go:400-407 | after an acknowledged save the frontier is at least that time until a refused save resyncs it |
| Runner.ResyncHolds | internal/schedule/runner.go:366-380 | after a refused save that read a stored mark the frontier is that mark, until a save succeeds or another refusal reads one |
| Runner.SavedFrontier | internal/schedule/runner.go:400-407 | exactly when an acknowledged save becomes the frontier |
| Runner.LoopRunner.Commit | internal/schedule/runner.go:333-408 | the new flags for every result of the save: those that `ResyncHolds`, `SavedFrontier` and `DegradedIff` are about |
| Runner.LoopRunner.ProcessBatch | internal/schedule/runner.go:197-282 | for every batch, gateway and save result: the books balance and the commit obeys the rule for its stage |
| Runner.LoopRunner.BackfillUnstorableMinutes | internal/schedule/runner.go:106-120 | the minutes reported and the new counting state |
| Runner.LoopRunner.Reset | internal/schedule/runner.go:129-147 | a new leadership starts from the initial flags; the queue it drains first is in `SingleFlight` |
| Backfill.CountedOnce | internal/schedule/runner.go:106-120 | with a pinned frontier the reported minutes add up to the whole minutes up to the highest floor seen, also when the clock steps back |
| SingleFlight.RunSafe | internal/schedule/runner.go:80-186 | the invariant of both goroutines, the queue and the flags over every interleaving and leadership |
| SingleFlight.NeverTwoInFlight | internal/schedule/runner.go:149-186 | at most one collected batch exists; not busy means an empty queue and an idle worker |
| SingleFlight.NoStaleBatch | internal/schedule/scheduler.go:79-90 | no batch outlives its leadership, no work begins after its cancellation, and each batch is worked on from the position it was collected from |
| SingleFlight.CollectionsAdvance | internal/schedule/runner.go:88-97 | the positions collected from never go back, across leaderships and other leaders' writes |
| SingleFlight.FrontierBehindDurable | internal/schedule/runner.go:366-407 | the frontier in memory is never ahead of the durable one |
| SingleFlight.RefusalResyncs | internal/schedule/runner.go:366-380 | in every run, once the reload of a refused save has read the stored mark, the next collection of that leadership starts at it |
| SingleFlight.NextCollectionStartsThere | internal/schedule/runner.go:88-97 | the same after an acknowledged save that moves the frontier |
| SingleFlight.SaveArrives | internal/schedule/runner.go:333-408 | a save that advances the stored mark is stored, and told if its acknowledgement arrives; any other is reloaded |
| SingleFlight.BusyIff | internal/schedule/runner.go:149-186 | until the worker of a leadership has exited, busy holds exactly while a batch is in flight |
| SingleFlight.NothingBeginsCancelled | internal/schedule/runner.go:197-204 | neither work on a batch nor a save begins under a cancelled leadership |
| Download.ReadFragments | internal/source/portkey/logs_download.go:274-305 | the read loop: the fragments join to one stretch of the stream, nothing beyond the limit is retained, for any buffer fragmentation |
| Download.ReadLine | internal/source/portkey/logs_download.go:274-305 | reads exactly one line for any buffer fragmentation, retains at most the limit, and passes an over-long line |
| Download.ReadChunk | internal/source/portkey/logs_download.go:188-241 | the records and over-long count of at most `max` lines, stopping early only at the end |
| Download.RecordsExact | internal/source/portkey/logs_download.go:188-241 | the records are those of exactly the lines within the cap that parse |
| Download.DownloadChunk | internal/source/portkey/logs_download.go:98-262 | for every object, pair of offsets and answer: a returned chunk is the served one with the records of its lines; without a break and within the cap an error means that the answer was refused |
| Download.UsedIff | internal/source/portkey/logs_download.go:127-142 | an answer is used if and only if it is a 200, or a 206 to a Range request whose stated start is the byte asked for |
| Download.ServesRight | internal/source/portkey/logs_download.go:98-262 | from right offsets an accepted answer serves the next lines if it is complete; otherwise the count or the next offset is wrong |
| Download.FaithfulIffComplete | internal/source/portkey/logs_download.go:98-262 | the returned chunk is the next lines of the object, with the offset of the line after them, if and only if the answer was complete |
| Download.CapReached | internal/source/portkey/logs_download.go:154-186 | when the capped body ends inside the lines to skip |
| Download.CapHidesATail | internal/source/portkey/logs_download.go:154-186 | an object for which an ignored Range ends the page early |
| Download.ShortRangeHidesATail | internal/source/portkey/logs_download.go:188-262 | an object for which a range that stops short ends the page early |
| Pages.ReadInBounds | internal/source/portkey/logs_export.go:466-500 | whatever the answers, the offsets of an unfinished page count the lines handed out and stay inside the object |
| Pages.CourseOf | internal/source/portkey/logs_export.go:466-500 | as long as no answer lost lines the lines handed out are the first lines of the object and the offsets those of the next; afterwards never again |
| Pages.FinishedPageComplete | internal/source/portkey/logs_export.go:466-500 | a page that ended was read line for line if and only if no answer lost lines |
| Pages.PageEndsIff | internal/source/portkey/logs_download.go:188-241 | a page ends exactly with chunk number lines / max + 1 |
| Pages.ServedPageEnds | internal/source/portkey/logs_download.go:98-242 | from a server that always sends the page, whole or to its end, it ends after lines / max + 1 requests and no sooner |
| Pages.FilledPageEndsIff | internal/source/portkey/logs_download.go:98-242 | a page of a positive multiple of `max` lines ends if and only if a request at the end of the object is answered with a body |
| Pages.FilledPageNeverEnds | internal/source/portkey/logs_download.go:98-152 | from a server that answers 416 there it never ends, although all its lines were handed out |
| Pages.DrainPage | internal/source/portkey/logs_export.go:466-500 | the loop over requests: offsets, end and records are those of the page after the answers that were used; an answer goes unused only if reading it may break or the object exceeds the cap |
| Lines.StartAdd | internal/source/portkey/logs_download.go:98-242 | line starts of a suffix are line starts of the whole |
| Lines.SplitTruncated | internal/source/portkey/logs_download.go:154-186 | a truncated text has exactly the lines that start before the cut |
| Lines.SplitKeeps | internal/source/portkey/logs_download.go:188-241 | a cut at or after a line start keeps the lines before it |
| Export.StepJustified | internal/source/portkey/logs_export.go:301-500 | a step, whatever the answers, yields a watermark that is justified once the batch's own lines are accounted for, and closes a window only after the last of its pages |
| Export.RunSafe | internal/source/portkey/logs_export.go:206-500 | the invariant of the job machine for any number of replicas, answers, statuses, errors, restarts and lost commits: each page was read from a job handed out for that page, and what it handed out was emitted or counted |
| Export.ClosedWindows | internal/schedule/runner.go:274-281 | the stored time is the end of the last closed window; the pages of a closed window handed out the lines of their objects if and only if no answer lost lines, and then every line was emitted or counted |
| Export.WindowsTile | internal/source/portkey/logs_export.go:359-374 | in every run the stored time is reached by committed windows, each opened where the one before it ended or at the backfill limit of its opening poll; each ends before that poll's settle cutoff, is at most one window long, and has exactly the pages that hold the announced records |
| Export.StoredOffsets | internal/source/portkey/logs_export.go:466-500 | line and byte offsets are 0 outside downloading and otherwise those of the answers used; while none lost lines they point at the first line not accounted for |
| Export.StepsMakeProgress | internal/source/portkey/logs_export.go:393-500 | a successful step that does not wait brings the window lexicographically closer to its end, whatever the answers, if and only if the job is not back in draft and has a name |
| Export.WindowEnds | internal/source/portkey/logs_export.go:427-500 | a step leaves a window only by closing it after its last page or by starting it over |
| Export.StartedIff | internal/source/portkey/logs_export.go:393-421 | a job counts as started if and only if the start call succeeded or the job has left its draft |
| Export.AbandonedIff | internal/source/portkey/logs_export.go:427-456 | a running job is given up if and only if more than the poll timeout has passed since it was started |
| Export.WaitEnds | internal/source/portkey/logs_export.go:427-456 | success, a draft and any other end lead to the download, another start and a fresh window |
| Export.ParkedUntilMoved | internal/source/portkey/logs_export.go:376-388 | a window with too many pages stays parked until its bounds move, and only until then |
| Export.GarbageRestarts | internal/source/portkey/logs_export.go:206-279 | a cursor that cannot be read is treated as idle |
| LossyExport.TwoChunksClose | internal/source/portkey/logs_export.go:301-500 | a run from a fresh key through create, start, poll and two chunks closes the window and accounts for exactly the lines of the two answers |
| LossyExport.WindowClosesOverUnreadLine | internal/source/portkey/logs_export.go:466-500 | a run that closes a window and stores its end with a line unread |
| Analytics.FetchCovers | internal/source/portkey/portkey.go:261-292 | every request spans at most 55 minutes, contains the window, and reaches back over the revision band as far as the backfill limit and those minutes allow |
| Analytics.RunSafe | internal/source/portkey/portkey.go:252-306 | windows chain and cover, whatever the clock, the emits and the commits do |
| Analytics.NothingSkipped | internal/source/portkey/portkey.go:261-306 | every bucket between the first start and the watermark was emitted or counted, or was already older than the backfill limit of a poll that reached it |
| Analytics.FreshStart | internal/source/portkey/portkey.go:261-271 | the first poll of a fresh key starts at the later of the bootstrap span and the backfill limit before its clock |
| Analytics.ExactlyOnce | internal/source/portkey/portkey.go:268-271 | without a backlog no bucket is resolved twice |
| Analytics.RepeatsStraddle | internal/source/portkey/portkey.go:268-271 | a bucket resolved twice straddles the end of a full window that was cut short |
| Analytics.StraddlerRepeats | internal/source/portkey/derive.go:115-159 | consecutive windows both collect a bucket if and only if it straddles the first one's end inside the cutoff |
| Analytics.BacklogStraddles | internal/source/portkey/derive.go:115-159 | in a backlog such a bucket exists exactly when the window ends past the first second of a minute |
| Analytics.LagFalls | internal/source/portkey/portkey.go:261-277 | while a backlog remains each committed poll gains at least window - gap |
| Analytics.CatchesUp | internal/source/portkey/portkey.go:261-292 | the loop is current from the poll that outweighs the initial lag, and stays current |
| Derive.AnySortAgrees | internal/source/portkey/derive.go:129-147 | however the unstable sort arranges equal times, the guard accepts exactly the evenly spaced responses |
| Derive.AcceptedIff | internal/source/portkey/derive.go:122-147 | a response is accepted if and only if every timestamp parses and every graph is evenly spaced |
| Derive.OrderFree | internal/source/portkey/derive.go:114-195 | verdict and samples do not depend on the order of the points |
| Derive.SamplesExact | internal/source/portkey/derive.go:148-192 | the samples are the readings of the points that ended after `since` and have settled, all of them and nothing else, with the name, label, figure and time of each spelled out |
| Derive.GraphCount | internal/source/portkey/derive.go:148-192 | four samples per new and settled latency point, three per tokens point, one per any other |
| Derive.JoinFlat | internal/source/portkey/derive.go:114-195 | the samples of a response are those of its graphs, one after the other |
| Derive.Guard | internal/source/portkey/derive.go:143-147 | the loop accepts exactly positive multiples of the granularity |
| Derive.DeriveAll | internal/source/portkey/derive.go:114-195 | the nested loops compute the specified result |
| Runs.RunSafe | internal/source/langsmith/runs.go:171-253 | every stored or held watermark is reached by a chain of windows and counted skips, for any number of replicas |
| Runs.WindowsTile | internal/source/langsmith/runs.go:184-201 | windows and skips follow each other without gap or overlap from the stored time, or from one window before the first clock; each window ends before the settle cutoff of the poll that opened it, is one window long unless that comes first, and was drained or truncated at the page cap |
| Runs.PagesCount | internal/source/langsmith/runs.go:231-242 | a window stays open exactly while fewer answers than the page cap have come and each had a token; until then each poll moves one page on, keeps the last token to resume from, and passes the fence even if the server repeats its token |
| Runs.WindowFinishes | internal/source/langsmith/runs.go:231-253 | every window closes within `max_pages_per_window` answered polls |
| Coalesce.CoalesceDPM | internal/emit/coalesce.go:36-85 | the grouping loops keep, in order, exactly the samples beaten by fewer than the cap, and count the rest |
| Coalesce.CapHolds | internal/emit/coalesce.go:36-85 | at most the cap survives per series and minute |
| Coalesce.KeptIff | internal/emit/coalesce.go:36-85 | a sample is kept if and only if fewer than the configured number, at least one, of its name, unit, labels and minute are later, larger at the same time, or equal and earlier in the input |
| Coalesce.NewestSurvive | internal/emit/coalesce.go:60-66 | a kept sample is newer, or equal with a larger value or earlier place, than a dropped one of its group |
| Coalesce.Idempotent | internal/emit/coalesce.go:36-85 | capping twice is capping once |
| Coalesce.OrderIndependent | internal/emit/coalesce.go:32-35 | survivors do not depend on input order if the cap never cuts a tie of distinct samples |
| Coalesce.OrderDependent | internal/emit/coalesce.go:32-35 | otherwise some reordering changes them |
| Emitter.Sender.Emit | internal/emit/otlp/otlp.go:126-154 | the posts and the result are those of the recursion `Sends` |
| Emitter.Sender.Halves | internal/emit/otlp/otlp.go:138-153 | two halves in order, the second only after the first succeeded |
| Emitter.SendsDelivered | internal/emit/otlp/otlp.go:126-190 | for every gateway: at most 2n - 1 posts; success means every item is in exactly one acknowledged payload; an error leaves a prefix acknowledged; too large is reported only for a single item, and an encoding error only if a payload was answered so or the next part does not encode |
| Emitter.PartlyDelivered | internal/emit/otlp/otlp.go:126-190 | something was delivered if and only if the first payload that was not cut in two was accepted; the items tried are those delivered and then one refused payload |
| Emitter.FourItems | internal/emit/otlp/otlp.go:126-154 | four items skipped as a duplicate of which one was delivered and two were never sent on their own |
| Emitter.WholeIff | internal/emit/otlp/otlp.go:126-154 | exactly when items go out in one payload |
| Retry.Post | internal/emit/otlp/otlp.go:192-269 | always returns, within the budget plus one maximal backoff plus one request; gives up only on a status that is not retried, a spent budget, a wait beyond it, or a cancellation; each next request goes out exactly after the jittered backoff or the longer wait read from a 429 |
| Retry.BackoffGrows | internal/emit/otlp/otlp.go:259-262 | the backoff starts at the initial delay and grows by the multiplier up to the largest delay |
| Retry.JitterShare | internal/emit/otlp/otlp.go:401-406 | the jitter moves a delay by the drawn part of its share |
| Retry.RetriedEarlyIff | internal/emit/otlp/otlp.go:245-263 | a retried 429 goes out before the wait its header asks for if and only if that wait exceeds the largest duration |
| Retry.JitteredBounds | internal/emit/otlp/otlp.go:401-406 | the jittered backoff is between zero and the largest the policy allows |
| Retry.HonouredIff | internal/emit/otlp/otlp.go:382-399 | the wait read from a header is the one it asks for if and only if that fits 64 bits of nanoseconds |
| Retry.HugeDelayIgnored | internal/emit/otlp/otlp.go:382-399 | a delay that wraps to none |
| Encode.Encode | internal/emit/otlp/encode.go:47-110 | the loop builds the specified message or fails exactly on a delta or a non-gauge |
| Encode.Canonical | internal/emit/otlp/encode.go:47-66 | the message does not depend on the order of samples that agree on the value of each series and instant |
| Encode.OrderShows | internal/emit/otlp/encode.go:47-66 | the condition is needed |
| Encode.Faithful | internal/emit/otlp/encode.go:68-94 | one metric per name and unit, in rising order, and the points are exactly those of the samples, with their labels, time and value |
| Encode.SeriesInTime | internal/emit/otlp/encode.go:47-66 | the points of one series follow each other in time |
| EncodeLogs.Encode | internal/emit/otlp/logs_encode.go:27-98 | the loops build the specified message |
| EncodeLogs.Canonical | internal/emit/otlp/logs_encode.go:27-67 | without bodies the message depends only on the multiset of records |
| EncodeLogs.Faithful | internal/emit/otlp/logs_encode.go:28-48 | every record is in one group; a group has one indexed set and no two have the same |
| EncodeLogs.MessageFaithful | internal/emit/otlp/logs_encode.go:28-98 | the entries of the message are those of the records, none lost, added or changed; each resource has the entries of one group under that group's attributes |
| EncodeLogs.EntriesInTime | internal/emit/otlp/logs_encode.go:49-67 | the entries of a resource follow each other in time |
| Governance.BudgetHolds | internal/source/guard.go:174-208 | over every sequence of admissions at most `budget` label sets pass per series |
| Governance.StaysAdmitted | internal/source/guard.go:174-208 | an admitted label set stays admitted for ever |
| Governance.RefusedOnlyWhenFull | internal/source/guard.go:174-208 | a label set is refused only when others have used up the budget |
| Governance.FullStays | internal/source/guard.go:174-208 | a used-up series stays used up for the label sets it kept out |
| Governance.MirrorTests | internal/source/guard.go:174-234 | the guard's tests on signatures are the tests on label sets |
| Governance.SampleKeysIff | internal/source/guard.go:174-182 | labels may be sent if and only if every key is allowed, none denied, and none a content key |
| Governance.RecordKeysIff | internal/source/guard.go:118-143 | the same for records, with the loop's own deny list and the allow list on indexed keys only |
| Governance.Guard.Charge | internal/source/guard.go:186-207 | the locked budget check refines the ledger of label sets |
| Governance.Guard.Ok | internal/source/guard.go:174-208 | a sample passes with allowed keys outside the content floor and an admitted label set, and is refused only for a key or a series that others have used up |
| Governance.Guard.OkLog | internal/source/guard.go:118-172 | the same for records: both attribute maps are denied content keys, the indexed one is budgeted |
| Governance.Guard.FineOrBarred | internal/source/guard.go:174-208 | no sample can be both kept and dropped by that rule |
| Governance.Guard.Sanitize | internal/source/guard.go:78-91 | keeps, in order, the samples with allowed keys that the budget let through; every other one has a key that is not allowed or belongs to a series others have used up, and is counted |
| Governance.Guard.SanitizeLogs | internal/source/guard.go:104-116 | bodies are emptied; the same two-sided rule for records |
| Revision.History.Observe | internal/source/portkey/revision.go:54-66 | reports exactly the revisions of the reference; afterwards both maps share a domain inside the band |
| Revision.History.Evict | internal/source/portkey/revision.go:69-77 | drops exactly the entries before the floor |
| Revision.RevisesIff | internal/source/portkey/revision.go:46-66 | a sample is reported if and only if the bucket's previous observation had another value and came in this poll or lies inside the band |
| Revision.ReportsIff | internal/source/portkey/revision.go:54-66 | one poll reports, in order, the times of exactly the samples whose previous observation had another value and was not lost |
| Revision.CutAgain | internal/source/portkey/revision.go:69-77 | with rising cutoffs the bounded record is the unbounded one cut once |
| Keys.LabelKeyInjective | internal/emit/otlp/encode.go:118-132 | distinct label sets have distinct keys |
| Keys.SeriesKeyInjective | internal/emit/coalesce.go:94-106 | equal keys mean the same name, unit and labels |
| Keys.RevisionKeyInjective | internal/source/portkey/revision.go:86-99 | equal keys mean the same series and instant |
| Keys.LabelSigInjective | internal/source/guard.go:220-234 | distinct label sets have distinct signatures |
| Keys.BuildSeriesKey | internal/emit/coalesce.go:94-106 | the builder writes the key whatever order the map is walked in |
| Keys.BuildLabelSig | internal/source/guard.go:220-234 | the builder writes the signature whatever order the map is walked in |

## Left out

- HTTP clients, JSON, YAML, protobuf and gzip: responses, cursors and messages are values. A message stands for its bytes.
- Egress checks, secret redaction, self-observability, tracing spans, logging and its limiter.
- Configuration parsing: only the validated inequalities appear, as hypotheses.
- The Kubernetes lease coordinator, whose behaviour lives in client-go. Distinct epochs are claimed only for the DynamoDB coordinator.
- SHA-256 fingerprints and the data keys derived from them.
- The groups, sessions and usage loops, and the per-vendor stripping of log fields.
- `Run`, `lead` and the watchdog goroutine, and `tickLoop` with its pacing, are steps of state machines, not methods; the model has their order and timing but not their timers and channels.
- The queue of `SingleFlight` has any depth; the source's metrics and trace parents are not part of a batch.
- `classify`: matching the text of a reject body is a parameter; its classes and what follows from them are modelled.
- `contentRangeStart`: parsing the header is a parameter, a start or none. A body is the stretch of an unchanging object that its answer claims.
- 64-bit `UnixNano`: timestamps are exact integers, so years outside 1678 to 2262 do not wrap. Floating-point NaN and rounding are not modelled; latencies are in the unit of the metric.
- Lifecycle trace ids in the export cursor.
- LeaseTiming.ExclusionIff: assumes one clock, no delay of the watchdog and distinct identities.
- Export.RunSafe: the objects do not change, and a download request that fails for any reason counts as refused.
- Analytics.StraddlerRepeats: assumes a server that returns exactly the buckets overlapping the half-open request, as do `BacklogStraddles` and `ExactlyOnce`.
- Analytics.RunSafe: assumes clock readings at least one look-back after Go's zero time; commits take effect at once, since `SingleFlight` covers the frontier in memory.
- Revision.History.Observe: assumes that reference times do not decrease, as the detection does.
- Emitter.Sender.Emit: encoding and size are parameters, so that the claim holds for samples and for log records. A failing gzip writer is not modelled.
- Retry.Post: assumes that a request takes at least one nanosecond and at most the client's timeout, and a jitter of at most one.
