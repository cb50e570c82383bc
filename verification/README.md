# Gateway telemetry: a verified model

The repository turns records of language-model calls into service-level indicators. A periodic job
reads one closed window of observations, drops what it has counted before, aggregates the rest into
bounded histograms and counters, exports them as DELTA metrics and, behind a gate, commits a watermark
together with a pruned map of known ids. Beside it the gateway protects its providers with a circuit
breaker and its callers with a rate limiter.

This project models that job and those two guards in Dafny and proves what they are for.

| module | models |
|---|---|
| `Timestamps` | the accepted subset of RFC 3339 (section 5.6), parsing and printing |
| `Models`, `Records` | records, observations, the parser and its rejections; the record an observation is read back from |
| `Idempotency`, `Protocol` | in-batch deduplication, and histories of runs |
| `Checkpoints` | the persisted checkpoint and its conditional writes |
| `Workers`, `Deliveries` | several workers on one checkpoint, and what they deliver |
| `Streaming`, `Exporters`, `Pipeline` | the streaming pass, the guarded backend, one run with its gate |
| `EndToEnd`, `Schedule` | runs against the protocol, and the job invoked again and again |
| `Histograms`, `OrderStatistics` | streaming histograms and their percentiles |
| `Series`, `Aggregation`, `Conservation` | accumulators as sums, and the identities between families |
| `Governance`, `Normalization`, `Emission`, `Telemetry` | vocabularies, normalizers, points, guard |
| `Vocabularies` | which raw names each governed value stands for |
| `Points`, `Readings` | points as what a backend adds up, and what accumulators add to each counter and distribution |
| `Counters`, `Presence`, `Reports` | which series are reported, and what every number is in terms of the records themselves |
| `Quality`, `Baselines`, `Reservoir` | robust anomaly scoring, what its statistics are, and the bounded sample |
| `LangfuseApi`, `Pagination`, `Completeness` | reading pages from a server |
| `Coverage` | from a server's pages to what is exported |
| `CircuitBreakers`, `RateLimiter` | the gateway's two guards |

Conventions:

- Floats are `real`, instants are `int` microseconds, ids are strings with a distinguished blank, and
  exceptions are result values.
- Whatever the code gets from outside is an input: records and whether the source raises, server
  responses by request number, the generator's draws (any value in range), clock readings, what other
  workers or calls do meanwhile, and whether a call to the store or the exporter works, fails, or has
  its effect and raises all the same.
- Heavy parts are passed in as functions so that the laws hold for any of them: the record parser, the
  codec of instants, the normalization plan, the scoring rule, the page fetcher. `ParseObservation`,
  `ISO`, `PlanOf`, `ScorerOf`, `JobOf` and `FetcherOf` are the source's.

The results about whole histories rest on these facts about the source, which the code does not
enforce:

- An id keeps its start between two reads (`Respectful`). Its end, and everything else about it, may be
  revised; only `PruneComposes` takes ends as fixed too.
- The source keeps to the window it is asked for: starts lie from `fromStartTime` up to, and not at,
  `toStartTime`.
- Window ends never go back and the overlap never grows, from one committed run to a later one
  (`Monotone`). Where this is not assumed, `Safe` is the exact condition on the schedule.

Where the repository's words and its code differ, the model follows the code:

- DESIGN.md line 102 says an incomplete read is never checkpointed. A numbered read that meets an empty
  page before the declared last page ends without an error (langfuse_api.py lines 205-207), so such a
  window is committed. `CompleteIffNoGap` says exactly when that read is complete, and
  `DeclaredExported` what it means for what is exported.
- The docstring of `_dedup` keeps records without an id; the streaming pipeline rejects them as
  malformed. Both are modelled where they occur.
- With `min_sample` 1 a group of one length makes scoring raise on the median of nothing, which ends the
  run before export and commit (`RaisesExactly`, `RaisesIff`, `Run`).
- The window is planned from one load of the checkpoint and saved against another, and neither asks for
  a consistent read; a worker that then loses has exported against the older map it loaded.
  `NothingTwiceIff` is the exact condition on an interleaving for delivering nothing twice.
  `RaceCountsTwice` shows a save between the two loads that does harm, `OvertakenWithoutHarm` one that
  does none, and `AgreeingLoadsCountOnce` that without one the workers count like a single job.
- Exactly-once also needs window ends that never go back and an overlap that never grows
  (`ResumingIsSafe`); the code enforces neither. `ExactlyOnceIffSafe` is the exact condition for what is
  committed, and for a single job `DeliveryIsExact` is the one for what the backend receives.
- A truncated window is flagged and not committed, so that it is read again; it is then truncated again,
  and exports the same observations again, for as long as its records stay (`TruncationTrap`).
- The z-score is called robust; at MAD zero its fallback is not, and an outlier in the baseline can hide
  another value. `DetectionIsExact` says exactly when every far value is flagged.
- The breaker reads a clock that can go back: `RuleHoldsIff` says exactly when its rule holds then.

## Model

| member | source | states |
|---|---|---|
| `Protocol.ExactlyOnce` | langfuse-sli-pipeline/src/gateway_sli/pipeline.py:83-171 | For every history of runs with safe windows, whose observations keep their start (ends and everything else may be revised between reads): what the runs in scope export, in order, is exactly one in-memory deduplication of everything they read, for any record order, repeats, late and revised arrivals, overlaps and failed runs. The scope is the committed runs, or all runs whose export went through |
| `Protocol.ExactlyOnceIffSafe` | langfuse-sli-pipeline/src/gateway_sli/sources/langfuse_api.py:112-121 | The condition is exact for windows bounded on both sides, as the source queries them: a schedule counts every stream once if and only if, of two runs in scope whose windows meet, the earlier committed and no committed cutoff from it up to the later passes the start of both |
| `Protocol.WindowEndsMatter` | langfuse-sli-pipeline/src/gateway_sli/sources/langfuse_api.py:117-120 | A schedule that is safe only because its windows end: [0,10), [95,100), [60,200) with overlap 10 |
| `Protocol.UnsafeCountsTwice` | langfuse-sli-pipeline/src/gateway_sli/checkpoint.py:284-293 | Every unsafe schedule has a stream inside its windows, given by the lemma, in which an id is counted twice |
| `Protocol.ResumingIsSafe` | langfuse-sli-pipeline/src/gateway_sli/cli.py:186-189 | Resuming at watermark minus overlap is safe when window ends never go back and the overlap never grows |
| `Protocol.SameDecision` | langfuse-sli-pipeline/src/gateway_sli/pipeline.py:148-157 | For every record the next window can return, the pruned map and the unbounded history agree on whether its id was ever counted |
| `Protocol.Survives` | langfuse-sli-pipeline/src/gateway_sli/checkpoint.py:284-293 | An id read by a committed run stays in the map, whatever end it was read with, while no later cutoff passes its start; this uses that an observation ends no sooner than it starts |
| `Protocol.SeenEntries` | langfuse-sli-pipeline/src/gateway_sli/pipeline.py:308-313 | Every id in the stored map was read by a committed run and is stored with an end no earlier than its start |
| `Protocol.PruneComposes` | langfuse-sli-pipeline/src/gateway_sli/checkpoint.py:271-294 | With nondecreasing cutoffs and one end per id, pruning after every run is pruning the whole accumulated history once at the last cutoff |
| `Protocol.NoGap` | langfuse-sli-pipeline/src/gateway_sli/cli.py:186-189 | The committed windows of a resuming job cover every instant from the first window's start to the stored watermark |
| `Protocol.NothingLost` | langfuse-sli-pipeline/src/gateway_sli/pipeline.py:301-315 | Whatever the schedule, every id read in a committed window was exported by that run or an earlier committed one |
| `Protocol.DeliveredSplits` | langfuse-sli-pipeline/src/gateway_sli/pipeline.py:265-315 | What reached the backend is what committed runs exported plus what runs exported and then failed to commit |
| `Protocol.DeliveryIsExact` | langfuse-sli-pipeline/src/gateway_sli/checkpoint.py:117-124 | For a single job, every run of which knows the current map: a schedule delivers every stream to the backend with no id twice if and only if, of two runs that exported into windows that meet, the earlier committed and no committed cutoff in between passes the start of both. So an export without a commit costs a duplicate exactly when a later run that exports can read the same instant |
| `Protocol.RecentEntries` | langfuse-sli-pipeline/src/gateway_sli/pipeline.py:164-171 | The ids collected while streaming are exactly those of observations that end at or after the cutoff |
| `Workers.AnyInterleaving` | langfuse-sli-pipeline/src/gateway_sli/checkpoint.py:194-234 | For any interleaving of any number of workers, with loads that may return any earlier version of the item: the stored version is the number of successful saves, no worker is ahead of it and each remembers the map of the version it loaded, every version of the item holds the protocol's map and watermark for the runs saved up to it, and the backend holds, in order, exactly what the exports deliver, each against the version its worker had loaded |
| `Workers.BackendAccounts` | langfuse-sli-pipeline/src/gateway_sli/checkpoint.py:117-124 | What the backend holds is what the saved runs exported plus what runs exported that then failed to save |
| `Workers.NothingTwiceIff` | langfuse-sli-pipeline/src/gateway_sli/checkpoint.py:117-124 | When interleaved workers deliver nothing twice: an interleaving keeps every stream of observations in its windows free of repeated ids at the backend if and only if, of any two exports whose windows meet, the earlier was saved, the later had loaded a version after it, and no cutoff saved between those versions passes the start of both |
| `Workers.Realize` | langfuse-sli-pipeline/src/gateway_sli/checkpoint.py:194-234 | Any observations that fit the windows of an interleaving can be what its workers read, with the same loads, saves and failures |
| `Workers.SaveIffCurrent` | langfuse-sli-pipeline/src/gateway_sli/checkpoint.py:206-234 | A save succeeds if and only if the version its worker loaded is still the current one; a failed save changes neither item nor log; a successful one stores the prune of its immediate predecessor's map plus its own ids, so no update is lost; either way the batch has been exported |
| `Workers.LostRunsRepeat` | langfuse-sli-pipeline/src/gateway_sli/checkpoint.py:117-124 | What a conflict costs: every id that two exports both read, and that neither of the versions they had loaded knows, is delivered by both; so the loser of a race has delivered what the winner did |
| `Workers.AgreeingLoadsAreSafe` | langfuse-sli-pipeline/src/gateway_sli/cli.py:184-189 | When no save comes between the two loads of a run that saves, the saved schedule is safe with ordered window ends and overlaps, and delivers nothing twice if every export was saved |
| `Workers.AgreeingLoadsCountOnce` | langfuse-sli-pipeline/src/gateway_sli/cli.py:184-189 | So everything the workers saved counts every id once, and so does the backend when every export was saved |
| `Workers.OvertakenWithoutHarm` | langfuse-sli-pipeline/src/gateway_sli/cli.py:184-189 | The loads need not agree: an interleaving in which a run is overtaken between its loads and nothing can be delivered twice |
| `Workers.RaceCountsTwice` | langfuse-sli-pipeline/src/gateway_sli/pipeline.py:83 | A nine-step interleaving, for every instant, in which a save between the two loads makes two successful saves count one observation twice; it fails the exact condition |
| `Workers.RaceIsReachable` | langfuse-sli-pipeline/src/gateway_sli/cli.py:186-189 | That interleaving is a run of the workers' step relation, with these saves and exports |
| `Deliveries.HarmlessIff` | langfuse-sli-pipeline/src/gateway_sli/checkpoint.py:117-124 | The exact condition over any trace of exports, each against the version it had loaded |
| `Deliveries.SavedIsSafe` | langfuse-sli-pipeline/src/gateway_sli/checkpoint.py:117-124 | When every export was saved it is the condition on the windows of a single job |
| `Deliveries.DeliveriesSplit` | langfuse-sli-pipeline/src/gateway_sli/checkpoint.py:117-124 | What exports deliver is what the saved ones exported and what was lost |
| `Checkpoints.JsonRoundTrip` | langfuse-sli-pipeline/src/gateway_sli/checkpoint.py:50-62 | A checkpoint written to JSON reads back with the same watermark and the same map |
| `Checkpoints.SaveThenLoad` | langfuse-sli-pipeline/src/gateway_sli/checkpoint.py:194-234 | What a successful save puts in the table is what the next load returns |
| `Checkpoints.IsoReadsBack` | langfuse-sli-pipeline/src/gateway_sli/models.py:46-64 | Every instant a datetime can hold, printed in UTC to the microsecond, parses back to itself |
| `Checkpoints.PruneSeen` | langfuse-sli-pipeline/src/gateway_sli/checkpoint.py:271-294 | The two loops compute the prune of the stored text, entry by entry, for any way of writing instants that the codec describes |
| `Checkpoints.PruneRefines` | langfuse-sli-pipeline/src/gateway_sli/checkpoint.py:284-293 | Pruning stored text and reading the ends back is the protocol's pruning of instants, and the result again holds only named ids with readable ends |
| `Checkpoints.AddRecentStands` | langfuse-sli-pipeline/src/gateway_sli/checkpoint.py:291-293 | Adding this window's pairs as text stands for adding their ends as instants |
| `Checkpoints.WrittenIsReadable` | langfuse-sli-pipeline/src/gateway_sli/checkpoint.py:285-289 | A map the pipeline has written never makes pruning raise |
| `Checkpoints.Table.PutIfAbsent` | langfuse-sli-pipeline/src/gateway_sli/checkpoint.py:217-222 | The conditional put with attribute_not_exists: it succeeds exactly on an absent item |
| `Checkpoints.Table.PutIfVersion` | langfuse-sli-pipeline/src/gateway_sli/checkpoint.py:223-229 | The conditional put on the version: it succeeds exactly when the stored version is the expected one |
| `Checkpoints.DynamoDbCheckpointStore.Load` | langfuse-sli-pipeline/src/gateway_sli/checkpoint.py:194-204 | Load remembers the stored version, 0 for an absent item, and returns the decoded checkpoint |
| `Checkpoints.DynamoDbCheckpointStore.Save` | langfuse-sli-pipeline/src/gateway_sli/checkpoint.py:206-234 | Save conflicts exactly when the remembered version is not the stored one; a conflict changes nothing, a success stores the checkpoint at the next version, and a put that raises anything else may or may not have done so |
| `Idempotency.DedupObservations` | langfuse-sli-pipeline/src/gateway_sli/pipeline.py:38-56 | The in-batch loop keeps the first record of every id and counts the rest |
| `Idempotency.DedupDistinct` | langfuse-sli-pipeline/src/gateway_sli/pipeline.py:38-56 | One record per id survives |
| `Idempotency.DedupKeepsIds` | langfuse-sli-pipeline/src/gateway_sli/pipeline.py:38-56 | Deduplication loses no id |
| `Idempotency.DedupSubset` | langfuse-sli-pipeline/src/gateway_sli/pipeline.py:38-56 | Deduplication invents no record |
| `Idempotency.DedupConcat` | langfuse-sli-pipeline/src/gateway_sli/pipeline.py:147-157 | Deduplicating two batches together is deduplicating each and dropping from the second the ids of the first |
| `Idempotency.FreshMembers` | langfuse-sli-pipeline/src/gateway_sli/pipeline.py:155-157 | What the cross-run filter keeps is exactly the records whose id is not known |
| `Streaming.Stream` | langfuse-sli-pipeline/src/gateway_sli/pipeline.py:107-171 | The streaming loop, for any record type, parser, failing source and safety limit: the processed observations are the deduplicated valid ones minus the prior ids, both accumulators hold exactly those, and every counter is accounted for |
| `Streaming.Take` | langfuse-sli-pipeline/src/gateway_sli/pipeline.py:128-171 | One record: reject, quarantine, repeat, known or process, each with its counters |
| `Streaming.Conservation` | langfuse-sli-pipeline/src/gateway_sli/pipeline.py:124-180 | read = processed + malformed + quarantined + in-batch duplicates + cross-run duplicates, for every stream |
| `Streaming.RecordsSplit` | langfuse-sli-pipeline/src/gateway_sli/pipeline.py:129-145 | Every record is a named observation, poisonous, or rejected for exactly one reason |
| `Pipeline.Run` | langfuse-sli-pipeline/src/gateway_sli/pipeline.py:67-342 | A whole run: it raises exactly when loading the checkpoint raises, when scoring a group does, or when the save does with anything but a conflict, and in the first two cases sends nothing; it attempts its commit exactly when the source was read to its end without raising or truncation and the flush and the first heartbeat went through; the item changes exactly when then no other writer advanced it and the put had its effect, to the pruned map and the new watermark at the next version. The backend gains the flush exactly if it was delivered, also by a call that then raised, and of the heartbeats exactly this: if the first was delivered, one export gauge, 1.0 when the source was clean and the flush worked and 0.0 otherwise, and a source gauge of 0.0 when it was not clean; if the last was, one duration, and one conflict when there was one; nothing in any other series |
| `Pipeline.Observe` | langfuse-sli-pipeline/src/gateway_sli/pipeline.py:86-176 | From the source to the points: the account, the groups of some draw of the generator, and the points of exactly the processed observations, no series twice |
| `Pipeline.Gather` | langfuse-sli-pipeline/src/gateway_sli/pipeline.py:173-263 | The flushed points are exactly those of the workload, trust, quality and run families, no series occurs twice among them, and the workload stays under the ceiling |
| `Pipeline.Commit` | langfuse-sli-pipeline/src/gateway_sli/pipeline.py:308-315 | The commit stores the prune of the prior map plus the current pairs, reports a conflict and changes nothing, or raises, whether or not the put had its effect |
| `Pipeline.Flush` | langfuse-sli-pipeline/src/gateway_sli/pipeline.py:265-295 | The flush is attempted only after a clean source; the backend gains all of its points unless it failed outright, also when it raised after delivering them; of a delivered heartbeat it gains exactly one export gauge, 1.0 when the source was clean and the flush worked and 0.0 otherwise, and one source gauge of 0.0 exactly when the source failed |
| `Pipeline.LastBeat` | langfuse-sli-pipeline/src/gateway_sli/pipeline.py:317-335 | Of the last heartbeat the backend gains exactly one duration and, only for a conflict, one conflict count of 1; nothing else changes there |
| `Telemetry.BeatsTell` | langfuse-sli-pipeline/src/gateway_sli/pipeline.py:282-335 | What the heartbeats of a run say, series by series, whichever of the two were delivered |
| `Pipeline.FlushShows` | langfuse-sli-pipeline/src/gateway_sli/sli.py:235-380 | What a flush adds to any counter or distribution built from the accumulators is what those of exactly the processed observations amount to |
| `Pipeline.MemoryIsBounded` | langfuse-sli-pipeline/src/gateway_sli/quality.py:161-171 | Quality state stays bounded however long the stream: at most 28 groups, 4 when models are not told apart, of at most the sample cap each |
| `Exporters.Backend.Export` | langfuse-sli-pipeline/src/gateway_sli/emit/base.py:16-36 | An export delivers all of its points, or none when one of them violates the schema or the delivery fails; it can also raise after delivering them |
| `Exporters.Backend.Heartbeat` | langfuse-sli-pipeline/src/gateway_sli/emit/base.py:16-36 | The same for a heartbeat |
| `Pipeline.LoadPrior` | langfuse-sli-pipeline/src/gateway_sli/pipeline.py:81-84 | The ids known up front are those of the loaded checkpoint |
| `Pipeline.FlushedIsAllowed` | langfuse-sli-pipeline/src/gateway_sli/emit/base.py:16-36 | For every stream, every flushed point passes the schema guard |
| `Pipeline.JobIsGoverned` | langfuse-sli-pipeline/src/gateway_sli/normalize.py:33-188 | The configured normalizers and baseline keys stay inside the closed vocabularies for every observation |
| `EndToEnd.RunStep` | langfuse-sli-pipeline/src/gateway_sli/pipeline.py:67-342 | Every run, whatever the source yields and whatever fails, keeps the stored item in step with the history of runs, and processes exactly the observations the protocol calls new |
| `EndToEnd.RunKeeps` | langfuse-sli-pipeline/src/gateway_sli/pipeline.py:67-342 | What it flushes passes the guard and touches no series twice; it reaches the backend exactly when the run counts as exported, and adds to every counter and distribution what exactly the new observations amount to |
| `Schedule.RunAll` | langfuse-sli-pipeline/src/gateway_sli/cli.py:178-220 | Any number of invocations, each of which loads the checkpoint, resumes at the watermark minus the overlap and runs, whatever the sources yield and whatever fails, loads, flushes and saves included: the stored item stands for the history; in every counter and distribution the points at the backend add up to one aggregation of what was delivered; the points of the committed runs add up to one batch aggregation of everything those runs read, each id once, when from one committed run to a later one window ends never go back and the overlap never grows; and so does the whole backend when every export was followed by a commit, or when the schedule is safe for delivery |
| `Schedule.TruncationTrap` | langfuse-sli-pipeline/src/gateway_sli/pipeline.py:124-128 | A window with more records than the limit is never left: the run that met it does not commit, so once there is a watermark, and while the source keeps its records and the options stay, every later run starts at the same instant, truncates, and takes the same observations for new |
| `Schedule.TruncationDuplicates` | langfuse-sli-pipeline/src/gateway_sli/pipeline.py:301-307 | And what was new in it reaches the backend again with every such run that exports |
| `Schedule.CalledIsLawful` | langfuse-sli-pipeline/src/gateway_sli/cli.py:178-189 | The windows of such a history resume at the watermark, and what its runs read lies in their windows and ends no sooner than it starts |
| `Schedule.Plan` | langfuse-sli-pipeline/src/gateway_sli/cli.py:178-189 | The window starts at the stored watermark of the history minus the overlap, or a window's length before its end when nothing was committed |
| `EndToEnd.CommitKeeps` | langfuse-sli-pipeline/src/gateway_sli/pipeline.py:301-315 | A commit turns an item that represents a history into one that represents the longer history: version, watermark and map |
| `EndToEnd.RunConserves` | langfuse-sli-pipeline/src/gateway_sli/pipeline.py:124-180 | For every run and every stream: the records read are the sum of what became of them, and durations, outcomes, error categories and costs agree with the processed count and with each other, in total and series by series |
| `EndToEnd.SourceValidates` | langfuse-sli-pipeline/src/gateway_sli/models.py:121-227 | The source's parser and normalization meet what that needs |
| `EndToEnd.SafeIsBatch` | langfuse-sli-pipeline/src/gateway_sli/sli.py:383-399 | For a safe history the pointwise sum of the accumulators of the runs in scope, committed or delivered, is one batch aggregation of everything they read, each id once |
| `EndToEnd.AcknowledgedIsBatch` | langfuse-sli-pipeline/src/gateway_sli/sli.py:383-399 | When every run that exported something also committed, the backend holds the batch of the committed reads |
| `EndToEnd.TotalIsAggregateOfSet` | langfuse-sli-pipeline/src/gateway_sli/sli.py:383-399 | When an id always names the same observation, the sum is the aggregate of the set of observations read, listed once each in any order |
| `EndToEnd.ParserPrints` | langfuse-sli-pipeline/src/gateway_sli/models.py:121-130 | Every parsed end can be written back as a timestamp |
| `Aggregation.Aggregator.Add` | langfuse-sli-pipeline/src/gateway_sli/sli.py:198-233 | Adding an observation adds its contribution to every family, pointwise, and touches nothing else; what a contribution is in terms of the observation's own fields is `CounterIsSum` and `DistributionIsHistogram` |
| `Counters.CounterIsSum` | langfuse-sli-pipeline/src/gateway_sli/sli.py:198-233 | Under a configuration every counter of a window, whatever its labels, is the sum over the observations of one of their own fields: requests by outcome, errors by category, folded dimensions, input, output and cached tokens, cache hits, usable cost, and records whose cost is missing or invalid |
| `Counters.DistributionIsHistogram` | langfuse-sli-pipeline/src/gateway_sli/models.py:99-113 | Every distribution is the histogram of the times of the observations with its labels, in milliseconds: end minus start of all, and completion start minus start of the successful streaming ones whose completion starts in between |
| `Counters.GapsAre` | langfuse-sli-pipeline/src/gateway_sli/sli.py:226-233 | The totals of missing and invalid costs count the observations with neither cost nor cost error, and those with a cost error |
| `Counters.RatioMeans` | langfuse-sli-pipeline/src/gateway_sli/sli.py:309-318 | A completion ratio is reported exactly for the cost series with input tokens, and times their sum it is the sum of their output tokens |
| `Counters.ShownIsCounted` | langfuse-sli-pipeline/src/gateway_sli/sli.py:235-380 | A backend that shows a window holds exactly these sums and histograms, series by series |
| `Presence.SeriesReported` | langfuse-sli-pipeline/src/gateway_sli/sli.py:259-380 | Which counter series a window reports: spend and tokens of the cost series with a request, cached tokens and hits of those with a cache hit, successes of the series with a request of either outcome, and every other counter exactly where it is not zero |
| `Aggregation.Aggregator.AddTimes` | langfuse-sli-pipeline/src/gateway_sli/sli.py:211-215 | The latency goes to the duration series; a defined time to first token goes to its own series and is counted |
| `Aggregation.Aggregator.AddOutcome` | langfuse-sli-pipeline/src/gateway_sli/sli.py:204-209 | An error counts as error, in total and by category; anything else as success |
| `Aggregation.Aggregator.AddCost` | langfuse-sli-pipeline/src/gateway_sli/sli.py:217-233 | Cost, tokens and cache hits go to the cost series; an invalid cost is never also missing or summed |
| `Readings.Aggregate` | langfuse-sli-pipeline/src/gateway_sli/sli.py:383-399 | The batch wrapper: the points of one aggregation of the deduplicated list, each series once, adding to every counter and distribution what that list amounts to; repeats are added to the duplicate count |
| `Readings.PointsCarryReadings` | langfuse-sli-pipeline/src/gateway_sli/sli.py:235-380 | The points built from the accumulators add to every counter series, whatever its labels, exactly what the accumulators say of it, and 0 to a series they do not hold |
| `Readings.PointsCarryDistributions` | langfuse-sli-pipeline/src/gateway_sli/sli.py:250-257 | and to every latency and first-token series exactly its histogram: count, sum, extremes and every bucket |
| `Readings.ReadingAdds` | langfuse-sli-pipeline/src/gateway_sli/sli.py:172-196 | DELTA: the reading of a sum of accumulators is the sum of the readings, in every series |
| `Readings.ShowsMore` | langfuse-sli-pipeline/src/gateway_sli/sli.py:172-196 | So the points of two windows, sent one after the other, show the sum of their accumulators in every counter and distribution |
| `Aggregation.FoldConcat` | langfuse-sli-pipeline/src/gateway_sli/sli.py:198-233 | DELTA metrics add up: aggregating two lists separately and summing is aggregating their concatenation |
| `Aggregation.FoldIgnoresOrder` | langfuse-sli-pipeline/src/gateway_sli/sli.py:198-233 | The aggregate depends only on the multiset of observations |
| `Aggregation.MergeIsAssociative` | langfuse-sli-pipeline/src/gateway_sli/sli.py:172-196 | Summing accumulators is associative in every family |
| `Series.FoldPermutation` | langfuse-sli-pipeline/src/gateway_sli/sli.py:198-233 | A fold into a commutative, associative sum does not depend on order |
| `Series.TotalMerge` | langfuse-sli-pipeline/src/gateway_sli/sli.py:198-233 | A quantity that adds up value by value adds up over merged series |
| `Conservation.FoldTotals` | langfuse-sli-pipeline/src/gateway_sli/sli.py:198-233 | Durations, outcomes and cost requests each count every observation once; error categories add up to the errors, in every series and in all; missing and invalid costs add up to their counters |
| `Conservation.FoldBalanced` | langfuse-sli-pipeline/src/gateway_sli/sli.py:204-215 | In every series duration count = successes + errors, first-token count is at most the successes and first-token sum at most the duration sum, and missing plus invalid costs never exceed the requests |
| `Conservation.DurationSeries` | langfuse-sli-pipeline/src/gateway_sli/sli.py:211 | A series exists exactly when an observation belongs to it, and its histogram is that of exactly its latencies |
| `Conservation.FirstTokenSeries` | langfuse-sli-pipeline/src/gateway_sli/sli.py:212-215 | The same for times to first token |
| `Conservation.ValidIsMeasured` | langfuse-sli-pipeline/src/gateway_sli/models.py:99-113 | A valid observation has a non-negative latency, a first token only on success and within the latency, and one cost verdict |
| `Models.ParseVerdict` | langfuse-sli-pipeline/src/gateway_sli/models.py:121-227 | A record whose times denote instants within the years 1 to 9999 is rejected exactly when it ends, in whole microseconds, before it starts; otherwise it is parsed with those instants and their difference as its latency, unless reading the rest raises |
| `Records.ParseReasons` | langfuse-sli-pipeline/src/gateway_sli/models.py:121-130 | Exactly when a record is rejected for which reason, and when reading it raises something unforeseen, with the timestamps read before the rest |
| `Records.RecordRoundTrip` | langfuse-sli-pipeline/src/gateway_sli/models.py:208-227 | Every normal observation is read back, field by field, from the record that carries its fields |
| `Records.ParsedIsNormal` | langfuse-sli-pipeline/src/gateway_sli/models.py:121-227 | Every parsed observation is normal, so parsing brings records to a form that it leaves alone: blanks stripped, error types from the safe list or unknown, unusable costs gone |
| `Models.TokenCountIsFirst` | langfuse-sli-pipeline/src/gateway_sli/models.py:157-172 | A token count is the first candidate that is a natural number, zero included, at any position, and 0 when none is |
| `Models.Cost` | langfuse-sli-pipeline/src/gateway_sli/models.py:142-155 | A finite non-negative amount is kept as it is; anything else that was given is invalid and leaves no amount |
| `Histograms.HistAcc.Add` | langfuse-sli-pipeline/src/gateway_sli/sli.py:85-94 | Adding a value adds its one-value histogram: count, sum, extremes and exactly one bucket |
| `Histograms.CumulativeCounts` | langfuse-sli-pipeline/src/gateway_sli/sli.py:90-94 | Each cumulative bucket count is the number of values at most that bound |
| `Histograms.SummaryRange` | langfuse-sli-pipeline/src/gateway_sli/sli.py:85-94 | Count, minimum and maximum are those of the values |
| `Histograms.HistPercentile` | langfuse-sli-pipeline/src/gateway_sli/sli.py:97-122 | The loop over cumulative counts computes the estimate that the lemmas below are about: `EstimateInterpolates` says which number it is |
| `Histograms.EstimateInterpolates` | langfuse-sli-pipeline/src/gateway_sli/sli.py:106-119 | The number: when the target rank lies in bucket b, with `below` values up to its lower bound and `inside` in it, (estimate - lower) * inside = (q * n / 100 - below) * (upper - lower), where lower and upper are the bounds of the bucket cut to the least and greatest value |
| `Histograms.ExactByCount` | langfuse-sli-pipeline/src/gateway_sli/sli.py:106-119 | The exact percentile is at most v if and only if q percent of the values are, so that bucket is the one that holds it |
| `Histograms.EstimateInBucket` | langfuse-sli-pipeline/src/gateway_sli/sli.py:106-122 | The estimate lies in the bucket that first reaches the target, within the observed extremes |
| `Histograms.EstimateInRange` | langfuse-sli-pipeline/src/gateway_sli/sli.py:97-122 | The estimate lies between the observed minimum and maximum |
| `Histograms.EstimateMonotone` | langfuse-sli-pipeline/src/gateway_sli/sli.py:97-122 | The estimate is monotone in the quantile, across buckets, empty buckets and overflow |
| `Histograms.PercentilesOrdered` | langfuse-sli-pipeline/src/gateway_sli/sli.py:125-138 | p50 <= p95 <= p99 for every stream |
| `Histograms.SelectsTheRightBucket` | langfuse-sli-pipeline/src/gateway_sli/sli.py:106-119 | The selected bucket is the one of the exact order statistic of rank ceil(q * n / 100) |
| `Histograms.EstimateBracketsExact` | langfuse-sli-pipeline/src/gateway_sli/sli.py:97-122 | Estimate and exact percentile lie in the same bucket clipped to the extremes; in the overflow bucket the estimate is the true maximum |
| `OrderStatistics.SortedSpec` | langfuse-sli-pipeline/src/gateway_sli/sli.py:97-122 | The order statistics are those of an ascending permutation of the values |
| `OrderStatistics.RankByCount` | langfuse-sli-pipeline/src/gateway_sli/sli.py:106-119 | The r-th smallest value is at most v if and only if at least r values are |
| `Emission.PointPercentiles` | langfuse-sli-pipeline/src/gateway_sli/sli.py:125-138 | A percentile of an emitted duration point shares its bucket with the exact percentile of that series' latencies |
| `Emission.ConfiguredPercentiles` | langfuse-sli-pipeline/src/gateway_sli/sli.py:125-138 | With a valid configuration every emitted duration point carries its histogram and the estimates at 50, 95 and 99, with p50 <= p95 <= p99 within its observed extremes |
| `Emission.PointIsPercentile` | langfuse-sli-pipeline/src/gateway_sli/sli.py:125-138 | A percentile of a duration point is the interpolated percentile of exactly the latencies of its series |
| `Emission.FoldReadable` | langfuse-sli-pipeline/src/gateway_sli/sli.py:125-138 | Every histogram of every stream has the data its percentiles need |
| `Emission.Build` | langfuse-sli-pipeline/src/gateway_sli/sli.py:235-380 | The points are exactly those of the families, key by key, no series occurs twice, and a governed window emits at most the ceiling |
| `Emission.PairBound` | langfuse-sli-pipeline/src/gateway_sli/governance.py:225-233 | A set told apart by two parts is no larger than the product of their vocabularies |
| `Emission.WithinCeiling` | langfuse-sli-pipeline/src/gateway_sli/governance.py:240-266 | The accumulators of a governed window hold at most estimated_max_total_series() points |
| `Emission.FoldGoverned` | langfuse-sli-pipeline/src/gateway_sli/sli.py:198-233 | For every stream all keys stay in the closed vocabularies |
| `Emission.NormalizedIsGoverned` | langfuse-sli-pipeline/src/gateway_sli/normalize.py:33-188 | Every observation normalizes into the closed vocabularies |
| `Emission.WorkloadAllowed` | langfuse-sli-pipeline/src/gateway_sli/emit/base.py:16-36 | Every workload point of a governed window passes the guard |
| `Emission.TrustAllowed` | langfuse-sli-pipeline/src/gateway_sli/emit/base.py:16-36 | So do the trust counters built with it |
| `Governance.CeilingValue` | langfuse-sli-pipeline/src/gateway_sli/governance.py:240-266 | The ceiling is 17,920 |
| `Governance.ViolatesMeans` | langfuse-sli-pipeline/src/gateway_sli/emit/base.py:16-36 | What the guard raises for a point and when it raises nothing: registered, of the registered kind and unit, only with labels of its metric, and values from their vocabularies; its separate check of attribute keys is implied by the labels of the metric |
| `Governance.AssertAllowed` | langfuse-sli-pipeline/src/gateway_sli/emit/base.py:16-36 | The guard accepts a batch exactly when every point is allowed, and otherwise raises the first violation |
| `Telemetry.QualityPoints` | langfuse-sli-pipeline/src/gateway_sli/pipeline.py:187-211 | The quality points are exactly the anomaly counts, maxima and empty-completion counts of the groups, each series once, unless scoring raises |
| `Telemetry.FlushOnce` | langfuse-sli-pipeline/src/gateway_sli/pipeline.py:173-263 | The four families of a flush share no series |
| `Telemetry.ScoreGroups` | langfuse-sli-pipeline/src/gateway_sli/quality.py:199-200 | Every group is scored once, and scoring raises exactly when a group's does |
| `Telemetry.RaisesIff` | langfuse-sli-pipeline/src/gateway_sli/quality.py:199-200 | Scoring a window raises exactly when a group has a single length and the minimum sample is at most one |
| `Telemetry.QualityAllowed` | langfuse-sli-pipeline/src/gateway_sli/emit/base.py:16-36 | Every quality point passes the guard |
| `Telemetry.RunAccepted` | langfuse-sli-pipeline/src/gateway_sli/pipeline.py:213-263 | Every point about the run passes any guard that accepts registered points without dimensions |
| `Telemetry.HealthAccepted` | langfuse-sli-pipeline/src/gateway_sli/pipeline.py:282-328 | So do the heartbeats a run sends |
| `Reports.FlushTells` | langfuse-sli-pipeline/src/gateway_sli/pipeline.py:213-263 | What a flush says about its run, metric by metric: the records read, processed, malformed, quarantined, repeated and already known, as counts of the records themselves; truncation; missing and invalid costs; what the source counted; freshness and skew as the distance of the latest kept end from the window's end; and the number of workload points |
| `Reports.FlushCounts` | langfuse-sli-pipeline/src/gateway_sli/pipeline.py:173-185 | The flush of a configured run adds to every counter the sum over the observations kept of what each adds from its own fields, and to every distribution the histogram of their times |
| `Reports.FlushTellsGaps` | langfuse-sli-pipeline/src/gateway_sli/pipeline.py:227-230 | and reports how many kept observations miss a cost or have an invalid one |
| `Reports.FlushScores` | langfuse-sli-pipeline/src/gateway_sli/pipeline.py:187-211 | Each quality group of the flush is scored at the configured minimum sample and threshold on a sample of at most 50,000 of its lengths, all of them up to that many; the reported count and maximum are those of that score, nothing is reported for a cold start, and empty completions are counted |
| `Reports.JobMeans` | langfuse-sli-pipeline/src/gateway_sli/quality.py:145-149 | Observations are grouped by route, and by model family exactly when so configured |
| `Reports.BackendCounts` | langfuse-sli-pipeline/src/gateway_sli/pipeline.py:67-342 | After any history of configured runs every counter at the backend is the sum, over what the runs in scope sent, of what each observation adds from its own fields; when the schedule is safe, over everything they read, each id once |
| `Normalization.TeamMatches` | langfuse-sli-pipeline/src/gateway_sli/normalize.py:99-111 | A team is unattributed exactly when blank, a known team only when spelled like it up to case, and folded exactly when it is given and spelled like no known team |
| `Normalization.RouteMatches` | langfuse-sli-pipeline/src/gateway_sli/normalize.py:117-127 | A route is a known one only when well-shaped and spelled like it up to case, and folded exactly when it is ill-shaped or spelled like no known route |
| `Normalization.UnregisteredVariants` | langfuse-sli-pipeline/src/gateway_sli/normalize.py:43-47 | A gpt-5 name whose rest is not plainly a version, such as gpt-5-nano, is folded and never counted as gpt-5 |
| `Normalization.CategoryKnown` | langfuse-sli-pipeline/src/gateway_sli/normalize.py:56-81 | The category of an error type is unknown exactly when the type is not one of the fourteen safe ones, up to case |
| `Vocabularies.TeamIff` | langfuse-sli-pipeline/src/gateway_sli/normalize.py:99-110 | A registered team is reported exactly for its own name, up to case and blanks around it, where it is configured |
| `Vocabularies.RouteIff` | langfuse-sli-pipeline/src/gateway_sli/normalize.py:117-125 | and a registered route exactly for its own name, where well-shaped and configured |
| `Vocabularies.RouteShapeIff` | langfuse-sli-pipeline/src/gateway_sli/normalize.py:114 | Well-shaped is 1 to 64 letters, digits, dots, underscores and dashes, a letter or digit first |
| `Vocabularies.CategoryIff` | langfuse-sli-pipeline/src/gateway_sli/normalize.py:57-81 | The category of an error is the one its type has in the table of fourteen, up to case, and unknown without one |
| `Vocabularies.SafeTypesAreCategorized` | langfuse-sli-pipeline/src/gateway_sli/models.py:190-206 | The types with a category are those the parser keeps |
| `Vocabularies.EnvIs` | langfuse-sli-pipeline/src/gateway_sli/normalize.py:85-96 | The environment is the one its name has in the table of six, up to case, and other without one |
| `Vocabularies.RegionIff` | langfuse-sli-pipeline/src/gateway_sli/normalize.py:130-142 | Each provider region stands exactly for the internal ids with its prefix |
| `Vocabularies.ClaudeIff` | langfuse-sli-pipeline/src/gateway_sli/normalize.py:36-42 | Each Claude family stands exactly for the names that contain claude and the family, sonnet before haiku before opus |
| `Vocabularies.GptIff` | langfuse-sli-pipeline/src/gateway_sli/normalize.py:43-53 | Of the other names, gpt-5-mini is gpt-5, a separator and anything that ends in mini, gpt-5 is gpt-5 and a version, gpt-4o anything that starts so, and all else is folded |
| `Vocabularies.VersionIff` | langfuse-sli-pipeline/src/gateway_sli/normalize.py:46 | A version is separators and digits with a separator first, a digit last, and no two separators in a row |
| `Vocabularies.ContainsIff` | langfuse-sli-pipeline/src/gateway_sli/normalize.py:36-42 | One name contains another exactly when it holds it at some position |
| `Vocabularies.LowerMeans` | langfuse-sli-pipeline/src/gateway_sli/normalize.py:34 | Lower case exchanges the 26 capital letters and keeps every other character |
| `Normalization.FoldsMean` | langfuse-sli-pipeline/src/gateway_sli/normalize.py:145-161 | A dimension is reported as folded exactly when it was given and matches nothing known; for teams and routes, nothing configured is spelled like it |
| `Quality.MedianBreakdown` | langfuse-sli-pipeline/src/gateway_sli/quality.py:114 | The median stays in [lo, hi] while fewer than half of the values lie outside it, whatever those are |
| `Quality.MadBreakdown` | langfuse-sli-pipeline/src/gateway_sli/quality.py:115-116 | The MAD then stays within hi - lo |
| `Quality.RobustDetection` | langfuse-sli-pipeline/src/gateway_sli/quality.py:113-119 | Whenever the MAD is positive, a value further than (threshold / 0.6745) * (hi - lo) outside [lo, hi] is flagged, however fewer than half of the baseline is poisoned |
| `Quality.GroupDetects` | langfuse-sli-pipeline/src/gateway_sli/quality.py:126-139 | So a group of any size counts at least the values that are that far out of a majority of what they are scored against: the others, or in a group of more than 2,000 the other half |
| `Quality.DetectionIsExact` | langfuse-sli-pipeline/src/gateway_sli/quality.py:113-123 | When poisoning cannot hide: with a majority in [lo, hi], every value that far out, over the reals, is flagged if and only if the MAD is positive, or the mean deviation is zero, or it is small against the margins and the distance of the median to them; where it fails the value that hides is a real number and need not be a whole count |
| `Quality.ZeroMadMasks` | langfuse-sli-pipeline/src/gateway_sli/quality.py:120-123 | A baseline where it can: one outlier in three inflates the fallback and passes |
| `Quality.GroupIgnoresOrder` | langfuse-sli-pipeline/src/gateway_sli/quality.py:126-139 | Up to the exact limit the result of a group depends only on the multiset of its lengths |
| `Quality.GroupIgnoresUnits` | langfuse-sli-pipeline/src/gateway_sli/quality.py:102-139 | Status, anomaly count and maximum |z| are unchanged when every length is translated or scaled by a nonzero factor, through all three branches and both paths |
| `Quality.ScorersAgree` | langfuse-sli-pipeline/src/gateway_sli/quality.py:73-124 | The two scoring functions agree on every baseline that is not a cold start |
| `Quality.RaisesExactly` | langfuse-sli-pipeline/src/gateway_sli/quality.py:102-129 | The median of an empty baseline raises, and that makes scoring a group raise exactly for a single value with a minimum sample of at most one |
| `Quality.ScoreGroup` | langfuse-sli-pipeline/src/gateway_sli/quality.py:102-139 | Scores the group as specified, by leave-one-out up to the exact limit and by halves beyond it; what each score is stands in `ScoreMeans` |
| `Baselines.ScoreMeans` | langfuse-sli-pipeline/src/gateway_sli/quality.py:114-125 | |z| times the MAD is 0.6745 times the distance from the median; at MAD zero, |z| times 1.2533 mean deviations is the distance; a value is an anomaly exactly from the threshold on, and against a constant baseline exactly when it differs, then without a |z| |
| `Baselines.MeanAdBetween` | langfuse-sli-pipeline/src/gateway_sli/quality.py:121 | The mean deviation lies between the least and the greatest distance of a baseline value from the median; it is d when every value is d away |
| `Baselines.MedianHalves` | langfuse-sli-pipeline/src/gateway_sli/quality.py:115 | At least half of the values are at most the median, and at most half are at most anything below it |
| `Baselines.MedianIsMidway` | langfuse-sli-pipeline/src/gateway_sli/quality.py:115 | With an even number of values it is midway between the two in the middle |
| `Baselines.MadHalves` | langfuse-sli-pipeline/src/gateway_sli/quality.py:116-117 | At least half of the values lie within the MAD of the median, and at most half within anything less |
| `Baselines.RepeatedBaseline` | langfuse-sli-pipeline/src/gateway_sli/quality.py:114-125 | A baseline repeated as a whole, any number of times, has the same median, MAD and mean deviation, and gives every value the same verdict |
| `Baselines.OwnBaseline` | langfuse-sli-pipeline/src/gateway_sli/quality.py:127-136 | A value never influences what it is scored against, in a group of any size |
| `Baselines.SmallBaseline` | langfuse-sli-pipeline/src/gateway_sli/quality.py:128-130 | Up to 2,000 values that is all the others |
| `Baselines.LargeBaseline` | langfuse-sli-pipeline/src/gateway_sli/quality.py:131-136 | In a larger group the values at even and at odd positions are scored against each other |
| `Quality.ScoreLeaveOneOut` | langfuse-sli-pipeline/src/gateway_sli/quality.py:127-129 | Each value is scored against all the others |
| `Quality.ScoreCrossFit` | langfuse-sli-pipeline/src/gateway_sli/quality.py:130-135 | Each value is scored against the other half |
| `Quality.Summarize` | langfuse-sli-pipeline/src/gateway_sli/quality.py:136-139 | The count is the number of anomalous scores, the maximum is a largest |z| among the finite ones, and the status is ok exactly when some score is |
| `Quality.GroupMeans` | langfuse-sli-pipeline/src/gateway_sli/quality.py:136-139 | The same of the fold that the group's result is specified by |
| `Reservoir.Uniform` | langfuse-sli-pipeline/src/gateway_sli/quality.py:189-197 | Of all draw sequences for n values, a fraction of exactly cap / n keeps position p, the same for every position |
| `Reservoir.SourcesDistinct` | langfuse-sli-pipeline/src/gateway_sli/quality.py:189-197 | The sample holds distinct positions of the stream, as many as fit |
| `Reservoir.KeptBySource` | langfuse-sli-pipeline/src/gateway_sli/quality.py:189-197 | and the values found there |
| `Reservoir.KeepsAllBelowCap` | langfuse-sli-pipeline/src/gateway_sli/quality.py:191-192 | Up to the cap the bucket is the stream |
| `Reservoir.DrawsCount` | langfuse-sli-pipeline/src/gateway_sli/quality.py:194 | A full bucket multiplies the draw sequences by the number of outcomes of one draw |
| `Reservoir.KeepingCount` | langfuse-sli-pipeline/src/gateway_sli/quality.py:193-196 | How many draw sequences keep a new position, and an old one |
| `Reservoir.QualityAccumulator.Add` | langfuse-sli-pipeline/src/gateway_sli/quality.py:182-197 | One more observation, with any outcome of the generator: every bucket remains one that Algorithm R can produce from its group's lengths, and the counts are exact |
| `Reservoir.GroupCompletionLengths` | langfuse-sli-pipeline/src/gateway_sli/quality.py:149-158 | The batch grouping lists each group's lengths in order |
| `Reservoir.MatchesBatch` | langfuse-sli-pipeline/src/gateway_sli/quality.py:164-171 | Below the cap streaming and batch grouping agree, whatever was drawn |
| `Timestamps.ParseIsFloor` | langfuse-sli-pipeline/src/gateway_sli/models.py:46-64 | A parsed timestamp is the denoted instant, to the nanosecond, rounded down to the microsecond; `OffsetShifts` says which instant an offset denotes |
| `Timestamps.OffsetShifts` | langfuse-sli-pipeline/src/gateway_sli/models.py:62-64 | A text with the offset +hh:mm denotes the instant that is hh:mm earlier than the same text with Z, and with -hh:mm the instant that much later, whatever its fraction and whatever blanks precede it |
| `Timestamps.ParseShifts` | langfuse-sli-pipeline/src/gateway_sli/models.py:62-64 | So the parsed microseconds differ by exactly hh:mm, unless that leaves the years 1 to 9999 |
| `Timestamps.InvalidIff` | langfuse-sli-pipeline/src/gateway_sli/models.py:37-59 | Exactly which texts are invalid: those that are not, up to blanks around them, a date in the calendar, a time of day, up to nine fraction digits and a zone |
| `Timestamps.MatchOfWritten` | langfuse-sli-pipeline/src/gateway_sli/models.py:37-43 | A timestamp put together from its parts matches, with exactly those parts as its groups |
| `Timestamps.WrittenOfMatch` | langfuse-sli-pipeline/src/gateway_sli/models.py:37-43 | Every text that matches is put together that way |
| `Timestamps.CalendarIsGregorian` | langfuse-sli-pipeline/src/gateway_sli/models.py:64 | Day numbers agree with the closed form of Reingold and Dershowitz for every date |
| `Timestamps.StripMeans` | langfuse-sli-pipeline/src/gateway_sli/models.py:57 | Stripping takes the blanks at both ends and nothing else |
| `Timestamps.ParseMonotone` | langfuse-sli-pipeline/src/gateway_sli/models.py:46-64 | Parsing is monotone in the denoted instant, across fractions of one to nine digits and any offset |
| `Timestamps.ParseAccepts` | langfuse-sli-pipeline/src/gateway_sli/models.py:53-64 | Every text of the shape with numbers in range parses, unless it falls outside the years 1 to 9999 |
| `Timestamps.RoundTrip` | langfuse-sli-pipeline/src/gateway_sli/checkpoint.py:50-62 | Parsing a printed UTC microsecond timestamp returns it |
| `LangfuseApi.LangfuseApiTraceSource.Get` | langfuse-sli-pipeline/src/gateway_sli/sources/langfuse_api.py:211-232 | The retry loop ends with the first response that is not retryable or the last attempt, and counts its requests and retries |
| `LangfuseApi.LangfuseApiTraceSource.FetchPage` | langfuse-sli-pipeline/src/gateway_sli/sources/langfuse_api.py:123-154 | One page: the limit, the shape checks, the repeated-signature check and the counters |
| `LangfuseApi.LangfuseApiTraceSource.IterCursorPages` | langfuse-sli-pipeline/src/gateway_sli/sources/langfuse_api.py:161-176 | The cursor loop yields, fails, counts, asks and accepts as specified |
| `LangfuseApi.LangfuseApiTraceSource.IterNumberedPages` | langfuse-sli-pipeline/src/gateway_sli/sources/langfuse_api.py:178-209 | The numbered loop yields, fails, counts, asks and accepts as specified |
| `LangfuseApi.LangfuseApiTraceSource.IterRecords` | langfuse-sli-pipeline/src/gateway_sli/sources/langfuse_api.py:94-110 | The whole read, in the mode the first response selects; what the object asked and accepted is what the specification of the read lists, which the laws below are about |
| `LangfuseApi.Attempt` | langfuse-sli-pipeline/src/gateway_sli/sources/langfuse_api.py:214-222 | At least one and at most maxRetries + 1 requests are sent for a page |
| `LangfuseApi.AttemptEnds` | langfuse-sli-pipeline/src/gateway_sli/sources/langfuse_api.py:214-224 | Every response before the last one is a 429, a 599 or a 500 to 504 other than 501, and the last is such a one only when no retry was left |
| `LangfuseApi.CheckedMeans` | langfuse-sli-pipeline/src/gateway_sli/sources/langfuse_api.py:138-147 | Exactly which responses give a page, with which records, cursor and total, and what each of the others fails with |
| `LangfuseApi.SameSignature` | langfuse-sli-pipeline/src/gateway_sli/sources/langfuse_api.py:148-152 | Pages of records count as repeated exactly when they list the same ids in the same order |
| `Pagination.EveryRead` | langfuse-sli-pipeline/src/gateway_sli/sources/langfuse_api.py:94-232 | Against any server: accepted pages stay under the limit, each page costs one request and at most maxRetries more, no nonempty page is accepted twice, and what is yielded is exactly what was accepted, up to a page that changes the mode |
| `Pagination.AnyServer` | langfuse-sli-pipeline/src/gateway_sli/sources/langfuse_api.py:94-232 | The same for any way of fetching pages that keeps those accounts |
| `Pagination.OneMode` | langfuse-sli-pipeline/src/gateway_sli/sources/langfuse_api.py:94-110 | The mode never switches and nothing is asked for twice: after page 1 come either distinct cursors only, or the pages 2, 3 and so on |
| `Pagination.CursorsOnce` | langfuse-sli-pipeline/src/gateway_sli/sources/langfuse_api.py:161-176 | No cursor is requested twice |
| `Pagination.PagesInOrder` | langfuse-sli-pipeline/src/gateway_sli/sources/langfuse_api.py:197-209 | Numbered pages are requested in order |
| `Pagination.FetcherAccounts` | langfuse-sli-pipeline/src/gateway_sli/sources/langfuse_api.py:123-154 | A fetch sends at most maxRetries + 1 requests, counts them, and accepts only a new nonempty page |
| `Completeness.HonestFetcher` | langfuse-sli-pipeline/src/gateway_sli/sources/langfuse_api.py:211-232 | With at most maxRetries retryable failures per page an honest server's answers arrive |
| `Completeness.CursorServer` | langfuse-sli-pipeline/src/gateway_sli/sources/langfuse_api.py:161-176 | An honest cursor server, whatever number of pages it declares, is read to the end: the concatenation of its pages, with requests = pages + retries |
| `Completeness.DeclaredServer` | langfuse-sli-pipeline/src/gateway_sli/sources/langfuse_api.py:178-209 | An honest server that declares its pages is read up to the first empty page after page 1, without an error, with requests = pages + retries |
| `Completeness.CompleteIffNoGap` | langfuse-sli-pipeline/src/gateway_sli/sources/langfuse_api.py:205-207 | Such a read is complete if and only if nothing follows that empty page; it reports no failure either way |
| `Completeness.SilentGap` | langfuse-sli-pipeline/src/gateway_sli/sources/langfuse_api.py:205-207 | Such a gap: of three declared pages, the second empty, only the first is read, and nothing fails |
| `Completeness.UndeclaredServer` | langfuse-sli-pipeline/src/gateway_sli/sources/langfuse_api.py:194-209 | An honest server that declares nothing is read to its first short or empty page, with requests = pages + retries and no failure; the read is complete if and only if nothing follows |
| `Coverage.ExportedIff` | langfuse-sli-pipeline/src/gateway_sli/sources/langfuse_api.py:194-209 | Of a committed window of which only some pages were read, everything that the server shows was exported if and only if the ids behind those pages were read before them or had been exported already |
| `Coverage.DeclaredExported` | langfuse-sli-pipeline/src/gateway_sli/sources/langfuse_api.py:205-207 | For an honest server that declares its pages, and new ids behind a gap: everything it shows in a committed window was exported if and only if nothing follows the first empty page after page 1 |
| `Coverage.UndeclaredExported` | langfuse-sli-pipeline/src/gateway_sli/sources/langfuse_api.py:194-209 | For one that declares nothing, if and only if nothing follows the first short or empty page |
| `Coverage.CursorExported` | langfuse-sli-pipeline/src/gateway_sli/sources/langfuse_api.py:161-176 | A cursor server's committed window is exported whole |
| `CircuitBreakers.RuleHoldsIff` | src/inference_control_plane/services/llm_client.py:27-55 | For every trace and any clock, a request is admitted exactly when failures since the last success are few or the last failure is more than the timeout ago, if and only if a breaker that has been probed is not asked at a time before the timeout had passed |
| `CircuitBreakers.StatelessRule` | src/inference_control_plane/services/llm_client.py:35-55 | So under a clock that never goes back, and any interleaving of queries, failures and successes, the rule holds |
| `CircuitBreakers.StatesMean` | src/inference_control_plane/services/llm_client.py:27-55 | The three states read off any trace: closed exactly when failures are few, half-open exactly when a query came after the timeout since the last failure or success |
| `CircuitBreakers.HalfOpenReopens` | src/inference_control_plane/services/llm_client.py:35-39 | One failure in HALF_OPEN re-opens the breaker until the timeout has passed again, whatever the clock does |
| `CircuitBreakers.ClockMustNotGoBack` | src/inference_control_plane/services/llm_client.py:45-55 | A clock that goes back is such a case: probed at 200, the breaker still admits at 110 |
| `CircuitBreakers.RequestWithRetry` | src/inference_control_plane/services/llm_client.py:121-145 | A rejected call makes no attempt and records nothing; an admitted one makes at most maxRetries + 1 attempts and records exactly one outcome, after whatever other calls did meanwhile |
| `CircuitBreakers.MadeMeans` | src/inference_control_plane/services/llm_client.py:130-141 | All attempts but the last are retryable failures, and the last is one only when no attempt is left |
| `CircuitBreakers.Breaker.RecordFailure` | src/inference_control_plane/services/llm_client.py:35-39 | Counts, remembers the time and opens at the threshold |
| `CircuitBreakers.Breaker.RecordSuccess` | src/inference_control_plane/services/llm_client.py:41-43 | Clears the count and closes |
| `CircuitBreakers.Breaker.IsAllowed` | src/inference_control_plane/services/llm_client.py:45-55 | Admits unless open within the timeout, and turns an expired open state half-open |
| `RateLimiter.CheckRateLimit` | src/inference_control_plane/services/rate_limiter.py:19-52 | Counts the request and allows it up to the limit; a missing client fails open, and so does a command that raises, whether or not it had its effect; a rejection asks to wait for the counter's remaining time to live, at least a second |
| `RateLimiter.CounterIsExact` | src/inference_control_plane/services/rate_limiter.py:32-43 | On a clock that does not go back a counter lives through its own bucket, although the store drops expired counters, and counts exactly the requests of its name in it |
| `RateLimiter.ExactlyTheLimit` | src/inference_control_plane/services/rate_limiter.py:45-46 | Of n requests of a name in one bucket exactly min(n, limit) are allowed |
| `RateLimiter.AtMostTwice` | src/inference_control_plane/services/rate_limiter.py:14-16 | Any interval as long as the window admits at most twice the limit |
| `RateLimiter.TwoBuckets` | src/inference_control_plane/services/rate_limiter.py:14-16 | Such an interval touches at most two buckets |
| `RateLimiter.TtlIsNearest` | src/inference_control_plane/services/rate_limiter.py:34-39 | The remaining time a rejection reports is right to within half a second |
| `RateLimiter.Lifetime` | src/inference_control_plane/services/rate_limiter.py:41-43 | A counter that a check opens is there for one window length exactly |

## Left out

- Rounding: sums and ratios are exact reals; the rounding of cost, ratio and |z| points is not modelled.
- Histogram objects inside the aggregator's dictionaries: the dictionaries hold histogram values, and
  `HistAcc` is verified as an object on its own; sharing of histogram objects is not captured.
- Bucket counts are a sequence indexed by bucket instead of a dictionary keyed by bound.
- Order of points: the emitted points are specified as a set in which no series occurs twice; the
  insertion order of dictionary keys is not captured.
- Sums at the backend: what is built from the accumulators is added up (`Readings.ADDITIVE`); gauges
  and the counters about the run itself are not added up over runs.
- The JSON shape of a raw record: `Models.Raw` holds what the parser reads from it, with everything that
  raises unforeseen errors as one case. The spelling of the `stream` flag and of error types is read
  off before that.
- Text: white space, digits and case folding are those of ASCII. Timestamps follow CPython 3.11 to 3.13
  in accepting any two digits for the minutes of an offset below 24 hours, and no hour 24.
- A stored end outside the years 1 to 9999 makes pruning raise in the source and is skipped here;
  `WrittenIsReadable` shows that no map the pipeline writes holds one. The same holds for a cutoff that
  falls outside that range.
- Exporter internals: an export delivers all of its points or none; retries and the OTLP layout are not
  modelled.
- `FileCheckpointStore`, the DynamoDB client adapter, HTTP transports, backoff delays and request
  authentication: I/O. The conditional put is one atomic step.
- Workers.AnyInterleaving: works on instants; that stored text stands for them is `CommitKeeps`. What a
  worker exports is its list of observations; the points are part of `Pipeline.Run`.
- Schedule.RunAll: a single job with no other writer; several workers are `Workers`. A watermark minus
  the overlap that leaves the years 1 to 9999 raises in the source and is not modelled.
- Quality.GroupIgnoresOrder: holds up to 2,000 values; beyond that the code splits by position and
  order matters.
- RateLimiter.CounterIsExact: the counter store succeeds and shares the limiter's clock, which does not
  go back. A check that raises fails open (`CheckRateLimit`); streams with such checks, and commands
  delayed past a bucket boundary, are not modelled. The joined scope and identifier count as one name.
- Regular expressions of personal-data filters, the response cache, routing tiers, provider request
  functions, FastAPI routes, dashboards, tracing and the two web front ends.
- The interpolated `_percentile` over full lists and `estimated_max_series` on its own: easy members.
