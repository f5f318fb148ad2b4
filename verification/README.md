# Backend protocols: model and proofs

The backend keeps most of its state in database tables and drives them with small protocols.
This project models eleven of them in Dafny and proves what they keep over whole runs. Each
component has a functional account of its steps, lemmas about every run of these steps, and,
where the code changes state, a class whose methods follow the code and are proved to take
exactly these steps.

| component | files |
|---|---|
| Backfill worker pool: interleaving at every await, retries, resume | `Backfill`, `BackfillSchedules`, `BackfillPool` |
| Transactional outbox: publishers, dispatch jobs and admin retries, one statement a step | `Outbox`, `OutboxRuns`, `OutboxHistory`, `OutboxStore` |
| Tumbling and sliding window aggregation | `AggregationWindow`, `WindowLaws` |
| CSV export and a reader for it (section 2 of RFC 4180, LF line breaks) | `AlertCsv` |
| API keys and their fixed-window rate limit | `ApiKeys`, `ApiKeyLimits`, `ApiKeyHistory`, `ApiKeyService` |
| Greedy duplicate grouping and merging of assets | `AssetMerge`, `AssetMergeLaws`, `AssetMergeTable`, `AssetMergeAll`, `AssetMergeSettles` |
| Alert windows with incremental statistics | `AlertWindowing`, `AlertWindowTable` |
| Admin rotation with multi-signature proposals and an event log | `AdminRotation`, `AdminRotationRuns`, `AdminRotationHistory`, `AdminRotationService` |
| Incident correlation groups | `Correlation`, `CorrelationHistory`, `CorrelationService` |
| Alert routing with suppression and fallback, channels dispatched concurrently | `AlertRouting`, `AlertRoutingRuns`, `AlertRoutingHistory`, `AlertRouter` |
| Archive-then-delete cleanup with failures and foreign inserts | `Cleanup`, `CleanupRuns`, `CleanupChains`, `CleanupJob` |
| Shared shapes, sequence facts, trimming and distinct strings | `Common`, `Texts` |

`dafny verify dfyconfig.toml` checks the whole project.

## What the proofs found

- Backfill: a chunk gets max(1, maxRetries + 1) attempts and an outbox event max(1, maxRetries);
  a negative or zero setting still buys one attempt.
- Backfill: the completed and failed lists partition the plan if and only if the resume list is
  distinct and within the plan (`BackfillPool.PartitionsIff`). The code checks neither, and
  `BackfillPool.ResumeCanFailToPartition` has a configuration for each half that it accepts and that fails.
- API keys: a half-open minute holds at most 2L - 1 accepted calls, one less than the 2L that two
  full windows suggest, and that bound is reached (`ApiKeyLimits.BoundAttained`).
- Asset merge: numerator and denominator of the match score grow together, so a score is 0 or 1
  and the 0.8 threshold never discriminates (`AssetMerge.ScoreIsAllOrNothing`). Merging every found
  group throws if and only if a merge would fill a missing symbol: the column is unique
  (backend/src/database/migrations/001_initial_schema.ts:19) and the duplicate still holds the value.
  With the schema's present and unique symbols that means that an asset whose symbol is the empty text
  leads a group (`AssetMergeSettles.MergesUnlessSymbolEmpty`). Where nothing throws, the table need not settle:
  nothing is left to merge if and only if no field filled into a primary gets the value that another
  survivor ends up with in that field (`AssetMergeSettles.MergeAllSettlesIff`).
  `AssetMergeSettles.FillingCanRegroup` merges a table of three rows, allowed by the schema, that does not settle.
- Correlation: linking an ungrouped incident with itself makes a group of one
  (`Correlation.LinkKeepsIff`). An unlink right after a link restores every block if and only if the
  target was ungrouped or the two were in different groups, where neither call moves anything
  (`Correlation.UnlinkUndoesLinkIff`).
- Correlation: the service inserts members with `ON CONFLICT (incident_id) DO NOTHING`, but the table's
  migration declares only a plain index on that column. PostgreSQL refuses such a clause without a
  unique constraint, so under that migration every link throws. The results describe the service under
  the constraint it assumes.
- Cleanup: no preserve condition of the six policies ever applies, because each window is shorter
  than the retention (`Cleanup.PreserveNeverApplies`). A successful cleanup loses exactly the old rows
  that another connection inserts after the archive query (`CleanupRuns.LostIffWrittenAfterSelect`;
  `CleanupRuns.CleanupCanLose` is such a run). Over a chain of cleanups a row is archived more than once if
  and only if a call archived it but left it in the table, which only a call that threw or never ended does, and
  a later one archived it again (`CleanupChains.ArchivedTwiceIff`, `CleanupChains.CleanupCanArchiveTwice`). A forced
  dry run deletes nothing but reports the matching rows as deleted.
- Cleanup: two of the six policies do not fit the schema. `verification_results` has no `time` and no
  `status` column (backend/src/database/migrations/002_reserve_verification.ts:46-64), so its first statement
  throws. The rows of `pool_events` carry a UUID `id`
  (backend/src/database/migrations/005_liquidity_pool_monitoring.ts:29-41), while the archive table that the
  job creates has an integer one, so its archive insert throws. The results say what the statements do where
  the columns they name exist.

## Modelling conventions

Times are integers (milliseconds), measured values are reals. Each call reads the clock once,
except where a run is broken into statements. Random ids are table positions or parameters that
are required to be new. A thrown error is a `Failure`, a `None` or an error value. Calls of the
stateful services are serialised unless the component says otherwise. Fields marked as history
record what happened and are not columns.

## Model

| member | source | states |
|---|---|---|
| `Backfill.ChunksTile` | `backend/src/services/backfillOrchestrator.ts:82-93` | The planned chunks cut [rangeStart, rangeEnd) into consecutive non-empty pieces of chunkSize, only the last one possibly shorter, indexed 0, 1, ... |
| `Backfill.TilingCoversOnce` | `backend/src/services/backfillOrchestrator.ts:82-93` | Every point of the range lies in exactly one planned chunk (no gap, no overlap) |
| `Backfill.PlanChunks` | `backend/src/services/backfillOrchestrator.ts:67-93` | Fails with the first failing check of validate, otherwise returns the tiling |
| `BackfillSchedules.InvNext` | `backend/src/services/backfillOrchestrator.ts:116-168` | Every step of every worker keeps the pool invariant: one place per picked chunk, in-flight counter, audit trail, call budget, progress reports |
| `BackfillSchedules.NobodyStuck` | `backend/src/services/backfillOrchestrator.ts:158-164` | A worker that has not left its loop can always take a step |
| `BackfillSchedules.RemainingDecreases` | `backend/src/services/backfillOrchestrator.ts:130-167` | A natural-number measure falls with every step, so no schedule runs forever |
| `BackfillSchedules.EverySchedule` | `backend/src/services/backfillOrchestrator.ts:103-167` | For every configuration and at every point of every schedule and failure pattern: the plan tiles the range and pending is what the resume list leaves of it; the pool has min(concurrency, pending) workers (concurrency 1 when absent, one worker when nothing is pending) and at most that many chunks in flight; picks are followed by a sleep iff minDelayMs is given and positive; the picked chunks are a prefix of pending, each held by one worker or settled; a chunk has at most max(1, maxRetries + 1) attempts, 4 when maxRetries is absent, is failed iff all of them threw and completed iff one succeeded |
| `BackfillSchedules.ReportNearest` | `backend/src/services/backfillOrchestrator.ts:116-128` | A progress report gives the percentage nearest to the settled share, rounded up from the middle, and 100 for an empty plan |
| `BackfillSchedules.SleepsAsConfigured` | `backend/src/services/backfillOrchestrator.ts:105-161` | Along any schedule the sleepers and the sleeps ended grow by one with each pick if minDelayMs is given and positive, and never otherwise |
| `BackfillPool.Pool.PickNext` | `backend/src/services/backfillOrchestrator.ts:116-164` | The loop test, the cursor and the entry of processOne, as one step of the step system |
| `BackfillPool.Pool.WakeUp` | `backend/src/services/backfillOrchestrator.ts:130-137` | Resuming after the rate-limit sleep starts the first attempt |
| `BackfillPool.Pool.CallSucceeded` | `backend/src/services/backfillOrchestrator.ts:136-140` | A resolved call reports success, completes the chunk and settles it |
| `BackfillPool.Pool.CallThrew` | `backend/src/services/backfillOrchestrator.ts:141-153` | A thrown call retries, or after the last allowed attempt fails the chunk |
| `BackfillPool.FinalSettles` | `backend/src/services/backfillOrchestrator.ts:166-171` | Once all workers have left, completed plus failed equals the resume list plus all pending indexes as multisets, both lists sorted |
| `BackfillPool.FinalExplains` | `backend/src/services/backfillOrchestrator.ts:130-153` | A pending chunk is completed when its last attempt succeeded, and failed iff every allowed attempt threw |
| `BackfillPool.RunBackfill` | `backend/src/services/backfillOrchestrator.ts:99-172` | Terminates under every schedule. Read off the configuration alone: every chunk of the tiled range that is not resumed is settled once, as failed after exactly max(1, maxRetries + 1) calls (4 when maxRetries is absent) and as completed after at least one and at most that many; resumed chunks are completed; the events account for each chunk |
| `BackfillPool.RunAnswers` | `backend/src/services/backfillOrchestrator.ts:99-172` | Any outcome that settles and explains the job of a configuration meets that reading of the configuration |
| `BackfillPool.PartitionsIff` | `backend/src/services/backfillOrchestrator.ts:108-113` | The two lists partition 0..total-1 if and only if the resume list is distinct and within the plan |
| `BackfillPool.ResumeCanFailToPartition` | `backend/src/services/backfillOrchestrator.ts:108-113` | Two accepted configurations, one resumed from a repeated and one from an out-of-range index, of which no outcome partitions the plan |
| `BackfillPool.ChainPartitions` | `backend/src/services/backfillOrchestrator.ts:109-113` | Along runs resumed from each other's completed list, no chunk is completed twice |
| `BackfillPool.ChainGrows` | `backend/src/services/backfillOrchestrator.ts:109-113` | Along such a chain the completed set only grows |
| `BackfillPool.ChainTiles` | `backend/src/services/backfillOrchestrator.ts:82-113` | Once a run of the chain fails nothing, its completed chunks tile the whole range |
| `OutboxRuns.InvNext` | `backend/src/outbox/eventProducer.ts:155-254` | Every statement of every publisher, dispatch job and admin retry keeps ownership, retry accounting, dead letters and sequence numbers consistent |
| `OutboxRuns.OneDispatcher` | `backend/src/outbox/eventDispatcher.ts:157-203` | Over every interleaving at most one job is past the status compare-and-set for a given event |
| `OutboxRuns.RetryAccounting` | `backend/src/outbox/eventProducer.ts:178-254` | Attempts since publish or last admin retry equal retry_count (pending), retry_count + 1 (processing, delivered) or the limit (failed); dead letters of an event equal its admin retries plus one iff it is failed; every dead letter has error_count equal to the limit |
| `OutboxRuns.NothingLost` | `backend/src/outbox/eventProducer.ts:53-102` | Pending, processing, delivered and failed rows add up to the published events in every run |
| `OutboxRuns.DeliveredIsFinal` | `backend/src/outbox/eventProducer.ts:166-173` | No continuation of a run changes a delivered row |
| `OutboxRuns.DispatchBudget` | `backend/src/outbox/eventProducer.ts:178-210` | Dispatches number at most (publishes + admin retries) times max(1, maxRetries), in any run |
| `OutboxRuns.BackoffSum` | `backend/src/outbox/eventProducer.ts:191-209` | The first n backoffs sum to 1000 * (2^(n+1) - 2) ms up to n = 9 and grow by 900000 ms per retry from there |
| `OutboxHistory.EveryRowAsPublished` | `backend/src/outbox/eventProducer.ts:53-102` | In any run event number e carries aggregate, type, payload and metadata of the e-th publish, numbered by its place among the publishes of its aggregate |
| `OutboxHistory.EveryRowTraced` | `backend/src/outbox/eventProducer.ts:155-254` | In any run an event is due at the time of a publish of its content or of an admin retry, and after its n-th failure at the failure plus the backoff of n; its error is one a dispatch threw, its delivery time that of a delivery, and a dead letter a copy of its event |
| `OutboxHistory.EveryWait` | `backend/src/outbox/eventProducer.ts:191-209` | In any run the waits scheduled for an event since its publish or last admin retry sum to 1000 * (2^(n+1) - 2) ms for its retry count n up to 9, and to 1022000 + (n - 9) * 900000 ms from there |
| `OutboxHistory.CanDeliver` | `backend/src/outbox/eventProducer.ts:155-173` | A pending event can be taken and delivered, which changes its status and delivery time and nothing else |
| `OutboxHistory.CanFail` | `backend/src/outbox/eventProducer.ts:178-254` | A pending event whose dispatch throws ends with one more failure and the backoff of that count, or failed with its dead letter once the limit is reached |
| `OutboxRuns.SequencedNext` | `backend/src/outbox/eventProducer.ts:58-79` | Sequence numbers stay gapless and unique per aggregate |
| `OutboxStore.Store.PublishTransactional` | `backend/src/outbox/eventProducer.ts:53-102` | Takes the next sequence number of the aggregate and inserts one pending row, the event's own metadata overriding the producer's entries |
| `Outbox.StoredMetadataKeepsOwn` | `backend/src/outbox/eventProducer.ts:71-75` | The metadata has the event's own entries and, unless it overrides them, producer and timestamp |
| `OutboxStore.Store.MarkRowProcessing` | `backend/src/outbox/eventProducer.ts:155-161` | Succeeds exactly when the row is pending, and then only changes its status |
| `OutboxStore.Store.MarkRowDelivered` | `backend/src/outbox/eventProducer.ts:166-173` | Sets status and delivery time of the row and nothing else |
| `OutboxStore.Store.MoveToDeadLetter` | `backend/src/outbox/eventProducer.ts:215-254` | Adds the dead-letter row and fails the event in one step; an unknown event is refused and nothing changes |
| `OutboxStore.Store.JobReads` | `backend/src/outbox/eventDispatcher.ts:161-180` | A job goes on only with an event it read as pending |
| `OutboxStore.Store.JobMarks` | `backend/src/outbox/eventDispatcher.ts:182-187` | Of several jobs that read the same pending row only the one whose compare-and-set hits goes on |
| `OutboxStore.Store.JobDispatches` | `backend/src/outbox/eventDispatcher.ts:189-190` | dispatchEvent either returns or throws |
| `OutboxStore.Store.JobDelivers` | `backend/src/outbox/eventDispatcher.ts:192-203` | The job that dispatched marks its event delivered |
| `OutboxStore.Store.JobReadsRetryCount` | `backend/src/outbox/eventProducer.ts:183-191` | markForRetry reads the counter in a statement of its own |
| `OutboxStore.Store.JobWritesRetry` | `backend/src/outbox/eventProducer.ts:191-210` | It then schedules the retry with capped exponential backoff or moves the event to the dead letters |
| `OutboxStore.Store.Retry` | `backend/src/outbox/adminApi.ts:154-207` | Resets exactly a failed event to pending with counter zero; anything else is refused and changes nothing |
| `OutboxStore.Store.GetOutboxStats` | `backend/src/outbox/adminApi.ts:74-110` | The four counts are the numbers of rows of each status and sum to the total |
| `OutboxStore.CountedIsSize` | `backend/src/outbox/adminApi.ts:91-107` | Filling the stats object from the grouped counts, absent groups staying 0, gives the size of each status |
| `AggregationWindow.ValidateConfig` | `backend/src/services/aggregationWindow.ts:46-61` | A configuration is accepted iff size and given step are positive, with step and origin defaulted; otherwise the size is blamed first, then the step |
| `AggregationWindow.WindowStartUnique` | `backend/src/services/aggregationWindow.ts:63-71` | The window start is the one origin-aligned start whose half-open window holds the timestamp, negative offsets included |
| `AggregationWindow.Aggregate` | `backend/src/services/aggregationWindow.ts:73-87` | The loop returns count, sum, least and greatest value and average of exactly the points of [start, end) |
| `AggregationWindow.AverageBetween` | `backend/src/services/aggregationWindow.ts:73-87` | min <= avg <= max in every non-empty window; an empty one has none of them |
| `AggregationWindow.AggregateTumbling` | `backend/src/services/aggregationWindow.ts:90-107` | Returns the series of windows from the first point's window to the last point, one per size |
| `AggregationWindow.AggregateSliding` | `backend/src/services/aggregationWindow.ts:110-127` | The same with one window per step |
| `AggregationWindow.AggregateWindows` | `backend/src/services/aggregationWindow.ts:130-138` | The series of the requested kind, or the validation error |
| `WindowLaws.CoversUnique` | `backend/src/services/aggregationWindow.ts:90-127` | Size, step, origin and points determine the result, so sliding with step = size is tumbling |
| `WindowLaws.PointMultiplicity` | `backend/src/services/aggregationWindow.ts:110-127` | A point at distance d from the first start is counted in exactly floor(d/step) - max(-1, floor((d-size)/step)) windows |
| `WindowLaws.EvenMultiplicity` | `backend/src/services/aggregationWindow.ts:110-127` | When step divides size, a point is counted size/step times once d >= size - step, and min(size/step, floor(d/step) + 1) times before |
| `WindowLaws.CountedIff` | `backend/src/services/aggregationWindow.ts:110-127` | A point is counted at all iff its distance modulo the step is below the size |
| `WindowLaws.TotalsByPoint` | `backend/src/services/aggregationWindow.ts:73-127` | Counts and sums over all windows equal those over the points weighted by multiplicity |
| `WindowLaws.TumblingConserves` | `backend/src/services/aggregationWindow.ts:90-107` | Counts and sums over tumbling windows add up to those of the input |
| `WindowLaws.TumblingIsGroupBy` | `backend/src/services/aggregationWindow.ts:63-107` | Tumbling aggregation is group-by on the window start: contiguous aligned windows, each summarising exactly its group, none missing |
| `AlertCsv.FieldRead` | `backend/src/services/alertHistorySearch.service.ts:105-108` | An escaped cell followed by a separator or the end reads back as the cell |
| `AlertCsv.PlainIff` | `backend/src/services/alertHistorySearch.service.ts:105-108` | A cell is printed as it is iff it holds no quote, comma or line feed |
| `AlertCsv.RecordRead` | `backend/src/services/alertHistorySearch.service.ts:111-113` | A printed record reads back as its cells |
| `AlertCsv.TableRead` | `backend/src/services/alertHistorySearch.service.ts:111-115` | Reading undoes printing for every table with a row and a column, commas, quotes and line breaks included |
| `AlertCsv.HeaderIsRecord` | `backend/src/services/alertHistorySearch.service.ts:94-112` | The header, joined without escaping, is the record of the column names |
| `AlertCsv.ExportReadsBack` | `backend/src/services/alertHistorySearch.service.ts:111-115` | The export reads back as the header followed by one record for each row, with the value of each column and nothing where it is missing or null |
| `AlertCsv.ExportInjective` | `backend/src/services/alertHistorySearch.service.ts:111-115` | Two exports are equal iff their cell tables are |
| `ApiKeys.NormalizeRateLimit` | `backend/src/services/apiKey.service.ts:107-112` | The floor of a given limit of at least one, the default otherwise, so never below one |
| `ApiKeys.NormalizeScopes` | `backend/src/services/apiKey.service.ts:100-105` | Exactly the non-empty trimmed scopes, or the trimmed defaults when none are given, each once |
| `ApiKeys.ScopesKeepOrder` | `backend/src/services/apiKey.service.ts:100-105` | Granted scopes keep the order in which they were first asked for |
| `Texts.TrimSplits` | `backend/src/services/apiKey.service.ts:274-274` | Trimming takes off white space at both ends, all of it and nothing else |
| `ApiKeyLimits.LimiterCharges` | `backend/src/services/apiKey.service.ts:428-443` | An allowed call keeps: at most 2L - 1 accepted calls in any half-open minute |
| `ApiKeyLimits.InvNext` | `backend/src/services/apiKey.service.ts:265-404` | Every service operation on any key keeps every key's limiter and counters consistent |
| `ApiKeyLimits.UsesAreAcceptances` | `backend/src/services/apiKey.service.ts:383-400` | The used audit rows of a key number its accepted validations |
| `ApiKeyLimits.EveryRun` | `backend/src/services/apiKey.service.ts:351-443` | In any run on a non-decreasing clock, any half-open minute holds at most 2L - 1 accepted calls of a key with limit L, and usageCount, used audit rows and accepted validations agree |
| `ApiKeyLimits.BoundAttained` | `backend/src/services/apiKey.service.ts:265-443` | Every key of limit L without expiry can be created and then presented in a run of the service in which one minute holds 2L - 1 accepted calls |
| `ApiKeyHistory.VerdictIff` | `backend/src/services/apiKey.service.ts:351-443` | A secret is accepted as a key iff the first record that holds its hash under its own salt with its prefix, is not revoked and has no expiry at or before now, is of that id, has the wildcard or every scope required, and is under its limit; it is over its limit, or refused, exactly when the last, or one of the others, fails |
| `ApiKeyHistory.RevokedUntilRotated` | `backend/src/services/apiKey.service.ts:303-404` | After a revocation no call of any run is accepted as that key until it is rotated |
| `ApiKeyHistory.AcceptedOnlyAsIssued` | `backend/src/services/apiKey.service.ts:265-404` | In any run a secret is accepted as a key only if it is the one issued last for that key, the key was not revoked since, its expiry as created and extended lies ahead, and every required scope, or the wildcard, is among those granted when it was created |
| `ApiKeyHistory.EveryRunLogged` | `backend/src/services/apiKey.service.ts:265-404` | The audit log of any run has one row for each call that took effect, in order, with its key, actor, detail and time, and no other |
| `ApiKeyHistory.EveryKeyToldByAudits` | `backend/src/services/apiKey.service.ts:303-404` | In any run the last use of a key, its time and client, is the last used row since the key was created or rotated, and its last change the last row of the key |
| `ApiKeyService.Service.CreateKey` | `backend/src/services/apiKey.service.ts:265-297` | Stores the record with trimmed name and normalised scopes and limit, and its created audit row |
| `ApiKeyService.Service.RevokeKey` | `backend/src/services/apiKey.service.ts:303-310` | Revokes a known key; an unknown id changes nothing |
| `ApiKeyService.Service.RotateKey` | `backend/src/services/apiKey.service.ts:312-334` | New secret, revocation cleared, counters and limit kept |
| `ApiKeyService.Service.ExtendKey` | `backend/src/services/apiKey.service.ts:336-349` | Extends from the current expiry, or from now when there is none |
| `ApiKeyService.Service.ConsumeRateLimit` | `backend/src/services/apiKey.service.ts:428-443` | Allows and charges exactly by the fixed-window rule |
| `ApiKeyService.Service.ValidateKey` | `backend/src/services/apiKey.service.ts:351-404` | The bootstrap token bypasses everything; otherwise the answer is the key, null or the limit error exactly as the first live record of the secret, its scopes and its bucket say, and only an accepted call is charged, counted and logged |
| `AssetMerge.ScoreIsAllOrNothing` | `backend/src/services/assetMerge.service.ts:327-338` | A match score is 1 when the assets agree on any counted field and 0 otherwise, symmetric, whatever the weights |
| `AssetMerge.FindDuplicates` | `backend/src/services/assetMerge.service.ts:61-98` | The nested loops with the seen set compute the greedy grouping |
| `AssetMerge.ExtendFinds` | `backend/src/services/assetMerge.service.ts:79-89` | The inner loop adds exactly the unseen assets after i that reach the threshold against i, in order |
| `AssetMergeLaws.GroupsSound` | `backend/src/services/assetMerge.service.ts:65-97` | No asset occurs twice or in two groups, every group names the id and symbol of its primary, and every duplicate comes after its primary and reaches the threshold against it, for any score function |
| `AssetMergeLaws.UngroupedBelow` | `backend/src/services/assetMerge.service.ts:65-97` | Two assets listed as nobody's duplicate stay below the threshold against each other |
| `AssetMergeLaws.NoGroupsIff` | `backend/src/services/assetMerge.service.ts:65-97` | Nothing is grouped iff every pair stays below the threshold |
| `AssetMergeLaws.ScoreIsMax` | `backend/src/services/assetMerge.service.ts:83-86` | A group's score is the best among its matches |
| `AssetMergeLaws.ReasonIsLast` | `backend/src/services/assetMerge.service.ts:86-86` | A group's reason names what its primary and its last duplicate agree on among symbol, name and issuer, or is unknown |
| `AssetMergeTable.Catalog.Conflicts` | `backend/src/services/assetMerge.service.ts:121-137` | Lists every missing retained field a duplicate offers, duplicate by duplicate; writing them in order fills each field with the last offer; there is none iff no field is missing and offered |
| `AssetMergeTable.AppliedIsFilled` | `backend/src/services/assetMerge.service.ts:121-137` | Applying the collected conflicts in order gives each missing field its last offer and keeps every present one |
| `AssetMergeTable.ConflictsTell` | `backend/src/services/assetMerge.service.ts:121-132` | Every conflict is an offer of a duplicate for a field the primary lacks, with the primary's own value as the alternative, and every such offer is a conflict |
| `AssetMergeTable.ResolvedLast` | `backend/src/services/assetMerge.service.ts:121-137` | A missing field that some duplicate offers is filled with the last offer, any other field stays |
| `AssetMergeAll.MergeRefusesIff` | `backend/src/services/assetMerge.service.ts:105-113` | A merge refuses for its primary iff no row has that id, and for its duplicates iff one is missing or given twice |
| `AssetMergeTable.Catalog.Merge` | `backend/src/services/assetMerge.service.ts:100-174` | Refuses an unknown primary or duplicate, or a symbol another row holds, and changes nothing; otherwise fills the primary, deactivates the duplicates, returns the conflicts and writes the merge log |
| `AssetMergeAll.MergeAllRows` | `backend/src/services/assetMerge.service.ts:100-143` | Merging disjoint groups one by one throws iff some group fills the symbol of its primary, and else has the effect read off the table before the first merge: each primary filled from its own duplicates, every duplicate deactivated, nothing else touched |
| `AssetMergeAll.MergeAllDeactivates` | `backend/src/services/assetMerge.service.ts:134-143` | Merging all groups, when no field is filled, deactivates exactly the duplicates |
| `AssetMergeSettles.MergeAllSettles` | `backend/src/services/assetMerge.service.ts:61-143` | For any symmetric score, merging every found group without filling a field succeeds and leaves nothing to merge, in whatever order the query returns the survivors |
| `AssetMergeSettles.MergeAllSettlesIff` | `backend/src/services/assetMerge.service.ts:61-143` | Merging every found group throws iff a merge would fill a symbol; where it does not, nothing is left to merge iff no merge fills a field of its primary with the value another survivor ends up with in that field |
| `AssetMergeSettles.MergesUnlessSymbolEmpty` | `backend/src/services/assetMerge.service.ts:100-143` | On a table with present and unique symbols merging every found group succeeds iff no asset with an empty symbol leads a group |
| `AssetMergeSettles.FillingCanRegroup` | `backend/src/services/assetMerge.service.ts:61-143` | On a table of three rows with present, pairwise different symbols and present names, merging every group succeeds, fills a field of the first row and makes it match the third |
| `AlertWindowing.MergeRecomputes` | `backend/src/services/alertWindowing.service.ts:260-316` | Merging one alert into statistics equal to a fresh pass over the window's alerts gives those of a fresh pass over one more: counts per priority, first highest priority, last min(20, count) alerts newest first, first and last time |
| `AlertWindowing.StartIff` | `backend/src/services/alertWindowing.service.ts:255-258` | A window start is k times the length for the one k whose slot [k * ms, k * ms + ms) holds the alert |
| `AlertWindowing.AssignKeeps` | `backend/src/services/alertWindowing.service.ts:77-136` | Assigning an alert keeps the invariant of the tables |
| `AlertWindowing.CloseKeeps` | `backend/src/services/alertWindowing.service.ts:138-150` | Closing a window keeps it, and its summary says what the closed window says: counts, recent alerts, duration and nearest average |
| `AlertWindowing.EveryRun` | `backend/src/services/alertWindowing.service.ts:77-150` | In every run under one configuration each window starts at a multiple of its length, its statistics are recomputed from its alerts, each alert lies in [start, end), at most one window is open per asset, type and start, and window counts sum to the alerts assigned |
| `AlertWindowing.TogetherShare` | `backend/src/services/alertWindowing.service.ts:77-150` | Two alerts of one asset, type and slot are counted in one window, whatever a run does in between, unless it closes that window in between |
| `AlertWindowing.SharersTogether` | `backend/src/services/alertWindowing.service.ts:77-136` | Alerts counted in one window are of one asset, one type and one slot of the clock |
| `AlertWindowing.SeveritySums` | `backend/src/services/alertWindowing.service.ts:283-284` | The severity counts of a window sum to its alert count |
| `AlertWindowTable.AlertWindows.MergeIntoStats` | `backend/src/services/alertWindowing.service.ts:279-311` | The in-place update of severity map and recent list |
| `AlertWindowTable.AlertWindows.AssignToWindow` | `backend/src/services/alertWindowing.service.ts:77-136` | Adds the alert to its open window or opens one, and returns that row: open, of the alert's asset and type, and starting at the slot that holds the alert |
| `AlertWindowTable.AlertWindows.CloseWindow` | `backend/src/services/alertWindowing.service.ts:138-150` | Closes a known window and writes its summary, average per minute included; an unknown id changes nothing |
| `AlertWindowing.PerMinuteIsNearest` | `backend/src/services/alertWindowing.service.ts:220-226` | The printed average is within half a hundredth of alerts per minute, and above it when a multiple of an eighth lies exactly between two hundredths |
| `AlertWindowTable.AlertWindows.AutoCloseExpiredWindows` | `backend/src/services/alertWindowing.service.ts:238-253` | The sweep has the effect of closing the expired open windows one by one |
| `AlertWindowTable.SweepLeavesNoneExpired` | `backend/src/services/alertWindowing.service.ts:238-253` | After the sweep no open window ended before now, and only such windows were closed |
| `AdminRotationRuns.InvDo` | `backend/src/services/adminRotation.service.ts:132-527` | Every call keeps the invariant of accounts, events and proposals |
| `AdminRotationRuns.EveryRun` | `backend/src/services/adminRotation.service.ts:132-351` | In any run, replaying the rotation events from empty rebuilds roles, active flag and all but name and email of every account; before states agree with the replay; active admins equal additions and activations less removals; executed proposals have exactly one event |
| `AdminRotationRuns.RunKeeps` | `backend/src/services/adminRotation.service.ts:196-202` | Once two admins are active there are never fewer than two |
| `AdminRotationRuns.MoveCounts` | `backend/src/services/adminRotation.service.ts:594-602` | A single call changes the number of active admins by what its event says and respects the minimum |
| `AdminRotationRuns.ProposalsKeep` | `backend/src/services/adminRotation.service.ts:360-436` | Approvals are distinct and start with the proposer; a pending proposal has fewer than max(2, requiredApprovals), an approved or executed one exactly that many |
| `AdminRotationRuns.RunEvolves` | `backend/src/services/adminRotation.service.ts:395-527` | Over any run executed, rejected and expired are final, approvals only grow, and an approved proposal ends only by execution or expiry |
| `AdminRotationRuns.DoOnce` | `backend/src/services/adminRotation.service.ts:441-503` | An executed proposal has exactly one event, which is the proposed change done by its executor; a proposal that is not executed has none |
| `AdminRotationHistory.EveryCallRecorded` | `backend/src/services/adminRotation.service.ts:132-527` | After any run the events are those of the calls that returned, in order, with their actor, reason, time and effect; the proposals are those requested, with the requested kind, target, changes and expiry (72 hours when none is given), approved by exactly those who approved them, and approved or executed with exactly max(2, requested) approvals, 2 when none are requested |
| `AdminRotationHistory.EveryRunTraced` | `backend/src/services/adminRotation.service.ts:395-527` | After any run an executed proposal was executed by the caller and at the time it names, a rejected one was rejected with its reason, an expired one was touched after its expiry, and every account has the name and email of the call that added it or of the proposal that did |
| `AdminRotationRuns.FailureChangesNothing` | `backend/src/services/adminRotation.service.ts:403-456` | A call that throws changes nothing, except that approving or executing an overdue proposal marks it expired |
| `AdminRotationRuns.ExecutesIff` | `backend/src/services/adminRotation.service.ts:441-490` | An execution succeeds iff the proposal is approved, not overdue, of a known type, and its change is admissible now |
| `AdminRotationHistory.ReturnsIff` | `backend/src/services/adminRotation.service.ts:132-527` | For each of the eight calls, the exact condition on the tables under which it returns instead of throwing |
| `AdminRotationHistory.ErrorsBlame` | `backend/src/services/adminRotation.service.ts:132-527` | A call that throws names a check that fails on the tables |
| `AdminRotationRuns.ValidRolesIff` | `backend/src/services/adminRotation.service.ts:604-616` | Roles are accepted iff there is one and all are known |
| `AdminRotationService.Service.CheckRoles` | `backend/src/services/adminRotation.service.ts:604-616` | Reports the first unknown role, then an empty list |
| `AdminRotationService.Service.EnforceMinimumAdminCount` | `backend/src/services/adminRotation.service.ts:594-602` | Refuses when at most two admins are active |
| `AdminRotationService.Service.AddAdmin` | `backend/src/services/adminRotation.service.ts:132-191` | Account and added event, or the first failing check and no change |
| `AdminRotationService.Service.RemoveAdmin` | `backend/src/services/adminRotation.service.ts:196-253` | Minimum check first, then existence, then activity; deactivation and event |
| `AdminRotationService.Service.ChangeAdminRoles` | `backend/src/services/adminRotation.service.ts:258-309` | Roles checked before the account is looked up; new roles and event |
| `AdminRotationService.Service.ActivateAdmin` | `backend/src/services/adminRotation.service.ts:314-351` | Only an inactive account is activated |
| `AdminRotationService.Service.CreateProposal` | `backend/src/services/adminRotation.service.ts:360-390` | Adds one pending proposal, approved by its proposer, with the requested kind, target and changes, the quorum requested (2 when none is) and an expiry the requested hours, or 72, after now |
| `AdminRotationService.Service.ApproveProposal` | `backend/src/services/adminRotation.service.ts:395-436` | Adds an approval and approves the proposal at its quorum |
| `AdminRotationService.Service.ExecuteProposal` | `backend/src/services/adminRotation.service.ts:441-503` | Carries out the change and only then marks the proposal executed |
| `AdminRotationService.Service.RejectProposal` | `backend/src/services/adminRotation.service.ts:508-527` | Rejects exactly a pending proposal |
| `Correlation.RunKeeps` | `backend/src/services/correlation.service.ts:135-202` | Over any run, no incident has two groups, every membership's group exists and every group has at least two members |
| `Correlation.LinkKeepsIff` | `backend/src/services/correlation.service.ts:135-168` | A link keeps that invariant iff it joins two incidents or one that has a group already |
| `Correlation.LinkMerges` | `backend/src/services/correlation.service.ts:135-168` | A link merges the blocks of its two incidents and touches no other block, unless they sit in two different groups: then no block changes |
| `Correlation.LinkApart` | `backend/src/services/correlation.service.ts:156-158` | Linking incidents of two different groups moves no row and creates no group |
| `Correlation.UnlinkKeeps` | `backend/src/services/correlation.service.ts:170-202` | An unlink keeps the invariant, deleting a group left with one member |
| `Correlation.UnlinkSplits` | `backend/src/services/correlation.service.ts:170-202` | An unlink isolates its target when both share a group, changes nothing otherwise, and every other block only loses the target |
| `Correlation.UnlinkUndoesLinkIff` | `backend/src/services/correlation.service.ts:135-202` | Unlinking right after a link restores every block iff the target had no group before or the two were in different groups |
| `CorrelationHistory.EveryCallSaid` | `backend/src/services/correlation.service.ts:160-213` | The audit rows of a run are one for each link, two for each approval and one for each unlink that finds a group, in order, with their incidents and actor |
| `CorrelationHistory.EveryRowTraced` | `backend/src/services/correlation.service.ts:150-158` | In any run every membership goes back to a link of that incident into that group by the actor it names, and every group to the actor that created it |
| `CorrelationService.Service.LinkIncidents` | `backend/src/services/correlation.service.ts:135-168` | Uses some group of either incident, or a new one, and inserts both members ignoring conflicts |
| `CorrelationService.Service.UnlinkIncidents` | `backend/src/services/correlation.service.ts:170-202` | Reports whether the two share a group and unlinks then |
| `CorrelationService.Service.ApproveSuggestion` | `backend/src/services/correlation.service.ts:204-213` | A link with a second audit row |
| `AlertRouting.Sanitize` | `backend/src/services/alertRouting.service.ts:150-153` | Exactly the known channels of the list, each once |
| `AlertRouting.SanitizeKeepsOrder` | `backend/src/services/alertRouting.service.ts:150-153` | They keep the order of their first occurrences |
| `AlertRouting.LoadPreferences` | `backend/src/services/alertRouting.service.ts:689-713` | The channels in force are never none, all known and distinct, also when loading threw; `AlertRouting.OwnerChannels` says which they are, `AlertRouting.GateDecides` has the severity and the muted assets |
| `AlertRouting.OwnerChannels` | `backend/src/services/alertRouting.service.ts:689-713` | They are exactly the known channels stored for the owner, and the in-app channel when none of those is known, nothing is stored or loading threw; each once |
| `AlertRouting.GateDecides` | `backend/src/services/alertRouting.service.ts:309-331` | An alert is stopped as muted iff a stored code, trimmed and in any case of its letters, names its asset, and otherwise as too low iff its severity is below the owner's least in low, medium, high, critical, medium by default or when loading threw |
| `AlertRouting.ListRules` | `backend/src/services/alertRouting.service.ts:273-285` | The rules an owner sees, by ascending priority |
| `AlertRouting.MatchIsBest` | `backend/src/services/alertRouting.service.ts:333-334` | The matched rule is active, seen by the owner, names the alert's severity, asset (in any case of its letters) and source wherever its lists are not empty, and is of least priority order among such rules; there is none iff no rule is such |
| `AlertRouting.PrimaryLaws` | `backend/src/services/alertRouting.service.ts:625-643` | Primary channels are distinct and never none: those that rule and owner both name if there are any, else the known ones of the rule if it names one, else the owner's |
| `AlertRouting.FallbackLaws` | `backend/src/services/alertRouting.service.ts:645-654` | Fallback channels are distinct and never none: exactly the known channels the rule lists when it lists one, and exactly the in-app channel otherwise, also without a rule |
| `AlertRouting.FallbackOfLaws` | `backend/src/services/alertRouting.service.ts:350-356` | The fallbacks of an alert are exactly those of its rule that are not primary channels of it, each once |
| `AlertRoutingRuns.RunKeeps` | `backend/src/services/alertRouting.service.ts:306-401` | Every step of every interleaving of a stage's dispatches keeps the invariant of the audit table |
| `AlertRoutingRuns.SuccessesAreSpaced` | `backend/src/services/alertRouting.service.ts:656-680` | A primary send under a rule with window W gets through only if more than W seconds have passed since the last send for its owner, asset, source and channel that got through |
| `AlertRoutingRuns.SuppressedIff` | `backend/src/services/alertRouting.service.ts:656-680` | A send is suppressed iff it is primary, its rule has a positive window and an earlier row for its owner, asset, source and channel got through within that window of its check |
| `AlertRoutingRuns.EachAlertTold` | `backend/src/services/alertRouting.service.ts:306-363` | A finished alert has one gate row if it is muted or not severe enough; otherwise one row for each channel that rule and owner make primary and, iff none of these got through and some failed, one for each known channel the rule falls back to (in-app when it lists none) that is not primary; no channel twice, at least one row |
| `AlertRoutingRuns.RowsSay` | `backend/src/services/alertRouting.service.ts:309-385` | A gate row says which of the two checks stopped the alert and names no rule; every other row carries the id of the alert's rule, and a suppressed one its reason and no attempt |
| `AlertRoutingRuns.StepsRunOut` | `backend/src/services/alertRouting.service.ts:339-362` | Every step of an alert brings it closer to its end |
| `AlertRoutingRuns.NeverStuck` | `backend/src/services/alertRouting.service.ts:339-362` | Until then some step is possible |
| `AlertRoutingHistory.StoriesAreArrivals` | `backend/src/services/alertRouting.service.ts:306-334` | The alerts of a run are its arrivals in order, each routed under a best rule among those that applied when it arrived |
| `AlertRoutingHistory.EveryRowHeard` | `backend/src/services/alertRouting.service.ts:365-401` | In any run every row but a gate row was recorded by the run and, unless suppressed, carries status, reason and attempts of what the transport answered at its check, a fallback that got through marked as such |
| `AlertRouter.Router.FindRule` | `backend/src/services/alertRouting.service.ts:333-334` | The loop finds the matched rule |
| `AlertRouter.Router.SuppressedNow` | `backend/src/services/alertRouting.service.ts:656-680` | Scanning the audit table decides the suppression condition |
| `AlertRouter.Router.CheckChannel` | `backend/src/services/alertRouting.service.ts:365-385` | The suppression check and the send of one channel |
| `AlertRouter.Router.RecordChannel` | `backend/src/services/alertRouting.service.ts:387-401` | The audit row of one channel, a fallback success marked as such |
| `AlertRouter.Router.RouteAlert` | `backend/src/services/alertRouting.service.ts:306-363` | Ends whatever order the dispatches move in, appends rows only, and leaves exactly the rows that the alert, the stored preferences and a best applicable rule call for |
| `Cleanup.PreserveNeverApplies` | `backend/src/jobs/dataCleanup.job.ts:141-192` | Under all six policies the preserve condition changes nothing: exactly the rows older than the retention match |
| `Cleanup.PreserveAppliesIff` | `backend/src/jobs/dataCleanup.job.ts:219-224` | In general a preserve condition can spare a row iff its window is longer than the retention and it covers some tag |
| `CleanupRuns.EveryRun` | `backend/src/jobs/dataCleanup.job.ts:197-351` | Every statement, failure and foreign insert keeps the invariant the results below rest on |
| `CleanupRuns.OriginalsAreSafe` | `backend/src/jobs/dataCleanup.job.ts:241-265` | With archiving, or in a dry run, every original row is live or archived at every point, mid-batch failures included |
| `CleanupRuns.LostExactly` | `backend/src/jobs/dataCleanup.job.ts:274-351` | After a successful archiving cleanup the stale rows are gone, and those neither live nor archived are the stale ones that were not selected |
| `CleanupRuns.LostIffWrittenAfterSelect` | `backend/src/jobs/dataCleanup.job.ts:241-351` | In every successful archiving run from any tables, a row is in neither table iff the run inserts it, older than the cutoff, after the archive query |
| `CleanupRuns.CleanupCanLose` | `backend/src/jobs/dataCleanup.job.ts:241-351` | A run that succeeds, reports one row archived and two deleted, and loses the second |
| `CleanupRuns.CountsTellLosses` | `backend/src/jobs/dataCleanup.job.ts:242-251` | Nothing is lost iff the archived and deleted counts agree |
| `CleanupRuns.QuietMovesExactly` | `backend/src/jobs/dataCleanup.job.ts:241-251` | With no other writer a successful run moves exactly the matching rows, each once, and processed = archived = deleted |
| `CleanupRuns.QuietDeletesExactly` | `backend/src/jobs/dataCleanup.job.ts:311-351` | With no other writer exactly the matching rows are deleted and counted |
| `CleanupRuns.DryRunChangesNothing` | `backend/src/jobs/dataCleanup.job.ts:311-323` | A dry run, forced or not, changes neither table; a forced one still reports the matching rows as deleted |
| `CleanupRuns.StepsRunOut` | `backend/src/jobs/dataCleanup.job.ts:325-343` | Every step of the call advances it; with no other writer the delete loop ends |
| `CleanupRuns.NeverStuck` | `backend/src/jobs/dataCleanup.job.ts:197-269` | A call that is not done can go on |
| `CleanupChains.ArchivedTwiceIff` | `backend/src/jobs/dataCleanup.job.ts:197-351` | Over any chain of cleanups of one table, each starting from the tables the one before left, a row is archived more than once iff some call archived it but left it in the table and a later one archived it again; a call that left it there threw |
| `CleanupChains.ArchivedOnceWithoutThrows` | `backend/src/jobs/dataCleanup.job.ts:197-351` | When no call of the chain throws, no row is archived twice |
| `CleanupChains.CopiesAreCalls` | `backend/src/jobs/dataCleanup.job.ts:293-297` | The copies of a row in the archive are as many as the calls that archived it |
| `CleanupChains.DeletedStaysOut` | `backend/src/jobs/dataCleanup.job.ts:325-343` | A deleted row is never archived again |
| `CleanupChains.CleanupCanArchiveTwice` | `backend/src/jobs/dataCleanup.job.ts:197-351` | A call that throws between archive and delete, then one that succeeds, leave two copies of one row |
| `CleanupJob.Table.ArchiveData` | `backend/src/jobs/dataCleanup.job.ts:274-306` | Archives what it selected in batches of 1000 and counts it, or stops where a statement throws |
| `CleanupJob.Table.DeleteInBatches` | `backend/src/jobs/dataCleanup.job.ts:325-351` | Deletes batch by batch until one is not full |
| `CleanupJob.Table.CleanupEntityType` | `backend/src/jobs/dataCleanup.job.ts:197-269` | Returns the report of a run of the step system that ended in these tables |
| `CleanupJob.Table.CleanupAndConfirm` | `backend/src/jobs/dataCleanup.job.ts:197-269` | What the step system's results say of the tables: exact move on success, no row lost on failure |

## Left out

- Database, queue and cache internals, SQL text, connection handling, logging and metrics: every
  table operation is one step on a map, set or sequence.
- Process crashes, clock skew and database errors between two updates of one operation (the
  cleanup's statements excepted: any of them may throw).
- Floating point: timestamps, sizes and steps are integers and values are reals; the checks for
  non-finite numbers have no counterpart.
- Backfill: the error texts inside events; `onEvent` is assumed not to throw.
- Outbox: the row lock of `processDispatchJob` (only the status compare-and-set is relied on), the
  order and limit of `getPendingEvents`, the polling loop, start and stop, and the queue's job ids; no
  claim that backoff is respected or that every event is eventually delivered.
- OutboxStore.Store.Retry: the read and the update are one step, where the code uses two statements.
- CSV: `normalizeAlertHistoryQuery`, the search itself and the 10000-row cap; a missing, null or empty
  cell prints alike, and the reader gives back that text. A carriage return is an ordinary character.
- API keys: hashing (an injective constructor), white space outside ASCII, listing, and the
  database-backed repository, which keeps the same records.
- AssetMergeTable.Catalog.Merge: `updated_at`, and the constant rules copied into the log row; `whereIn`
  returns table order.
- Asset merge: proposals and reviews of merges, and the merge history queries.
- AssetMergeSettles.MergeAllSettles: any symmetric score, so only for groups that fill no retained field;
  `AssetMergeSettles.MergeAllSettlesIff` has the exact condition for the score of the code.
- Alert windows: `setConfig` on a live service and non-positive window lengths.
- AlertWindowing.PerMinuteIsNearest: an average exactly between two hundredths that a double does not hold
  is printed by which side its double lies on; the model always rounds it up.
- Admin rotation: the tamper-evident audit service, ids of accounts and events, and the local-time
  arithmetic of `setHours` (an hour is 3600000 ms). Queries and listings.
- Correlation: suggestion scoring and its audit rows; incidents are assumed to exist.
- Alert routing: the transports (their answer is a parameter), latency, Unicode case mapping and white
  space outside ASCII, and the creation and update of rules. Rules of equal priority are
  listed in table order, where SQL leaves it open.
- Cleanup: columns (rows have an identity that is never used again), creation of the archive table, the delay between batches, the loop over policies and its
  metrics. Other connections insert rows but do not delete or change them. The row limit on the delete
  statement is taken as written.
- CleanupJob.Table.CleanupAndConfirm: without other writers; foreign inserts are covered by the step
  system's results.
- Escalation, anomaly detection, freshness rollups, circuit health, chain clients, reports, frontend
  and infrastructure.
