# Pulmoscan worker: batch and single-image classification with a prediction cache

This project models the background worker of an image-classification
service. A client submits a job of chest X-ray images. The worker then runs
one of two Celery tasks:

- `process_single_image` classifies one image.
- `process_batch_images` classifies a list of images.

Each task loads the `Job` row, moves it from PENDING to PROCESSING once,
and reads each image from disk. It hashes each image and asks a Redis cache
for a stored prediction. On a miss it runs the inference engine and writes
the result back to the cache. The batch task saves one `Prediction` row per
image when the engine answers every miss (`OnePredictionPerImage`); it saves
fewer when the engine answers short (`ShortEngineAnswer`) and none when the
engine crashes (`CrashPath`). The single-image task saves a row only when it
succeeds (`SingleSuccess`, `SingleMissingFile`, `SingleException`). Each task commits the job's counters and hit rate so that a poller can follow
progress. At the end it sets the job's status.

The model has one module per concern:

- `Models` holds the two tables as values: `JobStatus`, `JobRow` with its defaults, and `Prediction`.
- `Cache` holds the cache as a state value with `Get` and `Put`, and the `RedisCache` class whose methods change a keyspace map.
- `Records` holds the mutable `Job` object, the durable `Database`, and the `Session` that stages rows until a commit. A commit appends the job's row to `history`, the sequence of rows a poller can observe.
- `Pipeline` holds what the two tasks share: image references, engine results, the PENDING to PROCESSING guard, and the hit-rate rules.
- `BatchSpec` and `SingleSpec` define what each task means as a function of its inputs (`RunBatch`, `RunSingle`). They state its properties as lemmas.
- `Tasks` holds the two tasks written imperatively: a session, a mutable job, local lists and counters, a loop over the images, and a commit after every image. Each task is proved to do exactly what its specification function says about:
  - the rows it commits, in order;
  - the predictions it stores;
  - the cache it leaves;
  - what it returns.

Five behaviours of the code are modelled as written:

- An empty batch ends FAILED. The failure count, 0, equals the batch length, 0.
- In the single-image task, a missing file counts the image as both failed and processed. No terminal status is set.
- In the single-image task, an exception also counts the image as both failed and processed. So a one-image job that fails never reaches a terminal status (`SingleFailureNeverFinishes`).
- The engine may answer with fewer results than there are queued misses. The batch task then completes. It stores no prediction for the unanswered images and still counts them as processed (`ShortEngineAnswer`).
- A job dispatched again after it has counted images starts its counts over. The first commit after the guard counts one image, so a poller sees the counters go back (`RedispatchRestartsCounts`). For a job created for exactly one batch, the counters never go back (`FreshBatchConsistent`).

## Model

| member | source | states |
|---|---|---|
| Models.StatusFromValue | app/models.py:8-12 | a status found by its string value has that value |
| Models.StatusValueRoundTrip | app/models.py:8-12 | every status is one of the four, and its value reads back as the same status |
| Models.StatusValues | app/models.py:8-12 | lookup by value succeeds exactly for "pending", "processing", "completed" and "failed" |
| Models.NewJobDefaults | app/models.py:18-35 | a new job row has the declared defaults (PENDING, COVID, zero counters, rate 0, no task id, no timestamps) and is consistent |
| Models.PredictionsOfAppendOwn | app/models.py:37-43 | appending rows that all carry `job_id` J adds exactly those rows, in order, to J's predictions |
| Models.PredictionsOfAppendOther | app/models.py:37-43 | appending rows of other jobs leaves J's predictions unchanged |
| Cache.KeyInjective | app/services/cache.py:19 | the key is "prediction:" followed by the hash; distinct hashes have distinct keys |
| Cache.EffectiveTtl | app/services/cache.py:41 | `ttl or default_ttl`: a positive TTL is kept; an absent or zero TTL becomes the default |
| Cache.GetCharacterised | app/services/cache.py:11-27 | a lookup hits exactly when the cache is enabled, Redis answers and the key holds JSON; it raises exactly when the key holds text that is not JSON |
| Cache.DisabledCache | app/services/cache.py:16-17 | with CACHE_ENABLED off, every get misses and every set changes nothing |
| Cache.UnreachableStore | app/services/cache.py:24-26 | a Redis error is swallowed: the get misses and the set is a no-op |
| Cache.AbsentOrEmptyMisses | app/services/cache.py:21-23 | a key that is absent or holds an empty string misses |
| Cache.PutThenGet | app/services/cache.py:29-44 | with the cache on, a set is read back by a get, with the effective TTL |
| Cache.PutOtherHash | app/services/cache.py:29-44 | a set does not change what any other hash reads |
| Cache.PutKeepsHit | app/services/cache.py:29-44 | a set keeps every hit a hit |
| Cache.RedisCache.constructor | app/services/cache.py:6-9 | a new client has the default TTL of 604800 seconds |
| Cache.RedisCache.GetPrediction | app/services/cache.py:11-27 | the result is exactly `Get` on the client's state |
| Cache.RedisCache.SetPrediction | app/services/cache.py:29-44 | the new state is exactly `Put` on the old state |
| Records.Session.Query | app/workers/tasks.py:152-155 | the query is null exactly when no job has the id; otherwise it loads that job's stored row |
| Records.Session.Add | app/workers/tasks.py:278-279 | staging appends the given predictions, in order, to the pending rows (`db.add` at tasks.py:103 and `db.add_all`) |
| Records.Session.Commit | app/workers/tasks.py:161 | the job's row becomes stored and observable; the staged predictions become stored |
| Records.Session.Rollback | app/workers/tasks.py:305 | the staged rows are discarded and the tables are untouched |
| Pipeline.BasenameSuffix | app/workers/tasks.py:175 | `os.path.basename` is the longest suffix of the path that holds no '/' |
| Pipeline.StartGuard | app/workers/tasks.py:157-162 | the guard turns exactly a PENDING job into PROCESSING with a start time; any other job is left as it is |
| Pipeline.Opening | app/workers/tasks.py:37-43 | the guard commits one row exactly when the job was PENDING |
| Pipeline.Percent | app/workers/tasks.py:238 | the hit rate is between 0 and 100, is 100 when every processed image was cached, and is 0 when none was |
| Pipeline.BatchHitRate | app/workers/tasks.py:237-240 | the batch rule: 0 when nothing is processed, a percentage when the job has a total, otherwise the previous value |
| Pipeline.SingleHitRate | app/workers/tasks.py:107-108 | the single-image rule: a percentage when the job has a total, otherwise the previous value |
| BatchSpec.FailureStep | app/workers/tasks.py:179-229 | an image fails exactly when it is missing, unreadable or its cache entry cannot be decoded; it then yields the sentinel "FAILED" prediction under the base name ("unknown" if that is empty) and the computed hash ("error" if none was computed or it is empty) |
| BatchSpec.HitOrQueuedStep | app/workers/tasks.py:175-214 | a hit yields a cached prediction under the path's base name with time 0 and `from_cache` set; a miss queues the image's bytes beside its hash, its path and the path's base name |
| BatchSpec.SweepAccounting | app/workers/tasks.py:164-232 | every image is counted exactly once, as a hit, a failure or a queued miss; the two miss queues stay aligned; one prediction exists per hit and per failure |
| BatchSpec.SweepContents | app/workers/tasks.py:164-229 | every collected prediction belongs to the job, and each queued hash is the hash of the bytes queued beside it |
| BatchSpec.SweepCounts | app/workers/tasks.py:207-218 | the sweep's failure and cache counters equal the numbers of failing and hitting images |
| BatchSpec.AllFail | app/workers/tasks.py:291-292 | the failure count equals the list length exactly when every image fails |
| BatchSpec.AllHit | app/workers/tasks.py:207 | the hit count equals the list length exactly when every image hits |
| BatchSpec.SweepRowsHeader | app/workers/tasks.py:231-244 | the sweep's commits never change the status, total, model, task id or timestamps |
| BatchSpec.SweepRowObserved | app/workers/tasks.py:231-243 | the row committed after the (k+1)-th image has processed plus failed equal to k+1, cached at most processed, and the batch hit rate |
| BatchSpec.SweepRowsMonotone | app/workers/tasks.py:231-243 | the counters never decrease between two successive sweep commits |
| BatchSpec.Inferred | app/workers/tasks.py:250-275 | one prediction is made per engine result |
| BatchSpec.InferredAt | app/workers/tasks.py:250-275 | result i is paired with the file name and hash of queued miss i |
| BatchSpec.WriteBack | app/workers/tasks.py:264 | writing results back changes only the keyspace |
| BatchSpec.WriteBackReads | app/workers/tasks.py:264 | after write-back, a miss whose hash no later miss repeats reads back its own result |
| BatchSpec.WriteBackKeepsHit | app/workers/tasks.py:264 | the write-back keeps every hit a hit |
| BatchSpec.WriteBackHitsEvery | app/workers/tasks.py:264 | with the cache on and reachable, after the write-back every miss that got a result is a hit |
| BatchSpec.QueuedKept | app/workers/tasks.py:208-214 | a queued miss stays in the queue of misses sent to the engine |
| BatchSpec.WriteBackInert | app/workers/tasks.py:264 | with the cache off or unreachable, write-back changes nothing |
| BatchSpec.UnknownJob | app/workers/tasks.py:152-155 | an unknown job id returns FAILED and writes nothing |
| BatchSpec.OnePredictionPerImage | app/workers/tasks.py:246-279 | when the engine answers once per miss, as many predictions as input paths are stored, all of this job: hits and failures first, then result i under the hash of the i-th bytes sent |
| BatchSpec.JobPredictionsAfterRun | app/workers/tasks.py:277-279 | such a run appends its committed rows, as many as input paths, to the job's predictions, whatever other jobs hold |
| BatchSpec.RecordedKept | app/workers/tasks.py:197-229 | a hit's or a failure's prediction stays in the list collected by the sweep |
| BatchSpec.StepNames | app/workers/tasks.py:175-229 | each image's outcome records the path's base name ("unknown" if empty and failing) and the image's hash ("error" if uncomputed or empty and failing) |
| BatchSpec.StepRecorded | app/workers/tasks.py:264-279 | after the merge, every hit's or failure's prediction is among the rows, and every answered miss has a row under its queued name and hash |
| BatchSpec.EachImageRecorded | app/workers/tasks.py:175-279 | when the engine answers once per miss, each input image's own prediction is committed: some committed row of the job carries its base name and its hash |
| BatchSpec.ShortEngineAnswer | app/workers/tasks.py:250-289 | with fewer results than misses the run returns, stores fewer predictions than images, and still counts every non-failed image as processed |
| BatchSpec.MergedOrder | app/workers/tasks.py:266-275 | the merged list is the sweep's predictions followed by prediction i for result i |
| BatchSpec.FinalRow | app/workers/tasks.py:281-298 | the final row has failed equal to the failure count, processed equal to the length minus failures, and cached equal to the hit count; it is FAILED exactly when every image failed (an empty batch included) and COMPLETED otherwise; it has a completion time |
| BatchSpec.FinalAgreesWithSweep | app/workers/tasks.py:231-289 | the final counters and hit rate equal those of the last per-image commit |
| BatchSpec.CrashPath | app/workers/tasks.py:246-311 | the worker task raises exactly when the engine raises or returns more results than misses; it then stores no prediction, and its last commit is the last sweep row made FAILED with a completion time |
| BatchSpec.CommitSequence | app/workers/tasks.py:157-244 | the commits are the guard's row if the job was pending, then one row per image, then one closing row; each per-image row keeps the guarded status and start time |
| BatchSpec.NoHitsWhenDisabled | app/services/cache.py:16-17 | with the cache disabled, no image is a hit |
| BatchSpec.DisabledSweepRows | app/workers/tasks.py:187-236 | with the cache disabled, every sweep commit counts 0 cached images |
| BatchSpec.DisabledCacheRun | app/workers/tasks.py:145-313 | with the cache disabled, no commit after the guard counts a cached image, the cache is untouched, and when the job has a positive total every such commit reports a hit rate of 0 |
| BatchSpec.DisabledCommitRate | app/workers/tasks.py:237-289 | with the cache disabled and a positive total, the commit at any position after the guard (sweep row, final row or crash row) has hit rate 0 |
| BatchSpec.NoneFail | app/workers/tasks.py:281-283 | when no image fails, the failure count is 0 |
| BatchSpec.AllSucceed | app/workers/tasks.py:246-298 | a non-empty batch of readable, decodable images with an engine that answers once per miss returns COMPLETED, its last commit is COMPLETED with every image processed and none failed, and one prediction per image is stored |
| BatchSpec.DisabledCacheAfter | app/workers/tasks.py:264 | with the cache disabled, the run leaves the cache unchanged |
| BatchSpec.FullCacheHit | app/workers/tasks.py:189-296 | a batch that hits on every image completes with every image cached, a hit rate of 100 and the cache unchanged |
| BatchSpec.CloseKeepsCounts | app/workers/tasks.py:281-311 | the closing commit, final or crash, keeps the counters of the commit before it |
| BatchSpec.FreshBatchConsistent | app/workers/tasks.py:157-311 | for a job created for exactly this batch, every commit is consistent (counters within the total, cached at most processed, rate 0 while nothing is processed, no completion time before a terminal status) and no counter goes back between commits |
| BatchSpec.FreshCommitConsistent | app/workers/tasks.py:157-311 | each commit of a fresh job's run is consistent |
| BatchSpec.SweepRowConsistent | app/workers/tasks.py:231-243 | each sweep commit of a processing, unfinished job whose total covers the list is consistent |
| BatchSpec.FreshCloseConsistent | app/workers/tasks.py:281-311 | the closing commit of a fresh job's run is consistent |
| BatchSpec.FinalizeConsistent | app/workers/tasks.py:281-298 | the final row is consistent when the job's total is the list's length |
| BatchSpec.FreshCommitMonotone | app/workers/tasks.py:157-311 | no counter goes back from one commit of a fresh job's run to the next |
| BatchSpec.RedispatchRestartsCounts | app/workers/tasks.py:164-172 | a re-dispatched job's first commit after the guard counts one image, fewer than the job had counted before |
| BatchSpec.ResubmissionHits | app/workers/tasks.py:246-264 | after a run whose engine answered every miss, with the cache on and reachable, every readable and decodable image is a hit |
| BatchSpec.Resubmission | app/workers/tasks.py:189-296 | the same images submitted again as a second job hit on every image, complete with every image cached and a hit rate of 100, and write nothing to the cache |
| SingleSpec.ProgressedRow | app/workers/tasks.py:105-113 | success adds one processed image, plus one cached image on a hit; the job becomes terminal exactly when processed plus failed reaches the total, COMPLETED exactly when nothing failed |
| SingleSpec.RecoverRow | app/workers/tasks.py:129-137 | the except branch adds one failed and one processed image; the job becomes FAILED with a completion time exactly when processed plus failed reaches the total |
| SingleSpec.SingleUnknownJob | app/workers/tasks.py:32-35 | an unknown job id returns FAILED and writes nothing |
| SingleSpec.SingleOutcome | app/workers/tasks.py:45-139 | the worker task succeeds exactly when the image is readable, its cache entry decodes and (on a miss) the engine answers; it returns FAILED exactly when the file is missing; otherwise it raises |
| SingleSpec.SingleSuccess | app/workers/tasks.py:60-122 | on success one prediction of this job is stored under the image's base name and hash; it comes from the cache exactly on a hit and otherwise carries the engine result, which is written to the cache; the row is updated as in `ProgressedRow` |
| SingleSpec.SingleMissingFile | app/workers/tasks.py:46-51 | a missing file returns FAILED, stores nothing, adds one failed and one processed image, and changes neither the status nor the hit rate |
| SingleSpec.SingleException | app/workers/tasks.py:124-139 | on an exception nothing is stored, the cache is untouched, the worker task re-raises, and the re-read row is updated as in `RecoverRow` |
| SingleSpec.SingleFailureNeverFinishes | app/workers/tasks.py:46-51 | a one-image job whose image fails counts 2 against a total of 1 and stays PROCESSING |
| SingleSpec.SingleFreshSuccess | app/workers/tasks.py:105-113 | a one-image job whose image succeeds is COMPLETED, with a hit rate of 100 on a hit and 0 after inference |
| SingleSpec.SingleRerunHits | app/workers/tasks.py:86-89 | after an inferred success with the cache on, a rerun on the same bytes is served from the cache with the same prediction |
| Tasks.FailJob | app/workers/tasks.py:303-311 | the except branch rolls back, re-reads the job, commits it as FAILED with a completion time, and stores no prediction |
| Tasks.OpenJob | app/workers/tasks.py:157-162 | the object becomes `Start` of its row, and the guard's commit, if any, is recorded |
| Tasks.RecoverJob | app/workers/tasks.py:124-139 | the except branch commits `Recover` of the stored row and stores no prediction |
| Tasks.SweepImage | app/workers/tasks.py:175-229 | the new lists and counters are the old ones advanced by the image's step |
| Tasks.RecordProgress | app/workers/tasks.py:231-244 | the job's row becomes `Progress` of the sweep state, and it is committed |
| Tasks.SweepNext | app/workers/tasks.py:174-244 | one loop iteration extends the sweep state and the committed rows by one image |
| Tasks.SweepImages | app/workers/tasks.py:164-244 | the loop returns the specification's sweep state and commits exactly its sweep rows |
| Tasks.MergeResults | app/workers/tasks.py:246-275 | the merge crashes exactly when the engine raises or over-answers; otherwise it returns the merged list and the written-back cache |
| Tasks.RecordFinal | app/workers/tasks.py:281-299 | the job's row becomes `Finalize` of the last row and is committed with the staged predictions |
| Tasks.MergeAndFinish | app/workers/tasks.py:246-311 | the end of the run commits `RunBatch`'s closing row, stores its predictions, leaves its cache, and returns its result |
| Tasks.ProcessBatchImages | app/workers/tasks.py:145-313 | the worker task's commits, stored predictions, cache and result are exactly those of `RunBatch` |
| Tasks.RecordServed | app/workers/tasks.py:105-115 | the job's row becomes `Progressed` and is committed with the staged prediction |
| Tasks.SaveServed | app/workers/tasks.py:91-122 | the saved prediction and the progressed row are committed, and the success dictionary is returned |
| Tasks.ServeImage | app/workers/tasks.py:45-139 | after the guard, the worker task commits `RunSingle`'s closing row, stores its prediction, leaves its cache, and returns its result |
| Tasks.ProcessSingleImage | app/workers/tasks.py:17-142 | the worker task's commits, stored predictions, cache and result are exactly those of `RunSingle` |

## Left out

- The inference engine (`app/services/model.py`) is not part of this model.
  - The engine is a parameter: `predict` for one image, `predictBatch` for a batch. Each yields None when the engine raises.
  - The classifier in `model.py` has no `predict_batch` method. So the batch task as shipped takes its crash path whenever at least one image is a cache miss; the engine is called only when a miss is queued (tasks.py:247). The model treats the batch call as an unknown function instead.
- Image hashing (`app/utils/hash_utils.py`) is a parameter `hash`, an arbitrary function from bytes to a string.
- The file system is a value per path: missing, unreadable, or present with its bytes.
- Storage, the HTTP API, configuration, the Celery wiring, CSV export and the scripts are not part of this model.
- Timestamps are modelled only as set or not set. `created_at` is not modelled, and neither is the database's `Prediction.id`.
- Measured inference time:
  - In the single-image task it is a parameter `elapsedMs`.
  - In the batch task it is the engine's `inference_time`.
- `cache_hit_rate` is computed with real division. Python's float rounding is not modelled.
- The single-image task returns the enum on unknown ids and missing files. The batch task returns the enum `JobStatus.FAILED` on an unknown id (tasks.py:155) and `job.status.value`, the status's string, otherwise. All are modelled as `Status(status)`, and `Models.JobStatus.Value` gives the string.
- A basename can be "" for a path that ends in '/'. The model then records "unknown" in the failure sentinel, as the source does. `None` file names cannot occur.
- Cache entries:
  - Only the payload that readers use is modelled: class, confidence and top classes.
  - The extra fields `cached_at`, `processing_time_ms` and `from_cache` are not kept.
  - JSON that decodes to a falsy value, or to an object without the `class` key, is not modelled.
- Cache connection:
  - Whether Redis answers is fixed for a client's lifetime (`reachable`). A connection that fails for only some calls is not modelled.
  - A negative TTL cannot be expressed; `ttl` is a `nat`.
  - Cache entries never expire. `Entry.ttl` is recorded but no time passes in the model. So `Cache.PutThenGet`, `SingleSpec.SingleRerunHits`, `BatchSpec.ResubmissionHits` and `BatchSpec.Resubmission` hold only when the second call comes within the TTL (seven days by default).
- The `from_cache` column default of false (app/models.py:53) is not modelled. Both tasks always pass `from_cache` explicitly (tasks.py:101, 205, 228, 274).
- `RedisCache.get_stats` is not modelled. It reads server statistics and changes nothing.
- Database failures are not modelled. The worker task's own code can raise; a commit or query cannot. This covers the session's `refresh`, `close` and connection errors.
- Logging, `print` output and the `tqdm` progress bar are not modelled.
- Concurrency is not modelled: two tasks updating the same job at once, and Celery retries.
- `Tasks.FailJob` re-reads the job after rollback and relies on it still being stored. Its deletion by another process between the two reads is not modelled.
- `Tasks.RecoverJob` does the same in the single-image task: it requires the job to be stored, so the else-branch of `if job:` after the rollback (tasks.py:130), reached only when another process deleted the job, is not modelled.
