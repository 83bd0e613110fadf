/** The two worker tasks of app/workers/tasks.py, written the way the
    source writes them: a session, a mutable Job object, local lists and
    counters updated image by image, a commit after every image, and a
    rollback-and-fail path for an unhandled exception. Each is proved to
    do exactly what its specification function says (`BatchSpec.RunBatch`,
    `SingleSpec.RunSingle`): the rows it commits, the predictions it
    stores, the cache it leaves and what it returns. */
module Tasks {
  import opened Wrappers
  import opened Models
  import opened Cache
  import opened Records
  import opened Pipeline
  import opened BatchSpec
  import opened SingleSpec

  /** The stored row of a job, if any. */
  function Stored(jobs: map<string, JobRow>, jobId: string): Option<JobRow> {
    if jobId in jobs then Some(jobs[jobId]) else None
  }

  lemma AppendAssoc<T>(a: seq<T>, b: seq<T>, c: seq<T>, d: seq<T>)
    ensures a + b + c + d == a + (b + c + d)
  {
  }

  lemma AppendOne<T>(a: seq<T>, b: seq<T>, x: T)
    ensures a + b + [x] == a + (b + [x])
  {
  }

  lemma UpdateTwice<K, V>(m: map<K, V>, k: K, a: V, b: V)
    ensures m[k := a][k := b] == m[k := b]
  {
  }

  /** The except branch of the batch task's outer `try`
      (tasks.py:303-311): discard what is staged, re-read the job, and
      commit it FAILED with a completion time. */
  method FailJob(session: Session, jobId: string)
    requires session.db.Valid() && jobId in session.db.jobs
    modifies session, session.db
    ensures session.db.Valid()
    ensures session.db.history == old(session.db.history) + [Abort(old(session.db.jobs[jobId]))]
    ensures session.db.jobs == old(session.db.jobs)[jobId := Abort(old(session.db.jobs[jobId]))]
    ensures session.db.predictions == old(session.db.predictions)
  {
    session.Rollback();
    var job := session.Query(jobId);
    job.status := Failed;
    job.completedAt := Stamped;
    session.Commit(job);
  }

  /** The guard both tasks start with (tasks.py:37-43, 157-162): a pending
      job becomes processing, with a start time, and is committed; a job in
      any other state is left as it is and nothing is committed. */
  method OpenJob(session: Session, job: Job)
    requires session.db.Valid() && session.pending == []
    requires job.id in session.db.jobs && session.db.jobs[job.id] == job.Row()
    modifies session, session.db, job
    ensures session.db.Valid() && session.pending == []
    ensures job.Row() == Start(old(job.Row()))
    ensures session.db.history == old(session.db.history) + Opening(old(job.Row()))
    ensures session.db.jobs == old(session.db.jobs)[job.id := job.Row()]
    ensures session.db.predictions == old(session.db.predictions)
  {
    if job.status == Pending {
      job.status := Processing;
      job.startedAt := Stamped;
      session.Commit(job);
    }
  }

  /** The except branch of `process_single_image` (tasks.py:124-139):
      discard what is staged, re-read the job from its last commit, count
      the image as failed and as processed, and commit. */
  method RecoverJob(session: Session, jobId: string)
    requires session.db.Valid() && jobId in session.db.jobs
    modifies session, session.db
    ensures session.db.Valid()
    ensures session.db.history == old(session.db.history) + [Recover(old(session.db.jobs[jobId]))]
    ensures session.db.jobs == old(session.db.jobs)[jobId := Recover(old(session.db.jobs[jobId]))]
    ensures session.db.predictions == old(session.db.predictions)
  {
    session.Rollback();
    var job := session.Query(jobId);
    job.failedImages := job.failedImages + 1;
    job.processedImages := job.processedImages + 1;
    if job.totalImages > 0 {
      job.cacheHitRate := (job.cachedImages as real / job.processedImages as real) * 100.0;
    }
    if job.processedImages + job.failedImages == job.totalImages {
      job.status := Failed;
      job.completedAt := Stamped;
    }
    session.Commit(job);
  }

  /** One image of the sweep, the body of its per-image `try`
      (tasks.py:175-229): a missing or unreadable file or an undecodable
      cache entry is a failure with a sentinel prediction, a hit becomes a
      prediction from the cache, a miss is queued. The new lists and
      counters are the specification's step applied to the old ones. */
  method SweepImage(
    image: ImageRef, jobId: string, cache: RedisCache, hash: Bytes -> string,
    toInferBytes: seq<Bytes>, toInferMeta: seq<Meta>, predictionsToAdd: seq<Prediction>,
    currentFailed: nat, currentCached: nat)
    returns (toInferBytes': seq<Bytes>, toInferMeta': seq<Meta>, predictionsToAdd': seq<Prediction>,
             currentFailed': nat, currentCached': nat)
    ensures Sweep(toInferBytes', toInferMeta', predictionsToAdd', currentFailed', currentCached') ==
      Advance(Sweep(toInferBytes, toInferMeta, predictionsToAdd, currentFailed, currentCached),
              StepOf(jobId, image, cache.State(), hash))
  {
    toInferBytes', toInferMeta', predictionsToAdd' := toInferBytes, toInferMeta, predictionsToAdd;
    currentFailed', currentCached' := currentFailed, currentCached;
    var imageFilename := Basename(image.path);
    match image.file {
      case Missing =>
        currentFailed' := currentFailed' + 1;
        predictionsToAdd' := predictionsToAdd' + [FailurePrediction(jobId, imageFilename, None)];
      case Unreadable =>
        currentFailed' := currentFailed' + 1;
        predictionsToAdd' := predictionsToAdd' + [FailurePrediction(jobId, imageFilename, None)];
      case Present(imageBytes) =>
        var imageHash := hash(imageBytes);
        var cachedResult := cache.GetPrediction(imageHash);
        match cachedResult {
          case Hit(p) =>
            predictionsToAdd' := predictionsToAdd' + [Prediction(
              jobId, imageFilename, imageHash, p.predictedClass, p.confidence, p.top3Classes, 0.0, true)];
            currentCached' := currentCached' + 1;
          case Miss =>
            toInferBytes' := toInferBytes' + [imageBytes];
            toInferMeta' := toInferMeta' + [Meta(image.path, imageFilename, imageHash)];
          case DecodeError =>
            currentFailed' := currentFailed' + 1;
            predictionsToAdd' := predictionsToAdd' + [FailurePrediction(jobId, imageFilename, Some(imageHash))];
        }
    }
  }

  /** The progress update after each image (tasks.py:231-243): counters
      from the sweep's state, the hit rate by the batch rule, then a commit
      a poller can observe. */
  method RecordProgress(session: Session, job: Job, currentCached: nat, queued: nat, currentFailed: nat, ghost s: Sweep)
    requires s.cached == currentCached && |s.toInferMeta| == queued && s.failed == currentFailed
    requires session.db.Valid()
    modifies session, session.db, job
    ensures session.db.Valid() && session.pending == []
    ensures job.Row() == Progress(old(job.Row()), s)
    ensures session.db.history == old(session.db.history) + [job.Row()]
    ensures session.db.jobs == old(session.db.jobs)[job.id := job.Row()]
    ensures session.db.predictions == old(session.db.predictions) + old(session.pending)
  {
    var currentProcessedTotal := currentCached + queued + currentFailed;
    job.processedImages := currentProcessedTotal - currentFailed;
    job.failedImages := currentFailed;
    job.cachedImages := currentCached;
    if job.totalImages > 0 && job.processedImages > 0 {
      job.cacheHitRate := (job.cachedImages as real / job.processedImages as real) * 100.0;
    } else if job.processedImages == 0 {
      job.cacheHitRate := 0.0;
    }
    session.Commit(job);
  }

  /** One iteration of the sweep (tasks.py:175-243): the image's step,
      then the progress commit. Before it the lists, counters and job row
      are the specification's after `i` images; after it, after `i + 1`. */
  method SweepNext(
    session: Session, job: Job, image: ImageRef, jobId: string, cache: RedisCache,
    hash: Bytes -> string, ghost start: JobRow, ghost steps: seq<Step>, ghost i: nat,
    toInferBytes: seq<Bytes>, toInferMeta: seq<Meta>, predictionsToAdd: seq<Prediction>,
    currentFailed: nat, currentCached: nat)
    returns (toInferBytes': seq<Bytes>, toInferMeta': seq<Meta>, predictionsToAdd': seq<Prediction>,
             currentFailed': nat, currentCached': nat)
    requires i < |steps| && steps[i] == StepOf(jobId, image, cache.State(), hash)
    requires session.db.Valid() && session.pending == []
    requires Sweep(toInferBytes, toInferMeta, predictionsToAdd, currentFailed, currentCached) == SweepOf(steps[..i])
    requires job.id == jobId && job.Row() == Last(start, SweepRows(start, steps[..i]))
    modifies session, session.db, job
    ensures session.db.Valid() && session.pending == []
    ensures Sweep(toInferBytes', toInferMeta', predictionsToAdd', currentFailed', currentCached') == SweepOf(steps[..i + 1])
    ensures job.Row() == Last(start, SweepRows(start, steps[..i + 1]))
    ensures SweepRows(start, steps[..i + 1]) == SweepRows(start, steps[..i]) + [job.Row()]
    ensures job.id == jobId
    ensures session.db.history == old(session.db.history) + [job.Row()]
    ensures session.db.jobs == old(session.db.jobs)[jobId := job.Row()]
    ensures session.db.predictions == old(session.db.predictions)
  {
    toInferBytes', toInferMeta', predictionsToAdd', currentFailed', currentCached' :=
      SweepImage(image, jobId, cache, hash, toInferBytes, toInferMeta, predictionsToAdd, currentFailed, currentCached);
    SweepOfPrefix(steps, i);
    SweepRowsStep(start, steps, i);
    RecordProgress(session, job, currentCached', |toInferMeta'|, currentFailed', SweepOf(steps[..i + 1]));
  }

  /** The sweep of `process_batch_images` (tasks.py:164-244): every image
      is looked up in the cache and becomes a hit, a queued miss or a
      failure, and the job's progress is committed after each one. The
      local lists and counters it returns are the specification's sweep
      state, the rows it commits are the specification's sweep rows. */
  method SweepImages(
    session: Session, job: Job, images: seq<ImageRef>, jobId: string, cache: RedisCache,
    hash: Bytes -> string, ghost steps: seq<Step>)
    returns (toInferBytes: seq<Bytes>, toInferMeta: seq<Meta>, predictionsToAdd: seq<Prediction>,
             currentFailed: nat, currentCached: nat)
    requires |steps| == |images|
    requires forall k :: 0 <= k < |images| ==> steps[k] == StepOf(jobId, images[k], cache.State(), hash)
    requires session.db.Valid() && session.pending == []
    requires job.id == jobId && jobId in session.db.jobs && session.db.jobs[jobId] == job.Row()
    modifies session, session.db, job
    ensures session.db.Valid() && session.pending == []
    ensures
      && Sweep(toInferBytes, toInferMeta, predictionsToAdd, currentFailed, currentCached) == SweepOf(steps)
      && job.Row() == Last(old(job.Row()), SweepRows(old(job.Row()), steps))
      && session.db.history == old(session.db.history) + SweepRows(old(job.Row()), steps)
    ensures session.db.jobs == old(session.db.jobs)[jobId := job.Row()]
    ensures session.db.predictions == old(session.db.predictions)
  {
    ghost var start := job.Row();
    ghost var db := session.db;
    ghost var rows: seq<JobRow> := [];
    toInferBytes, toInferMeta, predictionsToAdd := [], [], [];
    currentFailed, currentCached := 0, 0;

    for i := 0 to |images|
      invariant Sweep(toInferBytes, toInferMeta, predictionsToAdd, currentFailed, currentCached) == SweepOf(steps[..i])
      invariant rows == SweepRows(start, steps[..i])
      invariant job.id == jobId && job.Row() == Last(start, rows)
      invariant db.history == old(db.history) + rows
      invariant db.jobs == old(db.jobs)[jobId := job.Row()]
      invariant db.predictions == old(db.predictions)
      invariant session.pending == [] && db.Valid()
    {
      ghost var before := job.Row();
      toInferBytes, toInferMeta, predictionsToAdd, currentFailed, currentCached :=
        SweepNext(session, job, images[i], jobId, cache, hash, start, steps, i,
                  toInferBytes, toInferMeta, predictionsToAdd, currentFailed, currentCached);
      AppendOne(old(db.history), rows, job.Row());
      UpdateTwice(old(db.jobs), jobId, before, job.Row());
      rows := rows + [job.Row()];
    }
    assert steps[..|images|] == steps;
  }

  /** The batch inference and merge (tasks.py:246-275): one engine call for
      the queued misses, then each result `i` is written to the cache under
      the hash of miss `i` and becomes a prediction. `crashed` reports the
      exception that ends it early: the engine raising, or a result with
      no miss at its index. */
  method MergeResults(
    jobId: string, cache: RedisCache, toInferBytes: seq<Bytes>, toInferMeta: seq<Meta>,
    predictionsToAdd: seq<Prediction>, predictBatch: seq<Bytes> -> Option<seq<Inference>>)
    returns (merged: seq<Prediction>, crashed: bool)
    modifies cache
    ensures var answer := EngineAnswer(toInferBytes, predictBatch);
      && (crashed <==> answer.None? || |answer.value| > |toInferMeta|)
      && (!crashed ==>
            && merged == predictionsToAdd + Inferred(jobId, toInferMeta, answer.value)
            && cache.State() == WriteBack(old(cache.State()), toInferMeta, answer.value))
      && (crashed && answer.Some? ==>
            cache.State() == WriteBack(old(cache.State()), toInferMeta, answer.value[..|toInferMeta|]))
      && (answer.None? ==> cache.State() == old(cache.State()))
  {
    merged := predictionsToAdd;
    crashed := false;
    if toInferBytes != [] {
      var batchInferenceResults := predictBatch(toInferBytes);
      if batchInferenceResults.None? {
        return merged, true;
      }
      var results := batchInferenceResults.value;
      var i := 0;
      while i < |results|
        invariant i <= |results| && i <= |toInferMeta|
        invariant merged == predictionsToAdd + Inferred(jobId, toInferMeta, results[..i])
        invariant cache.State() == WriteBack(old(cache.State()), toInferMeta, results[..i])
      {
        if i >= |toInferMeta| {
          // images_to_infer_metadata[i] raises IndexError
          assert results[..i] == results[..|toInferMeta|];
          return merged, true;
        }
        var metadata := toInferMeta[i];
        var result := results[i];
        cache.SetPrediction(metadata.imageHash, PayloadOf(result), None);
        merged := merged + [InferredPrediction(jobId, metadata, result)];
        assert results[..i + 1][..i] == results[..i];
        i := i + 1;
      }
      assert results[..i] == results;
    }
  }

  /** The final status update (tasks.py:281-299): the counters recomputed
      from the list's length, FAILED exactly when every image failed,
      COMPLETED otherwise, a completion time, and the final commit. */
  method RecordFinal(session: Session, job: Job, totalImagesInBatch: nat, currentFailed: nat, currentCached: nat,
                     ghost s: Sweep)
    requires s.failed == currentFailed && s.cached == currentCached && currentFailed <= totalImagesInBatch
    requires session.db.Valid()
    modifies session, session.db, job
    ensures session.db.Valid()
    ensures job.Row() == Finalize(old(job.Row()), totalImagesInBatch, s)
    ensures session.db.history == old(session.db.history) + [job.Row()]
    ensures session.db.jobs == old(session.db.jobs)[job.id := job.Row()]
    ensures session.db.predictions == old(session.db.predictions) + old(session.pending)
  {
    job.processedImages := totalImagesInBatch - currentFailed;
    job.failedImages := currentFailed;
    job.cachedImages := currentCached;
    if job.totalImages > 0 && job.processedImages > 0 {
      job.cacheHitRate := (job.cachedImages as real / job.processedImages as real) * 100.0;
    } else if job.processedImages == 0 {
      job.cacheHitRate := 0.0;
    }
    if currentFailed == totalImagesInBatch {
      job.status := Failed;
    } else if currentFailed > 0 {
      job.status := Completed;
    } else {
      job.status := Completed;
    }
    job.completedAt := Stamped;
    session.Commit(job);
  }

  /** The end of `process_batch_images` (tasks.py:246-311): the merge, then
      either the final commit or, when the merge raises, the except branch.
      It adds one row to the history: the run's closing row. */
  method MergeAndFinish(
    session: Session, job: Job, images: seq<ImageRef>, jobId: string, cache: RedisCache,
    hash: Bytes -> string, predictBatch: seq<Bytes> -> Option<seq<Inference>>,
    toInferBytes: seq<Bytes>, toInferMeta: seq<Meta>, predictionsToAdd: seq<Prediction>,
    currentFailed: nat, currentCached: nat, ghost r0: JobRow)
    returns (result: TaskResult)
    requires session.db.Valid() && session.pending == []
    requires var steps := Steps(jobId, images, cache.State(), hash);
      && Sweep(toInferBytes, toInferMeta, predictionsToAdd, currentFailed, currentCached) == SweepOf(steps)
      && job.id == jobId && jobId in session.db.jobs && session.db.jobs[jobId] == job.Row()
      && job.Row() == Last(Start(r0), SweepRows(Start(r0), steps))
    modifies session, session.db, job, cache
    ensures session.db.Valid()
    ensures var run := RunBatch(Some(r0), jobId, images, old(cache.State()), hash, predictBatch);
      && result == run.result
      && session.db.history == old(session.db.history) + [run.commits[|run.commits| - 1]]
      && session.db.predictions == old(session.db.predictions) + run.committed
      && cache.State() == run.cacheAfter
      && session.db.jobs == old(session.db.jobs)[jobId := run.commits[|run.commits| - 1]]
  {
    ghost var c := cache.State();
    ghost var steps := Steps(jobId, images, c, hash);
    ghost var s := SweepOf(steps);
    ghost var last := job.Row();
    SweepAccounting(steps);
    RunBatchCommits(r0, jobId, images, c, hash, predictBatch);
    var merged, crashed := MergeResults(jobId, cache, toInferBytes, toInferMeta, predictionsToAdd, predictBatch);
    if crashed {
      RunBatchRaised(r0, jobId, images, c, hash, predictBatch, cache.State());
      FailJob(session, jobId);
      return Raised;
    }
    if merged != [] {
      session.Add(merged);
    }
    assert session.pending == merged;
    RunBatchReturned(r0, jobId, images, c, hash, predictBatch);
    RecordFinal(session, job, |images|, currentFailed, currentCached, s);
    return Status(job.status);
  }

  /** `process_batch_images(image_paths, job_id)` (tasks.py:145-313). */
  method ProcessBatchImages(
    images: seq<ImageRef>, jobId: string, db: Database, cache: RedisCache,
    hash: Bytes -> string, predictBatch: seq<Bytes> -> Option<seq<Inference>>)
    returns (result: TaskResult)
    requires db.Valid()
    modifies db, cache
    ensures db.Valid()
    ensures var run := RunBatch(Stored(old(db.jobs), jobId), jobId, images, old(cache.State()), hash, predictBatch);
      && result == run.result
      && db.history == old(db.history) + run.commits
      && db.predictions == old(db.predictions) + run.committed
      && cache.State() == run.cacheAfter
      && db.jobs == (if run.commits == [] then old(db.jobs) else old(db.jobs)[jobId := run.commits[|run.commits| - 1]])
  {
    var session := new Session(db);
    var job := session.Query(jobId);
    if job == null {
      return Status(Failed);
    }
    ghost var r0 := job.Row();
    ghost var steps := Steps(jobId, images, cache.State(), hash);
    ghost var rows := SweepRows(Start(r0), steps);
    ghost var run := RunBatch(Some(r0), jobId, images, cache.State(), hash, predictBatch);
    RunBatchCommits(r0, jobId, images, cache.State(), hash, predictBatch);
    OpenJob(session, job);
    ghost var begun := job.Row();

    var toInferBytes, toInferMeta, predictionsToAdd, currentFailed, currentCached :=
      SweepImages(session, job, images, jobId, cache, hash, steps);
    ghost var swept := job.Row();
    UpdateTwice(old(db.jobs), jobId, begun, swept);

    result := MergeAndFinish(session, job, images, jobId, cache, hash, predictBatch,
      toInferBytes, toInferMeta, predictionsToAdd, currentFailed, currentCached, r0);
    ghost var final := run.commits[|run.commits| - 1];
    UpdateTwice(old(db.jobs), jobId, swept, final);
    AppendAssoc(old(db.history), Opening(r0), rows, [final]);
    assert db.predictions == old(db.predictions) + run.committed;
  }

  /** The success path's progress commit (tasks.py:105-115): one more
      processed image, the hit rate of the single-image rule, the terminal
      status once processed plus failed reaches the total, and the commit
      that also stores the staged prediction. `row` is the job as it stood
      before a cache hit was counted. */
  method RecordServed(session: Session, job: Job, ghost row: JobRow, hit: bool)
    requires session.db.Valid()
    requires job.Row() == row.(cachedImages := row.cachedImages + (if hit then 1 else 0))
    modifies session, session.db, job
    ensures session.db.Valid()
    ensures job.Row() == Progressed(row, hit)
    ensures session.db.history == old(session.db.history) + [job.Row()]
    ensures session.db.jobs == old(session.db.jobs)[job.id := job.Row()]
    ensures session.db.predictions == old(session.db.predictions) + old(session.pending)
  {
    job.processedImages := job.processedImages + 1;
    if job.totalImages > 0 {
      job.cacheHitRate := (job.cachedImages as real / job.processedImages as real) * 100.0;
    }
    if job.processedImages + job.failedImages == job.totalImages {
      job.status := if job.failedImages == 0 then Completed else Failed;
      job.completedAt := Stamped;
    }
    session.Commit(job);
  }

  /** The end of the success path (tasks.py:92-121): the prediction row is
      staged and committed with the progress update, and the success
      dictionary is returned. */
  method SaveServed(
    session: Session, job: Job, image: ImageRef, jobId: string, imageHash: string,
    predictionData: Payload, processingTime: real, fromCache: bool, ghost r0: JobRow)
    returns (result: TaskResult)
    requires session.db.Valid() && session.pending == []
    requires job.id == jobId
    requires job.Row() == Start(r0).(cachedImages := Start(r0).cachedImages + (if fromCache then 1 else 0))
    modifies session, session.db, job
    ensures session.db.Valid()
    ensures result == Success(predictionData, fromCache)
    ensures session.db.history == old(session.db.history) + [Progressed(Start(r0), fromCache)]
    ensures session.db.jobs == old(session.db.jobs)[jobId := Progressed(Start(r0), fromCache)]
    ensures session.db.predictions ==
      old(session.db.predictions) + [SavedPrediction(jobId, image, imageHash, predictionData, processingTime, fromCache)]
  {
    var prediction := Prediction(jobId, Basename(image.path), imageHash, predictionData.predictedClass,
      predictionData.confidence, predictionData.top3Classes, processingTime, fromCache);
    session.Add([prediction]);
    RecordServed(session, job, Start(r0), fromCache);
    return Success(predictionData, fromCache);
  }

  /** Everything of `process_single_image` after the guard (tasks.py:45-139):
      the missing-file path, the cache lookup, the inference on a miss and
      the write-back, the saved prediction and the progress commit, and the
      except branch for a file that cannot be read, an undecodable cache
      entry or an engine that raises. It adds one row to the history: the
      run's closing row. */
  method ServeImage(
    session: Session, job: Job, image: ImageRef, jobId: string, cache: RedisCache,
    hash: Bytes -> string, predict: Bytes -> Option<Inference>, elapsedMs: real, ghost r0: JobRow)
    returns (result: TaskResult)
    requires session.db.Valid() && session.pending == []
    requires job.id == jobId && jobId in session.db.jobs && session.db.jobs[jobId] == job.Row()
    requires job.Row() == Start(r0)
    modifies session, session.db, job, cache
    ensures session.db.Valid()
    ensures var run := RunSingle(Some(r0), jobId, image, old(cache.State()), hash, predict, elapsedMs);
      && result == run.result
      && session.db.history == old(session.db.history) + [run.commits[|run.commits| - 1]]
      && session.db.predictions == old(session.db.predictions) + run.committed
      && cache.State() == run.cacheAfter
      && session.db.jobs == old(session.db.jobs)[jobId := run.commits[|run.commits| - 1]]
  {
    ghost var c := cache.State();
    SingleCommits(r0, jobId, image, c, hash, predict, elapsedMs);
    var imageBytes;
    match image.file {
      case Missing =>
        job.failedImages := job.failedImages + 1;
        job.processedImages := job.processedImages + 1;
        session.Commit(job);
        return Status(Failed);
      case Unreadable =>
        RecoverJob(session, jobId);
        return Raised;
      case Present(content) =>
        imageBytes := content;
    }
    var imageHash := hash(imageBytes);
    var cachedResult := cache.GetPrediction(imageHash);
    match cachedResult {
      case DecodeError =>
        RecoverJob(session, jobId);
        return Raised;
      case Hit(p) =>
        job.cachedImages := job.cachedImages + 1;
        result := SaveServed(session, job, image, jobId, imageHash, p, 0.0, true, r0);
      case Miss =>
        var inference := predict(imageBytes);
        if inference.None? {
          RecoverJob(session, jobId);
          return Raised;
        }
        var predictionData := PayloadOf(inference.value);
        cache.SetPrediction(imageHash, predictionData, None);
        result := SaveServed(session, job, image, jobId, imageHash, predictionData, elapsedMs, false, r0);
    }
  }

  /** `process_single_image(image_path, job_id)` (tasks.py:17-142), with
      the engine's one call and the measured inference time as
      parameters. */
  method ProcessSingleImage(
    image: ImageRef, jobId: string, db: Database, cache: RedisCache,
    hash: Bytes -> string, predict: Bytes -> Option<Inference>, elapsedMs: real)
    returns (result: TaskResult)
    requires db.Valid()
    modifies db, cache
    ensures db.Valid()
    ensures var run := RunSingle(Stored(old(db.jobs), jobId), jobId, image, old(cache.State()), hash, predict, elapsedMs);
      && result == run.result
      && db.history == old(db.history) + run.commits
      && db.predictions == old(db.predictions) + run.committed
      && cache.State() == run.cacheAfter
      && db.jobs == (if run.commits == [] then old(db.jobs) else old(db.jobs)[jobId := run.commits[|run.commits| - 1]])
  {
    var session := new Session(db);
    var job := session.Query(jobId);
    if job == null {
      return Status(Failed);
    }
    ghost var r0 := job.Row();
    ghost var run := RunSingle(Some(r0), jobId, image, cache.State(), hash, predict, elapsedMs);
    SingleCommits(r0, jobId, image, cache.State(), hash, predict, elapsedMs);
    OpenJob(session, job);
    ghost var begun := job.Row();
    result := ServeImage(session, job, image, jobId, cache, hash, predict, elapsedMs, r0);
    ghost var final := run.commits[|run.commits| - 1];
    UpdateTwice(old(db.jobs), jobId, begun, final);
    AppendOne(old(db.history), Opening(r0), final);
  }
}
