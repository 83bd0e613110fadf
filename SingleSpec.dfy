/** The meaning of `process_single_image` (app/workers/tasks.py:17-142) as
    a function of its inputs: the guard, the missing-file path, the
    cache-then-infer success path with its completion rule, and the
    exception path. `Tasks.ProcessSingleImage` is proved to do exactly what
    `RunSingle` says. */
module SingleSpec {
  import opened Wrappers
  import opened Models
  import opened Cache
  import opened Pipeline

  /** The missing-file path (tasks.py:46-51): one more failed and one more
      processed image, and nothing else. */
  function MissingFile(row: JobRow): JobRow {
    row.(failedImages := row.failedImages + 1, processedImages := row.processedImages + 1)
  }

  /** The success path's progress (tasks.py:67-71, 105-113): one more
      processed image, one more cached one on a hit, the hit rate of the
      single-image rule, and the terminal status once every image of the
      job is accounted for. */
  function Progressed(row: JobRow, hit: bool): JobRow {
    var cached := row.cachedImages + (if hit then 1 else 0);
    var processed := row.processedImages + 1;
    var r := row.(cachedImages := cached, processedImages := processed,
                  cacheHitRate := SingleHitRate(row.totalImages, processed, cached, row.cacheHitRate));
    if processed + r.failedImages == r.totalImages
    then r.(status := if r.failedImages == 0 then Completed else Failed, completedAt := Stamped)
    else r
  }

  /** The exception path's update of the re-read row (tasks.py:129-138):
      one more failed and one more processed image, the hit rate of the
      single-image rule, and FAILED once every image is accounted for. */
  function Recover(row: JobRow): JobRow {
    var processed := row.processedImages + 1;
    var failed := row.failedImages + 1;
    var r := row.(failedImages := failed, processedImages := processed,
                  cacheHitRate := SingleHitRate(row.totalImages, processed, row.cachedImages, row.cacheHitRate));
    if processed + failed == r.totalImages then r.(status := Failed, completedAt := Stamped) else r
  }

  /** The success path's row: one more processed image, one more cached
      image on a hit, the same failures; terminal exactly when processed
      plus failed reaches the total (COMPLETED if nothing failed, FAILED
      otherwise), the status and completion time untouched before that. */
  lemma ProgressedRow(row: JobRow, hit: bool)
    ensures var r := Progressed(row, hit);
      && r.processedImages == row.processedImages + 1
      && r.cachedImages == row.cachedImages + (if hit then 1 else 0)
      && r.failedImages == row.failedImages
      && r.totalImages == row.totalImages && r.startedAt == row.startedAt
      && (r.processedImages + r.failedImages == r.totalImages ==>
            && r.status.IsTerminal() && r.completedAt == Stamped
            && (r.status == Completed <==> r.failedImages == 0))
      && (r.processedImages + r.failedImages != r.totalImages ==>
            r.status == row.status && r.completedAt == row.completedAt)
  {
  }

  /** The exception path's row: one more failed and one more processed
      image, the same cached images; FAILED with a completion time exactly
      when processed plus failed reaches the total, untouched before that. */
  lemma RecoverRow(row: JobRow)
    ensures var r := Recover(row);
      && r.failedImages == row.failedImages + 1
      && r.processedImages == row.processedImages + 1
      && r.cachedImages == row.cachedImages
      && r.totalImages == row.totalImages && r.startedAt == row.startedAt
      && (r.processedImages + r.failedImages == r.totalImages ==>
            r.status == Failed && r.completedAt == Stamped)
      && (r.processedImages + r.failedImages != r.totalImages ==>
            r.status == row.status && r.completedAt == row.completedAt)
  {
  }

  /** The prediction row saved on success. */
  function SavedPrediction(jobId: string, image: ImageRef, h: string, p: Payload, timeMs: real, hit: bool): Prediction {
    Prediction(jobId, Basename(image.path), h, p.predictedClass, p.confidence, p.top3Classes, timeMs, hit)
  }

  /** `process_single_image(path, jobId)` against the stored row `row0`
      (None when no job has that id), the cache `c`, the hash function, the
      engine's single call (None when it raises) and the measured inference
      time. After an exception the row is re-read from the last commit,
      which is `Start(r0)`. */
  function RunSingle(
    row0: Option<JobRow>, jobId: string, image: ImageRef, c: CacheState,
    hash: Bytes -> string, predict: Bytes -> Option<Inference>, elapsedMs: real): Run
  {
    match row0
    case None => Run([], [], c, Status(Failed))
    case Some(r0) =>
      var start := Start(r0);
      var raised := Run(Opening(r0) + [Recover(start)], [], c, Raised);
      match image.file
      case Missing => Run(Opening(r0) + [MissingFile(start)], [], c, Status(Failed))
      case Unreadable => raised
      case Present(b) =>
        var h := hash(b);
        match Get(c, h)
        case DecodeError => raised
        case Hit(p) => Served(r0, jobId, image, h, p, 0.0, true, c)
        case Miss =>
          match predict(b)
          case None => raised
          case Some(r) => Served(r0, jobId, image, h, PayloadOf(r), elapsedMs, false, Put(c, h, PayloadOf(r), None))
  }

  /** A successful run: the progressed row, the saved prediction, the
      cache as left, and the success dictionary. */
  function Served(r0: JobRow, jobId: string, image: ImageRef, h: string, p: Payload, timeMs: real,
                  hit: bool, cacheAfter: CacheState): Run {
    Run(Opening(r0) + [Progressed(Start(r0), hit)], [SavedPrediction(jobId, image, h, p, timeMs, hit)],
        cacheAfter, Success(p, hit))
  }

  /** When the file can be read, its cache entry decoded and (on a miss) the
      engine answers. */
  predicate Succeeds(image: ImageRef, c: CacheState, hash: Bytes -> string, predict: Bytes -> Option<Inference>) {
    && image.file.Present?
    && Get(c, hash(image.file.content)) != DecodeError
    && (Get(c, hash(image.file.content)) == Miss ==> predict(image.file.content).Some?)
  }

  /** Every run on a known job commits the guard's row, if any, and then
      exactly one more row. */
  lemma SingleCommits(r0: JobRow, jobId: string, image: ImageRef, c: CacheState, hash: Bytes -> string,
                      predict: Bytes -> Option<Inference>, elapsedMs: real)
    ensures var run := RunSingle(Some(r0), jobId, image, c, hash, predict, elapsedMs);
      |run.commits| == |Opening(r0)| + 1 &&
      run.commits == Opening(r0) + [run.commits[|run.commits| - 1]]
  {
  }

  /** An unknown job id: FAILED is returned and nothing is written. */
  lemma SingleUnknownJob(jobId: string, image: ImageRef, c: CacheState, hash: Bytes -> string,
                         predict: Bytes -> Option<Inference>, elapsedMs: real)
    ensures var run := RunSingle(None, jobId, image, c, hash, predict, elapsedMs);
      run.commits == [] && run.committed == [] && run.cacheAfter == c && run.result == Status(Failed)
  {
  }

  /** Which way a run ends: the success dictionary exactly when the image
      succeeds, FAILED exactly when the file is missing, and an exception
      exactly when the file cannot be read, its cache entry cannot be
      decoded or the engine raises. */
  lemma SingleOutcome(r0: JobRow, jobId: string, image: ImageRef, c: CacheState, hash: Bytes -> string,
                      predict: Bytes -> Option<Inference>, elapsedMs: real)
    ensures var run := RunSingle(Some(r0), jobId, image, c, hash, predict, elapsedMs);
      && (run.result.Success? <==> Succeeds(image, c, hash, predict))
      && (run.result == Status(Failed) <==> image.file.Missing?)
      && (run.result == Raised <==> !image.file.Missing? && !Succeeds(image, c, hash, predict))
  {
    match image.file
    case Missing =>
    case Unreadable =>
    case Present(b) =>
      match Get(c, hash(b))
      case DecodeError =>
      case Hit(p) =>
      case Miss =>
  }

  /** On success the worker task commits one prediction, of this job, under the
      image's file name and hash, from the cache exactly on a hit (with
      time 0, the cached payload, and the cache untouched) and otherwise
      carrying the engine's result and the measured time (and written to
      the cache); the row gains one processed image and, on a hit, one
      cached image; the failure count is unchanged; the status becomes
      terminal exactly when processed plus failed reaches the total,
      COMPLETED if nothing failed and FAILED otherwise. */
  lemma SingleSuccess(r0: JobRow, jobId: string, image: ImageRef, c: CacheState, hash: Bytes -> string,
                      predict: Bytes -> Option<Inference>, elapsedMs: real)
    requires Succeeds(image, c, hash, predict)
    ensures var run := RunSingle(Some(r0), jobId, image, c, hash, predict, elapsedMs);
      var b := image.file.content;
      var hit := Get(c, hash(b)).Hit?;
      var start := Start(r0);
      var row := run.commits[|run.commits| - 1];
      && |run.commits| == |Opening(r0)| + 1
      && |run.committed| == 1
      && run.result.Success? && run.result.fromCache == hit
      && var p := run.committed[0];
      && p.jobId == jobId && p.imageFilename == Basename(image.path) && p.imageHash == hash(b)
      && p.fromCache == hit
      && p.predictedClass == run.result.prediction.predictedClass
      && p.confidence == run.result.prediction.confidence
      && p.top3Classes == run.result.prediction.top3Classes
      && (hit ==> run.result.prediction == Get(c, hash(b)).payload && p.processingTimeMs == 0.0
                  && run.cacheAfter == c)
      && (!hit ==> run.result.prediction == PayloadOf(predict(b).value) && p.processingTimeMs == elapsedMs
                   && run.cacheAfter == Put(c, hash(b), run.result.prediction, None))
      && row.processedImages == start.processedImages + 1
      && row.cachedImages == start.cachedImages + (if hit then 1 else 0)
      && row.failedImages == start.failedImages
      && (row.processedImages + row.failedImages == row.totalImages ==>
            && row.status.IsTerminal() && row.completedAt == Stamped
            && (row.status == Completed <==> row.failedImages == 0))
      && (row.processedImages + row.failedImages != row.totalImages ==>
            row.status == start.status && row.completedAt == start.completedAt)
  {
    var run := RunSingle(Some(r0), jobId, image, c, hash, predict, elapsedMs);
    var b := image.file.content;
    var h := hash(b);
    var hit := Get(c, h).Hit?;
    ProgressedRow(Start(r0), hit);
    if hit {
      var p := Get(c, h).payload;
      assert run == Served(r0, jobId, image, h, p, 0.0, true, c);
    } else {
      var p := PayloadOf(predict(b).value);
      assert run == Served(r0, jobId, image, h, p, elapsedMs, false, Put(c, h, p, None));
    }
  }

  /** The missing-file path: FAILED is returned, no prediction is saved, the
      cache is not touched, and the row gains one failed and one processed
      image with no terminal transition, even when that accounts for every
      image of the job. */
  lemma SingleMissingFile(r0: JobRow, jobId: string, image: ImageRef, c: CacheState, hash: Bytes -> string,
                          predict: Bytes -> Option<Inference>, elapsedMs: real)
    requires image.file.Missing?
    ensures var run := RunSingle(Some(r0), jobId, image, c, hash, predict, elapsedMs);
      var row := run.commits[|run.commits| - 1];
      var start := Start(r0);
      && run.result == Status(Failed)
      && |run.commits| == |Opening(r0)| + 1
      && run.committed == [] && run.cacheAfter == c
      && row.failedImages == start.failedImages + 1
      && row.processedImages == start.processedImages + 1
      && row.cachedImages == start.cachedImages
      && row.status == start.status && row.completedAt == start.completedAt
      && row.cacheHitRate == start.cacheHitRate
  {
  }

  /** On the exception path nothing is saved, the cache is not touched, the
      task re-raises, and the row re-read from the last commit gains one
      failed and one processed image and becomes FAILED with a completion
      time exactly when processed plus failed reaches the total. */
  lemma SingleException(r0: JobRow, jobId: string, image: ImageRef, c: CacheState, hash: Bytes -> string,
                        predict: Bytes -> Option<Inference>, elapsedMs: real)
    requires !image.file.Missing? && !Succeeds(image, c, hash, predict)
    ensures var run := RunSingle(Some(r0), jobId, image, c, hash, predict, elapsedMs);
      var row := run.commits[|run.commits| - 1];
      var start := Start(r0);
      && run.result == Raised
      && |run.commits| == |Opening(r0)| + 1
      && run.committed == [] && run.cacheAfter == c
      && row.failedImages == start.failedImages + 1
      && row.processedImages == start.processedImages + 1
      && row.cachedImages == start.cachedImages
      && (row.processedImages + row.failedImages == row.totalImages ==>
            row.status == Failed && row.completedAt == Stamped)
      && (row.processedImages + row.failedImages != row.totalImages ==>
            row.status == start.status && row.completedAt == start.completedAt)
  {
    var run := RunSingle(Some(r0), jobId, image, c, hash, predict, elapsedMs);
    var raised := Run(Opening(r0) + [Recover(Start(r0))], [], c, Raised);
    match image.file
    case Unreadable =>
      assert run == raised;
    case Present(b) =>
      match Get(c, hash(b))
      case DecodeError =>
        assert run == raised;
      case Miss =>
        assert run == raised;
    RecoverRow(Start(r0));
  }

  /** A fresh one-image job whose image is missing or raises counts that
      one image twice, once as failed and once as processed: processed
      plus failed becomes 2, never equal to the total of 1, so the job is
      left PROCESSING with no completion time. */
  lemma SingleFailureNeverFinishes(id: string, image: ImageRef, c: CacheState, hash: Bytes -> string,
                                   predict: Bytes -> Option<Inference>, elapsedMs: real)
    requires !Succeeds(image, c, hash, predict)
    ensures var run := RunSingle(Some(NewJob(id, 1)), id, image, c, hash, predict, elapsedMs);
      var row := run.commits[|run.commits| - 1];
      && |run.commits| == 2
      && row.processedImages == 1 && row.failedImages == 1
      && row.processedImages + row.failedImages == 2
      && row.status == Processing && row.completedAt == NotSet
  {
  }

  /** A fresh one-image job whose image succeeds completes, with a hit
      rate of 100 on a cache hit and 0 after inference. */
  lemma SingleFreshSuccess(id: string, image: ImageRef, c: CacheState, hash: Bytes -> string,
                           predict: Bytes -> Option<Inference>, elapsedMs: real)
    requires Succeeds(image, c, hash, predict)
    ensures var run := RunSingle(Some(NewJob(id, 1)), id, image, c, hash, predict, elapsedMs);
      var row := run.commits[|run.commits| - 1];
      var hit := Get(c, hash(image.file.content)).Hit?;
      && run.result.Success? && run.result.fromCache == hit
      && row.status == Completed && row.completedAt == Stamped && row.startedAt == Stamped
      && row.processedImages == 1 && row.failedImages == 0
      && row.cacheHitRate == (if hit then 100.0 else 0.0)
      && Consistent(row)
  {
  }

  /** After an inferred success with the cache on and reachable, running
      the worker task again on the same bytes is served from the cache with the
      same prediction. */
  lemma SingleRerunHits(r0: JobRow, r1: JobRow, jobId: string, image: ImageRef, c: CacheState,
                        hash: Bytes -> string, predict: Bytes -> Option<Inference>, elapsedMs: real)
    requires c.enabled && c.reachable
    requires RunSingle(Some(r0), jobId, image, c, hash, predict, elapsedMs).result.Success?
    ensures var run := RunSingle(Some(r0), jobId, image, c, hash, predict, elapsedMs);
      var again := RunSingle(Some(r1), jobId, image, run.cacheAfter, hash, predict, elapsedMs);
      again.result == Success(run.result.prediction, true)
  {
    var b := image.file.content;
    if Get(c, hash(b)).Miss? {
      PutThenGet(c, hash(b), PayloadOf(predict(b).value), None);
    }
  }
}
