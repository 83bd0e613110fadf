/** The meaning of `process_batch_images` (app/workers/tasks.py:145-313)
    as functions of its inputs: the sweep over the image list, the row
    committed after each image, the merge of the batch-inference results,
    the final row and the crash path. `Tasks.ProcessBatchImages` is proved
    to do exactly what `RunBatch` says; the lemmas here state what that
    means for a poller and for the job's predictions. */
module BatchSpec {
  import opened Wrappers
  import opened Models
  import opened Cache
  import opened Pipeline

  /** What is remembered of a queued cache miss (`images_to_infer_metadata`). */
  datatype Meta = Meta(originalPath: string, imageFilename: string, imageHash: string)

  /** The outcome of one image in the sweep. */
  datatype Step =
    | CacheHit(prediction: Prediction)
    | Queued(bytes: Bytes, meta: Meta)
    | Failure(prediction: Prediction)

  /** The sentinel row recorded for an image that raised. The hash is
      `None` when the exception came before it was computed. */
  function FailurePrediction(jobId: string, filename: string, hash: Option<string>): Prediction {
    Prediction(
      jobId,
      if filename != "" then filename else "unknown",
      if hash.Some? && hash.value != "" then hash.value else "error",
      "FAILED", 0.0, [], 0.0, false)
  }

  /** One iteration of the sweep, against the cache state `c` (the sweep
      itself never writes the cache). */
  function StepOf(jobId: string, image: ImageRef, c: CacheState, hash: Bytes -> string): Step {
    var name := Basename(image.path);
    match image.file
    case Missing => Failure(FailurePrediction(jobId, name, None))
    case Unreadable => Failure(FailurePrediction(jobId, name, None))
    case Present(b) =>
      var h := hash(b);
      match Get(c, h)
      case Hit(p) => CacheHit(Prediction(jobId, name, h, p.predictedClass, p.confidence, p.top3Classes, 0.0, true))
      case Miss => Queued(b, Meta(image.path, name, h))
      case DecodeError => Failure(FailurePrediction(jobId, name, Some(h)))
  }

  /** A failing image yields the sentinel prediction: class "FAILED",
      confidence 0, no alternatives, time 0, not from the cache, the base
      name ("unknown" when it is empty), and the computed hash ("error" when
      none was computed or it is empty). An image fails exactly when it
      cannot be read or its cache entry cannot be decoded. */
  lemma FailureStep(jobId: string, image: ImageRef, c: CacheState, hash: Bytes -> string)
    ensures StepOf(jobId, image, c, hash).Failure? <==> Fails(image, c, hash)
    ensures StepOf(jobId, image, c, hash).Failure? ==>
      var p := StepOf(jobId, image, c, hash).prediction;
      && p.jobId == jobId && p.predictedClass == "FAILED" && p.confidence == 0.0
      && p.top3Classes == [] && p.processingTimeMs == 0.0 && !p.fromCache
      && (!image.file.Present? ==> p.imageHash == "error")
      && (image.file.Present? ==>
            p.imageHash == (if hash(image.file.content) != "" then hash(image.file.content) else "error"))
      && p.imageFilename == (if Basename(image.path) != "" then Basename(image.path) else "unknown")
  {
  }

  /** A hit yields a prediction copied from the cache with `fromCache` set
      and time 0; a miss queues the image's bytes beside its hash. */
  lemma HitOrQueuedStep(jobId: string, image: ImageRef, c: CacheState, hash: Bytes -> string)
    ensures StepOf(jobId, image, c, hash).CacheHit? <==> Hits(image, c, hash)
    ensures StepOf(jobId, image, c, hash).CacheHit? ==>
      var p := StepOf(jobId, image, c, hash).prediction;
      var cached := Get(c, hash(image.file.content)).payload;
      && p.jobId == jobId && p.fromCache && p.processingTimeMs == 0.0
      && p.imageHash == hash(image.file.content)
      && p.predictedClass == cached.predictedClass && p.confidence == cached.confidence
      && p.top3Classes == cached.top3Classes
      && p.imageFilename == Basename(image.path)
    ensures StepOf(jobId, image, c, hash).Queued? ==>
      var st := StepOf(jobId, image, c, hash);
      image.file.Present? && st.bytes == image.file.content && st.meta.imageHash == hash(st.bytes)
      && st.meta.originalPath == image.path && st.meta.imageFilename == Basename(image.path)
  {
  }

  /** The outcome of every image, in input order. */
  function Steps(jobId: string, images: seq<ImageRef>, c: CacheState, hash: Bytes -> string): (steps: seq<Step>)
    ensures |steps| == |images|
  {
    seq(|images|, k requires 0 <= k < |images| => StepOf(jobId, images[k], c, hash))
  }

  /** The sweep's local state: the two index-aligned queues of misses, the
      predictions collected so far, and the failure and hit counters. */
  datatype Sweep = Sweep(
    toInferBytes: seq<Bytes>,
    toInferMeta: seq<Meta>,
    predictions: seq<Prediction>,
    failed: nat,
    cached: nat)

  function Advance(s: Sweep, step: Step): Sweep {
    match step
    case CacheHit(p) => s.(predictions := s.predictions + [p], cached := s.cached + 1)
    case Queued(b, m) => s.(toInferBytes := s.toInferBytes + [b], toInferMeta := s.toInferMeta + [m])
    case Failure(p) => s.(predictions := s.predictions + [p], failed := s.failed + 1)
  }

  /** The sweep's state after the given image outcomes, in order. */
  function SweepOf(steps: seq<Step>): Sweep
    decreases |steps|
  {
    if steps == [] then Sweep([], [], [], 0, 0)
    else Advance(SweepOf(steps[..|steps| - 1]), steps[|steps| - 1])
  }

  /** The sweep over one more step is that step applied to the sweep so far. */
  lemma SweepOfPrefix(steps: seq<Step>, i: nat)
    requires i < |steps|
    ensures SweepOf(steps[..i + 1]) == Advance(SweepOf(steps[..i]), steps[i])
  {
    assert steps[..i + 1][..i] == steps[..i];
  }

  /** A queued miss stays queued: its metadata is among the sweep's. */
  lemma {:induction false} QueuedKept(steps: seq<Step>, k: nat)
    requires k < |steps| && steps[k].Queued?
    ensures steps[k].meta in SweepOf(steps).toInferMeta
    decreases |steps|
  {
    var n := |steps| - 1;
    if k < n {
      assert steps[..n][k] == steps[k];
      QueuedKept(steps[..n], k);
    }
  }

  /** A hit or a failure stays recorded: its prediction is among the
      sweep's. */
  lemma {:induction false} RecordedKept(steps: seq<Step>, k: nat)
    requires k < |steps| && !steps[k].Queued?
    ensures steps[k].prediction in SweepOf(steps).predictions
    decreases |steps|
  {
    var n := |steps| - 1;
    if k < n {
      assert steps[..n][k] == steps[k];
      RecordedKept(steps[..n], k);
    }
  }

  /** Every image is accounted for exactly once: as a hit or a failure
      (each with one prediction, kept in input order) or as a queued miss,
      whose bytes and metadata stay index-aligned. */
  lemma {:induction false} SweepAccounting(steps: seq<Step>)
    ensures var s := SweepOf(steps);
      && |s.toInferBytes| == |s.toInferMeta|
      && s.failed + s.cached + |s.toInferMeta| == |steps|
      && |s.predictions| == s.failed + s.cached
    decreases |steps|
  {
    if steps != [] {
      SweepAccounting(steps[..|steps| - 1]);
    }
  }

  /** One image keeps the sweep's contents well formed: a recorded
      prediction belongs to the job, a queued hash is that of the bytes
      queued beside it. */
  lemma ContentStep(s: Sweep, jobId: string, image: ImageRef, c: CacheState, hash: Bytes -> string)
    requires |s.toInferBytes| == |s.toInferMeta|
    requires forall k :: 0 <= k < |s.predictions| ==> s.predictions[k].jobId == jobId
    requires forall k :: 0 <= k < |s.toInferMeta| ==> s.toInferMeta[k].imageHash == hash(s.toInferBytes[k])
    ensures var t := Advance(s, StepOf(jobId, image, c, hash));
      && |t.toInferBytes| == |t.toInferMeta|
      && (forall k :: 0 <= k < |t.predictions| ==> t.predictions[k].jobId == jobId)
      && (forall k :: 0 <= k < |t.toInferMeta| ==> t.toInferMeta[k].imageHash == hash(t.toInferBytes[k]))
  {
    var st := StepOf(jobId, image, c, hash);
    var t := Advance(s, st);
    FailureStep(jobId, image, c, hash);
    HitOrQueuedStep(jobId, image, c, hash);
    if st.Queued? {
      assert t.predictions == s.predictions;
      forall k | 0 <= k < |t.toInferMeta|
        ensures t.toInferMeta[k].imageHash == hash(t.toInferBytes[k])
      {
        if k < |s.toInferMeta| {
          assert t.toInferMeta[k] == s.toInferMeta[k] && t.toInferBytes[k] == s.toInferBytes[k];
        }
      }
    } else {
      assert st.prediction.jobId == jobId;
      assert t.predictions == s.predictions + [st.prediction];
      assert t.toInferMeta == s.toInferMeta && t.toInferBytes == s.toInferBytes;
    }
  }

  /** The sweep's predictions all belong to the job, and each queued hash
      is the hash of the bytes queued beside it. */
  lemma {:induction false} SweepContents(jobId: string, images: seq<ImageRef>, c: CacheState, hash: Bytes -> string, m: nat)
    requires m <= |images|
    ensures var s := SweepOf(Steps(jobId, images, c, hash)[..m]);
      && |s.toInferBytes| == |s.toInferMeta|
      && (forall k :: 0 <= k < |s.predictions| ==> s.predictions[k].jobId == jobId)
      && (forall k :: 0 <= k < |s.toInferMeta| ==> s.toInferMeta[k].imageHash == hash(s.toInferBytes[k]))
    decreases m
  {
    if m > 0 {
      var steps := Steps(jobId, images, c, hash);
      SweepContents(jobId, images, c, hash, m - 1);
      SweepOfPrefix(steps, m - 1);
      ContentStep(SweepOf(steps[..m - 1]), jobId, images[m - 1], c, hash);
    }
  }

  /** An image fails when it cannot be read or its cache entry cannot be
      decoded. */
  predicate Fails(image: ImageRef, c: CacheState, hash: Bytes -> string) {
    !image.file.Present? || Get(c, hash(image.file.content)) == DecodeError
  }

  /** An image is served from the cache when it can be read and its hash hits. */
  predicate Hits(image: ImageRef, c: CacheState, hash: Bytes -> string) {
    image.file.Present? && Get(c, hash(image.file.content)).Hit?
  }

  /** The number of failing images. */
  function FailureCount(images: seq<ImageRef>, c: CacheState, hash: Bytes -> string): (n: nat)
    ensures n <= |images|
    decreases |images|
  {
    if images == [] then 0
    else FailureCount(images[..|images| - 1], c, hash)
         + (if Fails(images[|images| - 1], c, hash) then 1 else 0)
  }

  /** The number of images served from the cache. */
  function HitCount(images: seq<ImageRef>, c: CacheState, hash: Bytes -> string): (n: nat)
    ensures n <= |images|
    decreases |images|
  {
    if images == [] then 0
    else HitCount(images[..|images| - 1], c, hash)
         + (if Hits(images[|images| - 1], c, hash) then 1 else 0)
  }

  /** One image moves the counters by its own failure or hit. */
  lemma CountStep(s: Sweep, jobId: string, image: ImageRef, c: CacheState, hash: Bytes -> string)
    ensures Advance(s, StepOf(jobId, image, c, hash)).failed == s.failed + (if Fails(image, c, hash) then 1 else 0)
    ensures Advance(s, StepOf(jobId, image, c, hash)).cached == s.cached + (if Hits(image, c, hash) then 1 else 0)
  {
    FailureStep(jobId, image, c, hash);
    HitOrQueuedStep(jobId, image, c, hash);
  }

  /** The sweep's counters count the failing and the hit images among the
      first m. */
  lemma {:induction false} SweepCounts(jobId: string, images: seq<ImageRef>, c: CacheState, hash: Bytes -> string, m: nat)
    requires m <= |images|
    ensures SweepOf(Steps(jobId, images, c, hash)[..m]).failed == FailureCount(images[..m], c, hash)
    ensures SweepOf(Steps(jobId, images, c, hash)[..m]).cached == HitCount(images[..m], c, hash)
    decreases m
  {
    if m > 0 {
      var steps := Steps(jobId, images, c, hash);
      SweepCounts(jobId, images, c, hash, m - 1);
      var prior := SweepOf(steps[..m - 1]);
      SweepOfPrefix(steps, m - 1);
      assert images[..m][..m - 1] == images[..m - 1];
      CountStep(prior, jobId, images[m - 1], c, hash);
    }
  }

  /** Every image fails exactly when the failure count is the list's length
      (in particular for the empty list). */
  lemma {:induction false} AllFail(images: seq<ImageRef>, c: CacheState, hash: Bytes -> string)
    ensures FailureCount(images, c, hash) == |images| <==>
      forall k :: 0 <= k < |images| ==> Fails(images[k], c, hash)
    decreases |images|
  {
    if images != [] {
      var n := |images| - 1;
      var pre := images[..n];
      AllFail(pre, c, hash);
      if FailureCount(images, c, hash) == |images| {
        assert FailureCount(pre, c, hash) == n;
        forall k | 0 <= k < n
          ensures Fails(images[k], c, hash)
        {
          assert pre[k] == images[k];
        }
      }
      if forall k :: 0 <= k < |images| ==> Fails(images[k], c, hash) {
        forall k | 0 <= k < n
          ensures Fails(pre[k], c, hash)
        {
          assert pre[k] == images[k];
        }
        assert Fails(images[n], c, hash);
      }
    }
  }

  /** The same for hits. */
  lemma {:induction false} AllHit(images: seq<ImageRef>, c: CacheState, hash: Bytes -> string)
    ensures HitCount(images, c, hash) == |images| <==>
      forall k :: 0 <= k < |images| ==> Hits(images[k], c, hash)
    decreases |images|
  {
    if images != [] {
      var n := |images| - 1;
      var pre := images[..n];
      AllHit(pre, c, hash);
      if HitCount(images, c, hash) == |images| {
        assert HitCount(pre, c, hash) == n;
        forall k | 0 <= k < n
          ensures Hits(images[k], c, hash)
        {
          assert pre[k] == images[k];
        }
      }
      if forall k :: 0 <= k < |images| ==> Hits(images[k], c, hash) {
        forall k | 0 <= k < n
          ensures Hits(pre[k], c, hash)
        {
          assert pre[k] == images[k];
        }
        assert Hits(images[n], c, hash);
      }
    }
  }

  /** The row committed after an image: the counters derived from the
      sweep's state, the hit rate by the batch rule, the rest unchanged. */
  function Progress(prior: JobRow, s: Sweep): JobRow {
    var seen := s.cached + |s.toInferMeta| + s.failed;
    var processed := seen - s.failed;
    prior.(processedImages := processed,
           failedImages := s.failed,
           cachedImages := s.cached,
           cacheHitRate := BatchHitRate(prior.totalImages, processed, s.cached, prior.cacheHitRate))
  }

  /** The job row as last committed: `first` if nothing followed it. */
  function Last(first: JobRow, rows: seq<JobRow>): JobRow {
    if rows == [] then first else rows[|rows| - 1]
  }

  /** The rows committed during the sweep, one per image, starting from the
      row `start` the job had when the sweep began. */
  function SweepRows(start: JobRow, steps: seq<Step>): (rows: seq<JobRow>)
    ensures |rows| == |steps|
    decreases |steps|
  {
    if steps == [] then []
    else
      var prior := SweepRows(start, steps[..|steps| - 1]);
      prior + [Progress(Last(start, prior), SweepOf(steps))]
  }

  /** The rows over one more step are the rows so far and that step's
      progress row. */
  lemma SweepRowsStep(start: JobRow, steps: seq<Step>, i: nat)
    requires i < |steps|
    ensures SweepRows(start, steps[..i + 1]) ==
      SweepRows(start, steps[..i]) + [Progress(Last(start, SweepRows(start, steps[..i])), SweepOf(steps[..i + 1]))]
  {
    assert steps[..i + 1][..i] == steps[..i];
  }

  lemma {:induction false} SweepRowsPrefix(start: JobRow, steps: seq<Step>, m: nat)
    requires m <= |steps|
    ensures SweepRows(start, steps[..m]) == SweepRows(start, steps)[..m]
    decreases |steps|
  {
    if m < |steps| {
      var n := |steps| - 1;
      assert steps[..n][..m] == steps[..m];
      SweepRowsPrefix(start, steps[..n], m);
    } else {
      assert steps[..m] == steps;
    }
  }

  /** The columns the sweep never writes. */
  predicate SameHeader(a: JobRow, b: JobRow) {
    && a.id == b.id && a.status == b.status && a.modelType == b.modelType
    && a.totalImages == b.totalImages && a.celeryTaskId == b.celeryTaskId
    && a.startedAt == b.startedAt && a.completedAt == b.completedAt
  }

  lemma {:induction false} SweepRowsHeader(start: JobRow, steps: seq<Step>)
    ensures SameHeader(Last(start, SweepRows(start, steps)), start)
    ensures forall k :: 0 <= k < |steps| ==> SameHeader(SweepRows(start, steps)[k], start)
    decreases |steps|
  {
    if steps != [] {
      SweepRowsHeader(start, steps[..|steps| - 1]);
    }
  }

  /** The row committed after the (k+1)-th image is the progress row of the
      sweep's first k+1 outcomes. */
  lemma SweepRowAt(start: JobRow, steps: seq<Step>, k: nat)
    requires k < |steps|
    ensures var rows := SweepRows(start, steps);
      rows[k] == Progress(Last(start, rows[..k]), SweepOf(steps[..k + 1]))
  {
    var rows := SweepRows(start, steps);
    SweepRowsPrefix(start, steps, k + 1);
    SweepRowsPrefix(start, steps, k);
    assert steps[..k + 1][..k] == steps[..k];
  }

  /** What a poller sees in the row committed after the (k+1)-th image:
      processed plus failed is k+1, the cache hits fit in the processed
      count, the hit rate is 0 while nothing is processed and otherwise the
      percentage of hits when the job has a total, and the status and
      timestamps are those the job had when the sweep began. */
  lemma SweepRowObserved(start: JobRow, steps: seq<Step>, k: nat)
    requires k < |steps|
    ensures var r := SweepRows(start, steps)[k];
      && r.processedImages + r.failedImages == k + 1
      && r.cachedImages <= r.processedImages
      && (r.processedImages == 0 ==> r.cacheHitRate == 0.0)
      && (r.totalImages > 0 && r.processedImages > 0 ==>
            r.cacheHitRate == Percent(r.cachedImages, r.processedImages))
      && SameHeader(r, start)
  {
    SweepRowAt(start, steps, k);
    SweepAccounting(steps[..k + 1]);
    SweepRowsHeader(start, steps);
  }

  /** Counters never go back between two successive sweep commits. */
  lemma SweepRowsMonotone(start: JobRow, steps: seq<Step>, k: nat)
    requires k + 1 < |steps|
    ensures var rows := SweepRows(start, steps);
      && rows[k].processedImages <= rows[k + 1].processedImages
      && rows[k].failedImages <= rows[k + 1].failedImages
      && rows[k].cachedImages <= rows[k + 1].cachedImages
  {
    SweepRowAt(start, steps, k);
    SweepRowAt(start, steps, k + 1);
    assert steps[..k + 2][..k + 1] == steps[..k + 1];
  }

  /** The prediction created for the i-th queued miss and its result. */
  function InferredPrediction(jobId: string, m: Meta, r: Inference): Prediction {
    Prediction(jobId, m.imageFilename, m.imageHash, r.predictedClass, r.confidence,
               TopOrEmpty(r.top3Classes), r.inferenceTime, false)
  }

  /** The predictions for the first |results| queued misses, in order. */
  function Inferred(jobId: string, metas: seq<Meta>, results: seq<Inference>): (ps: seq<Prediction>)
    requires |results| <= |metas|
    ensures |ps| == |results|
    decreases |results|
  {
    if results == [] then []
    else Inferred(jobId, metas, results[..|results| - 1])
         + [InferredPrediction(jobId, metas[|results| - 1], results[|results| - 1])]
  }

  /** Result i is paired with metadata i: the i-th inferred prediction
      carries the i-th miss's file name and hash and the i-th result. */
  lemma {:induction false} InferredAt(jobId: string, metas: seq<Meta>, results: seq<Inference>, i: nat)
    requires |results| <= |metas| && i < |results|
    ensures Inferred(jobId, metas, results)[i] == InferredPrediction(jobId, metas[i], results[i])
    decreases |results|
  {
    if i < |results| - 1 {
      InferredAt(jobId, metas, results[..|results| - 1], i);
    }
  }

  /** The cache after the results were written back under their misses'
      hashes, in order, with the default TTL. Only the keyspace changes. */
  function WriteBack(c: CacheState, metas: seq<Meta>, results: seq<Inference>): (r: CacheState)
    requires |results| <= |metas|
    ensures r.enabled == c.enabled && r.reachable == c.reachable && r.defaultTtl == c.defaultTtl
    decreases |results|
  {
    if results == [] then c
    else Put(WriteBack(c, metas, results[..|results| - 1]),
             metas[|results| - 1].imageHash, PayloadOf(results[|results| - 1]), None)
  }

  /** After the write-back, a miss whose hash no later miss repeats reads
      back as its own result (cache on and reachable). */
  lemma {:induction false} WriteBackReads(c: CacheState, metas: seq<Meta>, results: seq<Inference>, i: nat)
    requires |results| <= |metas| && i < |results|
    requires forall j :: i < j < |results| ==> metas[j].imageHash != metas[i].imageHash
    ensures c.enabled && c.reachable ==>
      Get(WriteBack(c, metas, results), metas[i].imageHash) == Hit(PayloadOf(results[i]))
    decreases |results|
  {
    var n := |results| - 1;
    var w := WriteBack(c, metas, results[..n]);
    if i < n {
      WriteBackReads(c, metas, results[..n], i);
      PutOtherHash(w, metas[n].imageHash, metas[i].imageHash, PayloadOf(results[n]), None);
    } else if c.enabled && c.reachable {
      PutThenGet(w, metas[n].imageHash, PayloadOf(results[n]), None);
    }
  }

  /** With the cache off or unreachable the write-back changes nothing. */
  lemma {:induction false} WriteBackInert(c: CacheState, metas: seq<Meta>, results: seq<Inference>)
    requires |results| <= |metas|
    requires !c.enabled || !c.reachable
    ensures WriteBack(c, metas, results) == c
    decreases |results|
  {
    if results != [] {
      WriteBackInert(c, metas, results[..|results| - 1]);
    }
  }

  /** The write-back keeps every hit a hit. */
  lemma {:induction false} WriteBackKeepsHit(c: CacheState, metas: seq<Meta>, results: seq<Inference>, h: string)
    requires |results| <= |metas|
    requires Get(c, h).Hit?
    ensures Get(WriteBack(c, metas, results), h).Hit?
    decreases |results|
  {
    if results != [] {
      var n := |results| - 1;
      WriteBackKeepsHit(c, metas, results[..n], h);
      PutKeepsHit(WriteBack(c, metas, results[..n]), metas[n].imageHash, h, PayloadOf(results[n]), None);
    }
  }

  /** After the write-back, with the cache on and reachable, the hash of
      every miss that got a result is a hit. */
  lemma {:induction false} WriteBackHitsEvery(c: CacheState, metas: seq<Meta>, results: seq<Inference>, i: nat)
    requires |results| <= |metas| && i < |results|
    requires c.enabled && c.reachable
    ensures Get(WriteBack(c, metas, results), metas[i].imageHash).Hit?
    decreases |results|
  {
    var n := |results| - 1;
    var w := WriteBack(c, metas, results[..n]);
    if i < n {
      WriteBackHitsEvery(c, metas, results[..n], i);
      PutKeepsHit(w, metas[n].imageHash, metas[i].imageHash, PayloadOf(results[n]), None);
    } else {
      PutThenGet(w, metas[n].imageHash, PayloadOf(results[n]), None);
    }
  }

  /** The final row (tasks.py:281-298): counters recomputed from the list's
      length, FAILED exactly when every image failed, and a completion time. */
  function Finalize(last: JobRow, n: nat, s: Sweep): JobRow
    requires s.failed <= n
  {
    var processed := n - s.failed;
    last.(processedImages := processed,
          failedImages := s.failed,
          cachedImages := s.cached,
          cacheHitRate := BatchHitRate(last.totalImages, processed, s.cached, last.cacheHitRate),
          status := if s.failed == n then Failed else Completed,
          completedAt := Stamped)
  }

  /** The crash path's row: the last committed row, FAILED, with a
      completion time. */
  function Abort(last: JobRow): JobRow {
    last.(status := Failed, completedAt := Stamped)
  }

  /** The engine's answer for the queued misses: it is not called when
      nothing is queued. */
  function EngineAnswer(toInfer: seq<Bytes>, predictBatch: seq<Bytes> -> Option<seq<Inference>>): Option<seq<Inference>> {
    if toInfer == [] then Some([]) else predictBatch(toInfer)
  }

  /** `process_batch_images(images, jobId)` against the stored row `row0`
      (None when no job has that id), the cache `c`, the hash function and
      the engine's batch call, which yields None when it raises. */
  function RunBatch(
    row0: Option<JobRow>, jobId: string, images: seq<ImageRef>, c: CacheState,
    hash: Bytes -> string, predictBatch: seq<Bytes> -> Option<seq<Inference>>): Run
  {
    match row0
    case None => Run([], [], c, Status(Failed))
    case Some(r0) =>
      var steps := Steps(jobId, images, c, hash);
      var start := Start(r0);
      var s := SweepOf(steps);
      var rows := SweepRows(start, steps);
      var last := Last(start, rows);
      SweepAccounting(steps);
      var inference := EngineAnswer(s.toInferBytes, predictBatch);
      if inference.None? then
        Run(Opening(r0) + rows + [Abort(last)], [], c, Raised)
      else if |inference.value| > |s.toInferMeta| then
        // results[len(metadata)] raises IndexError after the first writes
        Run(Opening(r0) + rows + [Abort(last)], [],
            WriteBack(c, s.toInferMeta, inference.value[..|s.toInferMeta|]), Raised)
      else
        var results := inference.value;
        var final := Finalize(last, |images|, s);
        Run(Opening(r0) + rows + [final],
            s.predictions + Inferred(jobId, s.toInferMeta, results),
            WriteBack(c, s.toInferMeta, results),
            Status(final.status))
  }

  /** `RunBatch` on a known job when the merge raises. */
  lemma RunBatchRaised(r0: JobRow, jobId: string, images: seq<ImageRef>, c: CacheState,
                       hash: Bytes -> string, predictBatch: seq<Bytes> -> Option<seq<Inference>>, cacheAfter: CacheState)
    requires var s := SweepOf(Steps(jobId, images, c, hash));
      var answer := EngineAnswer(s.toInferBytes, predictBatch);
      && (answer.None? || |answer.value| > |s.toInferMeta|)
      && (answer.None? ==> cacheAfter == c)
      && (answer.Some? && |s.toInferMeta| <= |answer.value| ==>
            cacheAfter == WriteBack(c, s.toInferMeta, answer.value[..|s.toInferMeta|]))
    ensures var rows := SweepRows(Start(r0), Steps(jobId, images, c, hash));
      RunBatch(Some(r0), jobId, images, c, hash, predictBatch) ==
        Run(Opening(r0) + rows + [Abort(Last(Start(r0), rows))], [], cacheAfter, Raised)
  {
    SweepAccounting(Steps(jobId, images, c, hash));
  }

  /** `RunBatch` on a known job when the merge completes. */
  lemma RunBatchReturned(r0: JobRow, jobId: string, images: seq<ImageRef>, c: CacheState,
                         hash: Bytes -> string, predictBatch: seq<Bytes> -> Option<seq<Inference>>)
    requires var s := SweepOf(Steps(jobId, images, c, hash));
      var answer := EngineAnswer(s.toInferBytes, predictBatch);
      answer.Some? && |answer.value| <= |s.toInferMeta|
    ensures var steps := Steps(jobId, images, c, hash);
      var s := SweepOf(steps);
      var rows := SweepRows(Start(r0), steps);
      var results := EngineAnswer(s.toInferBytes, predictBatch).value;
      && s.failed <= |images|
      && var fin := Finalize(Last(Start(r0), rows), |images|, s);
      RunBatch(Some(r0), jobId, images, c, hash, predictBatch) ==
        Run(Opening(r0) + rows + [fin],
            s.predictions + Inferred(jobId, s.toInferMeta, results),
            WriteBack(c, s.toInferMeta, results),
            Status(fin.status))
  {
    SweepAccounting(Steps(jobId, images, c, hash));
  }

  /** Every run on a known job commits the guard's row, the sweep's rows
      and one closing row. */
  lemma RunBatchCommits(r0: JobRow, jobId: string, images: seq<ImageRef>, c: CacheState,
                        hash: Bytes -> string, predictBatch: seq<Bytes> -> Option<seq<Inference>>)
    ensures var run := RunBatch(Some(r0), jobId, images, c, hash, predictBatch);
      var rows := SweepRows(Start(r0), Steps(jobId, images, c, hash));
      |run.commits| == |Opening(r0)| + |rows| + 1 &&
      run.commits == Opening(r0) + rows + [run.commits[|run.commits| - 1]]
  {
  }

  /** The engine answered once per queued miss (or was not called). */
  predicate EngineAligned(s: Sweep, predictBatch: seq<Bytes> -> Option<seq<Inference>>) {
    EngineAnswer(s.toInferBytes, predictBatch).Some? && |EngineAnswer(s.toInferBytes, predictBatch).value| == |s.toInferMeta|
  }

  /** An unknown job id: FAILED is returned and nothing is written. */
  lemma UnknownJob(jobId: string, images: seq<ImageRef>, c: CacheState,
                   hash: Bytes -> string, predictBatch: seq<Bytes> -> Option<seq<Inference>>)
    ensures var run := RunBatch(None, jobId, images, c, hash, predictBatch);
      run.commits == [] && run.committed == [] && run.cacheAfter == c && run.result == Status(Failed)
  {
  }

  /** With one engine result per queued miss, the worker task returns a status and
      commits exactly one prediction per input path, all of this job: the
      hits and failures first, in input order, then the inferred ones, not
      from the cache, the i-th carrying the i-th result and the hash of the
      i-th bytes sent to the engine. */
  lemma OnePredictionPerImage(r0: JobRow, jobId: string, images: seq<ImageRef>, c: CacheState,
                              hash: Bytes -> string, predictBatch: seq<Bytes> -> Option<seq<Inference>>)
    requires EngineAligned(SweepOf(Steps(jobId, images, c, hash)), predictBatch)
    ensures var run := RunBatch(Some(r0), jobId, images, c, hash, predictBatch);
      var s := SweepOf(Steps(jobId, images, c, hash));
      var results := EngineAnswer(s.toInferBytes, predictBatch).value;
      var h := |s.predictions|;
      && run.result.Status?
      && |run.committed| == |images|
      && (forall k :: 0 <= k < |run.committed| ==> run.committed[k].jobId == jobId)
      && run.committed[..h] == s.predictions
      && |results| == |s.toInferBytes| == |images| - h
      && (forall i :: 0 <= i < |results| ==>
            && run.committed[h + i].imageHash == hash(s.toInferBytes[i])
            && run.committed[h + i].predictedClass == results[i].predictedClass
            && run.committed[h + i].confidence == results[i].confidence
            && !run.committed[h + i].fromCache)
  {
    var steps := Steps(jobId, images, c, hash);
    var s := SweepOf(steps);
    SweepAccounting(steps);
    SweepContents(jobId, images, c, hash, |images|);
    assert steps[..|images|] == steps;
    var results := EngineAnswer(s.toInferBytes, predictBatch).value;
    var run := RunBatch(Some(r0), jobId, images, c, hash, predictBatch);
    RunBatchReturned(r0, jobId, images, c, hash, predictBatch);
    assert run.result.Status?;
    MergedFacts(jobId, hash, s, results, run.committed);
  }

  /** The file name a batch prediction is stored under: the base name of
      the path, or "unknown" for a failing image whose base name is empty. */
  function RecordedName(image: ImageRef, c: CacheState, hash: Bytes -> string): string {
    if Fails(image, c, hash) && Basename(image.path) == "" then "unknown" else Basename(image.path)
  }

  /** The hash a batch prediction is stored under: the image's hash, or
      "error" for a failing image whose hash was not computed or is empty. */
  function RecordedHash(image: ImageRef, c: CacheState, hash: Bytes -> string): string {
    if !image.file.Present? then "error"
    else if Fails(image, c, hash) && hash(image.file.content) == "" then "error"
    else hash(image.file.content)
  }

  /** With one engine result per queued miss, each input image's own
      prediction is committed: one of the job's committed rows carries its
      file name and its hash. */
  lemma EachImageRecorded(r0: JobRow, jobId: string, images: seq<ImageRef>, c: CacheState,
                          hash: Bytes -> string, predictBatch: seq<Bytes> -> Option<seq<Inference>>, k: nat)
    requires EngineAligned(SweepOf(Steps(jobId, images, c, hash)), predictBatch)
    requires k < |images|
    ensures var run := RunBatch(Some(r0), jobId, images, c, hash, predictBatch);
      exists j :: 0 <= j < |run.committed|
        && run.committed[j].jobId == jobId
        && run.committed[j].imageFilename == RecordedName(images[k], c, hash)
        && run.committed[j].imageHash == RecordedHash(images[k], c, hash)
  {
    var steps := Steps(jobId, images, c, hash);
    var s := SweepOf(steps);
    var results := EngineAnswer(s.toInferBytes, predictBatch).value;
    SweepAccounting(steps);
    RunBatchReturned(r0, jobId, images, c, hash, predictBatch);
    StepRecorded(jobId, steps, results, k);
    StepNames(jobId, images[k], c, hash);
  }

  /** The name and hash each image's step records, as `RecordedName` and
      `RecordedHash` give them. */
  lemma StepNames(jobId: string, image: ImageRef, c: CacheState, hash: Bytes -> string)
    ensures var st := StepOf(jobId, image, c, hash);
      && (st.Queued? ==> st.meta.imageFilename == RecordedName(image, c, hash)
                         && st.meta.imageHash == RecordedHash(image, c, hash))
      && (!st.Queued? ==> st.prediction.jobId == jobId
                          && st.prediction.imageFilename == RecordedName(image, c, hash)
                          && st.prediction.imageHash == RecordedHash(image, c, hash))
  {
    FailureStep(jobId, image, c, hash);
    HitOrQueuedStep(jobId, image, c, hash);
  }

  /** Every step's record survives the merge: a hit's or failure's
      prediction is among the merged rows, and a queued miss answered by
      the engine yields a merged row under its metadata's name and hash. */
  lemma StepRecorded(jobId: string, steps: seq<Step>, results: seq<Inference>, k: nat)
    requires |results| == |SweepOf(steps).toInferMeta| && k < |steps|
    ensures var s := SweepOf(steps);
      var merged := s.predictions + Inferred(jobId, s.toInferMeta, results);
      && (steps[k].Queued? ==>
            exists j :: 0 <= j < |merged|
              && merged[j].jobId == jobId
              && merged[j].imageFilename == steps[k].meta.imageFilename
              && merged[j].imageHash == steps[k].meta.imageHash)
      && (!steps[k].Queued? ==> exists j :: 0 <= j < |merged| && merged[j] == steps[k].prediction)
  {
    var s := SweepOf(steps);
    var merged := s.predictions + Inferred(jobId, s.toInferMeta, results);
    var h := |s.predictions|;
    MergedOrder(jobId, s.predictions, s.toInferMeta, results);
    if steps[k].Queued? {
      QueuedKept(steps, k);
      var i :| 0 <= i < |s.toInferMeta| && s.toInferMeta[i] == steps[k].meta;
      assert merged[h + i] == InferredPrediction(jobId, steps[k].meta, results[i]);
    } else {
      RecordedKept(steps, k);
      var i :| 0 <= i < h && s.predictions[i] == steps[k].prediction;
      assert merged[i] == s.predictions[i];
    }
  }

  /** The job's predictions as read back from the table (what a client
      listing them sees): an aligned run adds exactly one per input path
      to those the job already had, whatever other jobs have stored. */
  lemma JobPredictionsAfterRun(r0: JobRow, jobId: string, images: seq<ImageRef>, c: CacheState,
                               hash: Bytes -> string, predictBatch: seq<Bytes> -> Option<seq<Inference>>,
                               table: seq<Prediction>)
    requires EngineAligned(SweepOf(Steps(jobId, images, c, hash)), predictBatch)
    ensures var run := RunBatch(Some(r0), jobId, images, c, hash, predictBatch);
      && PredictionsOf(table + run.committed, jobId) == PredictionsOf(table, jobId) + run.committed
      && |PredictionsOf(table + run.committed, jobId)| == |PredictionsOf(table, jobId)| + |images|
  {
    var run := RunBatch(Some(r0), jobId, images, c, hash, predictBatch);
    OnePredictionPerImage(r0, jobId, images, c, hash, predictBatch);
    forall q | q in run.committed
      ensures q.jobId == jobId
    {
      var k :| 0 <= k < |run.committed| && run.committed[k] == q;
    }
    PredictionsOfAppendOwn(table, run.committed, jobId);
  }

  /** An engine that answers with fewer results than there are misses does
      not raise: the run returns, the misses without a result get no
      prediction, and yet the final row counts every image that did not
      fail as processed. */
  lemma ShortEngineAnswer(r0: JobRow, jobId: string, images: seq<ImageRef>, c: CacheState,
                          hash: Bytes -> string, predictBatch: seq<Bytes> -> Option<seq<Inference>>)
    requires var s := SweepOf(Steps(jobId, images, c, hash));
      var answer := EngineAnswer(s.toInferBytes, predictBatch);
      answer.Some? && |answer.value| < |s.toInferMeta|
    ensures var run := RunBatch(Some(r0), jobId, images, c, hash, predictBatch);
      var f := run.commits[|run.commits| - 1];
      && run.result.Status?
      && |run.committed| < |images|
      && f.processedImages + f.failedImages == |images|
      && f.processedImages > |run.committed| - f.failedImages
  {
    var steps := Steps(jobId, images, c, hash);
    var s := SweepOf(steps);
    SweepAccounting(steps);
    RunBatchReturned(r0, jobId, images, c, hash, predictBatch);
  }

  /** The merged list of an aligned run: every prediction of this job, the
      sweep's first, then prediction i carrying result i under the hash of
      the i-th bytes sent to the engine. */
  lemma MergedFacts(jobId: string, hash: Bytes -> string, s: Sweep, results: seq<Inference>, merged: seq<Prediction>)
    requires |results| == |s.toInferMeta| == |s.toInferBytes|
    requires merged == s.predictions + Inferred(jobId, s.toInferMeta, results)
    requires forall k :: 0 <= k < |s.predictions| ==> s.predictions[k].jobId == jobId
    requires forall k :: 0 <= k < |s.toInferMeta| ==> s.toInferMeta[k].imageHash == hash(s.toInferBytes[k])
    ensures var h := |s.predictions|;
      && |merged| == h + |results|
      && (forall k :: 0 <= k < |merged| ==> merged[k].jobId == jobId)
      && merged[..h] == s.predictions
      && (forall i :: 0 <= i < |results| ==>
            && merged[h + i].imageHash == hash(s.toInferBytes[i])
            && merged[h + i].predictedClass == results[i].predictedClass
            && merged[h + i].confidence == results[i].confidence
            && !merged[h + i].fromCache)
  {
    var h := |s.predictions|;
    MergedOrder(jobId, s.predictions, s.toInferMeta, results);
    forall k | 0 <= k < |merged|
      ensures merged[k].jobId == jobId
    {
      if k < h {
        assert merged[k] == s.predictions[k];
      } else {
        assert merged[h + (k - h)] == InferredPrediction(jobId, s.toInferMeta[k - h], results[k - h]);
      }
    }
    forall i | 0 <= i < |results|
      ensures && merged[h + i].imageHash == hash(s.toInferBytes[i])
              && merged[h + i].predictedClass == results[i].predictedClass
              && merged[h + i].confidence == results[i].confidence
              && !merged[h + i].fromCache
    {
      assert merged[h + i] == InferredPrediction(jobId, s.toInferMeta[i], results[i]);
    }
  }

  /** The merged list: the sweep's predictions first, then prediction i
      for result i and miss i. */
  lemma MergedOrder(jobId: string, ps: seq<Prediction>, metas: seq<Meta>, results: seq<Inference>)
    requires |results| <= |metas|
    ensures var merged := ps + Inferred(jobId, metas, results);
      && |merged| == |ps| + |results|
      && merged[..|ps|] == ps
      && forall i :: 0 <= i < |results| ==> merged[|ps| + i] == InferredPrediction(jobId, metas[i], results[i])
  {
    var merged := ps + Inferred(jobId, metas, results);
    assert merged[..|ps|] == ps;
    forall i | 0 <= i < |results|
      ensures merged[|ps| + i] == InferredPrediction(jobId, metas[i], results[i])
    {
      InferredAt(jobId, metas, results, i);
    }
  }

  /** The final commit of a run that returns: processed is the list's
      length minus the failures, failed and cached are the counts of failing
      and hit images, the status is FAILED exactly when every image failed
      (so an empty batch ends FAILED) and COMPLETED otherwise, and the
      completion time is set. */
  lemma FinalRow(r0: JobRow, jobId: string, images: seq<ImageRef>, c: CacheState,
                 hash: Bytes -> string, predictBatch: seq<Bytes> -> Option<seq<Inference>>)
    requires RunBatch(Some(r0), jobId, images, c, hash, predictBatch).result.Status?
    ensures var run := RunBatch(Some(r0), jobId, images, c, hash, predictBatch);
      var f := run.commits[|run.commits| - 1];
      var failed := FailureCount(images, c, hash);
      && |run.commits| == |Opening(r0)| + |images| + 1
      && run.result.status == f.status
      && f.failedImages == failed
      && f.processedImages == |images| - failed
      && f.cachedImages == HitCount(images, c, hash)
      && f.cachedImages <= f.processedImages
      && (f.status == Failed <==> forall k :: 0 <= k < |images| ==> Fails(images[k], c, hash))
      && (f.status == Completed <==> exists k :: 0 <= k < |images| && !Fails(images[k], c, hash))
      && f.completedAt == Stamped
  {
    var steps := Steps(jobId, images, c, hash);
    SweepAccounting(steps);
    SweepCounts(jobId, images, c, hash, |images|);
    assert steps[..|images|] == steps;
    assert images[..|images|] == images;
    AllFail(images, c, hash);
  }

  /** The final recount agrees with the last incremental commit: the
      counters a poller saw last during the sweep are the final ones. */
  lemma FinalAgreesWithSweep(r0: JobRow, jobId: string, images: seq<ImageRef>, c: CacheState,
                             hash: Bytes -> string, predictBatch: seq<Bytes> -> Option<seq<Inference>>)
    requires images != []
    requires RunBatch(Some(r0), jobId, images, c, hash, predictBatch).result.Status?
    ensures var run := RunBatch(Some(r0), jobId, images, c, hash, predictBatch);
      var f := run.commits[|run.commits| - 1];
      var l := run.commits[|run.commits| - 2];
      && f.processedImages == l.processedImages
      && f.failedImages == l.failedImages
      && f.cachedImages == l.cachedImages
      && f.cacheHitRate == l.cacheHitRate
  {
    var steps := Steps(jobId, images, c, hash);
    var s := SweepOf(steps);
    var start := Start(r0);
    var rows := SweepRows(start, steps);
    SweepAccounting(steps);
    var prior := SweepRows(start, steps[..|steps| - 1]);
    var l := Progress(Last(start, prior), s);
    assert rows == prior + [l];
    RunBatchReturned(r0, jobId, images, c, hash, predictBatch);
    var run := RunBatch(Some(r0), jobId, images, c, hash, predictBatch);
    assert run.commits == Opening(r0) + rows + [Finalize(l, |images|, s)];
    assert run.commits[|run.commits| - 2] == l;
    FinalizeKeepsCounts(Last(start, prior), |images|, s);
  }

  /** Finalizing the row of the last image changes none of its counters or
      its hit rate. */
  lemma FinalizeKeepsCounts(prior: JobRow, n: nat, s: Sweep)
    requires s.cached + |s.toInferMeta| + s.failed == n
    ensures var l := Progress(prior, s);
      var f := Finalize(l, n, s);
      && f.processedImages == l.processedImages && f.failedImages == l.failedImages
      && f.cachedImages == l.cachedImages && f.cacheHitRate == l.cacheHitRate
  {
  }

  /** The crash path (engine error, or more results than misses): no
      prediction is committed, the last commit is the last sweep row turned
      FAILED with a completion time, the engine was called and did not
      answer once per miss, and the worker task re-raises. */
  lemma CrashPath(r0: JobRow, jobId: string, images: seq<ImageRef>, c: CacheState,
                  hash: Bytes -> string, predictBatch: seq<Bytes> -> Option<seq<Inference>>)
    ensures var run := RunBatch(Some(r0), jobId, images, c, hash, predictBatch);
      var start := Start(r0);
      var steps := Steps(jobId, images, c, hash);
      var rows := SweepRows(start, steps);
      var s := SweepOf(steps);
      run.result == Raised <==>
        (&& !EngineAligned(s, predictBatch)
         && s.toInferBytes != []
         && (predictBatch(s.toInferBytes).None? || |predictBatch(s.toInferBytes).value| > |s.toInferMeta|))
    ensures var run := RunBatch(Some(r0), jobId, images, c, hash, predictBatch);
      var start := Start(r0);
      var rows := SweepRows(start, Steps(jobId, images, c, hash));
      run.result == Raised ==>
      && run.committed == []
      && run.commits == Opening(r0) + rows + [Abort(Last(start, rows))]
      && run.commits[|run.commits| - 1].status == Failed
      && run.commits[|run.commits| - 1].completedAt == Stamped
  {
    SweepAccounting(Steps(jobId, images, c, hash));
  }

  /** The commits a poller sees: the guard's commit if the job was pending,
      one row per image each as `SweepRowObserved` describes, then one
      final or crash row. */
  lemma CommitSequence(r0: JobRow, jobId: string, images: seq<ImageRef>, c: CacheState,
                       hash: Bytes -> string, predictBatch: seq<Bytes> -> Option<seq<Inference>>, k: nat)
    requires k < |images|
    ensures var run := RunBatch(Some(r0), jobId, images, c, hash, predictBatch);
      var r := run.commits[|Opening(r0)| + k];
      && |run.commits| == |Opening(r0)| + |images| + 1
      && r.processedImages + r.failedImages == k + 1
      && r.cachedImages <= r.processedImages
      && (r0.status == Pending ==> r.status == Processing && r.startedAt == Stamped)
      && (r0.status != Pending ==> r.status == r0.status && r.startedAt == r0.startedAt)
      && r.completedAt == r0.completedAt
      && r == SweepRows(Start(r0), Steps(jobId, images, c, hash))[k]
  {
    var steps := Steps(jobId, images, c, hash);
    var start := Start(r0);
    var rows := SweepRows(start, steps);
    SweepRowObserved(start, steps, k);
    var run := RunBatch(Some(r0), jobId, images, c, hash, predictBatch);
    assert run.commits[|Opening(r0)| + k] == rows[k];
  }

  lemma {:induction false} NoHitsWhenDisabled(images: seq<ImageRef>, c: CacheState, hash: Bytes -> string)
    requires !c.enabled
    ensures HitCount(images, c, hash) == 0
    decreases |images|
  {
    if images != [] {
      NoHitsWhenDisabled(images[..|images| - 1], c, hash);
    }
  }

  /** With the cache disabled no sweep commit counts a cached image. */
  lemma DisabledSweepRows(start: JobRow, jobId: string, images: seq<ImageRef>, c: CacheState, hash: Bytes -> string)
    requires !c.enabled
    ensures SweepOf(Steps(jobId, images, c, hash)).cached == 0
    ensures var rows := SweepRows(start, Steps(jobId, images, c, hash));
      forall k :: 0 <= k < |rows| ==> rows[k].cachedImages == 0
  {
    var steps := Steps(jobId, images, c, hash);
    var rows := SweepRows(start, steps);
    forall k | 0 <= k < |images|
      ensures rows[k].cachedImages == 0
    {
      SweepRowAt(start, steps, k);
      SweepCounts(jobId, images, c, hash, k + 1);
      NoHitsWhenDisabled(images[..k + 1], c, hash);
    }
    SweepCounts(jobId, images, c, hash, |images|);
    assert steps[..|images|] == steps;
    NoHitsWhenDisabled(images[..|images|], c, hash);
  }

  /** With the cache disabled nothing is a hit: every commit after the
      guard's counts 0 cached images, and the cache is left untouched. */
  lemma DisabledCacheRun(r0: JobRow, jobId: string, images: seq<ImageRef>, c: CacheState,
                         hash: Bytes -> string, predictBatch: seq<Bytes> -> Option<seq<Inference>>)
    requires !c.enabled
    ensures var run := RunBatch(Some(r0), jobId, images, c, hash, predictBatch);
      && run.cacheAfter == c
      && (forall k :: |Opening(r0)| <= k < |run.commits| ==> run.commits[k].cachedImages == 0)
      && (r0.totalImages > 0 ==>
            forall k :: |Opening(r0)| <= k < |run.commits| ==> run.commits[k].cacheHitRate == 0.0)
  {
    DisabledCacheAfter(r0, jobId, images, c, hash, predictBatch);
    var run := RunBatch(Some(r0), jobId, images, c, hash, predictBatch);
    var o := |Opening(r0)|;
    if r0.totalImages > 0 {
      forall k | o <= k < |run.commits|
        ensures run.commits[k].cacheHitRate == 0.0
      {
        DisabledCommitRate(r0, jobId, images, c, hash, predictBatch, k);
      }
    }
    forall k | o <= k < |run.commits|
      ensures run.commits[k].cachedImages == 0
    {
      DisabledSweepRows(Start(r0), jobId, images, c, hash);
      if k < o + |images| {
        CommitSequence(r0, jobId, images, c, hash, predictBatch, k - o);
      } else if run.result == Raised {
        CrashPath(r0, jobId, images, c, hash, predictBatch);
        SweepAccounting(Steps(jobId, images, c, hash));
      } else {
        FinalRow(r0, jobId, images, c, hash, predictBatch);
        NoHitsWhenDisabled(images, c, hash);
      }
    }
  }

  /** No failing image, no failure counted. */
  lemma {:induction false} NoneFail(images: seq<ImageRef>, c: CacheState, hash: Bytes -> string)
    requires forall k :: 0 <= k < |images| ==> !Fails(images[k], c, hash)
    ensures FailureCount(images, c, hash) == 0
    decreases |images|
  {
    if images != [] {
      NoneFail(images[..|images| - 1], c, hash);
    }
  }

  /** A non-empty batch whose images can all be read and decoded, with an
      engine that answers once per miss, completes with every image
      processed and none failed, one prediction per image. */
  lemma AllSucceed(r0: JobRow, jobId: string, images: seq<ImageRef>, c: CacheState,
                   hash: Bytes -> string, predictBatch: seq<Bytes> -> Option<seq<Inference>>)
    requires images != []
    requires forall k :: 0 <= k < |images| ==>
      images[k].file.Present? && Get(c, hash(images[k].file.content)) != DecodeError
    requires EngineAligned(SweepOf(Steps(jobId, images, c, hash)), predictBatch)
    ensures var run := RunBatch(Some(r0), jobId, images, c, hash, predictBatch);
      var f := run.commits[|run.commits| - 1];
      && run.result == Status(Completed)
      && f.status == Completed
      && f.processedImages == |images|
      && f.failedImages == 0
      && |run.committed| == |images|
  {
    OnePredictionPerImage(r0, jobId, images, c, hash, predictBatch);
    FinalRow(r0, jobId, images, c, hash, predictBatch);
    NoneFail(images, c, hash);
    assert !Fails(images[0], c, hash);
  }

  /** With the cache disabled and a positive total, every commit after the
      guard reports a hit rate of 0. */
  lemma DisabledCommitRate(r0: JobRow, jobId: string, images: seq<ImageRef>, c: CacheState,
                           hash: Bytes -> string, predictBatch: seq<Bytes> -> Option<seq<Inference>>, k: nat)
    requires !c.enabled && r0.totalImages > 0
    requires |Opening(r0)| <= k < |RunBatch(Some(r0), jobId, images, c, hash, predictBatch).commits|
    ensures RunBatch(Some(r0), jobId, images, c, hash, predictBatch).commits[k].cacheHitRate == 0.0
  {
    var run := RunBatch(Some(r0), jobId, images, c, hash, predictBatch);
    var o := |Opening(r0)|;
    var start := Start(r0);
    var steps := Steps(jobId, images, c, hash);
    var rows := SweepRows(start, steps);
    var s := SweepOf(steps);
    DisabledSweepRows(start, jobId, images, c, hash);
    SweepRowsHeader(start, steps);
    RunBatchCommits(r0, jobId, images, c, hash, predictBatch);
    if k < o + |images| {
      CommitSequence(r0, jobId, images, c, hash, predictBatch, k - o);
      SweepRowObserved(start, steps, k - o);
    } else if run.result == Raised {
      CrashPath(r0, jobId, images, c, hash, predictBatch);
      SweepAccounting(steps);
      SweepRowObserved(start, steps, |steps| - 1);
    } else {
      SweepAccounting(steps);
      RunBatchReturned(r0, jobId, images, c, hash, predictBatch);
    }
  }

  /** With the cache disabled the run never writes the cache. */
  lemma DisabledCacheAfter(r0: JobRow, jobId: string, images: seq<ImageRef>, c: CacheState,
                           hash: Bytes -> string, predictBatch: seq<Bytes> -> Option<seq<Inference>>)
    requires !c.enabled
    ensures RunBatch(Some(r0), jobId, images, c, hash, predictBatch).cacheAfter == c
  {
    var s := SweepOf(Steps(jobId, images, c, hash));
    SweepAccounting(Steps(jobId, images, c, hash));
    var inference := EngineAnswer(s.toInferBytes, predictBatch);
    if inference.Some? {
      if |inference.value| > |s.toInferMeta| {
        WriteBackInert(c, s.toInferMeta, inference.value[..|s.toInferMeta|]);
      } else {
        WriteBackInert(c, s.toInferMeta, inference.value);
      }
    }
  }

  /** A resubmission whose every image is in the cache: nothing is queued
      or fails, every image counts as cached, the job completes (when the
      batch is not empty), the hit rate is 100 (when the job has a total)
      and the cache is not written. */
  lemma FullCacheHit(r0: JobRow, jobId: string, images: seq<ImageRef>, c: CacheState,
                     hash: Bytes -> string, predictBatch: seq<Bytes> -> Option<seq<Inference>>)
    requires images != []
    requires forall k :: 0 <= k < |images| ==> Hits(images[k], c, hash)
    ensures var run := RunBatch(Some(r0), jobId, images, c, hash, predictBatch);
      var f := run.commits[|run.commits| - 1];
      && run.result == Status(Completed)
      && f.cachedImages == |images| && f.processedImages == |images| && f.failedImages == 0
      && (f.totalImages > 0 ==> f.cacheHitRate == 100.0)
      && run.cacheAfter == c
  {
    var steps := Steps(jobId, images, c, hash);
    SweepAccounting(steps);
    SweepCounts(jobId, images, c, hash, |images|);
    assert steps[..|images|] == steps;
    assert images[..|images|] == images;
    AllHit(images, c, hash);
  }
  /** A job created for exactly this batch: every row a poller sees is
      consistent, and no counter goes back from one commit to the next. */
  lemma FreshBatchConsistent(jobId: string, images: seq<ImageRef>, c: CacheState,
                             hash: Bytes -> string, predictBatch: seq<Bytes> -> Option<seq<Inference>>)
    ensures var run := RunBatch(Some(NewJob(jobId, |images|)), jobId, images, c, hash, predictBatch);
      && (forall k :: 0 <= k < |run.commits| ==> Consistent(run.commits[k]))
      && (forall k :: 0 <= k < |run.commits| - 1 ==>
            && run.commits[k].processedImages <= run.commits[k + 1].processedImages
            && run.commits[k].failedImages <= run.commits[k + 1].failedImages
            && run.commits[k].cachedImages <= run.commits[k + 1].cachedImages)
  {
    var run := RunBatch(Some(NewJob(jobId, |images|)), jobId, images, c, hash, predictBatch);
    forall k | 0 <= k < |run.commits|
      ensures Consistent(run.commits[k])
    {
      FreshCommitConsistent(jobId, images, c, hash, predictBatch, k);
    }
    forall k | 0 <= k < |run.commits| - 1
      ensures && run.commits[k].processedImages <= run.commits[k + 1].processedImages
              && run.commits[k].failedImages <= run.commits[k + 1].failedImages
              && run.commits[k].cachedImages <= run.commits[k + 1].cachedImages
    {
      FreshCommitMonotone(jobId, images, c, hash, predictBatch, k);
    }
  }

  /** Commit k of a fresh job's run is consistent. */
  lemma FreshCommitConsistent(jobId: string, images: seq<ImageRef>, c: CacheState,
                              hash: Bytes -> string, predictBatch: seq<Bytes> -> Option<seq<Inference>>, k: nat)
    requires k < |RunBatch(Some(NewJob(jobId, |images|)), jobId, images, c, hash, predictBatch).commits|
    ensures Consistent(RunBatch(Some(NewJob(jobId, |images|)), jobId, images, c, hash, predictBatch).commits[k])
  {
    var r0 := NewJob(jobId, |images|);
    var run := RunBatch(Some(r0), jobId, images, c, hash, predictBatch);
    var steps := Steps(jobId, images, c, hash);
    var start := Start(r0);
    var rows := SweepRows(start, steps);
    var n := |images|;
    RunBatchCommits(r0, jobId, images, c, hash, predictBatch);
    assert run.commits == [start] + rows + [run.commits[n + 1]];
    if k == 0 {
      assert run.commits[0] == start;
    } else if k <= n {
      SweepRowConsistent(start, steps, k - 1);
      assert run.commits[k] == rows[k - 1];
    } else {
      FreshCloseConsistent(jobId, images, c, hash, predictBatch);
    }
  }

  /** Every sweep commit of a job that is processing, unfinished and has
      room for the whole list is consistent. */
  lemma SweepRowConsistent(start: JobRow, steps: seq<Step>, k: nat)
    requires k < |steps|
    requires start.status == Processing && start.completedAt == NotSet && |steps| <= start.totalImages
    ensures Consistent(SweepRows(start, steps)[k])
  {
    SweepRowObserved(start, steps, k);
  }

  /** The closing commit of a fresh job's run is consistent. */
  lemma FreshCloseConsistent(jobId: string, images: seq<ImageRef>, c: CacheState,
                             hash: Bytes -> string, predictBatch: seq<Bytes> -> Option<seq<Inference>>)
    ensures var run := RunBatch(Some(NewJob(jobId, |images|)), jobId, images, c, hash, predictBatch);
      Consistent(run.commits[|run.commits| - 1])
  {
    var r0 := NewJob(jobId, |images|);
    var start := Start(r0);
    var steps := Steps(jobId, images, c, hash);
    var rows := SweepRows(start, steps);
    var s := SweepOf(steps);
    SweepAccounting(steps);
    SweepRowsHeader(start, steps);
    var last := Last(start, rows);
    if |images| > 0 {
      SweepRowConsistent(start, steps, |images| - 1);
    }
    var answer := EngineAnswer(s.toInferBytes, predictBatch);
    if answer.Some? && |answer.value| <= |s.toInferMeta| {
      RunBatchReturned(r0, jobId, images, c, hash, predictBatch);
      FinalizeConsistent(last, |images|, s);
    } else {
      RunBatchRaised(r0, jobId, images, c, hash, predictBatch,
                     RunBatch(Some(r0), jobId, images, c, hash, predictBatch).cacheAfter);
    }
  }

  /** The final row is consistent when the job's total is the list's
      length. */
  lemma FinalizeConsistent(last: JobRow, n: nat, s: Sweep)
    requires s.failed <= n && s.cached <= n - s.failed && last.totalImages == n
    ensures Consistent(Finalize(last, n, s))
  {
  }

  /** No counter goes back from commit k to commit k+1 of a fresh job's
      run. */
  lemma FreshCommitMonotone(jobId: string, images: seq<ImageRef>, c: CacheState,
                            hash: Bytes -> string, predictBatch: seq<Bytes> -> Option<seq<Inference>>, k: nat)
    requires k + 1 < |RunBatch(Some(NewJob(jobId, |images|)), jobId, images, c, hash, predictBatch).commits|
    ensures var commits := RunBatch(Some(NewJob(jobId, |images|)), jobId, images, c, hash, predictBatch).commits;
      && commits[k].processedImages <= commits[k + 1].processedImages
      && commits[k].failedImages <= commits[k + 1].failedImages
      && commits[k].cachedImages <= commits[k + 1].cachedImages
  {
    var r0 := NewJob(jobId, |images|);
    var run := RunBatch(Some(r0), jobId, images, c, hash, predictBatch);
    var steps := Steps(jobId, images, c, hash);
    var start := Start(r0);
    var rows := SweepRows(start, steps);
    var n := |images|;
    RunBatchCommits(r0, jobId, images, c, hash, predictBatch);
    assert run.commits == [start] + rows + [run.commits[n + 1]];
    if k == 0 {
      assert run.commits[0] == start;
    } else if k < n {
      SweepRowsMonotone(start, steps, k - 1);
      assert run.commits[k] == rows[k - 1] && run.commits[k + 1] == rows[k];
    } else {
      CloseKeepsCounts(r0, jobId, images, c, hash, predictBatch);
    }
  }

  /** The closing commit, final or crash, keeps the counters of the commit
      before it. */
  lemma CloseKeepsCounts(r0: JobRow, jobId: string, images: seq<ImageRef>, c: CacheState,
                         hash: Bytes -> string, predictBatch: seq<Bytes> -> Option<seq<Inference>>)
    requires images != []
    ensures var commits := RunBatch(Some(r0), jobId, images, c, hash, predictBatch).commits;
      && commits[|commits| - 2].processedImages == commits[|commits| - 1].processedImages
      && commits[|commits| - 2].failedImages == commits[|commits| - 1].failedImages
      && commits[|commits| - 2].cachedImages == commits[|commits| - 1].cachedImages
  {
    var run := RunBatch(Some(r0), jobId, images, c, hash, predictBatch);
    if run.result == Raised {
      var rows := SweepRows(Start(r0), Steps(jobId, images, c, hash));
      CrashPath(r0, jobId, images, c, hash, predictBatch);
      assert run.commits[|run.commits| - 2] == rows[|rows| - 1];
    } else {
      FinalAgreesWithSweep(r0, jobId, images, c, hash, predictBatch);
    }
  }

  /** Dispatching a job again, after it has counted images, starts its
      counts over: the first commit after the guard counts one image, so a
      poller sees the counters go back. */
  lemma RedispatchRestartsCounts(r0: JobRow, jobId: string, images: seq<ImageRef>, c: CacheState,
                                 hash: Bytes -> string, predictBatch: seq<Bytes> -> Option<seq<Inference>>)
    requires images != []
    ensures var run := RunBatch(Some(r0), jobId, images, c, hash, predictBatch);
      var first := run.commits[|Opening(r0)|];
      && first.processedImages + first.failedImages == 1
      && (r0.processedImages + r0.failedImages > 1 ==>
            first.processedImages + first.failedImages < r0.processedImages + r0.failedImages)
  {
    CommitSequence(r0, jobId, images, c, hash, predictBatch, 0);
  }

  /** After a run whose engine answered every miss, with the cache on and
      reachable, an image that could be read and whose entry decoded is a
      hit: it hit already, or its result was written back. */
  lemma ResubmissionHits(r0: JobRow, jobId: string, images: seq<ImageRef>, c: CacheState,
                         hash: Bytes -> string, predictBatch: seq<Bytes> -> Option<seq<Inference>>, k: nat)
    requires c.enabled && c.reachable
    requires EngineAligned(SweepOf(Steps(jobId, images, c, hash)), predictBatch)
    requires k < |images| && images[k].file.Present?
    requires Get(c, hash(images[k].file.content)) != DecodeError
    ensures Hits(images[k], RunBatch(Some(r0), jobId, images, c, hash, predictBatch).cacheAfter, hash)
  {
    var steps := Steps(jobId, images, c, hash);
    var s := SweepOf(steps);
    var results := EngineAnswer(s.toInferBytes, predictBatch).value;
    RunBatchReturned(r0, jobId, images, c, hash, predictBatch);
    assert RunBatch(Some(r0), jobId, images, c, hash, predictBatch).cacheAfter == WriteBack(c, s.toInferMeta, results);
    var h := hash(images[k].file.content);
    if Get(c, h).Hit? {
      WriteBackKeepsHit(c, s.toInferMeta, results, h);
    } else {
      HitOrQueuedStep(jobId, images[k], c, hash);
      assert steps[k] == StepOf(jobId, images[k], c, hash);
      QueuedKept(steps, k);
      var i :| 0 <= i < |s.toInferMeta| && s.toInferMeta[i] == steps[k].meta;
      WriteBackHitsEvery(c, s.toInferMeta, results, i);
    }
  }

  /** The same images submitted again as a second job, after a run whose
      engine answered every miss and in which every image could be read
      and decoded (cache on and reachable): the second run hits on every
      image, completes with every image cached, reports a hit rate of 100
      and writes nothing to the cache. */
  lemma Resubmission(r0: JobRow, r1: JobRow, jobId: string, jobId2: string, images: seq<ImageRef>,
                     c: CacheState, hash: Bytes -> string,
                     predictBatch: seq<Bytes> -> Option<seq<Inference>>,
                     predictBatch2: seq<Bytes> -> Option<seq<Inference>>)
    requires c.enabled && c.reachable && images != []
    requires EngineAligned(SweepOf(Steps(jobId, images, c, hash)), predictBatch)
    requires forall k :: 0 <= k < |images| ==>
      images[k].file.Present? && Get(c, hash(images[k].file.content)) != DecodeError
    ensures var first := RunBatch(Some(r0), jobId, images, c, hash, predictBatch);
      var again := RunBatch(Some(r1), jobId2, images, first.cacheAfter, hash, predictBatch2);
      var f := again.commits[|again.commits| - 1];
      && again.result == Status(Completed)
      && f.cachedImages == |images| && f.processedImages == |images| && f.failedImages == 0
      && (f.totalImages > 0 ==> f.cacheHitRate == 100.0)
      && again.cacheAfter == first.cacheAfter
  {
    var first := RunBatch(Some(r0), jobId, images, c, hash, predictBatch);
    forall k | 0 <= k < |images|
      ensures Hits(images[k], first.cacheAfter, hash)
    {
      ResubmissionHits(r0, jobId, images, c, hash, predictBatch, k);
    }
    FullCacheHit(r1, jobId2, images, first.cacheAfter, hash, predictBatch2);
  }
}
