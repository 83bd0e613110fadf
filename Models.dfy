/** The two tables of the job store: a Job row and its Prediction rows
    (app/models.py). Rows are values here; the object the worker mutates
    is `Records.Job`. */
module Models {
  import opened Wrappers

  /** The lifecycle of a job. Its string values are what the API returns. */
  datatype JobStatus = Pending | Processing | Completed | Failed {

    predicate IsTerminal() {
      this == Completed || this == Failed
    }

    function Value(): string {
      match this
      case Pending => "pending"
      case Processing => "processing"
      case Completed => "completed"
      case Failed => "failed"
    }
  }

  /** The enum lookup by value: `JobStatus("failed")`. */
  function StatusFromValue(v: string): (s: Option<JobStatus>)
    ensures s.Some? ==> s.value.Value() == v
  {
    if v == "pending" then Some(Pending)
    else if v == "processing" then Some(Processing)
    else if v == "completed" then Some(Completed)
    else if v == "failed" then Some(Failed)
    else None
  }

  /** Every status is one of the four, and its value reads back as itself. */
  lemma StatusValueRoundTrip(s: JobStatus)
    ensures StatusFromValue(s.Value()) == Some(s)
    ensures s == Pending || s == Processing || s == Completed || s == Failed
  {
  }

  /** The lookup by value recognises exactly the four status strings. */
  lemma StatusValues(v: string)
    ensures StatusFromValue(v).Some? <==> v in {"pending", "processing", "completed", "failed"}
  {
  }

  datatype ModelType = Covid | Satellite

  /** A nullable timestamp column; only whether it is set is modelled. */
  datatype Stamp = NotSet | Stamped

  /** One row of the `jobs` table. The counters are never negative: they
      start at 0 and are only incremented or recomputed from lengths. */
  datatype JobRow = JobRow(
    id: string,
    status: JobStatus,
    modelType: ModelType,
    totalImages: nat,
    processedImages: nat,
    failedImages: nat,
    cachedImages: nat,
    cacheHitRate: real,
    celeryTaskId: Option<string>,
    startedAt: Stamp,
    completedAt: Stamp)

  /** A row as `Job(id=..., total_images=...)` inserts it: every other
      column takes its declared default. */
  function NewJob(id: string, total: nat): JobRow {
    JobRow(id, Pending, Covid, total, 0, 0, 0, 0.0, None, NotSet, NotSet)
  }

  /** What a poller may rely on in a row: the counters fit the total and
      the cache counter fits the processed counter, the hit rate is 0
      while nothing is processed, a job that never started has no start
      time and a job that has not finished has no completion time. */
  ghost predicate Consistent(j: JobRow) {
    && j.processedImages + j.failedImages <= j.totalImages
    && j.cachedImages <= j.processedImages
    && (j.processedImages == 0 ==> j.cacheHitRate == 0.0)
    && (j.status == Pending ==> j.startedAt == NotSet)
    && (!j.status.IsTerminal() ==> j.completedAt == NotSet)
  }

  /** A new job is pending, has processed nothing, has neither a start nor
      a completion time, and is consistent. */
  lemma NewJobDefaults(id: string, total: nat)
    ensures var j := NewJob(id, total);
      && j.id == id && j.totalImages == total
      && j.status == Pending && j.modelType == Covid
      && j.processedImages == 0 && j.failedImages == 0 && j.cachedImages == 0
      && j.cacheHitRate == 0.0 && j.celeryTaskId == None
      && j.startedAt == NotSet && j.completedAt == NotSet
      && Consistent(j)
  {
  }

  /** One row of the `predictions` table; `jobId` is the foreign key to
      the one job it belongs to. The database assigns the integer `id`,
      which is not modelled. */
  datatype Prediction = Prediction(
    jobId: string,
    imageFilename: string,
    imageHash: string,
    predictedClass: string,
    confidence: real,
    top3Classes: seq<string>,
    processingTimeMs: real,
    fromCache: bool)

  /** The predictions of `ps` that belong to job `jobId`, in order. */
  function PredictionsOf(ps: seq<Prediction>, jobId: string): (r: seq<Prediction>)
    ensures |r| <= |ps|
    ensures forall k :: 0 <= k < |r| ==> r[k].jobId == jobId
  {
    if ps == [] then []
    else PredictionsOf(ps[..|ps| - 1], jobId)
         + (if ps[|ps| - 1].jobId == jobId then [ps[|ps| - 1]] else [])
  }

  /** Appending rows of one job adds exactly those rows to that job's
      predictions. */
  lemma {:induction false} PredictionsOfAppendOwn(ps: seq<Prediction>, qs: seq<Prediction>, jobId: string)
    requires forall q :: q in qs ==> q.jobId == jobId
    ensures PredictionsOf(ps + qs, jobId) == PredictionsOf(ps, jobId) + qs
    decreases |qs|
  {
    if qs == [] {
      assert ps + qs == ps;
    } else {
      var n := |qs| - 1;
      assert (ps + qs)[..|ps + qs| - 1] == ps + qs[..n];
      assert qs[n] in qs;
      PredictionsOfAppendOwn(ps, qs[..n], jobId);
      assert qs[..n] + [qs[n]] == qs;
    }
  }

  /** Appending rows of other jobs leaves a job's predictions unchanged. */
  lemma {:induction false} PredictionsOfAppendOther(ps: seq<Prediction>, qs: seq<Prediction>, jobId: string)
    requires forall q :: q in qs ==> q.jobId != jobId
    ensures PredictionsOf(ps + qs, jobId) == PredictionsOf(ps, jobId)
    decreases |qs|
  {
    if qs == [] {
      assert ps + qs == ps;
    } else {
      var n := |qs| - 1;
      assert (ps + qs)[..|ps + qs| - 1] == ps + qs[..n];
      assert qs[n] in qs;
      PredictionsOfAppendOther(ps, qs[..n], jobId);
    }
  }
}
