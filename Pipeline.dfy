/** What the two worker tasks of app/workers/tasks.py share: the image
    references they are given, the inference engine's results, the
    Pending -> Processing guard, the hit-rate formulas and what a task
    returns to its caller. */
module Pipeline {
  import opened Wrappers
  import opened Models
  import opened Cache

  type Bytes = seq<bv8>

  /** What opening a path yields: no file (`os.path.exists` is false), a
      file whose `open`/`read` raises, or the file's bytes. */
  datatype FileState = Missing | Unreadable | Present(content: Bytes)

  datatype ImageRef = ImageRef(path: string, file: FileState)

  /** One result of the inference engine. `top3Classes` is absent when the
      engine does not report alternatives. */
  datatype Inference = Inference(
    predictedClass: string,
    confidence: real,
    top3Classes: Option<seq<string>>,
    inferenceTime: real)

  /** What a task gives back: a status (returned, or the status value), the
      single-image success dictionary, or an exception re-raised to Celery. */
  datatype TaskResult =
    | Status(status: JobStatus)
    | Success(prediction: Payload, fromCache: bool)
    | Raised

  /** `os.path.basename`: the part of the path after its last '/'. */
  function Basename(path: string): string {
    if path == [] || path[|path| - 1] == '/' then ""
    else Basename(path[..|path| - 1]) + [path[|path| - 1]]
  }

  /** The base name is the longest suffix of the path without a '/': it
      ends the path, holds no '/', and is the whole path or preceded by a
      '/'. */
  lemma {:induction false} BasenameSuffix(path: string)
    ensures var name := Basename(path);
      && |name| <= |path| && name == path[|path| - |name|..]
      && (forall k :: 0 <= k < |name| ==> name[k] != '/')
      && (|name| < |path| ==> path[|path| - |name| - 1] == '/')
    decreases |path|
  {
    if path != [] && path[|path| - 1] != '/' {
      var n := |path| - 1;
      BasenameSuffix(path[..n]);
      var prior := Basename(path[..n]);
      assert path[..n][n - |prior|..] == path[n - |prior|..n];
      assert Basename(path) == prior + [path[n]];
    }
  }

  /** `result.get("top_3_classes", [])`. */
  function TopOrEmpty(top: Option<seq<string>>): seq<string> {
    match top
    case None => []
    case Some(t) => t
  }

  /** The cache entry written for an engine result. */
  function PayloadOf(r: Inference): Payload {
    Payload(r.predictedClass, r.confidence, TopOrEmpty(r.top3Classes))
  }

  /** The guarded first transition: only a pending job becomes processing,
      and only then is its start time set. */
  function Start(row: JobRow): JobRow {
    if row.status == Pending then row.(status := Processing, startedAt := Stamped) else row
  }

  /** The guard fires exactly on a pending job and changes nothing else;
      a job in any other state is left as it is. */
  lemma StartGuard(row: JobRow)
    ensures Start(row).status == Processing <==> row.status == Pending || row.status == Processing
    ensures row.status != Pending ==> Start(row) == row
    ensures Start(row).startedAt == (if row.status == Pending then Stamped else row.startedAt)
    ensures Start(row).(status := row.status, startedAt := row.startedAt) == row
  {
  }

  /** The commit made by the guard, if it fires. */
  function Opening(row: JobRow): (commits: seq<JobRow>)
    ensures |commits| <= 1
    ensures commits != [] <==> row.status == Pending
    ensures commits != [] ==> commits[0] == Start(row)
  {
    if row.status == Pending then [Start(row)] else []
  }

  /** Everything a run of a task does: the job rows it commits, in order,
      the predictions it commits, the cache it leaves and its result. */
  datatype Run = Run(commits: seq<JobRow>, committed: seq<Prediction>, cacheAfter: CacheState, result: TaskResult)

  /** The percentage of processed images served from the cache. */
  function Percent(cached: nat, processed: nat): (rate: real)
    requires processed > 0
    ensures cached <= processed ==> 0.0 <= rate <= 100.0
    ensures cached == processed ==> rate == 100.0
    ensures cached == 0 ==> rate == 0.0
  {
    FractionBounds(cached as real, processed as real);
    (cached as real / processed as real) * 100.0
  }

  /** A non-negative quotient by a positive number, at most 1 when the
      numerator does not exceed the denominator. */
  lemma FractionBounds(a: real, b: real)
    requires 0.0 <= a && 0.0 < b
    ensures 0.0 <= a / b
    ensures a <= b ==> a / b <= 1.0
  {
    assert (a / b) * b == a;
  }

  /** The batch task's rule: the percentage when the job has a total and
      something was processed, 0 when nothing was processed, otherwise
      the previous value. */
  function BatchHitRate(total: nat, processed: nat, cached: nat, previous: real): (rate: real)
    ensures processed == 0 ==> rate == 0.0
    ensures total > 0 && processed > 0 && cached <= processed ==> 0.0 <= rate <= 100.0
    ensures total == 0 && processed > 0 ==> rate == previous
  {
    if total > 0 && processed > 0 then Percent(cached, processed)
    else if processed == 0 then 0.0
    else previous
  }

  /** The single-image task's rule: the percentage whenever the job has a
      total, otherwise the previous value. */
  function SingleHitRate(total: nat, processed: nat, cached: nat, previous: real): (rate: real)
    requires processed > 0
    ensures total > 0 && cached <= processed ==> 0.0 <= rate <= 100.0
    ensures total == 0 ==> rate == previous
  {
    if total > 0 then Percent(cached, processed) else previous
  }
}
