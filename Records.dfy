/** The job store as the worker sees it through SQLAlchemy: the Job object
    it loads and mutates field by field, the durable tables, and the
    session that stages new Prediction rows until the next commit.
    A commit writes the Job object's current row and records it in
    `history`, the sequence of rows a poller can observe. */
module Records {
  import opened Wrappers
  import opened Models

  /** The mapped Job object (app/models.py:18-37) attached to a session. */
  class Job {
    const id: string
    var status: JobStatus
    var modelType: ModelType
    var totalImages: nat
    var processedImages: nat
    var failedImages: nat
    var cachedImages: nat
    var cacheHitRate: real
    var celeryTaskId: Option<string>
    var startedAt: Stamp
    var completedAt: Stamp

    /** Loads the object from a committed row. */
    constructor Load(row: JobRow)
      ensures Row() == row
    {
      id := row.id;
      status := row.status;
      modelType := row.modelType;
      totalImages := row.totalImages;
      processedImages := row.processedImages;
      failedImages := row.failedImages;
      cachedImages := row.cachedImages;
      cacheHitRate := row.cacheHitRate;
      celeryTaskId := row.celeryTaskId;
      startedAt := row.startedAt;
      completedAt := row.completedAt;
    }

    /** The row a commit would write. */
    function Row(): JobRow
      reads this
    {
      JobRow(id, status, modelType, totalImages, processedImages, failedImages,
             cachedImages, cacheHitRate, celeryTaskId, startedAt, completedAt)
    }
  }

  /** The durable tables, plus the row written by every commit so far. */
  class Database {
    var jobs: map<string, JobRow>
    var predictions: seq<Prediction>
    var history: seq<JobRow>

    /** Every job row is stored under its own id. */
    ghost predicate Valid()
      reads this
    {
      forall id :: id in jobs ==> jobs[id].id == id
    }

    constructor (jobs: map<string, JobRow>)
      requires forall id :: id in jobs ==> jobs[id].id == id
      ensures Valid()
      ensures this.jobs == jobs && predictions == [] && history == []
    {
      this.jobs := jobs;
      predictions := [];
      history := [];
    }
  }

  /** A database session (`SessionLocal()`): the rows added since the last
      commit or rollback. */
  class Session {
    const db: Database
    var pending: seq<Prediction>

    constructor (db: Database)
      ensures this.db == db && pending == []
    {
      this.db := db;
      pending := [];
    }

    /** `db.query(Job).filter(Job.id == id).first()`. */
    method Query(id: string) returns (job: Job?)
      requires db.Valid()
      ensures job == null <==> id !in db.jobs
      ensures job != null ==> fresh(job) && job.id == id && job.Row() == db.jobs[id]
    {
      if id in db.jobs {
        job := new Job.Load(db.jobs[id]);
      } else {
        job := null;
      }
    }

    /** `db.add(p)` and `db.add_all(ps)`. */
    method Add(ps: seq<Prediction>)
      modifies this
      ensures pending == old(pending) + ps
    {
      pending := pending + ps;
    }

    /** `db.commit()`: the job's row becomes durable and observable, and
      the staged predictions become durable. */
    method Commit(job: Job)
      requires db.Valid()
      modifies this, db
      ensures db.Valid()
      ensures db.jobs == old(db.jobs)[job.id := job.Row()]
      ensures db.history == old(db.history) + [job.Row()]
      ensures db.predictions == old(db.predictions) + old(pending)
      ensures pending == []
    {
      db.jobs := db.jobs[job.id := job.Row()];
      db.history := db.history + [job.Row()];
      db.predictions := db.predictions + pending;
      pending := [];
    }

    /** `db.rollback()`: everything staged since the last commit is
      discarded; the durable tables are untouched. */
    method Rollback()
      modifies this
      ensures pending == []
    {
      pending := [];
    }
  }
}
