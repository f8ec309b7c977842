/** The part of Redis that the ARQ workers share, and the commands and scripts they
    run on it. Every function below is one atomic command. `writes` counts the
    writes to each in-progress key, which is what WATCH observes. */
module ArqStore {
  import opened Wrappers
  import opened ArqLeases

  type Job = string

  datatype Db = Db(
    now: int,
    queue: map<Job, int>,
    locks: map<Job, string>,
    writes: map<Job, nat>,
    leases: set<Worker>,
    legacyHealth: bool)

  function Version(db: Db, job: Job): nat {
    if job in db.writes then db.writes[job] else 0
  }

  function SetLock(db: Db, job: Job, value: string): Db {
    db.(locks := db.locks[job := value], writes := db.writes[job := Version(db, job) + 1])
  }

  function DeleteLock(db: Db, job: Job): Db {
    if job in db.locks
    then db.(locks := db.locks - {job}, writes := db.writes[job := Version(db, job) + 1])
    else db
  }

  /** The body shared by both release scripts: compare, check the guard key, delete. */
  predicate Releasable(db: Db, job: Job, value: string, guardExists: bool) {
    job in db.locks && db.locks[job] == value && !guardExists
  }

  function ReleaseStaleLock(db: Db, job: Job, owner: Worker, value: string): Db {
    if Releasable(db, job, value, owner in db.leases) then DeleteLock(db, job) else db
  }

  function ReleaseLegacyLock(db: Db, job: Job, value: string): Db {
    if Releasable(db, job, value, db.legacyHealth) then DeleteLock(db, job) else db
  }

  /** Locked by no worker of the present kind. */
  predicate Unowned(db: Db, job: Job) {
    job in db.locks && DecodeInProgressOwner(db.locks[job]) == None
  }

  /** `not score or score > timestamp_ms()` is the reason to skip a job. */
  predicate Due(db: Db, job: Job) {
    job in db.queue && db.queue[job] != 0 && db.queue[job] <= db.now
  }
}
