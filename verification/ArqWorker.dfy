/** The worker object of private_gpt/arq/liveness.py and the queue inspection of
    private_gpt/arq/healthcheck.py, each pass run without interference. The same
    commands under interference are in ArqProtocol. */
module ArqWorker {
  import opened Wrappers
  import opened ArqLeases
  import opened ArqStore
  import opened StringOrder

  const STALE_LOCK_RECOVERY_INTERVAL_SECONDS: real := 2.0
  const INSPECT_LIMIT: nat := 50

  /* The window ZRANGEBYSCORE -inf max LIMIT 0 num returns. */

  /** Redis orders a sorted set by score, then by member. */
  predicate Ahead(queue: map<Job, int>, a: Job, b: Job)
    requires a in queue && b in queue
  {
    queue[a] < queue[b] || (queue[a] == queue[b] && Less(a, b))
  }

  predicate InWindow(queue: map<Job, int>, cutoff: int, limit: nat, job: Job) {
    job in queue && queue[job] <= cutoff && |set k | k in queue && Ahead(queue, k, job)| < limit
  }

  ghost predicate IsWindow(queue: map<Job, int>, cutoff: int, limit: nat, ids: seq<Job>) {
    && (forall i, j :: 0 <= i < j < |ids| ==> ids[i] != ids[j])
    && (forall job :: job in ids <==> InWindow(queue, cutoff, limit, job))
  }

  lemma WindowsNest(queue: map<Job, int>, small: int, big: int, few: nat, many: nat, job: Job)
    requires small <= big && few <= many && InWindow(queue, small, few, job)
    ensures InWindow(queue, big, many, job)
  {
  }

  /* What recovery is for. */

  /** Locked by another worker whose lease is gone, or by a legacy worker with no health key. */
  predicate Reclaimable(db: Db, self: Worker, job: Job) {
    job in db.locks &&
    match DecodeInProgressOwner(db.locks[job])
    case None => !db.legacyHealth
    case Some(owner) => owner != self && owner !in db.leases
  }

  predicate Stale(db: Db, job: Job) {
    && job in db.locks && DecodeInProgressOwner(db.locks[job]).Some?
    && DecodeInProgressOwner(db.locks[job]).value !in db.leases
  }

  function ReclaimableIn(db: Db, self: Worker, ids: seq<Job>): set<Job> {
    set job | job in ids && Reclaimable(db, self, job)
  }

  predicate SameQueue(before: Db, after: Db) {
    && after.now == before.now && after.queue == before.queue
    && after.leases == before.leases && after.legacyHealth == before.legacyHealth
  }

  /** Exactly the locks of `jobs` are deleted, each by one write. */
  ghost predicate LocksRemoved(before: Db, after: Db, jobs: set<Job>) {
    && SameQueue(before, after)
    && after.locks == before.locks - jobs
    && forall job :: Version(after, job) == Version(before, job) + (if job in jobs then 1 else 0)
  }

  class RedisPool {
    var db: Db

    constructor (db: Db)
      ensures this.db == db
    {
      this.db := db;
    }
  }

  datatype OwnedJob = OwnedJob(job: Job, owner: Worker, value: string)
  datatype LegacyJob = LegacyJob(job: Job, value: string)
  datatype DueJobCounts = DueJobCounts(pickable: nat, stale: nat, unowned: nat)

  lemma RemoveOneMore(before: Db, mid: Db, jobs: set<Job>, job: Job)
    requires LocksRemoved(before, mid, jobs) && job !in jobs && job in before.locks
    ensures LocksRemoved(before, DeleteLock(mid, job), jobs + {job})
  {
    var after := DeleteLock(mid, job);
    assert after.locks == before.locks - (jobs + {job});
  }

  /** What one recovery pass knows of the locks in its window. */
  ghost predicate ListsOwned(db: Db, self: Worker, ids: seq<Job>, owned: seq<OwnedJob>) {
    && (forall o | o in owned ::
          && o.job in ids && o.job in db.locks && db.locks[o.job] == o.value
          && DecodeInProgressOwner(o.value) == Some(o.owner) && o.owner != self)
    && (forall i, j :: 0 <= i < j < |owned| ==> owned[i].job != owned[j].job)
    && (forall job | job in ids && Reclaimable(db, self, job) && !Unowned(db, job) ::
        exists o :: o in owned && o.job == job)
  }

  ghost predicate ListsLegacy(db: Db, ids: seq<Job>, legacy: seq<LegacyJob>) {
    && (forall l | l in legacy ::
        l.job in ids && Unowned(db, l.job) && db.locks[l.job] == l.value)
    && (forall i, j :: 0 <= i < j < |legacy| ==> legacy[i].job != legacy[j].job)
    && (forall job | job in ids && Unowned(db, job) :: exists l :: l in legacy && l.job == job)
  }

  function DeadJobs(db: Db, owned: seq<OwnedJob>): set<Job> {
    set o | o in owned && o.owner !in db.leases :: o.job
  }

  function LegacyJobs(legacy: seq<LegacyJob>): set<Job> {
    set l | l in legacy :: l.job
  }

  /** A worker process; `pool` is its connection to the shared Redis. */
  class HeartbeatWorker {
    const workerId: Worker
    const pool: RedisPool
    const maxJobs: nat
    const queueReadLimit: nat
    var lastRecovery: real
    var jobCounter: int
    var sem: int
    var tasks: set<Job>

    ghost predicate Valid()
      reads this
    {
      workerId != "" && jobCounter == |tasks| && jobCounter + sem == maxJobs + 1 && jobCounter <= maxJobs
    }

    constructor (workerId: Worker, pool: RedisPool, maxJobs: nat, queueReadLimit: nat)
      requires workerId != ""
      ensures Valid() && this.workerId == workerId && this.pool == pool && tasks == {}
      ensures this.maxJobs == maxJobs && this.queueReadLimit == queueReadLimit && lastRecovery == 0.0
    {
      this.workerId, this.pool, this.maxJobs, this.queueReadLimit := workerId, pool, maxJobs, queueReadLimit;
      lastRecovery, jobCounter, sem, tasks := 0.0, 0, maxJobs + 1, {};
    }

    method RenewWorkerLease()
      modifies pool
      ensures pool.db == old(pool.db).(leases := old(pool.db).leases + {workerId})
    {
      pool.db := pool.db.(leases := pool.db.leases + {workerId});
    }

    /** Splits the locked jobs of the window into those stamped by other workers and those
        without a stamp. */
    method ReadLocks(ids: seq<Job>) returns (owned: seq<OwnedJob>, legacy: seq<LegacyJob>)
      requires forall i, j :: 0 <= i < j < |ids| ==> ids[i] != ids[j]
      ensures ListsOwned(pool.db, workerId, ids, owned) && ListsLegacy(pool.db, ids, legacy)
    {
      owned, legacy := [], [];
      for n := 0 to |ids|
        invariant ListsOwned(pool.db, workerId, ids[..n], owned) && ListsLegacy(pool.db, ids[..n], legacy)
      {
        assert ids[..n + 1] == ids[..n] + [ids[n]];
        ghost var owned0, legacy0 := owned, legacy;
        if ids[n] in pool.db.locks {
          var value := pool.db.locks[ids[n]];
          var owner := DecodeInProgressOwner(value);
          if owner == None {
            legacy := legacy + [LegacyJob(ids[n], value)];
          } else if owner.value != workerId {
            owned := owned + [OwnedJob(ids[n], owner.value, value)];
          }
        }
        forall job | job in ids[..n + 1] && Reclaimable(pool.db, workerId, job) && !Unowned(pool.db, job)
          ensures exists o :: o in owned && o.job == job
        {
          if job in ids[..n] {
            var o :| o in owned0 && o.job == job;
            assert o in owned;
          } else {
            assert owned[|owned| - 1].job == job;
          }
        }
        forall job | job in ids[..n + 1] && Unowned(pool.db, job)
          ensures exists l :: l in legacy && l.job == job
        {
          if job in ids[..n] {
            var l :| l in legacy0 && l.job == job;
            assert l in legacy;
          } else {
            assert legacy[|legacy| - 1].job == job;
          }
        }
      }
    }

    /** Whose lease is there, read in one go. */
    method ReadLeases(owned: seq<OwnedJob>) returns (alive: seq<bool>)
      ensures |alive| == |owned| && forall k ::
          0 <= k < |owned| ==> alive[k] == (owned[k].owner in pool.db.leases)
    {
      alive := [];
      for n := 0 to |owned|
        invariant |alive| == n && forall k ::
            0 <= k < n ==> alive[k] == (owned[k].owner in pool.db.leases)
      {
        alive := alive + [owned[n].owner in pool.db.leases];
      }
    }

    method ReleaseOwned(owned: seq<OwnedJob>, ghost ids: seq<Job>) returns (recovered: nat)
      requires ListsOwned(pool.db, workerId, ids, owned)
      modifies pool
      ensures LocksRemoved(old(pool.db), pool.db, DeadJobs(old(pool.db), owned))
      ensures recovered == |DeadJobs(old(pool.db), owned)|
    {
      ghost var db0 := pool.db;
      var alive := ReadLeases(owned);
      recovered := 0;
      for n := 0 to |owned|
        invariant LocksRemoved(db0, pool.db, DeadJobs(db0, owned[..n])) && recovered == |DeadJobs(db0, owned[..n])|
      {
        ghost var done := DeadJobs(db0, owned[..n]);
        DeadStep(db0, owned, n);
        if !alive[n] {
          var o := owned[n];
          assert o in owned && o.job !in done;
          if Releasable(pool.db, o.job, o.value, o.owner in pool.db.leases) { recovered := recovered + 1; }
          RemoveOneMore(db0, pool.db, done, o.job);
          pool.db := ReleaseStaleLock(pool.db, o.job, o.owner, o.value);
        }
      }
      assert owned[..|owned|] == owned;
    }

    method ReleaseLegacy(legacy: seq<LegacyJob>, ghost ids: seq<Job>) returns (recovered: nat)
      requires ListsLegacy(pool.db, ids, legacy)
      modifies pool
      ensures LocksRemoved(old(pool.db), pool.db, if old(pool.db).legacyHealth then {} else LegacyJobs(legacy))
      ensures recovered == if old(pool.db).legacyHealth then 0 else |LegacyJobs(legacy)|
    {
      ghost var db0 := pool.db;
      recovered := 0;
      for n := 0 to |legacy|
        invariant LocksRemoved(db0, pool.db, if db0.legacyHealth then {} else LegacyJobs(legacy[..n]))
        invariant recovered == if db0.legacyHealth then 0 else |LegacyJobs(legacy[..n])|
      {
        ghost var done := LegacyJobs(legacy[..n]);
        assert legacy[..n + 1] == legacy[..n] + [legacy[n]];
        var l := legacy[n];
        assert l in legacy && l.job !in done;
        assert LegacyJobs(legacy[..n + 1]) == done + {l.job};
        if Releasable(pool.db, l.job, l.value, pool.db.legacyHealth) {
          recovered := recovered + 1;
          RemoveOneMore(db0, pool.db, done, l.job);
        }
        pool.db := ReleaseLegacyLock(pool.db, l.job, l.value);
      }
      assert legacy[..|legacy|] == legacy;
    }

    /** One recovery pass over the window `ids` that the queue read returned. */
    method RecoverStaleInProgressJobs(now: real, ids: seq<Job>) returns (recovered: nat)
      requires IsWindow(pool.db.queue, pool.db.now, queueReadLimit, ids)
      modifies this`lastRecovery, pool
      ensures now - old(lastRecovery) < STALE_LOCK_RECOVERY_INTERVAL_SECONDS ==>
                recovered == 0 && pool.db == old(pool.db) && lastRecovery == old(lastRecovery)
      ensures now - old(lastRecovery) >= STALE_LOCK_RECOVERY_INTERVAL_SECONDS ==>
                && lastRecovery == now
                && LocksRemoved(old(pool.db), pool.db, ReclaimableIn(old(pool.db), workerId, ids))
                && recovered == |ReclaimableIn(old(pool.db), workerId, ids)|
                && recovered == |old(pool.db).locks| - |pool.db.locks|
    {
      if now - lastRecovery < STALE_LOCK_RECOVERY_INTERVAL_SECONDS {
        return 0;
      }
      lastRecovery := now;
      ghost var db0 := pool.db;
      var owned, legacy := ReadLocks(ids);
      recovered := ReleaseOwned(owned, ids);
      ghost var db1 := pool.db;
      ghost var dead := DeadJobs(db0, owned);
      UnownedStays(db0, db1, dead, ids, owned, legacy, workerId);
      var more := ReleaseLegacy(legacy, ids);
      recovered := recovered + more;
      BothLoops(db0, db1, pool.db, workerId, ids, owned, legacy);
    }

    /** Renew before recovering, so that the pass cannot find this worker's own lease gone. */
    method PollIteration(now: real, ids: seq<Job>) returns (recovered: nat)
      requires IsWindow(pool.db.queue, pool.db.now, queueReadLimit, ids)
      modifies this`lastRecovery, pool
      ensures workerId in pool.db.leases
      ensures pool.db.(locks := old(pool.db).locks, writes := old(pool.db).writes) ==
              old(pool.db).(leases := old(pool.db).leases + {workerId})
      ensures now - old(lastRecovery) < STALE_LOCK_RECOVERY_INTERVAL_SECONDS ==> pool.db.locks == old(pool.db).locks
      ensures now - old(lastRecovery) >= STALE_LOCK_RECOVERY_INTERVAL_SECONDS ==>
                && pool.db.locks
                   == old(pool.db).locks - ReclaimableIn(pool.db.(locks := old(pool.db).locks), workerId, ids)
                && forall job | job in ids ::
                     !Stale(pool.db, job) && (Unowned(pool.db, job) ==> pool.db.legacyHealth)
    {
      RenewWorkerLease();
      ghost var db := pool.db;
      recovered := RecoverStaleInProgressJobs(now, ids);
      assert pool.db.(locks := old(pool.db).locks, writes := db.writes) == db;
      assert ReclaimableIn(pool.db.(locks := old(pool.db).locks), workerId, ids) == ReclaimableIn(db, workerId, ids);
    }

    /** One round of the claim loop with nobody in between. */
    method ClaimJob(job: Job) returns (full: bool)
      requires Valid() && job !in tasks
      modifies this`jobCounter, this`sem, this`tasks, pool
      ensures Valid()
      ensures full <==> |old(tasks)| >= maxJobs
      ensures var claimed := !full && Claimable(old(pool.db), old(tasks), job);
              && tasks == (if claimed then old(tasks) + {job} else old(tasks))
              && pool.db
                 == if claimed then SetLock(old(pool.db), job, EncodeInProgressOwner(workerId)) else old(pool.db)
    {
      assert sem > 0;
      sem := sem - 1;
      if jobCounter >= maxJobs {
        sem := sem + 1;
        return true;
      }
      jobCounter := jobCounter + 1;
      if job in pool.db.locks || !Due(pool.db, job) {
        jobCounter, sem := jobCounter - 1, sem + 1;
      } else {
        pool.db := SetLock(pool.db, job, EncodeInProgressOwner(workerId));
        tasks := tasks + {job};
      }
      return false;
    }

    /** Claims claimable jobs of the batch only, each stamped with this worker, never more than
        fit; a claimable one is passed over only when the worker is full, by earlier ones. */
    method StartJobs(ids: seq<Job>)
      requires Valid()
      modifies this`jobCounter, this`sem, this`tasks, pool
      ensures Valid() && old(tasks) <= tasks
      ensures LocksStamped(old(pool.db), pool.db, tasks - old(tasks), workerId)
      ensures forall job | job in tasks - old(tasks) ::
          job in ids && Claimable(old(pool.db), old(tasks), job)
      ensures forall i | 0 <= i < |ids| && Claimable(old(pool.db), old(tasks), ids[i]) && ids[i] !in tasks ::
                |tasks| == maxJobs && forall job | job in tasks - old(tasks) :: job in ids[..i]
    {
      ghost var db0, tasks0 := pool.db, tasks;
      var n := 0;
      while n < |ids|
        invariant 0 <= n <= |ids| && Valid()
        invariant ClaimsSoFar(db0, pool.db, tasks0, tasks, ids, n, workerId)
      {
        var full := false;
        if ids[n] !in tasks && ids[n] !in pool.db.locks {
          full := ClaimJob(ids[n]);
        }
        if full { break; }
        n := n + 1;
      }
    }
  }

  /** The state of the claim loop before job number n. */
  ghost predicate ClaimsSoFar(db0: Db, db: Db, tasks0: set<Job>, tasks: set<Job>,
                              ids: seq<Job>, n: nat, worker: Worker) {
    && n <= |ids| && tasks0 <= tasks
    && LocksStamped(db0, db, tasks - tasks0, worker)
    && (forall job | job in tasks && job !in tasks0 ::
        job in ids[..n] && Claimable(db0, tasks0, job))
    && (forall i | 0 <= i < n && Claimable(db0, tasks0, ids[i]) :: ids[i] in tasks)
  }

  /** `jobs` were free and are now locked by `worker`; nothing else about the queue changed. */
  ghost predicate LocksStamped(before: Db, after: Db, jobs: set<Job>, worker: Worker) {
    && SameQueue(before, after)
    && (forall job :: job in after.locks <==> job in before.locks || job in jobs)
    && (forall job | job in before.locks :: after.locks[job] == before.locks[job])
    && (forall job | job in jobs ::
        job !in before.locks && after.locks[job] == EncodeInProgressOwner(worker))
  }

  predicate Claimable(db: Db, tasks: set<Job>, job: Job) {
    job !in tasks && job !in db.locks && Due(db, job)
  }

  /* The health check's view of the same queue. */

  function Where(ids: seq<Job>, p: Job -> bool): set<Job> {
    set job | job in ids && p(job)
  }

  function FreeIn(db: Db, ids: seq<Job>): set<Job> {
    Where(ids, job => job !in db.locks)
  }

  function UnownedIn(db: Db, ids: seq<Job>): set<Job> {
    Where(ids, job => Unowned(db, job))
  }

  function StaleIn(db: Db, ids: seq<Job>): set<Job> {
    Where(ids, job => Stale(db, job))
  }

  lemma WhereOneMore(ids: seq<Job>, p: Job -> bool, job: Job)
    requires job !in ids
    ensures |Where(ids + [job], p)| == |Where(ids, p)| + (if p(job) then 1 else 0)
  {
    assert Where(ids + [job], p) == Where(ids, p) + (if p(job) then {job} else {});
  }

  lemma CountOneMore(db: Db, ids: seq<Job>, job: Job)
    requires job !in ids
    ensures |FreeIn(db, ids + [job])| == |FreeIn(db, ids)| + (if job !in db.locks then 1 else 0)
    ensures |UnownedIn(db, ids + [job])| == |UnownedIn(db, ids)| + (if Unowned(db, job) then 1 else 0)
    ensures |StaleIn(db, ids + [job])| == |StaleIn(db, ids)| + (if Stale(db, job) then 1 else 0)
  {
    WhereOneMore(ids, job => job !in db.locks, job);
    WhereOneMore(ids, job => Unowned(db, job), job);
    WhereOneMore(ids, job => Stale(db, job), job);
  }

  /** Counts the due jobs of a window by lock state, as `inspect_due_jobs` does. */
  method InspectDueJobs(db: Db, cutoff: int, ids: seq<Job>) returns (counts: DueJobCounts)
    requires IsWindow(db.queue, cutoff, INSPECT_LIMIT, ids)
    ensures counts == DueJobCounts(|FreeIn(db, ids)|, |StaleIn(db, ids)|, |UnownedIn(db, ids)|)
  {
    var pickable, unowned := 0, 0;
    var owned: seq<Worker> := [];
    ghost var ownedJobs: seq<Job> := [];
    for n := 0 to |ids|
      invariant pickable == |FreeIn(db, ids[..n])| && unowned == |UnownedIn(db, ids[..n])|
      invariant OwnersOf(db, ids[..n], ownedJobs, owned)
      invariant |StaleIn(db, ownedJobs)| == |StaleIn(db, ids[..n])|
    {
      assert ids[..n + 1] == ids[..n] + [ids[n]];
      assert ids[n] !in ids[..n];
      CountOneMore(db, ids[..n], ids[n]);
      if ids[n] !in db.locks {
        pickable := pickable + 1;
      } else {
        var owner := DecodeInProgressOwner(db.locks[ids[n]]);
        if owner == None {
          unowned := unowned + 1;
        } else {
          CountOneMore(db, ownedJobs, ids[n]);
          owned := owned + [owner.value];
          ownedJobs := ownedJobs + [ids[n]];
        }
      }
    }
    assert ids[..|ids|] == ids;
    var stale := 0;
    for n := 0 to |owned|
      invariant stale == |StaleIn(db, ownedJobs[..n])|
    {
      assert ownedJobs[..n + 1] == ownedJobs[..n] + [ownedJobs[n]];
      CountOneMore(db, ownedJobs[..n], ownedJobs[n]);
      if owned[n] !in db.leases {
        stale := stale + 1;
      }
    }
    assert ownedJobs[..|owned|] == ownedJobs;
    counts := DueJobCounts(pickable, stale, unowned);
  }

  ghost predicate OwnersOf(db: Db, ids: seq<Job>, jobs: seq<Job>, owners: seq<Worker>) {
    && |jobs| == |owners|
    && (forall k :: 0 <= k < |jobs| ==>
          jobs[k] in ids && jobs[k] in db.locks && DecodeInProgressOwner(db.locks[jobs[k]]) == Some(owners[k]))
    && (forall i, j :: 0 <= i < j < |jobs| ==> jobs[i] != jobs[j])
  }

  /** Exactly which due jobs are stale after a pass by `self`: those it did not read, and its
      own if it has no lease. */
  lemma StaleAfterPass(before: Db, after: Db, self: Worker, ids: seq<Job>, job: Job)
    requires LocksRemoved(before, after, ReclaimableIn(before, self, ids))
    ensures Stale(after, job) <==>
            Stale(before, job) && (job !in ids || DecodeInProgressOwner(before.locks[job]) == Some(self))
  {
  }

  /** A health check whose window lies inside the one just recovered finds no stale job, and
      no unowned one unless legacy workers are alive. */
  method RecoverThenInspect(worker: HeartbeatWorker, now: real, ids: seq<Job>, cutoff: int, inspected: seq<Job>)
    returns (counts: DueJobCounts)
    requires IsWindow(worker.pool.db.queue, worker.pool.db.now, worker.queueReadLimit, ids)
    requires IsWindow(worker.pool.db.queue, cutoff, INSPECT_LIMIT, inspected)
    requires now - worker.lastRecovery >= STALE_LOCK_RECOVERY_INTERVAL_SECONDS
    requires cutoff <= worker.pool.db.now && INSPECT_LIMIT <= worker.queueReadLimit
    modifies worker`lastRecovery, worker.pool
    ensures counts.stale == 0
    ensures !old(worker.pool.db).legacyHealth ==> counts.unowned == 0
  {
    var recovered := worker.PollIteration(now, ids);
    counts := InspectDueJobs(worker.pool.db, cutoff, inspected);
    forall job | job in inspected ensures job in ids {
      WindowsNest(worker.pool.db.queue, cutoff, worker.pool.db.now, INSPECT_LIMIT, worker.queueReadLimit, job);
    }
    assert StaleIn(worker.pool.db, inspected) == {};
    assert !worker.pool.db.legacyHealth ==> UnownedIn(worker.pool.db, inspected) == {};
  }

  lemma DeadStep(db: Db, owned: seq<OwnedJob>, n: nat)
    requires n < |owned|
    ensures DeadJobs(db, owned[..n + 1])
         == if owned[n].owner in db.leases then DeadJobs(db, owned[..n]) else DeadJobs(db, owned[..n]) + {owned[n].job}
  {
    assert owned[..n + 1] == owned[..n] + [owned[n]];
  }

  lemma UnownedStays(db0: Db, db1: Db, dead: set<Job>, ids: seq<Job>,
                     owned: seq<OwnedJob>, legacy: seq<LegacyJob>, self: Worker)
    requires ListsOwned(db0, self, ids, owned) && ListsLegacy(db0, ids, legacy)
    requires dead == DeadJobs(db0, owned) && LocksRemoved(db0, db1, dead)
    ensures ListsLegacy(db1, ids, legacy)
  {
    forall l, o | l in legacy && o in owned ensures o.job != l.job {
    }
  }

  /** The two release loops between them delete exactly the reclaimable locks, none twice. */
  lemma SplitReclaimable(db: Db, self: Worker, ids: seq<Job>, owned: seq<OwnedJob>, legacy: seq<LegacyJob>)
    requires ListsOwned(db, self, ids, owned) && ListsLegacy(db, ids, legacy)
    ensures var gone := if db.legacyHealth then {} else LegacyJobs(legacy);
            && DeadJobs(db, owned) !! gone
            && ReclaimableIn(db, self, ids) == DeadJobs(db, owned) + gone
            && |ReclaimableIn(db, self, ids)| == |DeadJobs(db, owned)| + |gone|
  {
    var gone := if db.legacyHealth then {} else LegacyJobs(legacy);
    forall job | job in ReclaimableIn(db, self, ids) ensures job in DeadJobs(db, owned) + gone {
      if Unowned(db, job) {
        var l :| l in legacy && l.job == job;
      } else {
        var o :| o in owned && o.job == job;
        assert o.owner !in db.leases;
      }
    }
  }

  lemma BothLoops(a: Db, b: Db, c: Db, self: Worker, ids: seq<Job>, owned: seq<OwnedJob>, legacy: seq<LegacyJob>)
    requires ListsOwned(a, self, ids, owned) && ListsLegacy(a, ids, legacy)
    requires LocksRemoved(a, b, DeadJobs(a, owned))
    requires LocksRemoved(b, c, if a.legacyHealth then {} else LegacyJobs(legacy))
    ensures LocksRemoved(a, c, ReclaimableIn(a, self, ids))
    ensures |ReclaimableIn(a, self, ids)| == |DeadJobs(a, owned)| + (if a.legacyHealth then 0 else |LegacyJobs(legacy)|)
    ensures |ReclaimableIn(a, self, ids)| == |a.locks| - |c.locks|
  {
    var gone := if a.legacyHealth then {} else LegacyJobs(legacy);
    SplitReclaimable(a, self, ids, owned, legacy);
    RemovalsCompose(a, b, c, DeadJobs(a, owned), gone);
    assert c.locks.Keys == a.locks.Keys - ReclaimableIn(a, self, ids);
    assert |c.locks| == |c.locks.Keys| && |a.locks| == |a.locks.Keys|;
  }

  lemma RemovalsCompose(a: Db, b: Db, c: Db, first: set<Job>, second: set<Job>)
    requires LocksRemoved(a, b, first) && LocksRemoved(b, c, second) && first !! second
    ensures LocksRemoved(a, c, first + second)
  {
    assert c.locks == a.locks - (first + second);
  }
}
