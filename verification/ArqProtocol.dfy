/** Every interleaving of the ARQ workers of private_gpt/arq/liveness.py.

    A worker claims a job by WATCH, EXISTS, ZSCORE and EXEC; it recovers the locks of
    dead owners by reading lock values, reading leases and running a compare-and-delete
    script. Each command is one event, so any other actor may step between any two. */
module ArqProtocol {
  import opened Wrappers
  import opened ArqLeases
  import opened ArqStore

  /** Where a worker is inside one round of the claim loop of `start_jobs`. */
  datatype Claim =
    | Idle
    | Permitted(job: Job)
    | Watching(job: Job, version: nat)
    | Checked(job: Job, version: nat, locked: bool)
    | Ready(job: Job, version: nat)

  datatype WorkerState = WorkerState(
    tasks: set<Job>,
    counter: int,
    permits: int,
    claim: Claim,
    seen: map<Job, string>,   // lock values read by the current recovery pass
    dead: set<Job>)           // jobs whose owner's lease that pass read as missing

  /** What happened to a worker's hold on a job since it claimed that job. */
  datatype History = History(
    unleased: set<(Worker, Job)>,   // the lease was already gone at EXEC
    lapsed: set<(Worker, Job)>,     // the lease expired while the job ran
    timedOut: set<(Worker, Job)>,   // the lock itself expired while the job ran
    displaced: set<(Worker, Job)>,  // another runner of the job finished and deleted the lock
    disturbed: set<Job>,            // jobs that ever had an entry in the first three
    enqueued: set<Job>)

  datatype State = State(db: Db, workers: map<Worker, WorkerState>, maxJobs: nat, history: History)

  datatype Event =
    | Tick(ms: nat)
    | Enqueue(job: Job, score: int)
    | Renew(w: Worker)
    | LeaseExpires(w: Worker)
    | LockExpires(job: Job)
    | LegacyClaim(job: Job)
    | LegacyFinish(job: Job)
    | LegacyHealth(alive: bool)
    | Permit(w: Worker, job: Job)
    | Watch(w: Worker)
    | CheckLock(w: Worker)
    | CheckScore(w: Worker)
    | Execute(w: Worker)
    | Finish(w: Worker, job: Job, requeue: bool)
    | Crash(w: Worker)
    | BeginRecovery(w: Worker)
    | ReadLock(w: Worker, job: Job)
    | ReadLease(w: Worker, job: Job)
    | Release(w: Worker, job: Job)
    | ReleaseLegacy(w: Worker, job: Job)

  const LEGACY_STAMP: string := "1"

  predicate Runs(s: State, w: Worker, job: Job) {
    w in s.workers && job in s.workers[w].tasks
  }

  predicate Holds(s: State, w: Worker, job: Job) {
    job in s.db.locks && s.db.locks[job] == EncodeInProgressOwner(w)
  }

  predicate Enabled(s: State, e: Event) {
    match e
    case Tick(_) => true
    case Enqueue(job, _) => job !in s.db.queue
    case Renew(w) => w in s.workers
    case LeaseExpires(_) => true
    case LockExpires(_) => true
    case LegacyClaim(_) => true
    case LegacyFinish(job) => job in s.db.locks && DecodeInProgressOwner(s.db.locks[job]) == None
    case LegacyHealth(_) => true
    case Permit(w, job) =>
      w in s.workers && s.workers[w].claim.Idle? && job !in s.workers[w].tasks && s.workers[w].permits > 0
    case Watch(w) => w in s.workers && s.workers[w].claim.Permitted?
    case CheckLock(w) => w in s.workers && s.workers[w].claim.Watching?
    case CheckScore(w) => w in s.workers && s.workers[w].claim.Checked?
    case Execute(w) => w in s.workers && s.workers[w].claim.Ready?
    case Finish(w, job, _) => Runs(s, w, job)
    case Crash(w) => w in s.workers
    case BeginRecovery(w) => w in s.workers
    case ReadLock(w, _) => w in s.workers
    case ReadLease(w, job) => w in s.workers && job in s.workers[w].seen
    case Release(w, job) =>
      && w in s.workers && job in s.workers[w].seen && job in s.workers[w].dead
      && var owner := DecodeInProgressOwner(s.workers[w].seen[job]);
      owner.Some? && owner.value != w
    case ReleaseLegacy(w, job) =>
      && w in s.workers && job in s.workers[w].seen
      && DecodeInProgressOwner(s.workers[w].seen[job]) == None
  }

  function SetWorker(s: State, w: Worker, ws: WorkerState): State {
    s.(workers := s.workers[w := ws])
  }

  /** Giving up on a job after the permit was taken. */
  function Abandon(ws: WorkerState): WorkerState {
    ws.(claim := Idle, counter := ws.counter - 1, permits := ws.permits + 1)
  }

  /** The (worker, job) pairs for which w runs job and holds its lock. */
  function HoldersOf(s: State, job: Job): set<(Worker, Job)> {
    set u | u in s.workers && Runs(s, u, job) && Holds(s, u, job) :: (u, job)
  }

  function LeaseExpired(s: State, w: Worker): State {
    var jobs := if w in s.workers then s.workers[w].tasks else {};
    s.(db := s.db.(leases := s.db.leases - {w}),
       history := s.history.(
         lapsed := s.history.lapsed + set job | job in jobs :: (w, job),
         disturbed := s.history.disturbed + jobs))
  }

  function LockExpired(s: State, job: Job): State {
    s.(db := DeleteLock(s.db, job),
       history := s.history.(
         timedOut := s.history.timedOut + HoldersOf(s, job),
         disturbed := s.history.disturbed + (if HoldersOf(s, job) == {} then {} else {job})))
  }

  /** EXEC: fails when the watched key was written, else stamps the lock and runs the job. */
  function Executed(s: State, w: Worker): State
    requires w in s.workers && s.workers[w].claim.Ready?
  {
    var ws := s.workers[w];
    var job := ws.claim.job;
    if Version(s.db, job) != ws.claim.version then SetWorker(s, w, Abandon(ws))
    else
      var leased := w in s.db.leases;
      SetWorker(s, w, ws.(claim := Idle, tasks := ws.tasks + {job})).(
        db := SetLock(s.db, job, EncodeInProgressOwner(w)),
        history := s.history.(
          unleased := if leased then s.history.unleased - {(w, job)} else s.history.unleased + {(w, job)},
          lapsed := s.history.lapsed - {(w, job)},
          timedOut := s.history.timedOut - {(w, job)},
          displaced := s.history.displaced - {(w, job)},
          disturbed := if leased then s.history.disturbed else s.history.disturbed + {job}))
  }

  /** ARQ's end of a run: the in-progress key goes whoever owns it, and unless the job is
      to be retried its queue entry goes too. */
  function Finished(s: State, w: Worker, job: Job, requeue: bool): State
    requires Runs(s, w, job)
  {
    var ws := s.workers[w];
    var db := DeleteLock(s.db, job);
    SetWorker(s, w, ws.(tasks := ws.tasks - {job}, counter := ws.counter - 1, permits := ws.permits + 1)).(
      db := if requeue then db else db.(queue := db.queue - {job}),
      history := s.history.(displaced := s.history.displaced + (HoldersOf(s, job) - {(w, job)})))
  }

  function Next(s: State, e: Event): State
    requires Enabled(s, e)
  {
    match e
    case Tick(ms) => s.(db := s.db.(now := s.db.now + ms))
    case Enqueue(job, score) =>
      s.(db := s.db.(queue := s.db.queue[job := score]),
         history := s.history.(enqueued := s.history.enqueued + {job}))
    case Renew(w) => s.(db := s.db.(leases := s.db.leases + {w}))
    case LeaseExpires(w) => LeaseExpired(s, w)
    case LockExpires(job) => LockExpired(s, job)
    case LegacyClaim(job) => if job in s.db.locks then s else s.(db := SetLock(s.db, job, LEGACY_STAMP))
    case LegacyFinish(job) => s.(db := DeleteLock(s.db, job))
    case LegacyHealth(alive) => s.(db := s.db.(legacyHealth := alive))
    case Permit(w, job) =>
      var ws := s.workers[w];
      if ws.counter >= s.maxJobs then s
      else SetWorker(s, w, ws.(claim := Permitted(job), counter := ws.counter + 1, permits := ws.permits - 1))
    case Watch(w) =>
      var ws := s.workers[w];
      SetWorker(s, w, ws.(claim := Watching(ws.claim.job, Version(s.db, ws.claim.job))))
    case CheckLock(w) =>
      var ws := s.workers[w];
      SetWorker(s, w, ws.(claim := Checked(ws.claim.job, ws.claim.version, ws.claim.job in s.db.locks)))
    case CheckScore(w) =>
      var ws := s.workers[w];
      if ws.claim.locked || !Due(s.db, ws.claim.job) then SetWorker(s, w, Abandon(ws))
      else SetWorker(s, w, ws.(claim := Ready(ws.claim.job, ws.claim.version)))
    case Execute(w) => Executed(s, w)
    case Finish(w, job, requeue) => Finished(s, w, job, requeue)
    case Crash(w) => s.(workers := s.workers - {w})
    case BeginRecovery(w) => SetWorker(s, w, s.workers[w].(seen := map[], dead := {}))
    case ReadLock(w, job) =>
      if job in s.db.locks
      then SetWorker(s, w, s.workers[w].(seen := s.workers[w].seen[job := s.db.locks[job]]))
      else s
    case ReadLease(w, job) =>
      var owner := DecodeInProgressOwner(s.workers[w].seen[job]);
      if owner.Some? && owner.value !in s.db.leases
      then SetWorker(s, w, s.workers[w].(dead := s.workers[w].dead + {job}))
      else s
    case Release(w, job) =>
      var value := s.workers[w].seen[job];
      s.(db := ReleaseStaleLock(s.db, job, DecodeInProgressOwner(value).value, value))
    case ReleaseLegacy(w, job) => s.(db := ReleaseLegacyLock(s.db, job, s.workers[w].seen[job]))
  }

  /* Runs */

  ghost predicate CanRun(s: State, es: seq<Event>)
    decreases |es|
  {
    es == [] || (Enabled(s, es[0]) && CanRun(Next(s, es[0]), es[1..]))
  }

  function Run(s: State, es: seq<Event>): State
    requires CanRun(s, es)
    decreases |es|
  {
    if es == [] then s else Run(Next(s, es[0]), es[1..])
  }

  ghost predicate Initial(s: State) {
    && s.db.locks == map[] && s.db.queue == map[]
    && s.history == History({}, {}, {}, {}, {}, {})
    && forall w | w in s.workers ::
         w != "" && s.workers[w] == WorkerState({}, 0, s.maxJobs + 1, Idle, map[], {})
  }

  /** w has the job in hand: it runs it, or only EXEC is left. */
  predicate InHand(s: State, w: Worker, job: Job) {
    && w in s.workers
    && (job in s.workers[w].tasks || (s.workers[w].claim.Ready? && s.workers[w].claim.job == job))
  }

  /** The job is queued and its time has come. */
  predicate TimeHasCome(s: State, job: Job) {
    job in s.db.queue && s.db.queue[job] != 0 && s.db.queue[job] <= s.db.now
  }

  /** A worker runs a job only after it found it queued for a time that had come. */
  lemma {:induction false} NotBeforeItsTime(s: State, es: seq<Event>, w: Worker, job: Job) returns (n: nat)
    requires CanRun(s, es) && !InHand(s, w, job) && Runs(Run(s, es), w, job)
    ensures n < |es| && CanRun(s, es[..n]) && TimeHasCome(Run(s, es[..n]), job) && es[n] == CheckScore(w)
    decreases |es|
  {
    var s1 := Next(s, es[0]);
    if InHand(s1, w, job) {
      n := 0;
    } else {
      var m := NotBeforeItsTime(s1, es[1..], w, job);
      n := m + 1;
      assert es[..n][1..] == es[1..][..m];
    }
  }

  function LockOf(s: State, job: Job): Option<string> {
    if job in s.db.locks then Some(s.db.locks[job]) else None
  }

  /** The event neither changes the lock of the job nor is an EXEC that writes it, and begins no new claim of w. */
  predicate Leaves(s: State, e: Event, w: Worker, job: Job)
    requires Enabled(s, e)
  {
    && LockOf(Next(s, e), job) == LockOf(s, job)
    && !(e.Execute? && s.workers[e.w].claim.job == job)
    && !((e.Permit? || e.Watch?) && e.w == w)
  }

  ghost predicate AllLeave(s: State, es: seq<Event>, w: Worker, job: Job)
    requires CanRun(s, es)
    decreases |es|
  {
    es == [] || (Leaves(s, es[0], w, job) && AllLeave(Next(s, es[0]), es[1..], w, job))
  }

  /** The claim of the job is still the one that watches this version. */
  predicate StillWatches(s: State, w: Worker, job: Job, version: nat) {
    && Version(s.db, job) == version
    && (w in s.workers ==>
          s.workers[w].claim.Idle?
          || (!s.workers[w].claim.Permitted? && s.workers[w].claim.job == job && s.workers[w].claim.version == version))
  }

  lemma LeavesWatching(s: State, e: Event, w: Worker, job: Job, version: nat)
    requires Enabled(s, e) && StillWatches(s, w, job, version) && Leaves(s, e, w, job)
    ensures StillWatches(Next(s, e), w, job, version)
  {
  }

  lemma {:induction false} WatchLasts(s: State, es: seq<Event>, w: Worker, job: Job, version: nat)
    requires CanRun(s, es) && StillWatches(s, w, job, version) && AllLeave(s, es, w, job)
    ensures StillWatches(Run(s, es), w, job, version)
    decreases |es|
  {
    hide Next, Enabled, StillWatches, Leaves;
    if es != [] {
      LeavesWatching(s, es[0], w, job, version);
      WatchLasts(Next(s, es[0]), es[1..], w, job, version);
    }
  }

  /** A claim whose lock nobody wrote since the WATCH takes the job. */
  lemma UnwrittenClaimSucceeds(s: State, es: seq<Event>, w: Worker, job: Job)
    requires w in s.workers && s.workers[w].claim == Watching(job, Version(s.db, job))
    requires CanRun(s, es) && AllLeave(s, es, w, job) && Enabled(Run(s, es), Execute(w))
    ensures Runs(Next(Run(s, es), Execute(w)), w, job) && Holds(Next(Run(s, es), Execute(w)), w, job)
  {
    WatchLasts(s, es, w, job, Version(s.db, job));
  }

  /* Permits: `sem` has max_jobs + 1 permits, and `job_counter` counts running jobs plus
     the job being claimed. */

  ghost predicate Balanced(ws: WorkerState, maxJobs: nat) {
    && ws.counter == |ws.tasks| + (if ws.claim.Idle? then 0 else 1)
    && ws.counter + ws.permits == maxJobs + 1
    && ws.counter <= maxJobs
    && (!ws.claim.Idle? ==> ws.claim.job !in ws.tasks)
  }

  ghost predicate PermitsBalance(s: State) {
    forall w | w in s.workers :: Balanced(s.workers[w], s.maxJobs)
  }

  /** A worker never runs more than max_jobs jobs, and with nothing running and no claim in
      progress every permit is back. */
  lemma {:induction false} PermitsOverRuns(s: State, es: seq<Event>)
    requires PermitsBalance(s) && CanRun(s, es)
    ensures PermitsBalance(Run(s, es))
    ensures forall w | w in Run(s, es).workers ::
        |Run(s, es).workers[w].tasks| <= Run(s, es).maxJobs
    decreases |es|
  {
    if es != [] {
      PermitsOverRuns(Next(s, es[0]), es[1..]);
    }
  }
}
