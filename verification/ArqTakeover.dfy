/** The other half of ArqSafety: a worker without a lease can really lose its job to another,
    and the lease may be lost before the claim rather than after it. */
module ArqTakeover {
  import opened ArqLeases
  import opened ArqStore
  import opened ArqProtocol
  import opened ArqSafety

  predicate CanClaim(s: State, w: Worker, job: Job) {
    && w in s.workers && s.workers[w].claim.Idle? && job !in s.workers[w].tasks
    && s.workers[w].permits > 0 && s.workers[w].counter < s.maxJobs
    && TimeHasCome(s, job)
  }

  ghost predicate Reaches(s: State, t: State) {
    exists es :: CanRun(s, es) && Run(s, es) == t
  }

  lemma {:induction false} RunsConcat(s: State, es: seq<Event>, fs: seq<Event>)
    requires CanRun(s, es) && CanRun(Run(s, es), fs)
    ensures CanRun(s, es + fs) && Run(s, es + fs) == Run(Run(s, es), fs)
    decreases |es|
  {
    if es == [] {
      assert es + fs == fs;
    } else {
      assert (es + fs)[1..] == es[1..] + fs;
      RunsConcat(Next(s, es[0]), es[1..], fs);
    }
  }

  lemma ReachesItself(s: State)
    ensures Reaches(s, s)
  {
    assert CanRun(s, []) && Run(s, []) == s;
  }

  lemma OneEvent(s: State, e: Event)
    requires Enabled(s, e)
    ensures CanRun(s, [e]) && Run(s, [e]) == Next(s, e)
  {
    hide Next, Enabled;
    assert [e][1..] == [];
    assert CanRun(Next(s, e), []) && Run(Next(s, e), []) == Next(s, e);
  }

  lemma ReachesNext(s: State, t: State, e: Event)
    requires Reaches(s, t) && Enabled(t, e)
    ensures Reaches(s, Next(t, e))
  {
    var es :| CanRun(s, es) && Run(s, es) == t;
    OneEvent(t, e);
    RunsConcat(s, es, [e]);
  }

  lemma ReachesTransitively(s: State, t: State, u: State)
    requires Reaches(s, t) && Reaches(t, u)
    ensures Reaches(s, u)
  {
    var es :| CanRun(s, es) && Run(s, es) == t;
    var fs :| CanRun(t, fs) && Run(t, fs) == u;
    RunsConcat(s, es, fs);
  }

  /** Everything read and checked, EXEC still to come. */
  function AboutToExecute(s: State, w: Worker, job: Job): State
    requires CanClaim(s, w, job)
  {
    var ws := s.workers[w];
    SetWorker(s, w, ws.(claim := Ready(job, Version(s.db, job)), counter := ws.counter + 1, permits := ws.permits - 1))
  }

  function Claimed(s: State, w: Worker, job: Job): State
    requires CanClaim(s, w, job)
  {
    Next(AboutToExecute(s, w, job), Execute(w))
  }

  function Recovered(s: State, u: Worker, w: Worker, job: Job): State
    requires w in s.workers
  {
    var worker := s.workers[w].(seen := map[job := EncodeInProgressOwner(u)], dead := {job});
    SetWorker(s, w, worker).(db := DeleteLock(s.db, job))
  }

  lemma FirstFourCommands(s: State, w: Worker, job: Job) returns (t: State)
    requires CanClaim(s, w, job) && job !in s.db.locks
    ensures t == Next(Next(Next(Next(s, Permit(w, job)), Watch(w)), CheckLock(w)), CheckScore(w)) && Reaches(s, t)
  {
    ReachesItself(s);
    t := Next(s, Permit(w, job));
    ReachesNext(s, s, Permit(w, job));
    ReachesNext(s, t, Watch(w));
    t := Next(t, Watch(w));
    ReachesNext(s, t, CheckLock(w));
    t := Next(t, CheckLock(w));
    ReachesNext(s, t, CheckScore(w));
    t := Next(t, CheckScore(w));
  }

  /** Nobody in between: a claim on a free lock succeeds. */
  lemma ClaimSucceeds(s: State, w: Worker, job: Job)
    requires CanClaim(s, w, job) && job !in s.db.locks
    ensures Reaches(s, Claimed(s, w, job))
  {
    var t := FirstFourCommands(s, w, job);
    assert t == AboutToExecute(s, w, job);
    ReachesNext(s, t, Execute(w));
  }

  /** Nobody in between: a worker with a free slot can come to run any free job of the queue, when it is due or by
      waiting until it is. */
  lemma QueuedJobCanBeRun(s: State, w: Worker, job: Job) returns (t: State)
    requires w in s.workers && s.workers[w].claim.Idle? && job !in s.workers[w].tasks
    requires s.workers[w].permits > 0 && s.workers[w].counter < s.maxJobs
    requires job in s.db.queue && s.db.queue[job] != 0 && job !in s.db.locks
    ensures Reaches(s, t) && Runs(t, w, job) && t.workers.Keys == s.workers.Keys
  {
    var wait := if s.db.queue[job] > s.db.now then s.db.queue[job] - s.db.now else 0;
    var later := Next(s, Tick(wait));
    ReachesItself(s);
    ReachesNext(s, s, Tick(wait));
    ClaimSucceeds(later, w, job);
    t := Claimed(later, w, job);
    ReachesTransitively(s, later, t);
  }

  /** The state after BeginRecovery, ReadLock and ReadLease have found the owner u dead. */
  function FoundDead(s: State, u: Worker, w: Worker, job: Job): State
    requires w in s.workers
  {
    SetWorker(s, w, s.workers[w].(seen := map[job := EncodeInProgressOwner(u)], dead := {job}))
  }

  lemma RecoveryReads(s: State, u: Worker, w: Worker, job: Job)
    requires u != "" && u != w && w in s.workers && Holds(s, u, job) && u !in s.db.leases
    ensures Reaches(s, FoundDead(s, u, w, job))
  {
    DecodeExactlyOwnStamp(EncodeInProgressOwner(u), u);
    ReachesItself(s);
    var t1 := Next(s, BeginRecovery(w));
    ReachesNext(s, s, BeginRecovery(w));
    var t2 := Next(t1, ReadLock(w, job));
    ReachesNext(s, t1, ReadLock(w, job));
    assert t2.workers[w].seen == map[job := EncodeInProgressOwner(u)];
    var t3 := Next(t2, ReadLease(w, job));
    ReachesNext(s, t2, ReadLease(w, job));
    assert t3.workers[w].dead == {job};
    assert t3.workers == FoundDead(s, u, w, job).workers;
  }

  /** Recovery by another worker removes the lock of an owner without a lease. */
  lemma RecoverySucceeds(s: State, u: Worker, w: Worker, job: Job)
    requires u != "" && u != w && w in s.workers && Holds(s, u, job) && u !in s.db.leases
    ensures Reaches(s, Recovered(s, u, w, job))
  {
    DecodeExactlyOwnStamp(EncodeInProgressOwner(u), u);
    RecoveryReads(s, u, w, job);
    var t := FoundDead(s, u, w, job);
    assert Enabled(t, Release(w, job));
    ReachesNext(s, t, Release(w, job));
  }

  /** What a crashed worker ran, any other worker with a free slot can come to run, once the lease is gone. */
  lemma CrashedJobIsTakenOver(s: State, u: Worker, w: Worker, job: Job) returns (t: State)
    requires u != "" && u != w && Runs(s, u, job) && Holds(s, u, job)
    requires w in s.workers && s.workers[w].claim.Idle? && job !in s.workers[w].tasks
    requires s.workers[w].permits > 0 && s.workers[w].counter < s.maxJobs
    requires job in s.db.queue && s.db.queue[job] != 0
    ensures Reaches(s, t) && Runs(t, w, job) && u !in t.workers
  {
    var s1 := Next(s, Crash(u));
    ReachesItself(s);
    ReachesNext(s, s, Crash(u));
    var s2 := Next(s1, LeaseExpires(u));
    ReachesNext(s, s1, LeaseExpires(u));
    RecoverySucceeds(s2, u, w, job);
    var s3 := Recovered(s2, u, w, job);
    ReachesTransitively(s, s2, s3);
    t := QueuedJobCanBeRun(s3, w, job);
    ReachesTransitively(s, s3, t);
  }

  /** An uninterrupted pass frees a lock without an owner when no legacy worker is alive. */
  lemma LegacyRecoverySucceeds(s: State, w: Worker, job: Job) returns (t: State)
    requires w in s.workers && Unowned(s.db, job)
    ensures Reaches(s, t) && (job in t.db.locks <==> s.db.legacyHealth)
  {
    ReachesItself(s);
    var s1 := Next(s, BeginRecovery(w));
    ReachesNext(s, s, BeginRecovery(w));
    var s2 := Next(s1, ReadLock(w, job));
    ReachesNext(s, s1, ReadLock(w, job));
    t := Next(s2, ReleaseLegacy(w, job));
    ReachesNext(s, s2, ReleaseLegacy(w, job));
  }

  /** A legacy worker's lock on a free job goes when it finishes, or with a pass after it died, and not with a pass
      while it lives. */
  lemma LegacyLockComesAndGoes(s: State, w: Worker, job: Job, alive: bool) returns (held: State, t: State, u: State)
    requires w in s.workers && job !in s.db.locks
    ensures Reaches(s, held) && Unowned(held.db, job) && held.db.legacyHealth == alive
    ensures Reaches(held, t) && (job in t.db.locks <==> alive)
    ensures Reaches(held, u) && job !in u.db.locks
  {
    ReachesItself(s);
    var s1 := Next(s, LegacyHealth(alive));
    ReachesNext(s, s, LegacyHealth(alive));
    held := Next(s1, LegacyClaim(job));
    ReachesNext(s, s1, LegacyClaim(job));
    assert DecodeInProgressOwner(LEGACY_STAMP).None?;
    t := LegacyRecoverySucceeds(held, w, job);
    u := Next(held, LegacyFinish(job));
    ReachesItself(held);
    ReachesNext(held, held, LegacyFinish(job));
  }

  /** Whenever a worker runs a due job that is not locked, or locked by itself without a lease, any other
      worker with a free slot can come to run it too. */
  lemma RunnerCanBeDoubled(s: State, u: Worker, w: Worker, job: Job) returns (t: State)
    requires u != w && Runs(s, u, job) && CanClaim(s, w, job)
    requires job in s.db.locks ==> u != "" && Holds(s, u, job) && u !in s.db.leases
    ensures Reaches(s, t) && Runs(t, u, job) && Runs(t, w, job)
    ensures t.history.lapsed <= s.history.lapsed && t.history.timedOut <= s.history.timedOut
  {
    var r := s;
    ReachesItself(s);
    if job in s.db.locks {
      RecoverySucceeds(s, u, w, job);
      r := Recovered(s, u, w, job);
    }
    ClaimSucceeds(r, w, job);
    t := Claimed(r, w, job);
    ReachesTransitively(s, r, t);
  }

  function TwoWorkers(): State {
    var idle := WorkerState({}, 0, 2, Idle, map[], {});
    State(Db(5, map[], map[], map[], {}, false), map["a" := idle, "b" := idle], 1, History({}, {}, {}, {}, {}, {}))
  }

  /** A lease lost after the claim is not needed for a double run: a worker whose lease
      expires between its renewal and its EXEC is doubled without losing anything later. */
  lemma LeaseMayBeGoneBeforeTheClaim() returns (t: State)
    ensures Initial(TwoWorkers()) && Reaches(TwoWorkers(), t) && Runs(t, "a", "j") && Runs(t, "b", "j")
    ensures t.history.lapsed == {} && t.history.timedOut == {}
  {
    var s := TwoWorkers();
    ReachesItself(s);
    ReachesNext(s, s, Renew("a"));
    var s1 := Next(s, Renew("a"));
    ReachesNext(s, s1, Enqueue("j", 3));
    var s2 := Next(s1, Enqueue("j", 3));
    ReachesNext(s, s2, LeaseExpires("a"));
    var s3 := Next(s2, LeaseExpires("a"));
    ClaimSucceeds(s3, "a", "j");
    var s4 := Claimed(s3, "a", "j");
    ReachesTransitively(s, s3, s4);
    t := RunnerCanBeDoubled(s4, "a", "b", "j");
    ReachesTransitively(s, s4, t);
  }

  function ThreeWorkers(): State {
    var idle := WorkerState({}, 0, 2, Idle, map[], {});
    var workers := map["a" := idle, "b" := idle, "c" := idle];
    State(Db(5, map[], map[], map[], {}, false), workers, 1, History({}, {}, {}, {}, {}, {}))
  }

  /** All three workers renewed their leases, and job "j" is due. */
  function AllLeased(): State {
    ThreeWorkers().(
      db := Db(5, map["j" := 3], map[], map[], {"a", "b", "c"}, false),
      history := History({}, {}, {}, {}, {}, {"j"}))
  }

  lemma AllCanBeLeased()
    ensures Initial(ThreeWorkers()) && Reaches(ThreeWorkers(), AllLeased())
  {
    hide Reaches;
    var s := ThreeWorkers();
    var s1 := Next(s, Renew("a"));
    var s2 := Next(s1, Renew("b"));
    var s3 := Next(s2, Renew("c"));
    ReachesItself(s);
    ReachesNext(s, s, Renew("a"));
    ReachesNext(s, s1, Renew("b"));
    ReachesNext(s, s2, Renew("c"));
    ReachesNext(s, s3, Enqueue("j", 3));
    assert Next(s3, Enqueue("j", 3)) == AllLeased();
  }

  /** "a" claimed the job and lost its lease; "b" recovered the lock and claimed the job too. */
  lemma SecondRunner() returns (t: State)
    ensures Reaches(AllLeased(), t)
    ensures Runs(t, "a", "j") && Runs(t, "b", "j") && Holds(t, "b", "j")
    ensures CanClaim(t.(db := DeleteLock(t.db, "j")), "c", "j")
    ensures !Gap(t, "b", "j") && !Gap(t, "c", "j") && t.db.leases == {"b", "c"}
  {
    hide Reaches;
    var s := AllLeased();
    ClaimSucceeds(s, "a", "j");
    var s1 := Claimed(s, "a", "j");
    ReachesNext(s, s1, LeaseExpires("a"));
    var s2 := Next(s1, LeaseExpires("a"));
    RecoverySucceeds(s2, "a", "b", "j");
    var s3 := Recovered(s2, "a", "b", "j");
    ReachesTransitively(s, s2, s3);
    ClaimSucceeds(s3, "b", "j");
    t := Claimed(s3, "b", "j");
    ReachesTransitively(s, s3, t);
  }

  /** With a retry the two runners may both have done nothing wrong: "a", which lost its lease, ends its
      run with a retry and takes away the lock of "b", so that "c" claims the job beside "b". */
  lemma RetryDoublesWithoutOwnGap() returns (t: State)
    ensures Initial(ThreeWorkers()) && Reaches(ThreeWorkers(), t)
    ensures Runs(t, "b", "j") && Runs(t, "c", "j") && !Gap(t, "b", "j") && !Gap(t, "c", "j")
    ensures Displaced(t, "b", "j") && t.db.leases == {"b", "c"}
  {
    hide Reaches;
    AllCanBeLeased();
    var s1 := SecondRunner();
    ReachesTransitively(ThreeWorkers(), AllLeased(), s1);
    var e := Finish("a", "j", true);
    ReachesNext(ThreeWorkers(), s1, e);
    var s2 := Next(s1, e);
    assert ("b", "j") in HoldersOf(s1, "j");
    ClaimSucceeds(s2, "c", "j");
    t := Claimed(s2, "c", "j");
    ReachesTransitively(ThreeWorkers(), s2, t);
  }
}
