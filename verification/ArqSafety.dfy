/** Mutual exclusion of job runs over every interleaving of ArqProtocol. */
module ArqSafety {
  import opened ArqLeases
  import opened ArqStore
  import opened ArqProtocol

  /** The worker's hold on the job lapsed at some moment from its claim on. */
  predicate Gap(s: State, w: Worker, job: Job) {
    (w, job) in s.history.unleased || (w, job) in s.history.lapsed || (w, job) in s.history.timedOut
  }

  /* Base invariant: names, watched versions, leases. */

  ghost predicate ClaimFresh(db: Db, claim: Claim) {
    match claim
    case Watching(job, v) => v <= Version(db, job)
    case Checked(job, v, locked) => v <= Version(db, job) && (v == Version(db, job) && !locked ==> job !in db.locks)
    case Ready(job, v) => v <= Version(db, job) && (v == Version(db, job) ==> job !in db.locks)
    case _ => true
  }

  ghost predicate Base(s: State) {
    && (forall w | w in s.workers :: w != "" && ClaimFresh(s.db, s.workers[w].claim))
    && (forall w, job | Runs(s, w, job) && w !in s.db.leases :: Gap(s, w, job))
    && (forall w, job | Gap(s, w, job) :: job in s.history.disturbed)
  }

  lemma ClaimFreshStep(s: State, e: Event, w: Worker)
    requires Base(s) && Enabled(s, e) && w in Next(s, e).workers
    ensures w != "" && ClaimFresh(Next(s, e).db, Next(s, e).workers[w].claim)
  {
    assert ClaimFresh(s.db, s.workers[w].claim);
  }

  lemma LeaseGapStep(s: State, e: Event, w: Worker, job: Job)
    requires Base(s) && Enabled(s, e)
    requires Runs(Next(s, e), w, job) && w !in Next(s, e).db.leases
    ensures Gap(Next(s, e), w, job)
  {
    if e == LeaseExpires(w) {
      assert job in s.workers[w].tasks;
    } else if Runs(s, w, job) {
      assert Gap(s, w, job);
    }
  }

  lemma GapDisturbsStep(s: State, e: Event, w: Worker, job: Job)
    requires Base(s) && Enabled(s, e) && Gap(Next(s, e), w, job)
    ensures job in Next(s, e).history.disturbed
  {
    if !Gap(s, w, job) && e.LockExpires? {
      assert (w, job) in HoldersOf(s, e.job);
    }
  }

  lemma BaseStep(s: State, e: Event)
    requires Base(s) && Enabled(s, e)
    ensures Base(Next(s, e))
  {
    var t := Next(s, e);
    forall w | w in t.workers ensures w != "" && ClaimFresh(t.db, t.workers[w].claim) {
      ClaimFreshStep(s, e, w);
    }
    forall w, job | Runs(t, w, job) && w !in t.db.leases ensures Gap(t, w, job) {
      LeaseGapStep(s, e, w, job);
    }
    forall w, job | Gap(t, w, job) ensures job in t.history.disturbed {
      GapDisturbsStep(s, e, w, job);
    }
  }

  /** A recovery script never removes the lock of a worker whose lease is alive, whatever
      the recovering worker read before: a lock retaken between its read and its script
      survives. */
  lemma LiveLockSurvivesRecovery(s: State, e: Event, w: Worker, job: Job)
    requires Enabled(s, e) && (e.Release? || e.ReleaseLegacy?)
    requires w != "" && w in s.db.leases && Holds(s, w, job)
    ensures Holds(Next(s, e), w, job)
  {
    DecodeExactlyOwnStamp(s.db.locks[job], w);
  }

  /** A recovery script deletes a lock only as it was read: one that was retaken since, by any owner
      and with or without a lease, survives. */
  lemma ChangedLockSurvivesRecovery(s: State, e: Event, job: Job)
    requires Enabled(s, e) && (e.Release? || e.ReleaseLegacy?)
    requires job in s.db.locks && (e.job == job ==> s.workers[e.w].seen[job] != s.db.locks[job])
    ensures job in Next(s, e).db.locks && Next(s, e).db.locks[job] == s.db.locks[job]
  {
  }

  predicate Claims(s: State, e: Event, job: Job) {
    e.Execute? && e.w in s.workers && s.workers[e.w].claim == Ready(job, Version(s.db, job))
  }

  lemma OnlyClaimsStartRuns(s: State, e: Event, w: Worker, job: Job)
    requires Enabled(s, e) && Runs(Next(s, e), w, job)
    ensures Runs(s, w, job) || (Claims(s, e, job) && e.w == w)
  {
  }

  /* No gap anywhere on the job: its runner holds the lock, so it is the only one. This
     holds with retries and re-enqueued jobs. */

  ghost predicate UndisturbedHold(s: State) {
    forall w, job | Runs(s, w, job) && job !in s.history.disturbed :: Holds(s, w, job)
  }

  lemma UndisturbedHoldStep(s: State, e: Event, w: Worker, job: Job)
    requires Base(s) && UndisturbedHold(s) && Enabled(s, e)
    requires Runs(Next(s, e), w, job) && job !in Next(s, e).history.disturbed
    ensures Holds(Next(s, e), w, job)
  {
    OnlyClaimsStartRuns(s, e, w, job);
    if !Claims(s, e, job) {
      assert Runs(s, w, job) && Holds(s, w, job) && !Gap(s, w, job);
      assert (w, job) in HoldersOf(s, job);
      DecodeExactlyOwnStamp(EncodeInProgressOwner(w), w);
      if e.Finish? && e.job == job { StampsAreInjective(e.w, w); }
    }
  }

  lemma UndisturbedStep(s: State, e: Event)
    requires Base(s) && UndisturbedHold(s) && Enabled(s, e)
    ensures UndisturbedHold(Next(s, e))
  {
    var t := Next(s, e);
    forall w, job | Runs(t, w, job) && job !in t.history.disturbed ensures Holds(t, w, job) {
      UndisturbedHoldStep(s, e, w, job);
    }
  }

  lemma {:induction false} UndisturbedRun(s: State, es: seq<Event>)
    requires Base(s) && UndisturbedHold(s) && CanRun(s, es)
    ensures Base(Run(s, es)) && UndisturbedHold(Run(s, es))
    decreases |es|
  {
    if es != [] {
      BaseStep(s, es[0]);
      UndisturbedStep(s, es[0]);
      UndisturbedRun(Next(s, es[0]), es[1..]);
    }
  }

  /** In every run, two workers run the same job at once only if at some time some worker
      running that job had no lease or outlived the lock. */
  lemma DoubleRunNeedsDisturbance(s: State, es: seq<Event>, u: Worker, w: Worker, job: Job)
    requires Initial(s) && CanRun(s, es)
    requires u != w && Runs(Run(s, es), u, job) && Runs(Run(s, es), w, job)
    ensures job in Run(s, es).history.disturbed
  {
    UndisturbedRun(s, es);
    if EncodeInProgressOwner(u) == EncodeInProgressOwner(w) { StampsAreInjective(u, w); }
  }

  /* The sharper, pairwise form, for every run: a runner that lost nothing itself still holds the lock. */

  /** Another runner of the job finished and deleted this worker's lock. */
  ghost predicate Displaced(s: State, w: Worker, job: Job) {
    (w, job) in s.history.displaced
  }

  ghost predicate HeldUnlessLost(s: State) {
    forall w, job | Runs(s, w, job) && !Gap(s, w, job) && !Displaced(s, w, job) :: Holds(s, w, job)
  }

  lemma HeldUnlessLostOne(s: State, e: Event, w: Worker, job: Job)
    requires Base(s) && HeldUnlessLost(s) && Enabled(s, e)
    requires Runs(Next(s, e), w, job) && !Gap(Next(s, e), w, job) && !Displaced(Next(s, e), w, job)
    ensures Holds(Next(s, e), w, job)
  {
    OnlyClaimsStartRuns(s, e, w, job);
    if !(Claims(s, e, job) && e.w == w) {
      assert Runs(s, w, job) && !Displaced(s, w, job);
      assert Holds(s, w, job) && (w, job) in HoldersOf(s, job);
      DecodeExactlyOwnStamp(EncodeInProgressOwner(w), w);
    }
  }

  lemma HeldUnlessLostStep(s: State, e: Event)
    requires Base(s) && HeldUnlessLost(s) && Enabled(s, e)
    ensures HeldUnlessLost(Next(s, e))
  {
    var t := Next(s, e);
    forall w, job | Runs(t, w, job) && !Gap(t, w, job) && !Displaced(t, w, job) ensures Holds(t, w, job) {
      HeldUnlessLostOne(s, e, w, job);
    }
  }

  lemma {:induction false} HeldUnlessLostRun(s: State, es: seq<Event>)
    requires Base(s) && HeldUnlessLost(s) && CanRun(s, es)
    ensures Base(Run(s, es)) && HeldUnlessLost(Run(s, es))
    decreases |es|
  {
    if es != [] {
      BaseStep(s, es[0]);
      HeldUnlessLostStep(s, es[0]);
      HeldUnlessLostRun(Next(s, es[0]), es[1..]);
    }
  }

  lemma OneHolder(s: State, u: Worker, w: Worker, job: Job)
    requires Holds(s, u, job) && Holds(s, w, job)
    ensures u == w
  {
    StampsAreInjective(u, w);
  }

  /** In every run, with retries and ids queued again, two workers run the same job at once only if one
      of those two had no lease when it claimed the job, lost its lease after that, ran past the expiry
      of the lock, or had its lock deleted by another runner that finished. */
  lemma DoubleRunNeedsOwnLoss(s: State, es: seq<Event>, u: Worker, w: Worker, job: Job)
    requires Initial(s) && CanRun(s, es)
    requires u != w && Runs(Run(s, es), u, job) && Runs(Run(s, es), w, job)
    ensures var t := Run(s, es);
            Gap(t, u, job) || Gap(t, w, job) || Displaced(t, u, job) || Displaced(t, w, job)
  {
    HeldUnlessLostRun(s, es);
    var t := Run(s, es);
    if Holds(t, u, job) && Holds(t, w, job) { OneHolder(t, u, w, job); }
  }

  /** Who displaces whom: after any run, a worker that finishes a job and takes another's lock with it
      had lost its own hold on that job before, or had been displaced itself. */
  lemma DisplacerHadLostItsHold(s: State, es: seq<Event>, e: Event, victim: Worker, job: Job)
    requires Initial(s) && CanRun(s, es) && Enabled(Run(s, es), e)
    requires !Displaced(Run(s, es), victim, job) && Displaced(Next(Run(s, es), e), victim, job)
    ensures e.Finish? && e.job == job && e.w != victim && Runs(Run(s, es), victim, job)
    ensures Gap(Run(s, es), e.w, job) || Displaced(Run(s, es), e.w, job)
  {
    HeldUnlessLostRun(s, es);
    var t := Run(s, es);
    assert (victim, job) in HoldersOf(t, job);
    if Holds(t, e.w, job) { OneHolder(t, victim, e.w, job); }
  }

  /* When a job id is queued once and its run is not retried, no one claims a job after a displacement,
     and it is one of the two runners themselves whose hold lapsed. */

  ghost predicate QueuedOnce(s: State, e: Event) {
    match e
    case Enqueue(job, _) => job !in s.history.enqueued
    case Finish(_, _, requeue) => !requeue
    case _ => true
  }

  ghost predicate RunsOnce(s: State, es: seq<Event>)
    requires CanRun(s, es)
    decreases |es|
  {
    es == [] || (QueuedOnce(s, es[0]) && RunsOnce(Next(s, es[0]), es[1..]))
  }

  /** A job in the queue, run or about to be claimed has been queued; a displacement ends its queueing. */
  ghost predicate QueueingEnds(s: State) {
    && (forall job | job in s.db.queue :: job in s.history.enqueued)
    && (forall w, job | Displaced(s, w, job) :: job !in s.db.queue && job in s.history.enqueued)
    && (forall w | w in s.workers && s.workers[w].claim.Ready? :: s.workers[w].claim.job in s.history.enqueued)
    && (forall w, job | Runs(s, w, job) :: job in s.history.enqueued)
  }

  /** A claim ready for a job of which someone was displaced will fail. */
  ghost predicate LateClaimsFail(s: State) {
    forall w, u, job | w in s.workers && s.workers[w].claim.Ready? && Displaced(s, u, job) ::
      s.workers[w].claim.job == job ==> s.workers[w].claim.version != Version(s.db, job)
  }

  ghost predicate Pairwise(s: State) {
    && HeldUnlessLost(s) && QueueingEnds(s) && LateClaimsFail(s)
    && (forall u, w, job | Runs(s, u, job) && Runs(s, w, job) && u != w :: Gap(s, u, job) || Gap(s, w, job))
  }

  lemma QueueingEndsStep(s: State, e: Event)
    requires QueueingEnds(s) && Enabled(s, e) && QueuedOnce(s, e)
    ensures QueueingEnds(Next(s, e))
  {
    var t := Next(s, e);
    forall w, job | Displaced(t, w, job) ensures job !in t.db.queue && job in t.history.enqueued {
      if !Displaced(s, w, job) { assert e.Finish? && Runs(s, e.w, job); }
    }
    forall w, job | Runs(t, w, job) ensures job in t.history.enqueued {
      if !Runs(s, w, job) { assert s.workers[w].claim.Ready?; }
    }
    forall w | w in t.workers && t.workers[w].claim.Ready? ensures t.workers[w].claim.job in t.history.enqueued {
      assert s.workers[w].claim.Ready? || s.workers[w].claim.job in s.db.queue;
    }
  }

  lemma LateClaimFails(s: State, e: Event, w: Worker, u: Worker, job: Job)
    requires Base(s) && QueueingEnds(s) && LateClaimsFail(s) && Enabled(s, e) && QueuedOnce(s, e)
    requires w in Next(s, e).workers && Next(s, e).workers[w].claim.Ready? && Next(s, e).workers[w].claim.job == job
    requires Displaced(Next(s, e), u, job)
    ensures Next(s, e).workers[w].claim.version != Version(Next(s, e).db, job)
  {
    assert ClaimFresh(s.db, s.workers[w].claim);
    if !Displaced(s, u, job) {
      assert (u, job) in HoldersOf(s, job);
    }
  }

  lemma PairwiseGapStep(s: State, e: Event, u: Worker, w: Worker, job: Job)
    requires Base(s) && Pairwise(s) && Enabled(s, e)
    requires u != w && Runs(Next(s, e), u, job) && Runs(Next(s, e), w, job)
    ensures Gap(Next(s, e), u, job) || Gap(Next(s, e), w, job)
  {
    OnlyClaimsStartRuns(s, e, u, job);
    OnlyClaimsStartRuns(s, e, w, job);
  }

  lemma PairwiseStep(s: State, e: Event)
    requires Base(s) && Pairwise(s) && Enabled(s, e) && QueuedOnce(s, e)
    ensures Pairwise(Next(s, e))
  {
    hide Next, Enabled, Base, Gap, Runs;
    HeldUnlessLostStep(s, e);
    QueueingEndsStep(s, e);
    var t := Next(s, e);
    forall u, w, job | Runs(t, u, job) && Runs(t, w, job) && u != w ensures Gap(t, u, job) || Gap(t, w, job) {
      PairwiseGapStep(s, e, u, w, job);
    }
    forall w, u, job
      | w in t.workers && t.workers[w].claim.Ready? && Displaced(t, u, job) && t.workers[w].claim.job == job
      ensures t.workers[w].claim.version != Version(t.db, job)
    {
      LateClaimFails(s, e, w, u, job);
    }
  }

  lemma {:induction false} PairwiseRun(s: State, es: seq<Event>)
    requires Base(s) && Pairwise(s) && CanRun(s, es) && RunsOnce(s, es)
    ensures Pairwise(Run(s, es))
    decreases |es|
  {
    if es != [] {
      BaseStep(s, es[0]);
      PairwiseStep(s, es[0]);
      PairwiseRun(Next(s, es[0]), es[1..]);
    }
  }

  /** In every run with each job queued once and no retries, two workers run the same job
      at once only if one of those two had no lease when it claimed the job, lost its lease
      after that, or ran past the expiry of the lock. */
  lemma DoubleRunNeedsOwnGap(s: State, es: seq<Event>, u: Worker, w: Worker, job: Job)
    requires Initial(s) && CanRun(s, es) && RunsOnce(s, es)
    requires u != w && Runs(Run(s, es), u, job) && Runs(Run(s, es), w, job)
    ensures Gap(Run(s, es), u, job) || Gap(Run(s, es), w, job)
  {
    PairwiseRun(s, es);
  }
}
