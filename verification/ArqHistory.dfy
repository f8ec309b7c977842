/** What the history in ArqProtocol says of a run, told by the events of the run alone. */
module ArqHistory {
  import opened Wrappers
  import opened ArqLeases
  import opened ArqStore
  import opened ArqProtocol

  /** How a worker can lose its hold on a job, or not have it from the start. */
  datatype Loss = NoLease | LeaseGone | LockGone | Displaced

  /** The EXEC that makes w run the job. */
  predicate Starts(s: State, e: Event, w: Worker, job: Job)
    requires Enabled(s, e)
  {
    e == Execute(w) && s.workers[w].claim.job == job && s.workers[w].claim.version == Version(s.db, job)
  }

  predicate RunsAndHolds(s: State, w: Worker, job: Job) {
    Runs(s, w, job) && Holds(s, w, job)
  }

  predicate Occurs(s: State, e: Event, w: Worker, job: Job, loss: Loss)
    requires Enabled(s, e)
  {
    match loss
    case NoLease => Starts(s, e, w, job) && w !in s.db.leases
    case LeaseGone => e == LeaseExpires(w) && Runs(s, w, job)
    case LockGone => e == LockExpires(job) && RunsAndHolds(s, w, job)
    case Displaced => e.Finish? && e.job == job && e.w != w && RunsAndHolds(s, w, job)
  }

  function StateAt(s: State, es: seq<Event>, n: nat): State
    requires CanRun(s, es) && n <= |es|
    decreases n
  {
    if n == 0 then s else StateAt(Next(s, es[0]), es[1..], n - 1)
  }

  lemma {:induction false} EnabledAt(s: State, es: seq<Event>, n: nat)
    requires CanRun(s, es) && n < |es|
    ensures Enabled(StateAt(s, es, n), es[n])
    decreases n
  {
    hide Next, Enabled;
    if n > 0 { EnabledAt(Next(s, es[0]), es[1..], n - 1); }
  }

  ghost predicate OccursAt(s: State, es: seq<Event>, n: nat, w: Worker, job: Job, loss: Loss)
    requires CanRun(s, es) && n < |es|
  {
    Enabled(StateAt(s, es, n), es[n]) && Occurs(StateAt(s, es, n), es[n], w, job, loss)
  }

  ghost predicate StartsAt(s: State, es: seq<Event>, n: nat, w: Worker, job: Job)
    requires CanRun(s, es) && n < |es|
  {
    Enabled(StateAt(s, es, n), es[n]) && Starts(StateAt(s, es, n), es[n], w, job)
  }

  /** w does not start the job again at step n or later. */
  ghost predicate NoStartFrom(s: State, es: seq<Event>, n: nat, w: Worker, job: Job)
    requires CanRun(s, es)
  {
    forall m | n <= m < |es| :: !StartsAt(s, es, m, w, job)
  }

  /** The loss occurred in the run, and w has not started the job anew since. */
  ghost predicate LostSince(s: State, es: seq<Event>, w: Worker, job: Job, loss: Loss)
    requires CanRun(s, es)
  {
    exists n | 0 <= n < |es| :: OccursAt(s, es, n, w, job, loss) && NoStartFrom(s, es, n + 1, w, job)
  }

  function Entries(h: History, loss: Loss): set<(Worker, Job)> {
    match loss
    case NoLease => h.unleased
    case LeaseGone => h.lapsed
    case LockGone => h.timedOut
    case Displaced => h.displaced
  }

  lemma EntryStep(s: State, e: Event, w: Worker, job: Job, loss: Loss)
    requires Enabled(s, e)
    ensures (w, job) in Entries(Next(s, e).history, loss) <==>
              Occurs(s, e, w, job, loss) || ((w, job) in Entries(s.history, loss) && !Starts(s, e, w, job))
  {
    if e.LeaseExpires? {
      assert Next(s, e).history.lapsed
        == s.history.lapsed + set j | j in (if e.w in s.workers then s.workers[e.w].tasks else {}) :: (e.w, j);
    }
  }

  /** One step more in front. */
  lemma StepInFront(s: State, e: Event, rest: seq<Event>, n: nat, w: Worker, job: Job, loss: Loss)
    requires Enabled(s, e) && CanRun(Next(s, e), rest) && n < |rest|
    ensures CanRun(s, [e] + rest)
    ensures OccursAt(s, [e] + rest, n + 1, w, job, loss) <==> OccursAt(Next(s, e), rest, n, w, job, loss)
    ensures StartsAt(s, [e] + rest, n + 1, w, job) <==> StartsAt(Next(s, e), rest, n, w, job)
  {
    hide Next, Enabled, Occurs, Starts;
    assert ([e] + rest)[1..] == rest;
  }

  lemma FrontOfRun(s: State, e: Event, rest: seq<Event>, w: Worker, job: Job, loss: Loss)
    requires Enabled(s, e) && CanRun(Next(s, e), rest)
    ensures CanRun(s, [e] + rest) && Run(s, [e] + rest) == Run(Next(s, e), rest)
    ensures NoStartFrom(s, [e] + rest, 1, w, job) <==> NoStartFrom(Next(s, e), rest, 0, w, job)
    ensures NoStartFrom(s, [e] + rest, 0, w, job)
       <==> !Starts(s, e, w, job) && NoStartFrom(Next(s, e), rest, 0, w, job)
    ensures LostSince(s, [e] + rest, w, job, loss)
       <==> LostSince(Next(s, e), rest, w, job, loss)
            || (Occurs(s, e, w, job, loss) && NoStartFrom(Next(s, e), rest, 0, w, job))
  {
    hide Next, Enabled, Occurs, Starts;
    var es, s1 := [e] + rest, Next(s, e);
    assert es[1..] == rest;
    forall n: nat | n < |rest|
      ensures OccursAt(s, es, n + 1, w, job, loss) <==> OccursAt(s1, rest, n, w, job, loss)
      ensures StartsAt(s, es, n + 1, w, job) <==> StartsAt(s1, rest, n, w, job)
    {
      StepInFront(s, e, rest, n, w, job, loss);
    }
    NoStartShifts(s, e, rest, w, job);
    assert OccursAt(s, es, 0, w, job, loss) <==> Occurs(s, e, w, job, loss);
    assert StartsAt(s, es, 0, w, job) <==> Starts(s, e, w, job);
    if n :| 0 <= n < |rest| && OccursAt(s1, rest, n, w, job, loss) && NoStartFrom(s1, rest, n + 1, w, job) {
      assert OccursAt(s, es, n + 1, w, job, loss) && NoStartFrom(s, es, n + 2, w, job);
    }
    if n :| 0 <= n < |es| && OccursAt(s, es, n, w, job, loss) && NoStartFrom(s, es, n + 1, w, job) {
      if n > 0 { assert OccursAt(s1, rest, n - 1, w, job, loss) && NoStartFrom(s1, rest, n, w, job); }
    }
  }

  lemma NoStartShifts(s: State, e: Event, rest: seq<Event>, w: Worker, job: Job)
    requires Enabled(s, e) && CanRun(Next(s, e), rest)
    ensures CanRun(s, [e] + rest)
    ensures forall n: nat :: NoStartFrom(s, [e] + rest, n + 1, w, job) <==> NoStartFrom(Next(s, e), rest, n, w, job)
  {
    hide Next, Enabled, StartsAt;
    assert ([e] + rest)[1..] == rest;
    forall n: nat
      ensures NoStartFrom(s, [e] + rest, n + 1, w, job) <==> NoStartFrom(Next(s, e), rest, n, w, job)
    {
      forall m: nat | m < |rest|
        ensures StartsAt(s, [e] + rest, m + 1, w, job) <==> StartsAt(Next(s, e), rest, m, w, job)
      {
        StepInFront(s, e, rest, m, w, job, NoLease);
      }
      if NoStartFrom(s, [e] + rest, n + 1, w, job) {
        forall m | n <= m < |rest| ensures !StartsAt(Next(s, e), rest, m, w, job) {
          assert !StartsAt(s, [e] + rest, m + 1, w, job);
        }
      }
      if NoStartFrom(Next(s, e), rest, n, w, job) {
        forall m | n + 1 <= m < |[e] + rest| ensures !StartsAt(s, [e] + rest, m, w, job) {
          assert !StartsAt(Next(s, e), rest, m - 1, w, job);
        }
      }
    }
  }

  lemma {:induction false} EntriesOverRuns(s: State, es: seq<Event>, w: Worker, job: Job, loss: Loss)
    requires CanRun(s, es)
    ensures (w, job) in Entries(Run(s, es).history, loss) <==>
              || LostSince(s, es, w, job, loss)
              || ((w, job) in Entries(s.history, loss) && NoStartFrom(s, es, 0, w, job))
    decreases |es|
  {
    hide Next, Enabled, Occurs, Starts, LostSince, NoStartFrom, Entries;
    if es == [] {
      NothingLost(s, w, job, loss);
    } else {
      assert [es[0]] + es[1..] == es;
      EntryStep(s, es[0], w, job, loss);
      EntriesOverRuns(Next(s, es[0]), es[1..], w, job, loss);
      FrontOfRun(s, es[0], es[1..], w, job, loss);
    }
  }

  lemma NothingLost(s: State, w: Worker, job: Job, loss: Loss)
    ensures CanRun(s, []) && Run(s, []) == s
    ensures !LostSince(s, [], w, job, loss) && NoStartFrom(s, [], 0, w, job)
  {
  }

  /** Over every run from an initial state: the history holds a loss of w on a job exactly when that loss occurred
      and w has not started the job anew since. */
  lemma HistoryIsExact(s: State, es: seq<Event>, w: Worker, job: Job)
    requires Initial(s) && CanRun(s, es)
    ensures var h := Run(s, es).history;
            && ((w, job) in h.unleased <==> LostSince(s, es, w, job, NoLease))
            && ((w, job) in h.lapsed <==> LostSince(s, es, w, job, LeaseGone))
            && ((w, job) in h.timedOut <==> LostSince(s, es, w, job, LockGone))
            && ((w, job) in h.displaced <==> LostSince(s, es, w, job, Displaced))
  {
    hide Next, Enabled, Occurs, Starts, LostSince, NoStartFrom, CanRun, Run;
    EntriesOverRuns(s, es, w, job, NoLease);
    EntriesOverRuns(s, es, w, job, LeaseGone);
    EntriesOverRuns(s, es, w, job, LockGone);
    EntriesOverRuns(s, es, w, job, Displaced);
  }

  /* Disturbed jobs. */

  ghost predicate Disturbs(s: State, e: Event, job: Job)
    requires Enabled(s, e)
  {
    exists w, loss | loss != Displaced :: Occurs(s, e, w, job, loss)
  }

  ghost predicate DisturbedIn(s: State, es: seq<Event>, job: Job)
    requires CanRun(s, es)
  {
    exists n, w, loss | 0 <= n < |es| && loss != Displaced :: OccursAt(s, es, n, w, job, loss)
  }

  lemma DisturbedStep(s: State, e: Event, job: Job)
    requires Enabled(s, e)
    ensures job in Next(s, e).history.disturbed <==> job in s.history.disturbed || Disturbs(s, e, job)
  {
    if e.LeaseExpires? && e.w in s.workers && job in s.workers[e.w].tasks {
      assert Occurs(s, e, e.w, job, LeaseGone);
    }
    if e.LockExpires? && e.job == job && HoldersOf(s, job) != {} {
      var p :| p in HoldersOf(s, job);
      assert Occurs(s, e, p.0, job, LockGone);
    }
    if e.Execute? && Starts(s, e, e.w, job) && e.w !in s.db.leases {
      assert Occurs(s, e, e.w, job, NoLease);
    }
    if w, loss :| loss != Displaced && Occurs(s, e, w, job, loss) {
      if loss == LockGone { assert (w, job) in HoldersOf(s, job); }
    }
  }

  /** Over every run: a job comes on record as disturbed exactly when some worker started it without a lease, or
      lost its lease while it ran it, or held a lock on it that expired while it ran it. */
  lemma {:induction false} DisturbedIff(s: State, es: seq<Event>, job: Job)
    requires CanRun(s, es)
    ensures job in Run(s, es).history.disturbed <==> job in s.history.disturbed || DisturbedIn(s, es, job)
    decreases |es|
  {
    hide Next, Enabled, Occurs, Starts;
    if es != [] {
      var e, rest := es[0], es[1..];
      assert [e] + rest == es;
      DisturbedStep(s, e, job);
      DisturbedIff(Next(s, e), rest, job);
      DisturbedInFront(s, e, rest, job);
    }
  }

  lemma DisturbedInFront(s: State, e: Event, rest: seq<Event>, job: Job)
    requires Enabled(s, e) && CanRun(Next(s, e), rest)
    ensures CanRun(s, [e] + rest)
    ensures DisturbedIn(s, [e] + rest, job) <==> Disturbs(s, e, job) || DisturbedIn(Next(s, e), rest, job)
  {
    hide Next, Enabled, Occurs;
    var es := [e] + rest;
    assert es[1..] == rest;
    if w, loss :| loss != Displaced && Occurs(s, e, w, job, loss) {
      assert OccursAt(s, es, 0, w, job, loss);
    }
    if n, w, loss :| 0 <= n < |rest| && loss != Displaced && OccursAt(Next(s, e), rest, n, w, job, loss) {
      StepInFront(s, e, rest, n, w, job, loss);
      assert OccursAt(s, es, n + 1, w, job, loss);
    }
    if n, w, loss :| 0 <= n < |es| && loss != Displaced && OccursAt(s, es, n, w, job, loss) {
      if n > 0 {
        StepInFront(s, e, rest, n - 1, w, job, loss);
        assert OccursAt(Next(s, e), rest, n - 1, w, job, loss);
      }
    }
  }
}
