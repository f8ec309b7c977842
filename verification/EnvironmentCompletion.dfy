/** No interleaving of acquire, release and the reaper gets stuck: the tasks under way can always finish. */
module EnvironmentCompletion {
  import opened Wrappers
  import opened EnvironmentManager

  /** Every task is done, and every lock is free. */
  ghost predicate Finished(s: State) {
    && (forall a | In(s, a) :: s.actors[a].Returned? || s.actors[a].Gone?)
    && s.session.None? && s.guard.None? && s.taken == {}
  }

  /** A step of something already under way. */
  predicate GoesOn(e: Event) {
    !e.BeginAcquire? && !e.Release? && !e.ReapScan? && !e.OtherTakes?
  }

  /* Every lock that is held has a holder that can drop it. */

  ghost predicate HoldsCreation(s: State, a: Actor, l: LockId) {
    In(s, a) && HasCreation(s.actors[a]) && s.actors[a].creation == l
  }

  ghost predicate SessionHasHolder(s: State) {
    s.session.Some? && s.session.value.Task? ==>
      In(s, s.session.value.actor) && InSession(s.actors[s.session.value.actor])
  }

  ghost predicate GuardHasHolder(s: State) {
    s.guard.Some? ==> In(s, s.guard.value) && s.actors[s.guard.value].Reaping?
  }

  ghost predicate LocksHaveHolders(s: State) {
    && SessionHeld(s) && SessionHasHolder(s) && GuardHasHolder(s)
    && (forall l | l in s.taken :: exists a :: HoldsCreation(s, a, l))
  }

  lemma SessionHolderStep(s: State, e: Event)
    requires SessionHeld(s) && SessionHasHolder(s) && Enabled(s, e)
    ensures SessionHeld(Next(s, e)) && SessionHasHolder(Next(s, e))
  {
  }

  lemma GuardHolderStep(s: State, e: Event)
    requires GuardHasHolder(s) && Enabled(s, e)
    ensures GuardHasHolder(Next(s, e))
  {
  }

  lemma CreationHolderStep(s: State, e: Event, l: LockId)
    requires Enabled(s, e) && l in Next(s, e).taken && (l in s.taken ==> exists a :: HoldsCreation(s, a, l))
    ensures exists a :: HoldsCreation(Next(s, e), a, l)
  {
    var t := Next(s, e);
    if e.TakeCreation? && l == s.actors[e.a].creation {
      assert HoldsCreation(t, e.a, l);
    } else {
      var a :| HoldsCreation(s, a, l);
      assert HoldsCreation(t, a, l);
    }
  }

  lemma HoldersStep(s: State, e: Event)
    requires LocksHaveHolders(s) && Enabled(s, e)
    ensures LocksHaveHolders(Next(s, e))
  {
    hide Next, Enabled, SessionHeld, SessionHasHolder, GuardHasHolder, HoldsCreation;
    SessionHolderStep(s, e);
    GuardHolderStep(s, e);
    forall l | l in Next(s, e).taken ensures exists a :: HoldsCreation(Next(s, e), a, l) {
      CreationHolderStep(s, e, l);
    }
  }

  lemma {:induction false} HoldersOverRuns(s: State, es: seq<Event>)
    requires LocksHaveHolders(s) && CanRun(s, es)
    ensures LocksHaveHolders(Run(s, es))
    decreases |es|
  {
    hide LocksHaveHolders, Enabled, Next;
    if es != [] {
      HoldersStep(s, es[0]);
      HoldersOverRuns(Next(s, es[0]), es[1..]);
    }
  }

  /* How many steps are left at most. */

  function Rank(p: Phase): nat {
    match p
    case Waiting(_) => 7
    case Guarded(_) => 6
    case Locked(_) => 5
    case Using(_, _, _) => 4
    case Creating(_) => 3
    case Leaving(_, _) => 2
    case Dropping(_, _) => 1
    case Returned(_) => 0
    case Releasing(_) => 2
    case ReleaseLocked(_) => 1
    case Reaping(_) => 2
    case Killing(_) => 1
    case Gone => 0
  }

  ghost function AnyOf(m: map<Actor, Phase>): (a: Actor)
    requires m != map[]
    ensures a in m
  {
    var a :| a in m;
    a
  }

  ghost function Total(m: map<Actor, Phase>): nat
    decreases |m|
  {
    if m == map[] then 0 else Rank(m[AnyOf(m)]) + Total(m - {AnyOf(m)})
  }

  lemma {:induction false} TotalAt(m: map<Actor, Phase>, a: Actor)
    requires a in m
    ensures Total(m) == Rank(m[a]) + Total(m - {a})
    decreases |m|
  {
    hide Rank;
    var b := AnyOf(m);
    if a != b {
      TotalAt(m - {b}, a);
      TotalAt(m - {a}, b);
      assert m - {b} - {a} == m - {a} - {b};
    }
  }

  lemma TotalMoves(m: map<Actor, Phase>, a: Actor, p: Phase)
    requires a in m
    ensures Total(m[a := p]) + Rank(m[a]) == Total(m) + Rank(p)
  {
    hide Rank;
    TotalAt(m, a);
    TotalAt(m[a := p], a);
    assert m[a := p] - {a} == m - {a};
  }

  ghost function Left(s: State): nat {
    Total(s.actors) + if s.session == Some(OtherProcess) then 1 else 0
  }

  /** An event brings the end nearer. */
  ghost predicate Advances(s: State, e: Event) {
    GoesOn(e) && Enabled(s, e) && Left(Next(s, e)) < Left(s)
  }

  /** The next step of a task that is not done. */
  function StepOf(p: Phase, a: Actor): Event
    requires Rank(p) > 0
  {
    match p
    case Waiting(_) => TakeCreation(a)
    case Guarded(_) => TakeSession(a)
    case Locked(_) => ReadActive(a, false)
    case Using(_, _, changed) => if changed then Replace(a) else Reuse(a)
    case Creating(_) => CreateFails(a)
    case Leaving(_, _) => DropSession(a)
    case Dropping(_, _) => DropCreation(a)
    case Releasing(_) => ReleaseTakesSession(a)
    case ReleaseLocked(_) => ReleaseDecides(a)
    case Reaping(_) => ReapDecides(a, false)
    case Killing(_) => Kill(a)
  }

  /** The step ranks its task lower, moves no other, and leaves the session to a task or to nobody. */
  lemma StepMoves(s: State, a: Actor)
    requires In(s, a) && Rank(s.actors[a]) > 0 && Enabled(s, StepOf(s.actors[a], a))
    ensures var t := Next(s, StepOf(s.actors[a], a));
            && In(t, a) && Rank(t.actors[a]) < Rank(s.actors[a]) && t.actors == s.actors[a := t.actors[a]]
            && (t.session == s.session || t.session.None? || t.session == Some(Task(a)))
  {
  }

  lemma StepAdvances(s: State, a: Actor)
    requires In(s, a) && Rank(s.actors[a]) > 0 && Enabled(s, StepOf(s.actors[a], a))
    ensures Advances(s, StepOf(s.actors[a], a))
  {
    hide Total, Next, Enabled, Rank;
    StepMoves(s, a);
    TotalMoves(s.actors, a, Next(s, StepOf(s.actors[a], a)).actors[a]);
  }

  /** Whoever holds the session can go on. */
  lemma SessionCanBeFreed(s: State) returns (e: Event)
    requires LocksHaveHolders(s) && s.guard.None? && s.session.Some?
    ensures Advances(s, e)
  {
    hide Total;
    if s.session == Some(OtherProcess) {
      e := OtherDrops;
    } else {
      var a := s.session.value.actor;
      e := StepOf(s.actors[a], a);
      StepAdvances(s, a);
    }
  }

  lemma SomethingAdvances(s: State, a: Actor) returns (e: Event)
    requires LocksHaveHolders(s) && In(s, a) && Rank(s.actors[a]) > 0
    ensures Advances(s, e)
  {
    hide Total, Advances;
    var b := a;
    if s.actors[a].Waiting? && s.actors[a].creation in s.taken {
      b :| HoldsCreation(s, b, s.actors[a].creation);
    }
    if s.guard.Some? {
      e := StepOf(s.actors[s.guard.value], s.guard.value);
      StepAdvances(s, s.guard.value);
    } else if s.session.Some? {
      e := SessionCanBeFreed(s);
    } else {
      e := StepOf(s.actors[b], b);
      StepAdvances(s, b);
    }
  }

  lemma {:induction false} CanFinish(s: State) returns (more: seq<Event>)
    requires LocksHaveHolders(s)
    ensures CanRun(s, more) && Finished(Run(s, more)) && forall e | e in more :: GoesOn(e)
    decreases Left(s)
  {
    hide Total, Next, Enabled, GoesOn;
    var e;
    if a :| In(s, a) && Rank(s.actors[a]) > 0 {
      e := SomethingAdvances(s, a);
    } else if s.session == Some(OtherProcess) {
      e := SessionCanBeFreed(s);
    } else {
      more := [];
      RunNone(s);
      return;
    }
    HoldersStep(s, e);
    var rest := CanFinish(Next(s, e));
    more := [e] + rest;
    RunOne(s, e, rest);
  }

  lemma {:induction false} RunConcat(s: State, a: seq<Event>, b: seq<Event>)
    requires CanRun(s, a) && CanRun(Run(s, a), b)
    ensures CanRun(s, a + b) && Run(s, a + b) == Run(Run(s, a), b)
    decreases |a|
  {
    hide Enabled, Next;
    if a == [] {
      assert a + b == b;
    } else {
      assert (a + b)[1..] == a[1..] + b;
      RunConcat(Next(s, a[0]), a[1..], b);
    }
  }

  /** From every reachable state the tasks under way can all come to their end, with every lock free, without a
      further request. */
  lemma EveryRunCanFinish(es: seq<Event>) returns (more: seq<Event>)
    requires CanRun(INITIAL, es)
    ensures CanRun(INITIAL, es + more) && Finished(Run(INITIAL, es + more)) && forall e | e in more :: GoesOn(e)
  {
    HoldersOverRuns(INITIAL, es);
    more := CanFinish(Run(INITIAL, es));
    RunConcat(INITIAL, es, more);
  }

  /** While another process holds the session, no task of this one gets into it. */
  lemma {:induction false} OtherProcessExcludes(s: State, es: seq<Event>, a: Actor)
    requires SessionHeld(s) && s.session == Some(OtherProcess) && CanRun(s, es) && OtherDrops !in es
    ensures Run(s, es).session == Some(OtherProcess)
    ensures In(Run(s, es), a) ==> !InSession(Run(s, es).actors[a])
    decreases |es|
  {
    if es != [] {
      OtherProcessExcludes(Next(s, es[0]), es[1..], a);
    }
  }

  /** The same over every run, from where the other process takes the session. */
  lemma TakenByAnother(es: seq<Event>, more: seq<Event>, a: Actor)
    requires CanRun(INITIAL, es) && Enabled(Run(INITIAL, es), OtherTakes)
    requires CanRun(Next(Run(INITIAL, es), OtherTakes), more) && OtherDrops !in more
    ensures var t := Run(Next(Run(INITIAL, es), OtherTakes), more); In(t, a) ==> !InSession(t.actors[a])
  {
    InvOverRuns(INITIAL, es);
    OtherProcessExcludes(Next(Run(INITIAL, es), OtherTakes), more, a);
  }
}
