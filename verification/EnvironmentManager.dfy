/** One session of private_gpt/components/environment/manager.py under every interleaving of
    acquire, release and the reaper, with the session lock of distributed.py obtained.

    A step ends where the coroutine awaits. `guard` is the manager's asyncio lock: only the
    reaper holds it across an await, so other users of it step only while it is free. */
module EnvironmentManager {
  import opened Wrappers

  type Actor = nat
  type Env = nat
  type LockId = nat

  datatype Phase =
    // acquire
    | Waiting(creation: LockId)                 // has fetched the creation lock object
    | Guarded(creation: LockId)                 // holds it, waits for the session lock
    | Locked(creation: LockId)                  // holds both
    | Using(creation: LockId, env: Env, changed: bool)  // has read env; renews it unless the mounts changed
    | Creating(creation: LockId)                // creates a sandbox
    | Leaving(creation: LockId, result: Option<Env>)
    | Dropping(creation: LockId, result: Option<Env>)
    | Returned(result: Option<Env>)
    // release
    | Releasing(env: Env)                       // has popped env, waits for the session lock
    | ReleaseLocked(env: Env)
    // reaper
    | Reaping(env: Env)                         // found env idle, reads the shared clock
    // a spawned kill
    | Killing(env: Env)
    | Gone

  datatype Holder = Task(actor: Actor) | OtherProcess

  datatype State = State(
    active: Option<Env>,
    session: Option<Holder>,
    creation: Option<LockId>,      // entry of _creation_locks
    taken: set<LockId>,            // creation lock objects that are held
    guard: Option<Actor>,
    actors: map<Actor, Phase>,
    envs: nat,                     // environments created so far are 0 .. envs - 1
    locks: nat,
    killed: set<Env>,              // kills issued
    skipped: map<Env, Env>)        // released environments whose kill was skipped for a newer one

  datatype Event =
    | BeginAcquire(a: Actor)
    | TakeCreation(a: Actor)
    | TakeSession(a: Actor)
    | ReadActive(a: Actor, changed: bool)
    | Reuse(a: Actor)
    | Replace(a: Actor)
    | Store(a: Actor)
    | CreateFails(a: Actor)
    | DropSession(a: Actor)
    | DropCreation(a: Actor)
    | Release(a: Actor)
    | ReleaseTakesSession(a: Actor)
    | ReleaseDecides(a: Actor)
    | ReapScan(a: Actor)
    | ReapDecides(a: Actor, expired: bool)
    | Kill(a: Actor)
    | OtherTakes
    | OtherDrops

  predicate In(s: State, a: Actor) { a in s.actors }

  predicate Enabled(s: State, e: Event) {
    match e
    case BeginAcquire(a) => !In(s, a) && s.guard.None?
    case TakeCreation(a) => In(s, a) && s.actors[a].Waiting? && s.actors[a].creation !in s.taken
    case TakeSession(a) => In(s, a) && s.actors[a].Guarded? && s.session.None?
    case ReadActive(a, _) => In(s, a) && s.actors[a].Locked? && s.guard.None?
    case Reuse(a) => In(s, a) && s.actors[a].Using? && !s.actors[a].changed
    case Replace(a) => In(s, a) && s.actors[a].Using? && s.guard.None?
    case Store(a) => In(s, a) && s.actors[a].Creating? && s.guard.None?
    case CreateFails(a) => In(s, a) && s.actors[a].Creating?
    case DropSession(a) => In(s, a) && s.actors[a].Leaving?
    case DropCreation(a) => In(s, a) && s.actors[a].Dropping?
    case Release(a) => !In(s, a)
    case ReleaseTakesSession(a) => In(s, a) && s.actors[a].Releasing? && s.session.None?
    case ReleaseDecides(a) => In(s, a) && s.actors[a].ReleaseLocked? && s.guard.None?
    case ReapScan(a) => !In(s, a) && s.guard.None? && s.active.Some?
    case ReapDecides(a, _) => In(s, a) && s.actors[a].Reaping?
    case Kill(a) => In(s, a) && s.actors[a].Killing?
    case OtherTakes => s.session.None?
    case OtherDrops => s.session == Some(OtherProcess)
  }

  function Move(s: State, a: Actor, phase: Phase): State {
    s.(actors := s.actors[a := phase])
  }

  function Next(s: State, e: Event): State
    requires Enabled(s, e)
  {
    match e
    case BeginAcquire(a) =>
      if s.creation.Some? then Move(s, a, Waiting(s.creation.value))
      else Move(s, a, Waiting(s.locks)).(creation := Some(s.locks), locks := s.locks + 1)
    case TakeCreation(a) => Move(s, a, Guarded(s.actors[a].creation)).(taken := s.taken + {s.actors[a].creation})
    case TakeSession(a) => Move(s, a, Locked(s.actors[a].creation)).(session := Some(Task(a)))
    case ReadActive(a, changed) =>
      var l := s.actors[a].creation;
      if s.active.None? then Move(s, a, Creating(l))
      else Move(s, a, Using(l, s.active.value, changed))
    case Reuse(a) => Move(s, a, Leaving(s.actors[a].creation, Some(s.actors[a].env)))
    case Replace(a) =>
      Move(s, a, Creating(s.actors[a].creation)).(active := None, killed := s.killed + {s.actors[a].env})
    case Store(a) =>
      Move(s, a, Leaving(s.actors[a].creation, Some(s.envs))).(active := Some(s.envs), envs := s.envs + 1)
    case CreateFails(a) => Move(s, a, Leaving(s.actors[a].creation, None))
    case DropSession(a) => Move(s, a, Dropping(s.actors[a].creation, s.actors[a].result)).(session := None)
    case DropCreation(a) => Move(s, a, Returned(s.actors[a].result)).(taken := s.taken - {s.actors[a].creation})
    case Release(a) =>
      Move(s, a, if s.active.Some? then Releasing(s.active.value) else Gone).(active := None, creation := None)
    case ReleaseTakesSession(a) => Move(s, a, ReleaseLocked(s.actors[a].env)).(session := Some(Task(a)))
    case ReleaseDecides(a) =>
      var env := s.actors[a].env;
      if s.active.Some? && s.active.value != env
      then Move(s, a, Gone).(session := None, skipped := s.skipped[env := s.active.value])
      else Move(s, a, Gone).(session := None, killed := s.killed + {env})
    case ReapScan(a) => Move(s, a, Reaping(s.active.value)).(guard := Some(a))
    case ReapDecides(a, expired) =>
      if expired then Move(s, a, Killing(s.actors[a].env)).(guard := None, active := None, creation := None)
      else Move(s, a, Gone).(guard := None)
    case Kill(a) => Move(s, a, Gone).(killed := s.killed + {s.actors[a].env})
    case OtherTakes => s.(session := Some(OtherProcess))
    case OtherDrops => s.(session := None)
  }

  ghost predicate CanRun(s: State, es: seq<Event>)
    decreases |es|
  {
    es == [] || (Enabled(s, es[0]) && CanRun(Next(s, es[0]), es[1..]))
  }

  function Run(s: State, es: seq<Event>): State
    requires CanRun(s, es)
    decreases |es|
  {
    if es == [] then s else Run(Next(s, es[0]), es[1..])
  }

  const INITIAL := State(None, None, None, {}, None, map[], 0, 0, {}, map[])

  /* Invariants. */

  predicate InSession(p: Phase) {
    p.Locked? || p.Using? || p.Creating? || p.Leaving? || p.ReleaseLocked?
  }

  /** Someone still has to kill env, or to find that a newer environment replaced it. */
  predicate Owes(p: Phase, env: Env) {
    (p.Releasing? || p.ReleaseLocked? || p.Killing?) && p.env == env
  }

  ghost predicate SessionHeld(s: State) {
    forall a | In(s, a) && InSession(s.actors[a]) :: s.session == Some(Task(a))
  }

  /** While a task creates a sandbox, nothing is active. */
  ghost predicate NothingActiveWhileCreating(s: State) {
    forall a | In(s, a) && s.actors[a].Creating? :: s.active.None?
  }

  predicate Accounted(s: State, env: Env) {
    || s.active == Some(env)
    || env in s.killed
    || (env in s.skipped && s.skipped[env] > env)
    || exists a | a in s.actors :: Owes(s.actors[a], env)
  }

  predicate OrNone(s: State, env: Env) {
    env < s.envs && (s.active.None? || s.active == Some(env))
  }

  /** Environments still to be killed are older than the active one. */
  ghost predicate DutiesAreOld(s: State) {
    && (s.active.Some? ==> s.active.value < s.envs)
    && (forall a, env: Env | In(s, a) && Owes(s.actors[a], env) ::
        env < s.envs && (s.active.Some? ==> env < s.active.value))
  }

  /** What a task has read is still active, or nothing is. */
  ghost predicate ReadsAreCurrent(s: State) {
    && (forall a | In(s, a) && s.actors[a].Using? :: OrNone(s, s.actors[a].env))
    && (forall a | In(s, a) && s.actors[a].Reaping? ::
        s.guard == Some(a) && OrNone(s, s.actors[a].env))
  }

  ghost predicate Inv(s: State) {
    && SessionHeld(s)
    && NothingActiveWhileCreating(s)
    && DutiesAreOld(s)
    && ReadsAreCurrent(s)
    && (forall env: Env | env < s.envs :: Accounted(s, env))
  }

  lemma SessionStep(s: State, e: Event)
    requires SessionHeld(s) && NothingActiveWhileCreating(s) && Enabled(s, e)
    ensures SessionHeld(Next(s, e)) && NothingActiveWhileCreating(Next(s, e))
  {
  }

  lemma DutiesStep(s: State, e: Event)
    requires DutiesAreOld(s) && ReadsAreCurrent(s) && Enabled(s, e)
    ensures DutiesAreOld(Next(s, e))
  {
    var t := Next(s, e);
    forall a, env: Env | In(t, a) && Owes(t.actors[a], env)
      ensures env < t.envs && (t.active.Some? ==> env < t.active.value)
    {
      if In(s, a) && Owes(s.actors[a], env) {
        assert env < s.envs;
      } else {
        match e
        case Release(b) => assert s.active == Some(env);
        case _ =>
      }
    }
  }

  lemma ReadsStep(s: State, e: Event)
    requires SessionHeld(s) && NothingActiveWhileCreating(s) && ReadsAreCurrent(s) && DutiesAreOld(s) && Enabled(s, e)
    ensures ReadsAreCurrent(Next(s, e))
  {
    var t := Next(s, e);
    forall a | In(t, a) && t.actors[a].Using? ensures OrNone(t, t.actors[a].env) {
      if In(s, a) && s.actors[a].Using? { assert OrNone(s, s.actors[a].env); }
    }
    forall a | In(t, a) && t.actors[a].Reaping? ensures t.guard == Some(a) && OrNone(t, t.actors[a].env) {
      if In(s, a) && s.actors[a].Reaping? { assert OrNone(s, s.actors[a].env); }
    }
  }

  lemma DutyKept(s: State, e: Event, a: Actor, env: Env)
    requires DutiesAreOld(s) && Enabled(s, e) && In(s, a) && Owes(s.actors[a], env)
    ensures Accounted(Next(s, e), env)
  {
    var t := Next(s, e);
    if a in t.actors && Owes(t.actors[a], env) {
    } else {
      assert e == ReleaseDecides(a) || e == Kill(a);
    }
  }

  lemma ActiveKept(s: State, e: Event, env: Env)
    requires NothingActiveWhileCreating(s) && ReadsAreCurrent(s) && Enabled(s, e) && s.active == Some(env)
    ensures Accounted(Next(s, e), env)
  {
    var t := Next(s, e);
    if t.active != s.active {
      match e
      case Release(b) => assert Owes(t.actors[b], env);
      case ReapDecides(b, _) => assert OrNone(s, s.actors[b].env); assert Owes(t.actors[b], env);
      case Replace(b) => assert OrNone(s, s.actors[b].env);
      case Store(b) => assert false;
      case _ =>
    }
  }

  lemma InvStep(s: State, e: Event)
    requires Inv(s) && Enabled(s, e)
    ensures Inv(Next(s, e))
  {
    SessionStep(s, e);
    DutiesStep(s, e);
    ReadsStep(s, e);
    var t := Next(s, e);
    forall env: Env | env < t.envs ensures Accounted(t, env) {
      if env < s.envs {
        assert Accounted(s, env);
        if a :| a in s.actors && Owes(s.actors[a], env) {
          DutyKept(s, e, a, env);
        } else if s.active == Some(env) {
          ActiveKept(s, e, env);
        }
      }
    }
  }

  lemma {:induction false} InvOverRuns(s: State, es: seq<Event>)
    requires Inv(s) && CanRun(s, es)
    ensures Inv(Run(s, es))
    decreases |es|
  {
    if es != [] {
      InvStep(s, es[0]);
      InvOverRuns(Next(s, es[0]), es[1..]);
    }
  }

  /** In every run, `_create` stores its environment only when nothing is active. */
  lemma CreateNeverOverwrites(es: seq<Event>, a: Actor)
    requires CanRun(INITIAL, es) && Enabled(Run(INITIAL, es), Store(a))
    ensures Run(INITIAL, es).active.None?
  {
    InvOverRuns(INITIAL, es);
  }

  /** In every run, at most one task is between taking and dropping the session lock. */
  lemma SessionsAreExclusive(es: seq<Event>, a: Actor, b: Actor)
    requires CanRun(INITIAL, es)
    requires In(Run(INITIAL, es), a) && InSession(Run(INITIAL, es).actors[a])
    requires In(Run(INITIAL, es), b) && InSession(Run(INITIAL, es).actors[b])
    ensures a == b
  {
    InvOverRuns(INITIAL, es);
  }

  ghost predicate NobodyOwes(s: State, env: Env) {
    forall a | In(s, a) :: !Owes(s.actors[a], env)
  }

  /** In every run, an environment that is no longer active has had its kill issued, or a task
      still owes it, or the kill was skipped because a newer environment was active. */
  lemma NoEnvironmentIsLost(es: seq<Event>, env: Env)
    requires CanRun(INITIAL, es) && env < Run(INITIAL, es).envs
    ensures var t := Run(INITIAL, es);
            && Accounted(t, env)
            && (t.active != Some(env) && env !in t.skipped && NobodyOwes(t, env) ==> env in t.killed)
  {
    InvOverRuns(INITIAL, es);
  }

  /** Kills are issued only for environments that exist and are not active. */
  ghost predicate ActiveIsLive(s: State) {
    && (forall env | env in s.killed :: env < s.envs)
    && (s.active.Some? ==> s.active.value !in s.killed)
  }

  lemma LiveStep(s: State, e: Event)
    requires ActiveIsLive(s) && Inv(s) && Enabled(s, e)
    ensures ActiveIsLive(Next(s, e))
  {
    hide Accounted, NothingActiveWhileCreating, SessionHeld;
    match e
    case Replace(a) => assert OrNone(s, s.actors[a].env);
    case ReleaseDecides(a) => assert Owes(s.actors[a], s.actors[a].env);
    case Kill(a) => assert Owes(s.actors[a], s.actors[a].env);
    case _ =>
  }

  lemma {:induction false} LiveOverRuns(s: State, es: seq<Event>)
    requires ActiveIsLive(s) && Inv(s) && CanRun(s, es)
    ensures ActiveIsLive(Run(s, es))
    decreases |es|
  {
    hide Inv, ActiveIsLive, Enabled, Next;
    if es != [] {
      InvStep(s, es[0]);
      LiveStep(s, es[0]);
      LiveOverRuns(Next(s, es[0]), es[1..]);
    }
  }

  /** In every run, no kill has been issued for the active environment. */
  lemma ActiveIsNeverKilled(es: seq<Event>)
    requires CanRun(INITIAL, es)
    ensures var t := Run(INITIAL, es); t.active.Some? ==> t.active.value !in t.killed
  {
    LiveOverRuns(INITIAL, es);
  }

  /* The creation lock alone would not do: release and an expiring reap discard it. */

  predicate DiscardsCreationLock(e: Event) {
    e.Release? || (e.ReapDecides? && e.expired)
  }

  predicate HasCreation(p: Phase) {
    p.Guarded? || p.Locked? || p.Using? || p.Creating? || p.Leaving? || p.Dropping?
  }

  predicate MentionsCreation(p: Phase) {
    p.Waiting? || HasCreation(p)
  }

  ghost predicate Current(s: State) {
    && (forall a | In(s, a) && MentionsCreation(s.actors[a]) ::
        s.creation == Some(s.actors[a].creation))
    && (forall a | In(s, a) && HasCreation(s.actors[a]) :: s.actors[a].creation in s.taken)
  }

  ghost predicate OneCreationLock(s: State) {
    && Current(s)
    && (forall a, b | In(s, a) && In(s, b) && HasCreation(s.actors[a]) && HasCreation(s.actors[b]) :: a == b)
  }

  lemma CurrentStep(s: State, e: Event, a: Actor)
    requires OneCreationLock(s) && Enabled(s, e) && !DiscardsCreationLock(e) && In(Next(s, e), a)
    ensures var t := Next(s, e);
            && (MentionsCreation(t.actors[a]) ==> t.creation == Some(t.actors[a].creation))
            && (HasCreation(t.actors[a]) ==> t.actors[a].creation in t.taken)
  {
    if In(s, a) && MentionsCreation(s.actors[a]) {
      assert s.creation == Some(s.actors[a].creation);
    }
  }

  lemma ExclusiveStep(s: State, e: Event, a: Actor, b: Actor)
    requires OneCreationLock(s) && Enabled(s, e) && !DiscardsCreationLock(e)
    requires In(Next(s, e), a) && HasCreation(Next(s, e).actors[a])
    requires In(Next(s, e), b) && HasCreation(Next(s, e).actors[b])
    ensures a == b
  {
    assert e.TakeCreation? ==> s.creation == Some(s.actors[e.a].creation);
  }

  lemma OneCreationStep(s: State, e: Event)
    requires OneCreationLock(s) && Enabled(s, e) && !DiscardsCreationLock(e)
    ensures OneCreationLock(Next(s, e))
  {
    var t := Next(s, e);
    forall a | In(t, a)
      ensures (MentionsCreation(t.actors[a]) ==> t.creation == Some(t.actors[a].creation))
      ensures (HasCreation(t.actors[a]) ==> t.actors[a].creation in t.taken)
    {
      CurrentStep(s, e, a);
    }
    forall a, b | In(t, a) && In(t, b) && HasCreation(t.actors[a]) && HasCreation(t.actors[b]) ensures a == b {
      ExclusiveStep(s, e, a, b);
    }
  }

  /** Until a release or an expiring reap, at most one task is past its creation lock. */
  lemma {:induction false} CreationLockExcludesUntilDiscarded(s: State, es: seq<Event>)
    requires OneCreationLock(s) && CanRun(s, es) && forall e | e in es :: !DiscardsCreationLock(e)
    ensures OneCreationLock(Run(s, es))
    decreases |es|
  {
    if es != [] {
      assert es[0] in es;
      OneCreationStep(s, es[0]);
      CreationLockExcludesUntilDiscarded(Next(s, es[0]), es[1..]);
    }
  }

  lemma RunOne(s: State, e: Event, es: seq<Event>)
    requires Enabled(s, e) && CanRun(Next(s, e), es)
    ensures CanRun(s, [e] + es) && Run(s, [e] + es) == Run(Next(s, e), es)
  {
    assert ([e] + es)[1..] == es;
  }

  /** Lock objects are numbered as they are made. */
  ghost predicate LocksAreOld(s: State) {
    && (forall l | l in s.taken :: l < s.locks)
    && (s.creation.Some? ==> s.creation.value < s.locks)
    && (forall a | In(s, a) && MentionsCreation(s.actors[a]) :: s.actors[a].creation < s.locks)
  }

  lemma LocksStep(s: State, e: Event)
    requires LocksAreOld(s) && Enabled(s, e)
    ensures LocksAreOld(Next(s, e))
  {
    var t := Next(s, e);
    forall a | In(t, a) && MentionsCreation(t.actors[a]) ensures t.actors[a].creation < t.locks {
      assert In(s, a) && MentionsCreation(s.actors[a]) ==> s.actors[a].creation < s.locks;
    }
    assert e.TakeCreation? ==> MentionsCreation(s.actors[e.a]);
  }

  lemma {:induction false} LocksOverRuns(s: State, es: seq<Event>)
    requires LocksAreOld(s) && CanRun(s, es)
    ensures LocksAreOld(Run(s, es))
    decreases |es|
  {
    hide LocksAreOld, Enabled, Next;
    if es != [] {
      LocksStep(s, es[0]);
      LocksOverRuns(Next(s, es[0]), es[1..]);
    }
  }

  /** From any reachable state in which an acquire is past its creation lock: after a release or an expiring
      reap another acquire gets past a new one, with the first still there. */
  lemma DiscardBreaksTheCreationLock(es: seq<Event>, a: Actor, e: Event, b: Actor)
    requires CanRun(INITIAL, es) && In(Run(INITIAL, es), a) && HasCreation(Run(INITIAL, es).actors[a])
    requires Enabled(Run(INITIAL, es), e) && DiscardsCreationLock(e)
    requires Next(Run(INITIAL, es), e).guard.None? && !In(Next(Run(INITIAL, es), e), b)
    ensures var s, more := Run(INITIAL, es), [e, BeginAcquire(b), TakeCreation(b)];
            && CanRun(s, more) && In(Run(s, more), a) && In(Run(s, more), b) && a != b
            && HasCreation(Run(s, more).actors[a]) && HasCreation(Run(s, more).actors[b])
  {
    LocksOverRuns(INITIAL, es);
    var s := Run(INITIAL, es);
    hide CanRun, Run;
    var s1 := Next(s, e);
    var s2 := Next(s1, BeginAcquire(b));
    var s3 := Next(s2, TakeCreation(b));
    RunNone(s3);
    RunOne(s2, TakeCreation(b), []);
    RunOne(s1, BeginAcquire(b), [TakeCreation(b)] + []);
    RunOne(s, e, [BeginAcquire(b)] + ([TakeCreation(b)] + []));
    assert [e] + ([BeginAcquire(b)] + ([TakeCreation(b)] + [])) == [e, BeginAcquire(b), TakeCreation(b)];
  }

  /** One release is enough to have two acquires past their creation locks at once. */
  lemma ReleaseBreaksTheCreationLock()
    ensures var es := [BeginAcquire(0), TakeCreation(0), Release(1), BeginAcquire(2), TakeCreation(2)];
            && CanRun(INITIAL, es)
            && Run(INITIAL, es).actors == map[0 := Guarded(0), 1 := Gone, 2 := Guarded(1)]
  {
    hide CanRun, Run;
    var s1 := Next(INITIAL, BeginAcquire(0));
    var s2 := Next(s1, TakeCreation(0));
    var s3 := Next(s2, Release(1));
    var s4 := Next(s3, BeginAcquire(2));
    var last := [TakeCreation(2)];
    RunNone(Next(s4, TakeCreation(2)));
    assert last == [TakeCreation(2)] + [];
    RunOne(s4, TakeCreation(2), []);
    RunOne(s3, BeginAcquire(2), last);
    RunOne(s2, Release(1), [BeginAcquire(2)] + last);
    RunOne(s1, TakeCreation(0), [Release(1)] + ([BeginAcquire(2)] + last));
    var most := [TakeCreation(0)] + ([Release(1)] + ([BeginAcquire(2)] + last));
    RunOne(INITIAL, BeginAcquire(0), most);
    assert [BeginAcquire(0)] + most == [BeginAcquire(0), TakeCreation(0), Release(1), BeginAcquire(2), TakeCreation(2)];
  }

  lemma RunNone(s: State)
    ensures CanRun(s, []) && Run(s, []) == s
  {
  }
}
