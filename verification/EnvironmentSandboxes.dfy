/** The sandboxes behind the environments of one session, added to the steps of `EnvironmentManager`.

    `_create` first asks the provider for a sandbox that still exists, unless it is to make a fresh one, and
    spawns a kill when the set-up of its sandbox fails. A spawned kill runs outside the session lock. */
module EnvironmentSandboxes {
  import opened Wrappers
  import Machine = EnvironmentManager

  type Actor = Machine.Actor
  type Env = Machine.Env
  type Box = nat

  /** `boxOf`: the sandbox of each environment; `inHand`: what a creating task has got from the provider;
      `forced`: tasks that must make a fresh one; sandboxes so far are 0 .. boxes - 1; `discarding` and
      `discarded`: sandboxes whose set-up failed, with the kill to come and with the kill issued. */
  datatype World = World(
    s: Machine.State, boxOf: map<Env, Box>, inHand: map<Actor, Box>, forced: set<Actor>,
    boxes: nat, discarding: set<Box>, discarded: set<Box>)

  datatype Event =
    | Step(e: Machine.Event)
    | Restore(a: Actor, box: Box)
    | Make(a: Actor)
    | SetupFails(a: Actor)
    | Discard(box: Box)

  predicate Creates(s: Machine.State, a: Actor) {
    a in s.actors && s.actors[a].Creating?
  }

  /** A kill has been issued for the sandbox. */
  predicate IsKilled(w: World, box: Box) {
    box in w.discarded || exists env | env in w.s.killed :: env in w.boxOf && w.boxOf[env] == box
  }

  predicate KillsEnv(s: Machine.State, a: Actor, env: Env) {
    a in s.actors && s.actors[a] == Machine.Killing(env)
  }

  /** A spawned kill of the sandbox is still to run. */
  predicate IsDoomed(w: World, box: Box) {
    || box in w.discarding
    || exists a, env | a in w.s.actors && env in w.boxOf :: KillsEnv(w.s, a, env) && w.boxOf[env] == box
  }

  predicate Enabled(w: World, e: Event) {
    match e
    case Step(Store(a)) => Machine.Enabled(w.s, e.e) && a in w.inHand
    case Step(CreateFails(a)) => Machine.Enabled(w.s, e.e) && a !in w.inHand
    case Step(_) => Machine.Enabled(w.s, e.e)
    case Restore(a, box) =>
      Creates(w.s, a) && a !in w.inHand && a !in w.forced && box < w.boxes && !IsKilled(w, box)
    case Make(a) => Creates(w.s, a) && a !in w.inHand
    case SetupFails(a) => Creates(w.s, a) && a in w.inHand
    case Discard(box) => box in w.discarding
  }

  function Next(w: World, e: Event): World
    requires Enabled(w, e)
  {
    match e
    case Step(Store(a)) =>
      w.(s := Machine.Next(w.s, e.e), boxOf := w.boxOf[w.s.envs := w.inHand[a]], inHand := w.inHand - {a})
    case Step(Replace(a)) => w.(s := Machine.Next(w.s, e.e), forced := w.forced + {a})
    case Step(_) => w.(s := Machine.Next(w.s, e.e))
    case Restore(a, box) => w.(inHand := w.inHand[a := box])
    case Make(a) => w.(inHand := w.inHand[a := w.boxes], boxes := w.boxes + 1)
    case SetupFails(a) =>
      w.(s := Machine.Next(w.s, Machine.CreateFails(a)), inHand := w.inHand - {a},
         discarding := w.discarding + {w.inHand[a]})
    case Discard(box) => w.(discarding := w.discarding - {box}, discarded := w.discarded + {box})
  }

  ghost predicate CanRun(w: World, es: seq<Event>)
    decreases |es|
  {
    es == [] || (Enabled(w, es[0]) && CanRun(Next(w, es[0]), es[1..]))
  }

  function Run(w: World, es: seq<Event>): World
    requires CanRun(w, es)
    decreases |es|
  {
    if es == [] then w else Run(Next(w, es[0]), es[1..])
  }

  const INITIAL := World(Machine.INITIAL, map[], map[], {}, 0, {}, {})

  predicate RestoresDoomed(w: World, e: Event) {
    e.Restore? && IsDoomed(w, e.box)
  }

  /** A run in which no sandbox is restored whose kill is still to run. */
  ghost predicate Careful(w: World, es: seq<Event>)
    requires CanRun(w, es)
    decreases |es|
  {
    es == [] || (!RestoresDoomed(w, es[0]) && Careful(Next(w, es[0]), es[1..]))
  }

  predicate ActiveIsKilled(w: World) {
    w.s.active.Some? && w.s.active.value in w.boxOf && IsKilled(w, w.boxOf[w.s.active.value])
  }

  /* Invariants. */

  /** The manager's lock is held by a reaper only, and nobody creates then. */
  ghost predicate ReaperAlone(s: Machine.State) {
    && (s.guard.Some? ==> s.guard.value in s.actors && s.actors[s.guard.value].Reaping?)
    && (s.guard.Some? ==> forall a :: !Creates(s, a))
  }

  ghost predicate Numbered(w: World) {
    && (forall env: Env :: env in w.boxOf <==> env < w.s.envs)
    && (forall env | env in w.boxOf :: w.boxOf[env] < w.boxes)
    && (forall a | a in w.inHand :: w.inHand[a] < w.boxes && Creates(w.s, a))
    && (forall box | box in w.discarding :: box < w.boxes)
    && (forall box | box in w.discarded :: box < w.boxes)
  }

  ghost predicate Inv(w: World) {
    Machine.Inv(w.s) && Machine.ActiveIsLive(w.s) && ReaperAlone(w.s) && Numbered(w)
  }

  /** The active environment's sandbox, or one a task has got for a new environment. */
  predicate InUse(w: World, box: Box) {
    || (w.s.active.Some? && w.s.active.value in w.boxOf && w.boxOf[w.s.active.value] == box)
    || exists a | a in w.inHand :: w.inHand[a] == box
  }

  ghost predicate Clean(w: World) {
    forall box | InUse(w, box) :: !IsKilled(w, box) && !IsDoomed(w, box)
  }

  lemma ReaperAloneStep(s: Machine.State, e: Machine.Event)
    requires Machine.Inv(s) && ReaperAlone(s) && Machine.Enabled(s, e)
    ensures ReaperAlone(Machine.Next(s, e))
  {
    hide Machine.Accounted, Machine.DutiesAreOld;
    var t := Machine.Next(s, e);
    if t.guard.Some? {
      forall a ensures !Creates(t, a) {
        assert s.guard.Some? ==> !Creates(s, a);
      }
    }
  }

  lemma NumberedStep(w: World, e: Machine.Event)
    requires Numbered(w) && Enabled(w, Step(e))
    ensures Numbered(Next(w, Step(e)))
  {
    var t := Next(w, Step(e));
    forall a | a in t.inHand ensures t.inHand[a] < t.boxes && Creates(t.s, a) {
      assert a in w.inHand;
    }
  }

  lemma InvStep(w: World, e: Event)
    requires Inv(w) && Enabled(w, e)
    ensures Inv(Next(w, e))
  {
    match e
    case Step(m) => MachineStep(w, m);
    case SetupFails(a) => SetupFailsStep(w, a);
    case _ => OtherStep(w, e);
  }

  lemma MachineStep(w: World, m: Machine.Event)
    requires Inv(w) && Enabled(w, Step(m))
    ensures Inv(Next(w, Step(m)))
  {
    hide Machine.Inv, Machine.ActiveIsLive, ReaperAlone, Numbered, Machine.Next, Machine.Enabled;
    Machine.InvStep(w.s, m);
    Machine.LiveStep(w.s, m);
    ReaperAloneStep(w.s, m);
    NumberedStep(w, m);
  }

  lemma SetupFailsStep(w: World, a: Actor)
    requires Inv(w) && Enabled(w, SetupFails(a))
    ensures Inv(Next(w, SetupFails(a)))
  {
    hide Machine.Inv, Machine.ActiveIsLive, ReaperAlone;
    Machine.InvStep(w.s, Machine.CreateFails(a));
    Machine.LiveStep(w.s, Machine.CreateFails(a));
    ReaperAloneStep(w.s, Machine.CreateFails(a));
  }

  lemma OtherStep(w: World, e: Event)
    requires Inv(w) && Enabled(w, e) && !e.Step? && !e.SetupFails?
    ensures Inv(Next(w, e))
  {
    hide Machine.Inv, Machine.ActiveIsLive, ReaperAlone;
  }

  /* While no doomed sandbox is restored, no sandbox in use is killed or doomed. */

  /** Only one task has a sandbox in hand; it is in the session section, and nothing is active. */
  lemma InHandAlone(w: World, a: Actor)
    requires Inv(w) && a in w.inHand
    ensures w.s.active.None? && w.s.session == Some(Machine.Task(a)) && w.s.guard.None?
  {
    hide Machine.Accounted, Machine.DutiesAreOld, Machine.ReadsAreCurrent;
    assert Creates(w.s, a);
  }

  /** Whose environment the step takes out of use, to kill it at once or later. */
  predicate TakesAway(s: Machine.State, e: Machine.Event)
    requires Machine.Enabled(s, e)
  {
    match e
    case Replace(_) => true
    case ReleaseDecides(a) => s.active.None? || s.active.value == s.actors[a].env
    case ReapDecides(_, expired) => expired
    case _ => false
  }

  lemma NothingActiveThen(s: Machine.State, e: Machine.Event)
    requires Machine.Inv(s) && Machine.Enabled(s, e) && TakesAway(s, e)
    ensures Machine.Next(s, e).active.None?
  {
    hide Machine.Accounted;
    match e
    case ReleaseDecides(a) => assert Machine.Owes(s.actors[a], s.actors[a].env);
    case _ =>
  }

  lemma NobodyCreatesThen(s: Machine.State, e: Machine.Event, a: Actor)
    requires Machine.Inv(s) && ReaperAlone(s) && Machine.Enabled(s, e) && TakesAway(s, e)
    ensures !Creates(s, a)
  {
    hide Machine.Accounted, Machine.DutiesAreOld;
  }

  lemma NothingLeftInUse(w: World, e: Machine.Event, box: Box)
    requires Inv(w) && Enabled(w, Step(e)) && TakesAway(w.s, e)
    ensures !InUse(Next(w, Step(e)), box)
  {
    NothingActiveThen(w.s, e);
    forall a ensures !Creates(w.s, a) {
      NobodyCreatesThen(w.s, e, a);
    }
    assert forall a | a in w.inHand :: Creates(w.s, a);
    hide Machine.Next, Machine.Inv, TakesAway;
  }

  /** A step that takes nothing out of use makes no other kill than one that was to run. */
  lemma KillsAreOld(s: Machine.State, e: Machine.Event, env: Env)
    requires Machine.Enabled(s, e) && !TakesAway(s, e) && env in Machine.Next(s, e).killed
    ensures env in s.killed || exists a :: KillsEnv(s, a, env)
  {
    if env !in s.killed {
      assert KillsEnv(s, e.a, env);
    }
  }

  lemma DoomsAreOld(s: Machine.State, e: Machine.Event, a: Actor, env: Env)
    requires Machine.Enabled(s, e) && !TakesAway(s, e) && KillsEnv(Machine.Next(s, e), a, env)
    ensures KillsEnv(s, a, env)
  {
  }

  lemma UsesAreOld(w: World, e: Machine.Event, box: Box)
    requires Enabled(w, Step(e)) && InUse(Next(w, Step(e)), box) && Numbered(w)
    ensures InUse(w, box)
  {
  }

  lemma OldEnvs(w: World, e: Machine.Event, env: Env)
    requires Inv(w) && Enabled(w, Step(e)) && env in Next(w, Step(e)).boxOf
    requires env in w.s.killed || exists a :: KillsEnv(w.s, a, env)
    ensures env in w.boxOf && w.boxOf[env] == Next(w, Step(e)).boxOf[env]
  {
    hide Machine.Accounted, Machine.Next;
    if a :| KillsEnv(w.s, a, env) {
      assert Machine.Owes(w.s.actors[a], env);
    }
  }

  lemma StepKeepsClean(w: World, e: Machine.Event)
    requires Inv(w) && Clean(w) && Enabled(w, Step(e))
    ensures Clean(Next(w, Step(e)))
  {
    var t := Next(w, Step(e));
    forall box | InUse(t, box) ensures !IsKilled(t, box) && !IsDoomed(t, box) {
      if TakesAway(w.s, e) {
        NothingLeftInUse(w, e, box);
        assert false;
      } else {
        UsesAreOld(w, e, box);
        StaysClean(w, e, box);
      }
    }
  }

  lemma StaysClean(w: World, e: Machine.Event, box: Box)
    requires Inv(w) && Enabled(w, Step(e)) && !TakesAway(w.s, e) && !IsKilled(w, box) && !IsDoomed(w, box)
    ensures !IsKilled(Next(w, Step(e)), box) && !IsDoomed(Next(w, Step(e)), box)
  {
    var t := Next(w, Step(e));
    hide Machine.Next, Machine.Inv, TakesAway;
    forall env | env in t.s.killed && env in t.boxOf ensures t.boxOf[env] != box {
      KillsAreOld(w.s, e, env);
      OldEnvs(w, e, env);
    }
    forall a, env | KillsEnv(t.s, a, env) && env in t.boxOf ensures t.boxOf[env] != box {
      DoomsAreOld(w.s, e, a, env);
      OldEnvs(w, e, env);
    }
  }

  lemma SetupFailsKeepsClean(w: World, a: Actor)
    requires Inv(w) && Enabled(w, SetupFails(a))
    ensures Clean(Next(w, SetupFails(a)))
  {
    hide Machine.Inv;
    var t := Next(w, SetupFails(a));
    InHandAlone(w, a);
    forall box ensures !InUse(t, box) {
      if b :| b in t.inHand {
        InHandAlone(w, b);
      }
    }
  }

  lemma OthersKeepClean(w: World, e: Event)
    requires Inv(w) && Clean(w) && Enabled(w, e) && !RestoresDoomed(w, e) && !e.Step? && !e.SetupFails?
    ensures Clean(Next(w, e))
  {
    hide Machine.Inv;
    var t := Next(w, e);
    forall box | InUse(t, box) ensures !IsKilled(t, box) && !IsDoomed(t, box) {
      assert InUse(w, box) || (e.Restore? && e.box == box) || (e.Make? && box == w.boxes);
      assert e.Discard? ==> IsDoomed(w, e.box);
    }
  }

  lemma {:induction false} CleanOverRuns(w: World, es: seq<Event>)
    requires Inv(w) && CanRun(w, es)
    ensures Inv(Run(w, es))
    ensures Clean(w) && Careful(w, es) ==> Clean(Run(w, es))
    decreases |es|
  {
    hide Inv, Clean, Enabled, Next, RestoresDoomed;
    if es != [] {
      var e := es[0];
      InvStep(w, e);
      if Clean(w) && Careful(w, es) {
        match e
        case Step(m) => StepKeepsClean(w, m);
        case SetupFails(a) => SetupFailsKeepsClean(w, a);
        case _ => OthersKeepClean(w, e);
      }
      CleanOverRuns(Next(w, e), es[1..]);
    }
  }

  lemma InitiallyClean()
    ensures Inv(INITIAL) && Clean(INITIAL)
  {
  }

  /** In every run in which no sandbox is restored whose kill is still to run, no kill is issued for the
      sandbox of the active environment. */
  lemma ActiveSandboxIsNotKilled(es: seq<Event>)
    requires CanRun(INITIAL, es) && Careful(INITIAL, es)
    ensures !ActiveIsKilled(Run(INITIAL, es))
  {
    InitiallyClean();
    hide Inv;
    CleanOverRuns(INITIAL, es);
    CleanIsLive(Run(INITIAL, es));
  }

  lemma CleanIsLive(w: World)
    requires Clean(w)
    ensures !ActiveIsKilled(w)
  {
    if ActiveIsKilled(w) {
      assert InUse(w, w.boxOf[w.s.active.value]);
    }
  }

  /* Restoring one whose kill is still to run. */

  lemma RunNone(w: World)
    ensures CanRun(w, []) && Careful(w, []) && Run(w, []) == w
  {
  }

  lemma RunOne(w: World, e: Event, es: seq<Event>)
    requires Enabled(w, e) && CanRun(Next(w, e), es)
    ensures CanRun(w, [e] + es) && Run(w, [e] + es) == Run(Next(w, e), es)
    ensures !RestoresDoomed(w, e) && Careful(Next(w, e), es) ==> Careful(w, [e] + es)
  {
    assert ([e] + es)[1..] == es;
  }

  ghost predicate CanBeKilled(w: World) {
    exists es :: CanRun(w, es) && Careful(w, es) && ActiveIsKilled(Run(w, es))
  }

  lemma KilledThrough(w: World, e: Event)
    requires Enabled(w, e) && !RestoresDoomed(w, e) && CanBeKilled(Next(w, e))
    ensures CanBeKilled(w)
  {
    hide Enabled, Next, RestoresDoomed, ActiveIsKilled;
    var es :| CanRun(Next(w, e), es) && Careful(Next(w, e), es) && ActiveIsKilled(Run(Next(w, e), es));
    RunOne(w, e, es);
  }

  /** The kill that is still to run. */
  lemma PendingKill(w: World, box: Box) returns (e: Event)
    requires IsDoomed(w, box) && w.s.active.Some? && w.s.active.value in w.boxOf && w.boxOf[w.s.active.value] == box
    ensures Enabled(w, e) && !RestoresDoomed(w, e) && ActiveIsKilled(Next(w, e))
  {
    if box in w.discarding {
      e := Discard(box);
    } else {
      var b, env :| b in w.s.actors && env in w.boxOf && KillsEnv(w.s, b, env) && w.boxOf[env] == box;
      e := Step(Machine.Kill(b));
      assert env in Next(w, e).s.killed;
    }
  }

  lemma DoomedInHand(w: World, a: Actor, box: Box)
    requires Inv(w) && a in w.inHand && w.inHand[a] == box && IsDoomed(w, box)
    ensures CanBeKilled(w)
  {
    InHandAlone(w, a);
    assert Creates(w.s, a);
    var e := Step(Machine.Store(a));
    var t := Next(w, e);
    assert IsDoomed(t, box) by {
      if box !in w.discarding {
        var b, env :| b in w.s.actors && env in w.boxOf && KillsEnv(w.s, b, env) && w.boxOf[env] == box;
        assert KillsEnv(t.s, b, env) && t.boxOf[env] == box;
      }
    }
    var kill := PendingKill(t, box);
    hide Inv, IsDoomed, ActiveIsKilled;
    RunNone(Next(t, kill));
    KilledThrough(t, kill);
    KilledThrough(w, e);
  }

  lemma DoomedRestore(w: World, a: Actor, box: Box)
    requires Inv(w) && Enabled(w, Restore(a, box)) && IsDoomed(w, box)
    ensures CanBeKilled(Next(w, Restore(a, box)))
  {
    hide Inv;
    InvStep(w, Restore(a, box));
    DoomedInHand(Next(w, Restore(a, box)), a, box);
  }

  /** The environment made of a restored sandbox, or a later one, can have its sandbox killed while it is
      active, exactly when a spawned kill of the sandbox was still to run when it was restored. */
  lemma RestoredIsKilledIffDoomed(w: World, a: Actor, box: Box)
    requires Inv(w) && Clean(w) && Enabled(w, Restore(a, box))
    ensures CanBeKilled(Next(w, Restore(a, box))) <==> IsDoomed(w, box)
  {
    var t := Next(w, Restore(a, box));
    if IsDoomed(w, box) {
      DoomedRestore(w, a, box);
    } else {
      InvStep(w, Restore(a, box));
      OthersKeepClean(w, Restore(a, box));
      hide Inv, Clean;
      forall es | CanRun(t, es) && Careful(t, es) ensures !ActiveIsKilled(Run(t, es)) {
        CleanOverRuns(t, es);
        CleanIsLive(Run(t, es));
      }
    }
  }

  /* It happens: a run from the start in which a sandbox is restored between its reap and its kill. */

  ghost predicate Reaches(w: World, t: World) {
    exists es :: CanRun(w, es) && Run(w, es) == t
  }

  lemma ReachesItself(w: World)
    ensures Reaches(w, w)
  {
    RunNone(w);
  }

  lemma ReachesThrough(w: World, e: Event, t: World)
    requires Enabled(w, e) && Reaches(Next(w, e), t)
    ensures Reaches(w, t)
  {
    var es :| CanRun(Next(w, e), es) && Run(Next(w, e), es) == t;
    RunOne(w, e, es);
  }

  /** After a first acquire: environment 0 with sandbox 0. */
  function Acquired(): World {
    World(Machine.State(Some(0), None, Some(0), {}, None, map[0 := Machine.Returned(Some(0))], 1, 1, {}, map[]),
          map[0 := 0], map[], {}, 1, {}, {})
  }

  /** The reaper has taken it away and spawned its kill. */
  function Reaped(): World {
    Acquired().(s := Acquired().s.(
      active := None, creation := None, actors := map[0 := Machine.Returned(Some(0)), 1 := Machine.Killing(0)]))
  }

  /** A second acquire asks the provider. */
  function Asking(): World {
    Reaped().(s := Reaped().s.(
      session := Some(Machine.Task(2)), creation := Some(1), taken := {1}, locks := 2,
      actors := Reaped().s.actors[2 := Machine.Creating(1)]))
  }

  lemma FirstHalfOfAcquire(w: World, a: Actor, lock: Machine.LockId, u: World)
    requires a !in w.s.actors && a !in w.inHand && w.s.guard.None? && w.s.session.None? && w.s.active.None?
    requires w.s.creation.None? && lock == w.s.locks && lock !in w.s.taken
    requires Reaches(w.(s := w.s.(session := Some(Machine.Task(a)), creation := Some(lock), taken := w.s.taken + {lock},
                                  locks := lock + 1, actors := w.s.actors[a := Machine.Creating(lock)])), u)
    ensures Reaches(w, u)
  {
    hide Reaches;
    var w1 := Next(w, Step(Machine.BeginAcquire(a)));
    var w2 := Next(w1, Step(Machine.TakeCreation(a)));
    var w3 := Next(w2, Step(Machine.TakeSession(a)));
    var w4 := Next(w3, Step(Machine.ReadActive(a, false)));
    assert w4.s.actors == w.s.actors[a := Machine.Creating(lock)];
    ReachesThrough(w3, Step(Machine.ReadActive(a, false)), u);
    ReachesThrough(w2, Step(Machine.TakeSession(a)), u);
    ReachesThrough(w1, Step(Machine.TakeCreation(a)), u);
    ReachesThrough(w, Step(Machine.BeginAcquire(a)), u);
  }

  lemma FirstAcquire(u: World)
    requires Reaches(Acquired(), u)
    ensures Reaches(INITIAL, u)
  {
    hide Reaches;
    var w := INITIAL.(s := INITIAL.s.(session := Some(Machine.Task(0)), creation := Some(0), taken := {0}, locks := 1,
                                      actors := map[0 := Machine.Creating(0)]));
    var w1 := Next(w, Make(0));
    var w2 := Next(w1, Step(Machine.Store(0)));
    var w3 := Next(w2, Step(Machine.DropSession(0)));
    var w4 := Next(w3, Step(Machine.DropCreation(0)));
    assert w4 == Acquired();
    ReachesThrough(w3, Step(Machine.DropCreation(0)), u);
    ReachesThrough(w2, Step(Machine.DropSession(0)), u);
    ReachesThrough(w1, Step(Machine.Store(0)), u);
    ReachesThrough(w, Make(0), u);
    assert {} + {0} == {0} && INITIAL.s.actors[0 := Machine.Creating(0)] == map[0 := Machine.Creating(0)];
    FirstHalfOfAcquire(INITIAL, 0, 0, u);
  }

  lemma Reap(u: World)
    requires Reaches(Reaped(), u)
    ensures Reaches(Acquired(), u)
  {
    hide Reaches;
    var w1 := Next(Acquired(), Step(Machine.ReapScan(1)));
    var w2 := Next(w1, Step(Machine.ReapDecides(1, true)));
    assert w2 == Reaped();
    ReachesThrough(w1, Step(Machine.ReapDecides(1, true)), u);
    ReachesThrough(Acquired(), Step(Machine.ReapScan(1)), u);
  }

  /** The provider may hand out the sandbox of the reaped environment, whose kill is still to run. */
  lemma DoomedRestoreHappens()
    ensures Reaches(INITIAL, Asking()) && Enabled(Asking(), Restore(2, 0)) && IsDoomed(Asking(), 0)
  {
    ReachesItself(Asking());
    assert {} + {1} == {1};
    FirstHalfOfAcquire(Reaped(), 2, 1, Asking());
    Reap(Asking());
    FirstAcquire(Asking());
    assert KillsEnv(Asking().s, 1, 0);
  }
}
