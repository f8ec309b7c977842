/** What becomes of every sandbox that was made, and that changed mounts lead to a fresh one. */
module SandboxFates {
  import opened Wrappers
  import opened EnvironmentSandboxes
  import Machine = EnvironmentManager

  lemma {:induction false} InvOverRuns(w: World, es: seq<Event>)
    requires Inv(w) && CanRun(w, es)
    ensures Inv(Run(w, es))
    decreases |es|
  {
    hide Inv, Enabled, Next;
    if es != [] {
      InvStep(w, es[0]);
      InvOverRuns(Next(w, es[0]), es[1..]);
    }
  }

  /** A task has the sandbox in hand, or its set-up failed and it is to be killed or was, or it became an
      environment's. */
  ghost predicate HasFate(w: World, box: Box) {
    || (exists a :: a in w.inHand && w.inHand[a] == box)
    || box in w.discarding || box in w.discarded
    || (exists env :: env in w.boxOf && w.boxOf[env] == box)
  }

  lemma FateStep(w: World, e: Event, box: Box)
    requires Numbered(w) && Enabled(w, e) && box < Next(w, e).boxes && (box < w.boxes ==> HasFate(w, box))
    ensures HasFate(Next(w, e), box)
  {
    hide Machine.Next, Machine.Enabled;
    var t := Next(w, e);
    if box == w.boxes {
      assert t.inHand[e.a] == box;
    } else if a :| a in w.inHand && w.inHand[a] == box {
      if e.Step? && e.e.Store? && e.e.a == a {
        assert t.boxOf[w.s.envs] == box;
      } else {
        assert (a in t.inHand && t.inHand[a] == box) || box in t.discarding;
      }
    } else if env :| env in w.boxOf && w.boxOf[env] == box {
      assert env in t.boxOf && t.boxOf[env] == box;
    }
  }

  lemma {:induction false} FatesOverRuns(w: World, es: seq<Event>, box: Box)
    requires Inv(w) && CanRun(w, es) && box < Run(w, es).boxes && (box < w.boxes ==> HasFate(w, box))
    ensures HasFate(Run(w, es), box)
    decreases |es|
  {
    hide Enabled, Next, HasFate, Machine.Inv, Machine.ActiveIsLive, ReaperAlone, Numbered;
    if es != [] {
      InvStep(w, es[0]);
      if box < Next(w, es[0]).boxes { FateStep(w, es[0], box); }
      FatesOverRuns(Next(w, es[0]), es[1..], box);
    }
  }

  lemma InitiallyInv()
    ensures Inv(INITIAL) && INITIAL.boxes == 0
  {
  }

  /** In every run, each sandbox made is in a task's hand, or its set-up failed and its kill is to come or was
      issued, or it is the sandbox of an environment that is active, killed, owed a kill, or was skipped for a
      newer one. */
  lemma NoSandboxIsLost(es: seq<Event>, box: Box)
    requires CanRun(INITIAL, es) && box < Run(INITIAL, es).boxes
    ensures var t := Run(INITIAL, es);
            || (exists a :: a in t.inHand && t.inHand[a] == box)
            || box in t.discarding || box in t.discarded
            || (exists env :: env in t.boxOf && t.boxOf[env] == box && Machine.Accounted(t.s, env))
  {
    hide CanRun, Run, Enabled, Next, Machine.Accounted;
    InitiallyInv();
    InvOverRuns(INITIAL, es);
    FatesOverRuns(INITIAL, es, box);
    var t := Run(INITIAL, es);
    if env :| env in t.boxOf && t.boxOf[env] == box {
      assert Machine.Accounted(t.s, env);
    }
  }

  /** What the task has in hand was made later. */
  ghost predicate OnlyNew(w: World, a: Actor, boxes: nat) {
    a in w.forced && boxes <= w.boxes && (a in w.inHand ==> boxes <= w.inHand[a])
  }

  lemma {:induction false} StaysNew(w: World, es: seq<Event>, a: Actor, boxes: nat)
    requires OnlyNew(w, a, boxes) && CanRun(w, es)
    ensures OnlyNew(Run(w, es), a, boxes)
    decreases |es|
  {
    hide Machine.Next, Machine.Enabled;
    if es != [] {
      StaysNew(Next(w, es[0]), es[1..], a, boxes);
    }
  }

  /** In every run, an acquire that replaced the environment stores one with a sandbox that did not exist when it
      did so. */
  lemma ReplacedIsFresh(es: seq<Event>, a: Actor, more: seq<Event>)
    requires CanRun(INITIAL, es) && Enabled(Run(INITIAL, es), Step(Machine.Replace(a)))
    requires CanRun(Next(Run(INITIAL, es), Step(Machine.Replace(a))), more)
    requires Enabled(Run(Next(Run(INITIAL, es), Step(Machine.Replace(a))), more), Step(Machine.Store(a)))
    ensures var w := Run(INITIAL, es);
            var t := Next(Run(Next(w, Step(Machine.Replace(a))), more), Step(Machine.Store(a)));
            && t.s.active.Some? && t.s.active.value in t.boxOf
            && w.boxes <= t.boxOf[t.s.active.value] && forall env | env in w.boxOf :: w.boxOf[env] < w.boxes
  {
    hide CanRun, Run;
    InitiallyInv();
    InvOverRuns(INITIAL, es);
    var w := Run(INITIAL, es);
    StaysNew(Next(w, Step(Machine.Replace(a))), more, a, w.boxes);
  }
}
