/** What an acquire hands out, told by the history of its run: what it read, whether it reused that, what
    it stored, or that its creation failed. */
module EnvironmentOutcomes {
  import opened Wrappers
  import opened EnvironmentManager

  /** The entry of the session that a task read, and whether its mounts or variables had changed. */
  datatype Read = Read(active: Option<Env>, changed: bool)

  /** `stored`: the entry of the session right after the task stored its environment. */
  datatype History = History(
    seen: map<Actor, Read>, reused: set<Actor>, stored: map<Actor, Option<Env>>, failed: set<Actor>)

  function Noted(h: History, e: Event, before: State, after: State): History {
    match e
    case ReadActive(a, changed) => h.(seen := h.seen[a := Read(before.active, changed)])
    case Reuse(a) => h.(reused := h.reused + {a})
    case Store(a) => h.(stored := h.stored[a := after.active])
    case CreateFails(a) => h.(failed := h.failed + {a})
    case _ => h
  }

  function HistoryOf(s: State, h: History, es: seq<Event>): History
    requires CanRun(s, es)
    decreases |es|
  {
    if es == [] then h else HistoryOf(Next(s, es[0]), Noted(h, es[0], s, Next(s, es[0])), es[1..])
  }

  const NO_HISTORY := History(map[], {}, map[], {})

  /** The task has not come to a result. */
  predicate Undecided(h: History, a: Actor) {
    a !in h.reused && a !in h.stored && a !in h.failed
  }

  /** The result of a task that is done with its environment. */
  predicate HasResult(p: Phase) {
    p.Leaving? || p.Dropping? || p.Returned?
  }

  /** The result is what the task read unchanged and reused, or else what it stored, which is not what it
      read, or else nothing because its creation failed. */
  predicate Told(h: History, a: Actor, result: Option<Env>) {
    a in h.seen
    && if a in h.reused then
         a !in h.stored && a !in h.failed && result.Some? && h.seen[a] == Read(result, false)
       else if a in h.stored then
         a !in h.failed && result.Some? && h.stored[a] == result && h.seen[a].active != result
       else a in h.failed && result.None?
  }

  ghost predicate Outcome(s: State, h: History, a: Actor)
    requires In(s, a)
  {
    var p := s.actors[a];
    if HasResult(p) then Told(h, a, p.result)
    else
      && Undecided(h, a)
      && (p.Using? ==> a in h.seen && h.seen[a] == Read(Some(p.env), p.changed))
      && (p.Creating? ==> a in h.seen)
  }

  ghost predicate Outcomes(s: State, h: History) {
    && (forall a | In(s, a) :: Outcome(s, h, a))
    && (forall a | !In(s, a) :: Undecided(h, a) && a !in h.seen)
    && (forall a | a in h.seen && h.seen[a].active.Some? :: h.seen[a].active.value < s.envs)
  }

  lemma OutcomeStep(s: State, h: History, e: Event, a: Actor)
    requires Outcomes(s, h) && Enabled(s, e) && In(Next(s, e), a)
    ensures Outcome(Next(s, e), Noted(h, e, s, Next(s, e)), a)
  {
    if In(s, a) {
      assert Outcome(s, h, a);
    } else {
      assert Undecided(h, a);
    }
  }

  lemma OutcomesStep(s: State, h: History, e: Event)
    requires DutiesAreOld(s) && Outcomes(s, h) && Enabled(s, e)
    ensures Outcomes(Next(s, e), Noted(h, e, s, Next(s, e)))
  {
    hide Outcome;
    var t := Next(s, e);
    var g := Noted(h, e, s, t);
    forall a | In(t, a) ensures Outcome(t, g, a) {
      OutcomeStep(s, h, e, a);
    }
    forall a | !In(t, a) ensures Undecided(g, a) && a !in g.seen {
      assert !In(s, a);
    }
    forall a | a in g.seen && g.seen[a].active.Some? ensures g.seen[a].active.value < t.envs {
      assert a in h.seen && h.seen[a].active.Some? ==> h.seen[a].active.value < s.envs;
    }
  }

  lemma {:induction false} OutcomesOverRuns(s: State, h: History, es: seq<Event>)
    requires Inv(s) && Outcomes(s, h) && CanRun(s, es)
    ensures Outcomes(Run(s, es), HistoryOf(s, h, es))
    decreases |es|
  {
    hide DutiesAreOld, Outcomes, Enabled, Next, Noted;
    if es != [] {
      InvStep(s, es[0]);
      OutcomesStep(s, h, es[0]);
      OutcomesOverRuns(Next(s, es[0]), Noted(h, es[0], s, Next(s, es[0])), es[1..]);
    }
  }

  /** In every run: an acquire that reuses hands out the environment it read unchanged, one that stores
      hands out what it stored, which is never what it read, and one hands out nothing exactly when its
      creation failed. */
  lemma AcquireHandsOut(es: seq<Event>, a: Actor)
    requires CanRun(INITIAL, es) && In(Run(INITIAL, es), a) && Run(INITIAL, es).actors[a].Returned?
    ensures var result, h := Run(INITIAL, es).actors[a].result, HistoryOf(INITIAL, NO_HISTORY, es);
            && a in h.seen
            && (a in h.reused ==> result.Some? && h.seen[a] == Read(result, false))
            && (a in h.stored ==> result.Some? && h.stored[a] == result)
            && (a in h.failed <==> result.None?)
            && (a in h.reused || a in h.stored || a in h.failed)
            && (h.seen[a].changed && h.seen[a].active.Some? ==> result != h.seen[a].active)
  {
    OutcomesOverRuns(INITIAL, NO_HISTORY, es);
    assert Outcome(Run(INITIAL, es), HistoryOf(INITIAL, NO_HISTORY, es), a);
  }
}
