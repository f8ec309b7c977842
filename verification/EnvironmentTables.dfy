/** The tables of `EnvironmentManager` in private_gpt/components/environment/manager.py for all
    sessions, changed by stretches of code that no other task interrupts. Each is a step of the state
    machine of one session. */
module EnvironmentTables {
  import opened Wrappers
  import Machine = EnvironmentManager

  type Session = string
  type Env = Machine.Env
  type LockId = Machine.LockId

  function Get<V>(table: map<Session, V>, session: Session): Option<V> {
    if session in table then Some(table[session]) else None
  }

  /** The tables show the state of one session. */
  predicate Shows(active: map<Session, Env>, creationLocks: map<Session, LockId>, session: Session, s: Machine.State) {
    s.active == Get(active, session) && s.creation == Get(creationLocks, session)
  }

  /** The tables are as after the event, for the session it is about. */
  ghost predicate IsStep(active0: map<Session, Env>, creation0: map<Session, LockId>, active1: map<Session, Env>,
                         creation1: map<Session, LockId>, session: Session, e: Machine.Event) {
    && (forall s: Machine.State | Machine.Enabled(s, e) && Shows(active0, creation0, session, s) ::
          Shows(active1, creation1, session, Machine.Next(s, e)))
    && SameElsewhere(active0, creation0, active1, creation1, {session})
  }

  ghost predicate SameElsewhere(active0: map<Session, Env>, creation0: map<Session, LockId>, active1: map<Session, Env>,
                                creation1: map<Session, LockId>, sessions: set<Session>) {
    active0 - sessions == active1 - sessions && creation0 - sessions == creation1 - sessions
  }

  class EnvironmentManager {
    var active: map<Session, Env>
    var creationLocks: map<Session, LockId>
    var spawnedKills: seq<Env>

    constructor ()
      ensures active == map[] && creationLocks == map[] && spawnedKills == []
    {
      active, creationLocks, spawnedKills := map[], map[], [];
    }

    /** release, up to the kill it spawns for `popped`. */
    method Release(session: Session, ghost a: Machine.Actor) returns (popped: Option<Env>)
      modifies this
      ensures popped == Get(old(active), session)
      ensures IsStep(old(active), old(creationLocks), active, creationLocks, session, Machine.Release(a))
      ensures spawnedKills == old(spawnedKills)
    {
      popped := Get(active, session);
      active := active - {session};
      creationLocks := creationLocks - {session};
    }

    /** _create's last step. */
    method Store(session: Session, env: Env, ghost a: Machine.Actor)
      modifies this
      ensures
        forall s: Machine.State
          | Machine.Enabled(s, Machine.Store(a)) && s.envs == env
            && Shows(old(active), old(creationLocks), session, s) ::
          Shows(active, creationLocks, session, Machine.Next(s, Machine.Store(a)))
      ensures SameElsewhere(old(active), old(creationLocks), active, creationLocks, {session})
      ensures spawnedKills == old(spawnedKills)
    {
      active := active[session := env];
    }

    /** _release_and_kill with the session lock held: whether env is still to be killed. */
    method ReleaseDecides(session: Session, env: Env, ghost a: Machine.Actor) returns (kill: bool)
      ensures kill <==> session !in active || active[session] == env
      ensures
        forall s: Machine.State
          | Machine.Enabled(s, Machine.ReleaseDecides(a)) && Shows(active, creationLocks, session, s)
            && s.actors[a].env == env && env !in s.killed ::
          (env in Machine.Next(s, Machine.ReleaseDecides(a)).killed <==> kill)
    {
      var current := Get(active, session);
      kill := !(current.Some? && current.value != env);
    }

    /** _reap_once when no other task runs in between. `idle`: sessions idle past the TTL on this process's
        clock; `recent`: sessions another process used within the TTL. */
    method ReapOnce(order: seq<Session>, idle: set<Session>, recent: set<Session>)
      requires forall x :: x in order <==> x in active
      requires forall i, j | 0 <= i < j < |order| :: order[i] != order[j]
      modifies this
      ensures active == old(active) - (idle - recent)
      ensures creationLocks == old(creationLocks) - ((idle - recent) * old(active).Keys)
      ensures spawnedKills == old(spawnedKills) + Envs(old(active), Expired(order, idle, recent))
    {
      hide Expired, Envs, Reaped;
      ghost var was, locks := active, creationLocks;
      var expired: seq<Env> := [];
      ReapedNone(was, locks, idle, recent);
      assert order[..0] == [];
      for i := 0 to |order|
        invariant Reaped(was, locks, order[..i], idle, recent, active, creationLocks)
        invariant expired == Envs(was, Expired(order[..i], idle, recent))
        invariant spawnedKills == old(spawnedKills)
      {
        var session := order[i];
        ExpiredStep(order, i, idle, recent);
        assert order[i] !in order[..i];
        assert session in was && order[..i + 1] == order[..i] + [session];
        ReapedHas(was, locks, order[..i], idle, recent, active, creationLocks, session);
        if session in idle && session !in recent {
          EnvsStep(was, Expired(order[..i], idle, recent), session);
          expired := expired + [active[session]];
          active := active - {session};
          creationLocks := creationLocks - {session};
        }
      }
      assert order[..|order|] == order;
      ExpiredAre(order, idle, recent);
      ReapedAll(was, locks, order, idle, recent, active, creationLocks);
      spawnedKills := spawnedKills + expired;
    }
  }

  /** Sessions that go, in the order of the table. */
  function Expired(order: seq<Session>, idle: set<Session>, recent: set<Session>): (r: seq<Session>) {
    if order == [] then []
    else
      var n := |order| - 1;
      Expired(order[..n], idle, recent) + (if order[n] in idle && order[n] !in recent then [order[n]] else [])
  }

  function Envs(active: map<Session, Env>, sessions: seq<Session>): seq<Env> {
    if sessions == [] then []
    else
      var n := |sessions| - 1;
      Envs(active, sessions[..n]) + (if sessions[n] in active then [active[sessions[n]]] else [])
  }

  lemma EnvsStep(active: map<Session, Env>, sessions: seq<Session>, x: Session)
    requires x in active
    ensures Envs(active, sessions + [x]) == Envs(active, sessions) + [active[x]]
  {
    assert (sessions + [x])[..|sessions|] == sessions;
  }

  lemma ExpiredStep(order: seq<Session>, i: nat, idle: set<Session>, recent: set<Session>)
    requires i < |order|
    ensures Expired(order[..i + 1], idle, recent)
         == if order[i] in idle && order[i] !in recent then Expired(order[..i], idle, recent) + [order[i]]
            else Expired(order[..i], idle, recent)
  {
    assert order[..i + 1][..i] == order[..i];
  }

  lemma {:induction false} ExpiredAre(order: seq<Session>, idle: set<Session>, recent: set<Session>)
    ensures forall x :: x in Expired(order, idle, recent) <==> x in order && x in idle && x !in recent
  {
    if order != [] {
      var n := |order| - 1;
      ExpiredAre(order[..n], idle, recent);
      assert order == order[..n] + [order[n]];
    }
  }

  ghost predicate Reaped(was: map<Session, Env>, locks: map<Session, LockId>, done: seq<Session>,
                         idle: set<Session>, recent: set<Session>,
                         active: map<Session, Env>, creationLocks: map<Session, LockId>) {
    var gone := set x | x in done && x in idle && x !in recent;
    active == was - gone && creationLocks == locks - gone
  }

  lemma ReapedNone(was: map<Session, Env>, locks: map<Session, LockId>, idle: set<Session>, recent: set<Session>)
    ensures Reaped(was, locks, [], idle, recent, was, locks) && Envs(was, Expired([], idle, recent)) == []
  {
  }

  lemma ReapedHas(was: map<Session, Env>, locks: map<Session, LockId>, done: seq<Session>,
                  idle: set<Session>, recent: set<Session>,
                  active: map<Session, Env>, creationLocks: map<Session, LockId>, x: Session)
    requires Reaped(was, locks, done, idle, recent, active, creationLocks) && x in was && x !in done
    ensures x in active && active[x] == was[x]
    ensures if x in idle && x !in recent
            then Reaped(was, locks, done + [x], idle, recent, active - {x}, creationLocks - {x})
            else Reaped(was, locks, done + [x], idle, recent, active, creationLocks)
  {
    var gone := set y | y in done && y in idle && y !in recent;
    var more := set y | y in done + [x] && y in idle && y !in recent;
    assert (done + [x])[|done|] == x;
    assert more == if x in idle && x !in recent then gone + {x} else gone;
  }

  lemma ReapedAll(was: map<Session, Env>, locks: map<Session, LockId>, order: seq<Session>,
                  idle: set<Session>, recent: set<Session>,
                  active: map<Session, Env>, creationLocks: map<Session, LockId>)
    requires Reaped(was, locks, order, idle, recent, active, creationLocks) && forall x :: x in order <==> x in was
    ensures active == was - (idle - recent) && creationLocks == locks - ((idle - recent) * was.Keys)
  {
    assert (set x | x in order && x in idle && x !in recent) == (idle - recent) * was.Keys;
  }
}
