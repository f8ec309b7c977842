/** The in-process session lock of private_gpt/components/environment/distributed.py. */
module SessionLock {
  type Task = nat
  type Owner = string
  type Key = string

  class FallbackLocks {
    var locks: map<Key, Owner>

    constructor ()
      ensures locks == map[]
    {
      locks := map[];
    }

    /** One attempt of the retry loop, under the guard. */
    method TryAcquire(key: Key, owner: Owner) returns (acquired: bool)
      modifies this
      ensures acquired <==> key !in old(locks)
      ensures locks == Tried(old(locks), key, owner)
    {
      if key !in locks {
        locks := locks[key := owner];
        return true;
      }
      return false;
    }

    method Release(key: Key, owner: Owner)
      modifies this
      ensures locks == Dropped(old(locks), key, owner)
    {
      if key in locks && locks[key] == owner {
        locks := locks - {key};
      }
    }
  }

  function Tried(locks: map<Key, Owner>, key: Key, owner: Owner): map<Key, Owner> {
    if key in locks then locks else locks[key := owner]
  }

  function Dropped(locks: map<Key, Owner>, key: Key, owner: Owner): map<Key, Owner> {
    if key in locks && locks[key] == owner then locks - {key} else locks
  }

  /** Tasks with the owner they present; all tasks of one process present the same. A block begins
      with an attempt and, having the lock, ends by dropping it. */
  datatype Event = Attempt(task: Task, key: Key, owner: Owner) | Leave(task: Task)

  datatype Holding = Holding(key: Key, owner: Owner)

  datatype State = State(locks: map<Key, Owner>, holders: map<Task, Holding>)

  predicate Enabled(s: State, e: Event) {
    match e
    case Attempt(t, _, _) => t !in s.holders
    case Leave(t) => t in s.holders
  }

  function Next(s: State, e: Event): State
    requires Enabled(s, e)
  {
    match e
    case Attempt(t, key, owner) =>
      State(Tried(s.locks, key, owner), if key in s.locks then s.holders else s.holders[t := Holding(key, owner)])
    case Leave(t) => State(Dropped(s.locks, s.holders[t].key, s.holders[t].owner), s.holders - {t})
  }

  ghost predicate CanRun(s: State, es: seq<Event>)
    decreases |es|
  {
    es == [] || (Enabled(s, es[0]) && CanRun(Next(s, es[0]), es[1..]))
  }

  function Run(s: State, es: seq<Event>): State
    requires CanRun(s, es)
    decreases |es|
  {
    if es == [] then s else Run(Next(s, es[0]), es[1..])
  }

  /** A key is locked exactly while one task holds it, by that task's owner. */
  ghost predicate Exclusive(s: State) {
    && (forall t | t in s.holders ::
        s.holders[t].key in s.locks && s.locks[s.holders[t].key] == s.holders[t].owner)
    && (forall t, u | t in s.holders && u in s.holders && s.holders[t].key == s.holders[u].key :: t == u)
    && (forall k | k in s.locks :: exists t :: t in s.holders && s.holders[t].key == k)
  }

  lemma ExclusiveStep(s: State, e: Event)
    requires Exclusive(s) && Enabled(s, e)
    ensures Exclusive(Next(s, e))
  {
    var next := Next(s, e);
    forall k | k in next.locks ensures exists t ::
        t in next.holders && next.holders[t].key == k {
      if k in s.locks {
        var t :| t in s.holders && s.holders[t].key == k;
        assert t in next.holders;
      } else {
        assert next.holders[e.task].key == k;
      }
    }
  }

  lemma {:induction false} RunMore(s: State, es: seq<Event>, e: Event)
    requires CanRun(s, es) && Enabled(Run(s, es), e)
    ensures CanRun(s, es + [e]) && Run(s, es + [e]) == Next(Run(s, es), e)
    decreases |es|
  {
    if es == [] {
      assert es + [e] == [e] && CanRun(Next(s, e), []);
    } else {
      assert (es + [e])[1..] == es[1..] + [e];
      RunMore(Next(s, es[0]), es[1..], e);
    }
  }

  /** After any run, once the holder of a session leaves, the next attempt of another task gets it. */
  lemma HandedOn(s: State, es: seq<Event>, t: Task, u: Task, key: Key, owner: Owner)
    requires Exclusive(s) && CanRun(s, es) && t != u
    requires var r := Run(s, es);
             t in r.holders && r.holders[t].key == key && u !in r.holders
    ensures CanRun(s, es + [Leave(t)] + [Attempt(u, key, owner)])
    ensures var r := Run(s, es + [Leave(t)] + [Attempt(u, key, owner)]);
            u in r.holders && r.holders[u] == Holding(key, owner) && t !in r.holders
  {
    LockExcludes(s, es);
    RunMore(s, es, Leave(t));
    RunMore(s, es + [Leave(t)], Attempt(u, key, owner));
  }

  /** In every run at most one task holds a session's lock, although all tasks of a process present the
      same owner, and the lock is free again once that task leaves. */
  lemma {:induction false} LockExcludes(s: State, es: seq<Event>)
    requires Exclusive(s) && CanRun(s, es)
    ensures Exclusive(Run(s, es))
    decreases |es|
  {
    if es != [] {
      ExclusiveStep(s, es[0]);
      LockExcludes(Next(s, es[0]), es[1..]);
    }
  }
}
